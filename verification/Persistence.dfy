/** Write-then-rename saves of the state file, with overlapping saves, failing writes,
    sweeps and a crash at any point. */
module Persistence {
  import opened Whitespace
  import opened Wrappers

  // ---------- file names ----------

  const STATE := "edge-worker-state.json"

  function Digit(n: nat): char
    requires n < 10
  {
    ['0', '1', '2', '3', '4', '5', '6', '7', '8', '9'][n]
  }

  function Decimal(n: nat): (s: string)
    ensures |s| >= 1
  {
    if n < 10 then [Digit(n)] else Decimal(n / 10) + [Digit(n % 10)]
  }

  lemma {:induction false} DecimalInjective(a: nat, b: nat)
    requires Decimal(a) == Decimal(b)
    ensures a == b
  {
    var s, t := Decimal(a), Decimal(b);
    assert s[|s| - 1] == Digit(a % 10) && t[|t| - 1] == Digit(b % 10);
    if a >= 10 && b >= 10 {
      assert s[..|s| - 1] == Decimal(a / 10) && t[..|t| - 1] == Decimal(b / 10);
      DecimalInjective(a / 10, b / 10);
    }
  }

  function TempName(pid: nat, counter: nat): string {
    STATE + "." + Decimal(pid) + "." + Decimal(counter) + ".tmp"
  }

  function CorruptName(stamp: nat): string {
    STATE + ".corrupt-" + Decimal(stamp)
  }

  predicate EndsWith(s: string, t: string) {
    |t| <= |s| && s[|s| - |t|..] == t
  }

  /** What the sweep at load time removes. */
  predicate StaleTemp(name: string) {
    name != STATE && STATE <= name && EndsWith(name, ".tmp")
  }

  lemma TempIsSwept(pid: nat, counter: nat)
    ensures StaleTemp(TempName(pid, counter))
  {
    var t := TempName(pid, counter);
    assert t == STATE + ("." + Decimal(pid) + "." + Decimal(counter) + ".tmp");
    assert t == (STATE + "." + Decimal(pid) + "." + Decimal(counter)) + ".tmp";
    assert |t| > |STATE|;
  }

  lemma CorruptIsKept(stamp: nat)
    ensures !StaleTemp(CorruptName(stamp)) && CorruptName(stamp) != STATE
  {
    var c := CorruptName(stamp);
    var d := Decimal(stamp);
    assert c[|c| - 1] == d[|d| - 1];
    assert d[|d| - 1] == Digit(stamp % 10);
    assert |c| > |STATE|;
    assert c[|c| - 4..][3] == c[|c| - 1] != 'p';
  }

  lemma TempsDiffer(pid: nat, c: nat, d: nat)
    requires TempName(pid, c) == TempName(pid, d)
    ensures c == d
  {
    var head := STATE + "." + Decimal(pid) + ".";
    var s, t := TempName(pid, c), TempName(pid, d);
    assert s == head + Decimal(c) + ".tmp" && t == head + Decimal(d) + ".tmp";
    assert s[|head|..|s| - 4] == Decimal(c) && t[|head|..|t| - 4] == Decimal(d);
    DecimalInjective(c, d);
  }

  /** Nor do two processes ever share a temp name. */
  lemma {:induction false} TempsOfProcessesDiffer(p: nat, c: nat, q: nat, d: nat)
    requires TempName(p, c) == TempName(q, d)
    ensures p == q && c == d
  {
    var s := TempName(p, c);
    var a, b := Decimal(p), Decimal(q);
    var x, y := a + "." + (Decimal(c) + ".tmp"), b + "." + (Decimal(d) + ".tmp");
    assert s == STATE + "." + x && s == STATE + "." + y;
    assert s[|STATE| + 1..] == x && s[|STATE| + 1..] == y;
    DecimalDotless(p);
    DecimalDotless(q);
    HeadsAgree(a, b, Decimal(c) + ".tmp", Decimal(d) + ".tmp");
    DecimalInjective(p, q);
    TempsDiffer(p, c, d);
  }

  lemma {:induction false} HeadsAgree(a: string, b: string, u: string, v: string)
    requires a + "." + u == b + "." + v
    ensures a == b || '.' in a || '.' in b
  {
    var s := a + "." + u;
    assert s[|a|] == '.' && s[|b|] == '.';
    assert s[..|a|] == a && s[..|b|] == b;
    if |a| < |b| {
      assert b[|a|] == '.';
    } else if |b| < |a| {
      assert a[|b|] == '.';
    }
  }

  lemma {:induction false} DecimalDotless(n: nat)
    ensures '.' !in Decimal(n)
  {
    if n >= 10 {
      DecimalDotless(n / 10);
    }
  }

  // ---------- saves as steps between awaits ----------

  datatype Phase = Begun | Writing | Written | Renamed | Failing | Thrown | Lost

  datatype Save = Save(text: string, temp: string, phase: Phase)

  type Files = map<string, string>

  datatype World = World(files: Files, saves: seq<Save>, pid: nat, counter: nat)

  datatype Step =
    | Begin(text: string)                  // a save is called; its temp name is fixed
    | Open(save: nat)                      // the temp file is created or truncated
    | Partial(save: nat, content: string)  // some bytes, in whatever order, reach the disk
    | Finish(save: nat)                    // the write completes
    | Fail(save: nat)                      // mkdir, write or rename throws
    | Rename(save: nat)
    | Unlink(save: nat, ok: bool)          // best-effort removal after a failure
    | Crash(pid: nat)                      // the process dies; a new one starts
    | Sweep(names: set<string>)            // a load removes stale temp files
    | Preserve(stamp: nat)                 // a load moves a corrupt state file aside
    | Clear                                // the state file is emptied in place

  predicate Live(p: Phase) {
    p == Begun || p == Writing || p == Written || p == Failing
  }

  function Put(w: World, i: nat, p: Phase): World
    requires i < |w.saves|
  {
    w.(saves := w.saves[i := w.saves[i].(phase := p)])
  }

  /** Bytes written to a removed file go nowhere. */
  function Write(f: Files, name: string, content: string): Files {
    if name in f then f[name := content] else f
  }

  function Remove(f: Files, names: set<string>): Files {
    f - names
  }

  function Die(saves: seq<Save>): (r: seq<Save>)
    ensures |r| == |saves|
    ensures forall i :: 0 <= i < |r| ==> r[i] == if Live(saves[i].phase) then saves[i].(phase := Lost) else saves[i]
  {
    if saves == [] then [] else
      [if Live(saves[0].phase) then saves[0].(phase := Lost) else saves[0]] + Die(saves[1..])
  }

  predicate Document(text: string, parses: string -> bool) {
    !Blank(text) && parses(text)
  }

  ghost predicate Enabled(w: World, s: Step, parses: string -> bool) {
    match s
    case Begin(text) => Document(text, parses)
    case Open(i) => i < |w.saves| && w.saves[i].phase == Begun
    case Partial(i, _) => i < |w.saves| && w.saves[i].phase == Writing
    case Finish(i) => i < |w.saves| && w.saves[i].phase == Writing
    case Fail(i) => i < |w.saves| && Live(w.saves[i].phase) && !w.saves[i].phase.Failing?
    case Rename(i) => i < |w.saves| && w.saves[i].phase == Written && w.saves[i].temp in w.files
    case Unlink(i, _) => i < |w.saves| && w.saves[i].phase == Failing
    case Crash(_) => true
    case Sweep(names) => forall n :: n in names ==> StaleTemp(n)
    case Preserve(_) => STATE in w.files && !Blank(w.files[STATE]) && !parses(w.files[STATE])
    case Clear => STATE in w.files
  }

  function Apply(w: World, s: Step): World {
    match s
    case Begin(text) =>
      w.(saves := w.saves + [Save(text, TempName(w.pid, w.counter), Begun)], counter := w.counter + 1)
    case Open(i) => if i < |w.saves| then Put(w.(files := w.files[w.saves[i].temp := ""]), i, Writing) else w
    case Partial(i, content) =>
      if i < |w.saves| then w.(files := Write(w.files, w.saves[i].temp, content)) else w
    case Finish(i) =>
      if i < |w.saves| then Put(w.(files := Write(w.files, w.saves[i].temp, w.saves[i].text)), i, Written) else w
    case Fail(i) => if i < |w.saves| then Put(w, i, Failing) else w
    case Rename(i) =>
      if i < |w.saves| && w.saves[i].temp in w.files then
        var t := w.saves[i].temp;
        Put(w.(files := Remove(w.files[STATE := w.files[t]], {t})), i, Renamed)
      else w
    case Unlink(i, ok) =>
      if i < |w.saves| then
        Put(if ok then w.(files := Remove(w.files, {w.saves[i].temp})) else w, i, Thrown)
      else w
    case Crash(pid) => World(w.files, Die(w.saves), pid, 0)
    case Sweep(names) => w.(files := Remove(w.files, names))
    case Preserve(stamp) =>
      if STATE in w.files then
        w.(files := Remove(w.files[CorruptName(stamp) := w.files[STATE]], {STATE}))
      else w
    case Clear => w.(files := Write(w.files, STATE, ""))
  }

  function Run(w: World, ss: seq<Step>): World {
    if ss == [] then w else Apply(Run(w, ss[..|ss| - 1]), ss[|ss| - 1])
  }

  ghost predicate Legal(w: World, ss: seq<Step>, parses: string -> bool) {
    ss == [] ||
    (Legal(w, ss[..|ss| - 1], parses) && Enabled(Run(w, ss[..|ss| - 1]), ss[|ss| - 1], parses))
  }

  // ---------- what the state file must hold, from the steps alone ----------

  function Texts(ss: seq<Step>): seq<string> {
    if ss == [] then [] else
      Texts(ss[..|ss| - 1]) + if ss[|ss| - 1].Begin? then [ss[|ss| - 1].text] else []
  }

  /** The text of the last save renamed, unless cleared or moved aside since. */
  function LastDocument(start: Option<string>, ss: seq<Step>): Option<string> {
    if ss == [] then start else
      var front, last := ss[..|ss| - 1], ss[|ss| - 1];
      match last
      case Rename(i) => if i < |Texts(front)| then Some(Texts(front)[i]) else LastDocument(start, front)
      case Clear => Some("")
      case Preserve(_) => None
      case _ => LastDocument(start, front)
  }

  function StateFile(f: Files): Option<string> {
    if STATE in f then Some(f[STATE]) else None
  }

  // ---------- the invariant ----------

  /** A live save has a temp name of this process with a counter already used. */
  ghost predicate Owns(w: World, s: Save) {
    exists c: nat :: c < w.counter && s.temp == TempName(w.pid, c)
  }

  /** No two live saves share a temp file, and what a live save has written whole is
      still whole, unless it was swept away. */
  ghost predicate SavesApart(w: World) {
    && (forall i :: 0 <= i < |w.saves| && Live(w.saves[i].phase) ==> Owns(w, w.saves[i]))
    && (forall i, j :: 0 <= i < j < |w.saves| && Live(w.saves[i].phase) && Live(w.saves[j].phase) ==>
          w.saves[i].temp != w.saves[j].temp)
    && (forall i :: 0 <= i < |w.saves| && w.saves[i].phase == Written && w.saves[i].temp in w.files ==>
          w.files[w.saves[i].temp] == w.saves[i].text)
  }

  lemma LiveIsTemp(w: World, i: nat)
    requires SavesApart(w) && i < |w.saves| && Live(w.saves[i].phase)
    ensures StaleTemp(w.saves[i].temp)
  {
    var c: nat :| c < w.counter && w.saves[i].temp == TempName(w.pid, c);
    TempIsSwept(w.pid, c);
  }

  lemma BeginApart(w: World, text: string)
    requires SavesApart(w)
    ensures SavesApart(Apply(w, Begin(text)))
  {
    var v := Apply(w, Begin(text));
    var n := |w.saves|;
    hide TempName;
    assert Owns(v, v.saves[n]);
    forall i | 0 <= i < n && Live(v.saves[i].phase)
      ensures Owns(v, v.saves[i]) && v.saves[i].temp != v.saves[n].temp
    {
      assert Owns(w, w.saves[i]);
      var c: nat :| c < w.counter && w.saves[i].temp == TempName(w.pid, c);
      if TempName(w.pid, c) == TempName(w.pid, w.counter) {
        TempsDiffer(w.pid, c, w.counter);
      }
    }
  }

  /** A step of one save changes only its own phase and its own temp file. */
  lemma OneSaveApart(w: World, i: nat, p: Phase, f: Files)
    requires SavesApart(w) && i < |w.saves| && Live(w.saves[i].phase)
    requires forall n :: n != w.saves[i].temp && StaleTemp(n) && n in f ==> n in w.files && f[n] == w.files[n]
    requires p == Written && w.saves[i].temp in f ==> f[w.saves[i].temp] == w.saves[i].text
    ensures SavesApart(Put(w.(files := f), i, p))
  {
    var v := Put(w.(files := f), i, p);
    hide StaleTemp, TempName;
    forall j | 0 <= j < |v.saves| && Live(v.saves[j].phase)
      ensures Owns(v, v.saves[j])
    {
      assert Owns(w, w.saves[j]);
    }
    forall j | 0 <= j < |v.saves| && v.saves[j].phase == Written && v.saves[j].temp in v.files
      ensures v.files[v.saves[j].temp] == v.saves[j].text
    {
      if j != i {
        LiveIsTemp(w, j);
        assert w.saves[j].temp != w.saves[i].temp;
      }
    }
  }

  /** Steps that touch no live save's temp file, except to remove it. */
  lemma OthersApart(w: World, f: Files)
    requires SavesApart(w)
    requires forall n :: StaleTemp(n) && n in f ==> n in w.files && f[n] == w.files[n]
    ensures SavesApart(w.(files := f))
  {
    var v := w.(files := f);
    hide StaleTemp, TempName;
    forall j | 0 <= j < |v.saves| && Live(v.saves[j].phase)
      ensures Owns(v, v.saves[j])
    {
      assert Owns(w, w.saves[j]);
    }
    forall j | 0 <= j < |v.saves| && v.saves[j].phase == Written && v.saves[j].temp in v.files
      ensures v.files[v.saves[j].temp] == v.saves[j].text
    {
      LiveIsTemp(w, j);
    }
  }

  lemma {:induction false} StepApart(w: World, s: Step, parses: string -> bool)
    requires SavesApart(w) && Enabled(w, s, parses)
    ensures SavesApart(Apply(w, s))
  {
    assert !StaleTemp(STATE);
    match s
    case Begin(text) => BeginApart(w, text);
    case Open(i) => OneSaveApart(w, i, Writing, w.files[w.saves[i].temp := ""]);
    case Partial(i, content) =>
      OneSaveApart(w, i, Writing, Write(w.files, w.saves[i].temp, content));
      assert w.saves[i := w.saves[i].(phase := Writing)] == w.saves;
    case Finish(i) => OneSaveApart(w, i, Written, Write(w.files, w.saves[i].temp, w.saves[i].text));
    case Fail(i) => OneSaveApart(w, i, Failing, w.files);
    case Rename(i) =>
      var t := w.saves[i].temp;
      OneSaveApart(w, i, Renamed, Remove(w.files[STATE := w.files[t]], {t}));
    case Unlink(i, ok) =>
      OneSaveApart(w, i, Thrown, if ok then Remove(w.files, {w.saves[i].temp}) else w.files);
    case Crash(pid) =>
    case Sweep(names) => OthersApart(w, Remove(w.files, names));
    case Preserve(stamp) =>
      CorruptIsKept(stamp);
      OthersApart(w, Remove(w.files[CorruptName(stamp) := w.files[STATE]], {STATE}));
    case Clear => OthersApart(w, Write(w.files, STATE, ""));
  }

  /** How one step changes the state file. */
  lemma StepStateFile(w: World, s: Step, parses: string -> bool)
    requires SavesApart(w) && Enabled(w, s, parses)
    ensures StateFile(Apply(w, s).files) ==
            if s.Rename? then Some(w.saves[s.save].text)
            else if s.Clear? then Some("")
            else if s.Preserve? then None
            else StateFile(w.files)
  {
    assert !StaleTemp(STATE);
    match s
    case Begin(_) =>
    case Crash(_) =>
    case Sweep(names) =>
    case Clear =>
    case Preserve(stamp) => CorruptIsKept(stamp);
    case _ => LiveIsTemp(w, s.save);
  }

  /** For every run, whatever the overlaps, failures, sweeps and crashes: the state file
      holds exactly the whole text of the last save that was renamed into place. */
  lemma {:induction false} FileIsLastRename(w: World, ss: seq<Step>, parses: string -> bool)
    requires w.saves == [] && Legal(w, ss, parses)
    ensures SavesApart(Run(w, ss))
    ensures StateFile(Run(w, ss).files) == LastDocument(StateFile(w.files), ss)
    ensures |Run(w, ss).saves| == |Texts(ss)|
    ensures forall i :: 0 <= i < |Texts(ss)| ==> Run(w, ss).saves[i].text == Texts(ss)[i]
  {
    if ss != [] {
      var front, last := ss[..|ss| - 1], ss[|ss| - 1];
      FileIsLastRename(w, front, parses);
      var v := Run(w, front);
      StepApart(v, last, parses);
      StepStateFile(v, last, parses);
      SaveTexts(v, last);
      hide SavesApart, Apply;
      assert !last.Begin? ==> Texts(ss) == Texts(front);
    }
  }

  lemma SaveTexts(w: World, s: Step)
    ensures var v := Apply(w, s);
            |v.saves| == |w.saves| + (if s.Begin? then 1 else 0)
            && (forall i :: 0 <= i < |w.saves| ==> v.saves[i].text == w.saves[i].text)
            && (s.Begin? ==> v.saves[|w.saves|].text == s.text)
  {
  }

  // ---------- consequences ----------

  /** What a load returns for the state file it finds. */
  function Loaded(file: Option<string>, parses: string -> bool): Option<string> {
    if file.Some? && Document(file.value, parses) then file else None
  }

  lemma {:induction false} LegalPrefix(w: World, ss: seq<Step>, parses: string -> bool, n: nat)
    requires Legal(w, ss, parses) && n <= |ss|
    ensures Legal(w, ss[..n], parses)
    ensures n < |ss| ==> Enabled(Run(w, ss[..n]), ss[n], parses)
  {
    if n < |ss| {
      var front := ss[..|ss| - 1];
      assert front[..n] == ss[..n];
      if n < |ss| - 1 {
        LegalPrefix(w, front, parses, n);
      }
      hide Enabled, Run;
    } else {
      assert ss[..n] == ss;
    }
  }

  lemma {:induction false} TextsGrow(ss: seq<Step>, n: nat)
    requires n <= |ss|
    ensures Texts(ss[..n]) <= Texts(ss)
  {
    if n == |ss| {
      assert ss[..n] == ss;
    } else {
      assert ss[..|ss| - 1][..n] == ss[..n];
      TextsGrow(ss[..|ss| - 1], n);
    }
  }

  lemma StepFinal(w: World, s: Step, parses: string -> bool, i: nat)
    requires Enabled(w, s, parses) && i < |w.saves| && w.saves[i].phase == Renamed
    ensures i < |Apply(w, s).saves| && Apply(w, s).saves[i].phase == Renamed
  {
  }

  lemma {:induction false} StaysRenamed(w: World, ss: seq<Step>, parses: string -> bool, p: nat, i: nat)
    requires Legal(w, ss, parses) && p < |ss| && ss[p] == Rename(i)
    ensures i < |Run(w, ss).saves| && Run(w, ss).saves[i].phase == Renamed
  {
    var front := ss[..|ss| - 1];
    if p < |ss| - 1 {
      StaysRenamed(w, front, parses, p, i);
      StepFinal(Run(w, front), ss[|ss| - 1], parses, i);
      hide Enabled, Apply;
    }
  }

  lemma RenamedOnce(w: World, ss: seq<Step>, parses: string -> bool, p: nat, t: nat, i: nat)
    requires Legal(w, ss, parses) && p <= t < |ss| && ss[p] == Rename(i) && ss[t] == Rename(i)
    ensures p == t
  {
    LegalPrefix(w, ss, parses, t);
    if p < t {
      assert ss[..t][p] == ss[p];
      StaysRenamed(w, ss[..t], parses, p, i);
      assert false;
    }
  }

  /** The save whose text the state file holds. */
  function LastWriter(ss: seq<Step>): Option<nat> {
    if ss == [] then None else
      match ss[|ss| - 1]
      case Rename(i) => Some(i)
      case Clear => None
      case Preserve(_) => None
      case _ => LastWriter(ss[..|ss| - 1])
  }

  lemma {:induction false} LastWriterIsLast(ss: seq<Step>, r: nat) returns (t: nat)
    requires LastWriter(ss).Some? && r < |ss| && ss[r].Rename?
    ensures r <= t < |ss| && ss[t] == Rename(LastWriter(ss).value)
  {
    t := |ss| - 1;
    if !ss[t].Rename? {
      t := LastWriterIsLast(ss[..|ss| - 1], r);
    }
  }

  /** Once save `j` has been renamed, the state file never again holds the text of a save
      `i` that was renamed before `j` began, in any run. */
  lemma {:induction false} NeverReappears(w: World, ss: seq<Step>, parses: string -> bool, i: nat, j: nat, p: nat, q: nat, r: nat)
    requires w.saves == [] && Legal(w, ss, parses)
    requires p < q < |ss| && ss[p] == Rename(i)
    requires ss[q].Begin? && |Texts(ss[..q])| == j
    requires r < |ss| && ss[r] == Rename(j)
    ensures LastWriter(ss) != Some(i)
  {
    LegalPrefix(w, ss, parses, p);
    FileIsLastRename(w, ss[..p], parses);
    LegalPrefix(w, ss, parses, r);
    FileIsLastRename(w, ss[..r], parses);
    assert i < |Texts(ss[..p])|;
    assert ss[..q][..p] == ss[..p];
    TextsGrow(ss[..q], p);
    assert q < r by {
      if r <= q {
        assert ss[..q][..r] == ss[..r];
        TextsGrow(ss[..q], r);
      }
    }
    if LastWriter(ss) == Some(i) {
      var t := LastWriterIsLast(ss, r);
      RenamedOnce(w, ss, parses, p, t, i);
      assert false;
    }
  }

  lemma {:induction false} WriterWrote(start: Option<string>, ss: seq<Step>)
    requires LastWriter(ss).Some? && LastWriter(ss).value < |Texts(ss)|
    requires forall k :: 0 <= k < |ss| && ss[k].Rename? ==> ss[k].save < |Texts(ss[..k])|
    ensures LastDocument(start, ss) == Some(Texts(ss)[LastWriter(ss).value])
  {
    var front, last := ss[..|ss| - 1], ss[|ss| - 1];
    TextsGrow(ss, |ss| - 1);
    if !last.Rename? {
      assert forall k :: 0 <= k < |front| ==> front[..k] == ss[..k];
      var t := LastWriterIsLast2(front);
      TextsGrow(front, t);
      WriterWrote(start, front);
    } else {
      assert ss[..|ss| - 1] == front;
    }
  }

  lemma {:induction false} LastWriterIsLast2(ss: seq<Step>) returns (t: nat)
    requires LastWriter(ss).Some?
    ensures t < |ss| && ss[t] == Rename(LastWriter(ss).value)
  {
    t := |ss| - 1;
    if !ss[t].Rename? {
      t := LastWriterIsLast2(ss[..|ss| - 1]);
    }
  }

  lemma {:induction false} TextsAreDocuments(w: World, ss: seq<Step>, parses: string -> bool)
    requires Legal(w, ss, parses)
    ensures forall k :: 0 <= k < |Texts(ss)| ==> Document(Texts(ss)[k], parses)
  {
    if ss != [] {
      TextsAreDocuments(w, ss[..|ss| - 1], parses);
    }
    hide Document;
  }

  ghost predicate Sound(f: Option<string>, parses: string -> bool) {
    f.Some? && (Blank(f.value) || Document(f.value, parses))
  }

  lemma SoundStep(w: World, s: Step, parses: string -> bool)
    requires SavesApart(w) && Enabled(w, s, parses)
    requires forall i :: 0 <= i < |w.saves| ==> Document(w.saves[i].text, parses)
    requires s.Rename? || Sound(StateFile(w.files), parses)
    ensures Sound(StateFile(Apply(w, s).files), parses) && !s.Preserve?
  {
    StepStateFile(w, s, parses);
    assert Blank("");
    hide Apply, SavesApart, Blank;
  }

  lemma LastStep(w: World, ss: seq<Step>, parses: string -> bool)
    requires Legal(w, ss, parses) && ss != []
    ensures var front, last := ss[..|ss| - 1], ss[|ss| - 1];
            Legal(w, front, parses) && Enabled(Run(w, front), last, parses) && Run(w, ss) == Apply(Run(w, front), last)
  {
  }

  lemma {:induction false} TextsOfSaves(w: World, ss: seq<Step>, parses: string -> bool)
    requires w.saves == [] && Legal(w, ss, parses)
    ensures SavesApart(Run(w, ss))
    ensures forall i :: 0 <= i < |Run(w, ss).saves| ==> Document(Run(w, ss).saves[i].text, parses)
  {
    FileIsLastRename(w, ss, parses);
    TextsAreDocuments(w, ss, parses);
    hide *;
  }

  /** After a save has once been renamed, no load takes the state file for corrupt. */
  lemma {:induction false} SavedIsNeverCorrupt(w: World, ss: seq<Step>, parses: string -> bool, p: nat)
    requires w.saves == [] && Legal(w, ss, parses) && p < |ss| && ss[p].Rename?
    ensures Sound(StateFile(Run(w, ss).files), parses)
    ensures forall q :: p <= q < |ss| ==> !ss[q].Preserve?
  {
    hide *;
    var front, last := ss[..|ss| - 1], ss[|ss| - 1];
    LastStep(w, ss, parses);
    TextsOfSaves(w, front, parses);
    if p < |ss| - 1 {
      SavedIsNeverCorrupt(w, front, parses, p);
    }
    SoundStep(Run(w, front), last, parses);
  }

  /** A load at the end of any run gives the text of the last save renamed, unless the
      file was cleared since; a crash or a failing save never loses it. */
  lemma {:induction false} LoadGivesLastSave(w: World, ss: seq<Step>, parses: string -> bool)
    requires w.saves == [] && Legal(w, ss, parses) && LastWriter(ss).Some?
    ensures LastWriter(ss).value < |Texts(ss)|
    ensures Loaded(StateFile(Run(w, ss).files), parses) == Some(Texts(ss)[LastWriter(ss).value])
  {
    FileIsLastRename(w, ss, parses);
    TextsAreDocuments(w, ss, parses);
    forall k | 0 <= k < |ss| && ss[k].Rename?
      ensures ss[k].save < |Texts(ss[..k])|
    {
      LegalPrefix(w, ss, parses, k);
      FileIsLastRename(w, ss[..k], parses);
    }
    var t := LastWriterIsLast2(ss);
    TextsGrow(ss, t);
    WriterWrote(StateFile(w.files), ss);
    hide Document;
  }

  // ---------- the manager ----------

  function Sweepable(f: Files, stuck: set<string>): set<string> {
    set n | n in f && StaleTemp(n) && n !in stuck
  }

  lemma SweepableIs(f: Files, stuck: set<string>)
    ensures forall n :: n in Sweepable(f, stuck) <==> n in f && StaleTemp(n) && n !in stuck
  {
  }

  datatype Fault = NoFault | WriteFault(written: string) | RenameFault

  /** The state directory, the process id, the module's counter, and the history of saves. */
  class PersistenceManager {
    var files: Files
    var pid: nat
    var tempFileCounter: nat
    ghost var saves: seq<Save>

    ghost function View(): World
      reads this
    {
      World(files, saves, pid, tempFileCounter)
    }

    constructor (found: Files, process: nat)
      ensures View() == World(found, [], process, 0)
    {
      files, pid, tempFileCounter, saves := found, process, 0, [];
    }

    // The parts of `saveEdgeWorkerState` between its awaits, which other saves, loads and
    // crashes may come between.

    method BeginSave(text: string) returns (tempFile: string)
      modifies this
      ensures tempFile == TempName(old(pid), old(tempFileCounter))
      ensures View() == Apply(old(View()), Begin(text))
    {
      tempFile := TempName(pid, tempFileCounter);
      tempFileCounter := tempFileCounter + 1;
      saves := saves + [Save(text, tempFile, Begun)];
    }

    method OpenTemp(ghost i: nat, tempFile: string)
      requires i < |saves| && saves[i].temp == tempFile
      modifies this
      ensures View() == Apply(old(View()), Open(i))
    {
      files := files[tempFile := ""];
      saves := saves[i := saves[i].(phase := Writing)];
    }

    method WriteTemp(ghost i: nat, tempFile: string, content: string, whole: bool)
      requires i < |saves| && saves[i].temp == tempFile && (whole ==> saves[i].text == content)
      modifies this
      ensures View() == Apply(old(View()), if whole then Finish(i) else Partial(i, content))
    {
      if tempFile in files {
        files := files[tempFile := content];
      }
      if whole {
        saves := saves[i := saves[i].(phase := Written)];
      }
    }

    method RenameTemp(ghost i: nat, tempFile: string)
      requires i < |saves| && saves[i].temp == tempFile && tempFile in files
      modifies this
      ensures View() == Apply(old(View()), Rename(i))
      ensures files == old(files)[STATE := old(files)[tempFile]] - {tempFile}
    {
      files := Remove(files[STATE := files[tempFile]], {tempFile});
      saves := saves[i := saves[i].(phase := Renamed)];
    }

    method CleanUp(ghost i: nat, tempFile: string, possible: bool)
      requires i < |saves| && saves[i].temp == tempFile
      modifies this
      ensures View() == Apply(Apply(old(View()), Fail(i)), Unlink(i, possible))
    {
      if possible {
        files := Remove(files, {tempFile});
      }
      saves := saves[i := saves[i].(phase := Thrown)];
    }

    /** One save that nothing interrupts; `fault` says what throws, `cleanup` whether the
        temp file can then be removed. */
    method SaveEdgeWorkerState(text: string, fault: Fault, cleanup: bool) returns (ok: bool)
      modifies this
      ensures ok <==> fault.NoFault?
      ensures StateFile(files) == if ok then Some(text) else StateFile(old(files))
      ensures forall n :: n in files && n !in old(files) ==> n == STATE || (!ok && !cleanup)
      ensures forall n :: n in old(files) && n != STATE && n != TempName(old(pid), old(tempFileCounter)) ==>
                n in files && files[n] == old(files)[n]
    {
      ghost var i := |saves|;
      var tempFile := BeginSave(text);
      TempIsSwept(pid, tempFileCounter - 1);
      hide TempName;
      OpenTemp(i, tempFile);
      match fault {
        case NoFault =>
          WriteTemp(i, tempFile, text, true);
          RenameTemp(i, tempFile);
          return true;
        case WriteFault(written) =>
          WriteTemp(i, tempFile, written, false);
        case RenameFault =>
          WriteTemp(i, tempFile, text, true);
      }
      CleanUp(i, tempFile, cleanup);
      ok := false;
    }

    /** Removes every stale temp file whose removal does not fail. */
    method RemoveStaleTempFiles(stuck: set<string>)
      modifies this`files
      ensures View() == Apply(old(View()), Sweep(Sweepable(old(files), stuck)))
    {
      ghost var stale := Sweepable(files, stuck);
      var left := files.Keys;
      SweepableIs(files, stuck);
      hide Sweepable, StaleTemp;
      while left != {}
        invariant left <= old(files).Keys
        invariant files == old(files) - (stale - left)
        decreases |left|
      {
        var name :| name in left;
        ghost var before := stale - left;
        left := left - {name};
        if StaleTemp(name) && name !in stuck {
          files := files - {name};
          assert stale - left == before + {name};
        } else {
          assert stale - left == before;
        }
      }
    }

    /** `movable` says whether a corrupt file can be moved aside. */
    method LoadEdgeWorkerState(parses: string -> bool, stuck: set<string>, stamp: nat, movable: bool)
      returns (document: Option<string>)
      modifies this`files
      ensures document == Loaded(StateFile(old(files)), parses)
      ensures document == if STATE in old(files) && Trim(old(files)[STATE]) != "" && parses(old(files)[STATE])
                          then Some(old(files)[STATE]) else None
      // Corrupt is a file that is not blank and does not parse; it is moved aside if possible.
      ensures var corrupt := STATE in old(files) && Trim(old(files)[STATE]) != "" && !parses(old(files)[STATE]);
              if corrupt && movable then
                STATE !in files && CorruptName(stamp) in files && files[CorruptName(stamp)] == old(files)[STATE]
              else StateFile(files) == StateFile(old(files))
      // Swept are the other names that begin with the state file's and end in the suffix.
      ensures forall n :: n in old(files) && n != STATE && n != CorruptName(stamp) ==>
                if STATE <= n && EndsWith(n, ".tmp") && n !in stuck then n !in files
                else n in files && files[n] == old(files)[n]
      ensures var swept := Apply(old(View()), Sweep(Sweepable(old(files), stuck)));
              View() == if movable && Enabled(swept, Preserve(stamp), parses) then Apply(swept, Preserve(stamp)) else swept
    {
      SweepableIs(files, stuck);
      RemoveStaleTempFiles(stuck);
      assert !StaleTemp(STATE);
      hide StaleTemp, Sweepable;
      if STATE !in files {
        return None;
      }
      var raw := files[STATE];
      if Trim(raw) == "" {
        return None;
      }
      if !parses(raw) {
        if movable {
          files := Remove(files[CorruptName(stamp) := raw], {STATE});
        }
        return None;
      }
      document := Some(raw);
    }

    method DeleteStateFile()
      modifies this`files
      ensures View() == Apply(old(View()), Clear)
      ensures files == if STATE in old(files) then old(files)[STATE := ""] else old(files)
    {
      if STATE in files {
        files := files[STATE := ""];
      }
    }
  }
}
