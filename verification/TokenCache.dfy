/** The GitHub token store's read cache, against the file it caches. */
module TokenCache {
  import opened Wrappers

  type Token = string

  /** What `stat` tells of a file: its modification time and its size. */
  datatype Stamp = Stamp(mtime: int, size: nat)

  /** `tokens` is absent when the content cannot be parsed. */
  datatype File = File(tokens: Option<seq<Token>>, stamp: Stamp)

  datatype State = State(file: Option<File>, cache: Option<seq<Token>>, cachedStamp: Option<Stamp>)

  datatype Step =
    | Save(tokens: seq<Token>, stamp: Stamp)  // by this store, whatever the clock says
    | External(file: Option<File>)            // another writer replaces or removes the file
    | Load
    | LoadDuring(newer: File)                 // another writer replaces it between `stat` and the read

  /** What a read without a cache returns. */
  function Uncached(f: Option<File>): seq<Token> {
    if f.Some? && f.value.tokens.Some? then f.value.tokens.value else []
  }

  /** A load that finds the stamp of `found` and, if it has to, reads `content`. */
  function LoadFrom(s: State, found: Option<File>, content: Option<File>): (State, seq<Token>) {
    if found.None? then (State(content, None, None), [])
    else if s.cache.Some? && s.cachedStamp == Some(found.value.stamp) then (s.(file := content), s.cache.value)
    else if content.Some? && content.value.tokens.Some? then
      (State(content, content.value.tokens, Some(found.value.stamp)), content.value.tokens.value)
    else (s.(file := content), [])
  }

  function Apply(s: State, step: Step): State {
    match step
    case Save(ts, stamp) => State(Some(File(Some(ts), stamp)), None, None)
    case External(f) => s.(file := f)
    case Load => LoadFrom(s, s.file, s.file).0
    case LoadDuring(f) => LoadFrom(s, s.file, Some(f)).0
  }

  function Run(s: State, ss: seq<Step>): State {
    if ss == [] then s else Apply(Run(s, ss[..|ss| - 1]), ss[|ss| - 1])
  }

  class GitHubTokenStore {
    /** The file on disk. */
    var file: Option<File>
    var cachedTokens: Option<seq<Token>>
    var cachedStamp: Option<Stamp>

    ghost function View(): State
      reads this
    {
      State(file, cachedTokens, cachedStamp)
    }

    constructor (found: Option<File>)
      ensures View() == State(found, None, None)
    {
      file, cachedTokens, cachedStamp := found, None, None;
    }

    method SaveTokens(tokens: seq<Token>, stamp: Stamp)
      modifies this
      ensures View() == Apply(old(View()), Save(tokens, stamp))
      ensures file == Some(File(Some(tokens), stamp)) && cachedTokens == None && cachedStamp == None
    {
      file := Some(File(Some(tokens), stamp));
      cachedTokens := None;
      cachedStamp := None;
    }

    method LoadTokens() returns (tokens: seq<Token>)
      modifies this
      ensures (View(), tokens) == LoadFrom(old(View()), old(file), old(file))
      ensures file == old(file)
      ensures tokens == if file.None? then []
                        else if old(cachedTokens).Some? && old(cachedStamp) == Some(file.value.stamp) then old(cachedTokens).value
                        else if file.value.tokens.Some? then file.value.tokens.value else []
    {
      if file.None? {
        cachedTokens := None;
        cachedStamp := None;
        return [];
      }
      var stat := file.value.stamp;
      if cachedTokens.Some? && cachedStamp == Some(stat) {
        return cachedTokens.value;
      }
      if file.value.tokens.None? {
        return [];
      }
      tokens := file.value.tokens.value;
      cachedTokens := Some(tokens);
      cachedStamp := Some(stat);
    }
  }

  // ---------- when the cache tells the truth ----------

  /** The cached tokens are those of the file, if the file bears the cached stamp. */
  predicate Coherent(s: State) {
    s.cache.Some? && s.file.Some? && s.cachedStamp == Some(s.file.value.stamp) ==> Uncached(s.file) == s.cache.value
  }

  /** A load returns what an uncached read would, exactly in a coherent state. */
  lemma LoadExact(s: State)
    ensures LoadFrom(s, s.file, s.file).1 == Uncached(s.file) <==> Coherent(s)
  {
  }

  /** The file another writer brings bears the cached stamp and holds other tokens. */
  predicate Masked(s: State, f: Option<File>) {
    s.cache.Some? && f.Some? && s.cachedStamp == Some(f.value.stamp) && Uncached(f) != s.cache.value
  }

  /** A step by another writer that the cache does not notice. A load it falls into notices
      it if it reads the file, and finds tokens there. */
  predicate Unnoticed(s: State, step: Step) {
    match step
    case External(f) => Masked(s, f)
    case LoadDuring(f) =>
      Masked(s, Some(f)) && s.file.Some? && (s.cachedStamp == Some(s.file.value.stamp) || f.tokens.None?)
    case _ => false
  }

  /** A coherent cache stays so exactly unless another writer goes unnoticed, and such a
      writer spoils any; a save mends it whatever came before. */
  lemma StepCoherent(s: State, step: Step)
    ensures Coherent(s) ==> (Coherent(Apply(s, step)) <==> !Unnoticed(s, step))
    ensures Unnoticed(s, step) ==> !Coherent(Apply(s, step))
    ensures step.Save? ==> Coherent(Apply(s, step))
  {
  }

  /** A load that is made now returns what the file holds. */
  predicate TrueLoad(s: State) {
    LoadFrom(s, s.file, s.file).1 == Uncached(s.file)
  }

  function From(start: Option<File>, ss: seq<Step>): State {
    Run(State(start, None, None), ss)
  }

  /** Of every interleaving of own saves, loads and writes by others: loads return what the
      file holds, whenever they are made, if and only if no other writer ever brings other
      tokens under the stamp that is cached then. */
  lemma {:induction false} LoadsTrueExactly(start: Option<File>, ss: seq<Step>)
    ensures (forall n :: 0 <= n <= |ss| ==> TrueLoad(From(start, ss[..n]))) <==>
            (forall n :: 0 <= n < |ss| ==> !Unnoticed(From(start, ss[..n]), ss[n]))
  {
    if forall n :: 0 <= n < |ss| ==> !Unnoticed(From(start, ss[..n]), ss[n]) {
      NoticedCoherent(start, ss, |ss|);
    } else {
      var n :| 0 <= n < |ss| && Unnoticed(From(start, ss[..n]), ss[n]);
      Extended(start, ss, n);
      StepCoherent(From(start, ss[..n]), ss[n]);
      LoadExact(From(start, ss[..n + 1]));
    }
  }

  lemma {:induction false} Extended(start: Option<File>, ss: seq<Step>, n: nat)
    requires n < |ss|
    ensures From(start, ss[..n + 1]) == Apply(From(start, ss[..n]), ss[n])
  {
    assert ss[..n + 1][..n] == ss[..n];
  }

  lemma {:induction false} NoticedCoherent(start: Option<File>, ss: seq<Step>, n: nat)
    requires n <= |ss| && forall k :: 0 <= k < n ==> !Unnoticed(From(start, ss[..k]), ss[k])
    ensures Coherent(From(start, ss[..n]))
    ensures forall k :: 0 <= k <= n ==> TrueLoad(From(start, ss[..k]))
  {
    if n == 0 {
      assert ss[..0] == [];
    } else {
      NoticedCoherent(start, ss, n - 1);
      Extended(start, ss, n - 1);
      StepCoherent(From(start, ss[..n - 1]), ss[n - 1]);
    }
    LoadExact(From(start, ss[..n]));
  }

  /** Whatever came before, a load after a save of this store gives the tokens saved, and so
      does every further one until somebody writes. */
  lemma {:induction false} SavedIsLoaded(s: State, tokens: seq<Token>, stamp: Stamp, loads: nat)
    ensures var t := Again(Apply(s, Save(tokens, stamp)), loads);
            LoadFrom(t, t.file, t.file).1 == tokens && t.file == Some(File(Some(tokens), stamp))
  {
    if loads > 0 {
      SavedIsLoaded(s, tokens, stamp, loads - 1);
      AgainHolds(s, tokens, stamp, loads - 1);
    }
  }

  function Again(s: State, loads: nat): State {
    if loads == 0 then s else Apply(Again(s, loads - 1), Load)
  }

  lemma {:induction false} AgainHolds(s: State, tokens: seq<Token>, stamp: Stamp, loads: nat)
    ensures var t := Again(Apply(s, Save(tokens, stamp)), loads);
            t.file == Some(File(Some(tokens), stamp))
            && (t.cache.Some? && t.cachedStamp == Some(stamp) ==> t.cache.value == tokens)
  {
    if loads > 0 {
      AgainHolds(s, tokens, stamp, loads - 1);
    }
  }

  /** When the file is replaced during a load, a coherent cache makes it return the old
      content or the new, and a load after it the new one unless the writer goes unnoticed. */
  lemma LoadReplaced(s: State, newer: File)
    requires Coherent(s)
    ensures LoadFrom(s, s.file, Some(newer)).1 in {Uncached(s.file), Uncached(Some(newer))}
    ensures var t := Apply(s, LoadDuring(newer));
            t.file == Some(newer) && (TrueLoad(t) <==> !Unnoticed(s, LoadDuring(newer)))
  {
    StepCoherent(s, LoadDuring(newer));
    LoadExact(Apply(s, LoadDuring(newer)));
  }

  /** Every stamp the file has had. */
  function Seen(start: Option<File>, ss: seq<Step>): set<Stamp> {
    if ss == [] then (if start.Some? then {start.value.stamp} else {}) else
      Seen(start, ss[..|ss| - 1]) +
      match ss[|ss| - 1]
      case Save(_, stamp) => {stamp}
      case External(f) => if f.Some? then {f.value.stamp} else {}
      case LoadDuring(f) => {f.stamp}
      case Load => {}
  }

  /** A write by another writer brings a stamp the file has not had. */
  predicate FreshStamp(seen: set<Stamp>, step: Step) {
    match step
    case External(f) => f.Some? ==> f.value.stamp !in seen
    case LoadDuring(f) => f.stamp !in seen
    case _ => true
  }

  /** In particular loads are true as long as other writers bring back no stamp; this
      store's saves may. */
  lemma {:induction false} LoadsTrue(start: Option<File>, ss: seq<Step>)
    requires forall n :: 0 <= n < |ss| ==> FreshStamp(Seen(start, ss[..n]), ss[n])
    ensures forall n :: 0 <= n <= |ss| ==> TrueLoad(From(start, ss[..n]))
  {
    forall n | 0 <= n < |ss| ensures !Unnoticed(From(start, ss[..n]), ss[n]) {
      CachedSeen(start, ss[..n]);
    }
    LoadsTrueExactly(start, ss);
  }

  lemma {:induction false} CachedSeen(start: Option<File>, ss: seq<Step>)
    ensures var s := From(start, ss);
            && (s.file.Some? ==> s.file.value.stamp in Seen(start, ss))
            && (s.cachedStamp.Some? ==> s.cachedStamp.value in Seen(start, ss))
  {
    if ss != [] {
      CachedSeen(start, ss[..|ss| - 1]);
    }
  }

  /** With a stamp brought back, a load returns tokens that are no longer in the file. */
  lemma StaleExample()
    ensures var f := File(Some(["old"]), Stamp(1, 3));
            var g := File(Some(["new"]), Stamp(1, 3));
            var s := Run(State(Some(f), None, None), [Load, External(Some(g))]);
            LoadFrom(s, s.file, s.file).1 == ["old"] && Uncached(s.file) == ["new"]
  {
    var ss := [Load, External(Some(File(Some(["new"]), Stamp(1, 3))))];
    assert ss[..1] == [Load] && [Load][..0] == [];
    var start := State(Some(File(Some(["old"]), Stamp(1, 3))), None, None);
    assert Run(start, []) == start;
    assert Run(start, [Load]) == Apply(start, Load);
  }
}
