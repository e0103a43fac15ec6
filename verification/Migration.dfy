/** The migrations of the state document: version 2.0 through 3.0 to the flat 4.0. */
module Migration {
  import opened Records
  import opened Wrappers

  type Id = string

  /** `rest` stands for the fields both formats share unchanged. */
  datatype OldSession = OldSession(linearId: Id, issueId: string, identifier: Option<string>, rest: string)

  datatype IssueContext = IssueContext(tracker: string, issueId: string, identifier: string)

  datatype Session = Session(
    id: Id,
    externalId: Option<Id>,
    context: Option<IssueContext>,
    repositories: Option<seq<string>>,
    issueId: string,
    rest: string)

  datatype Nested<S> = Nested(
    sessions: Option<Record<Record<S>>>,
    entries: Option<Record<Record<string>>>,
    children: Option<map<Id, Id>>,
    cache: Option<Record<string>>)

  datatype Flat = Flat(
    sessions: map<Id, Session>,
    entries: map<Id, string>,
    children: Option<map<Id, Id>>,
    cache: Option<map<string, seq<string>>>)

  // ---------- one session ----------

  function MigrateSession(s: OldSession): Session {
    var identifier := if s.identifier.Some? && s.identifier.value != "" then s.identifier.value else s.issueId;
    Session(s.linearId, Some(s.linearId), Some(IssueContext("linear", s.issueId, identifier)), Some([]), s.issueId,
            s.rest)
  }

  /** A session without repositories gets the one it was filed under. */
  function Filed(s: Session, repo: string): Session {
    if s.repositories.Some? && s.repositories.value != [] then s else s.(repositories := Some([repo]))
  }

  // ---------- records as maps ----------

  /** Assigning the properties in turn: a later one of the same name replaces. */
  function Assign<T>(m: map<string, T>, r: Record<T>): map<string, T> {
    if r == [] then m else Assign(m, r[..|r| - 1])[r[|r| - 1].0 := r[|r| - 1].1]
  }

  function FiledUnder(r: Record<Session>, repo: string): Record<Session> {
    if r == [] then [] else
      FiledUnder(r[..|r| - 1], repo) + [(r[|r| - 1].0, Filed(r[|r| - 1].1, repo))]
  }

  function FlatSessions(rs: Record<Record<Session>>): map<Id, Session> {
    if rs == [] then map[] else
      Assign(FlatSessions(rs[..|rs| - 1]), FiledUnder(rs[|rs| - 1].1, rs[|rs| - 1].0))
  }

  function FlatEntries(rs: Record<Record<string>>): map<Id, string> {
    if rs == [] then map[] else Assign(FlatEntries(rs[..|rs| - 1]), rs[|rs| - 1].1)
  }

  function Wrapped(r: Record<string>): map<string, seq<string>> {
    if r == [] then map[] else Wrapped(r[..|r| - 1])[r[|r| - 1].0 := [r[|r| - 1].1]]
  }

  function ToFlat(v: Nested<Session>): Flat {
    Flat(
      if v.sessions.Some? then FlatSessions(v.sessions.value) else map[],
      if v.entries.Some? then FlatEntries(v.entries.value) else map[],
      v.children,
      if v.cache.Some? then Some(Wrapped(v.cache.value)) else None)
  }

  /** The sessions of one repository, keyed by their new ids. */
  function Rekeyed(r: Record<OldSession>): Record<Session> {
    if r == [] then [] else
      var s := MigrateSession(r[|r| - 1].1);
      Set(Rekeyed(r[..|r| - 1]), s.id, s)
  }

  function RekeyedAll(rs: Record<Record<OldSession>>): Record<Record<Session>> {
    if rs == [] then [] else
      Set(RekeyedAll(rs[..|rs| - 1]), rs[|rs| - 1].0, Rekeyed(rs[|rs| - 1].1))
  }

  function ToNested(v: Nested<OldSession>): Nested<Session> {
    Nested(Some(if v.sessions.Some? then RekeyedAll(v.sessions.value) else []), v.entries, v.children, v.cache)
  }

  // ---------- the migrations as they run ----------

  method MigrateV2ToV3(v: Nested<OldSession>) returns (out: Nested<Session>)
    ensures out == ToNested(v)
  {
    var sessions: Record<Record<Session>> := [];
    if v.sessions.Some? {
      var repos := v.sessions.value;
      for i := 0 to |repos|
        invariant sessions == RekeyedAll(repos[..i])
      {
        var filed: Record<Session> := [];
        var held := repos[i].1;
        for j := 0 to |held|
          invariant filed == Rekeyed(held[..j])
        {
          var migrated := MigrateSession(held[j].1);
          filed := Set(filed, migrated.id, migrated);
          assert held[..j + 1][..j] == held[..j];
        }
        assert held[..|held|] == held;
        sessions := Set(sessions, repos[i].0, filed);
        assert repos[..i + 1][..i] == repos[..i];
      }
      assert repos[..|repos|] == repos;
    }
    out := Nested(Some(sessions), v.entries, v.children, v.cache);
  }

  method MigrateV3ToV4(v: Nested<Session>) returns (out: Flat)
    ensures out == ToFlat(v)
    ensures out.sessions == (if v.sessions.Some? then FlatSessions(v.sessions.value) else map[])
    ensures out.entries == (if v.entries.Some? then FlatEntries(v.entries.value) else map[])
    ensures out.children == v.children
    ensures out.cache == (if v.cache.Some? then Some(Wrapped(v.cache.value)) else None)
  {
    var flatSessions: map<Id, Session> := map[];
    var flatEntries: map<Id, string> := map[];
    var cache: Option<map<string, seq<string>>> := None;
    if v.sessions.Some? {
      flatSessions := FlattenSessions(v.sessions.value);
    }
    if v.entries.Some? {
      flatEntries := FlattenEntries(v.entries.value);
    }
    if v.cache.Some? {
      var r, m := v.cache.value, map[];
      for i := 0 to |r|
        invariant m == Wrapped(r[..i])
      {
        m := m[r[i].0 := [r[i].1]];
        assert r[..i + 1][..i] == r[..i];
      }
      assert r[..|r|] == r;
      cache := Some(m);
    }
    out := Flat(flatSessions, flatEntries, v.children, cache);
  }

  method FlattenSessions(rs: Record<Record<Session>>) returns (flat: map<Id, Session>)
    ensures flat == FlatSessions(rs)
  {
    flat := map[];
    for i := 0 to |rs|
      invariant flat == FlatSessions(rs[..i])
    {
      ghost var before := flat;
      var repo, held := rs[i].0, rs[i].1;
      for j := 0 to |held|
        invariant flat == Assign(before, FiledUnder(held[..j], repo))
      {
        var session := Filed(held[j].1, repo);
        flat := flat[held[j].0 := session];
        assert held[..j + 1][..j] == held[..j];
        FiledUnderSnoc(held[..j], held[j], repo);
        AssignSnoc(before, FiledUnder(held[..j], repo), (held[j].0, session));
      }
      assert held[..|held|] == held;
      assert rs[..i + 1][..i] == rs[..i];
    }
    assert rs[..|rs|] == rs;
  }

  method FlattenEntries(rs: Record<Record<string>>) returns (flat: map<Id, string>)
    ensures flat == FlatEntries(rs)
  {
    flat := map[];
    for i := 0 to |rs|
      invariant flat == FlatEntries(rs[..i])
    {
      ghost var before := flat;
      var held := rs[i].1;
      for j := 0 to |held|
        invariant flat == Assign(before, held[..j])
      {
        flat := flat[held[j].0 := held[j].1];
        assert held[..j + 1][..j] == held[..j];
      }
      assert held[..|held|] == held;
      assert rs[..i + 1][..i] == rs[..i];
    }
    assert rs[..|rs|] == rs;
  }

  lemma FiledUnderSnoc(r: Record<Session>, p: (string, Session), repo: string)
    ensures FiledUnder(r + [p], repo) == FiledUnder(r, repo) + [(p.0, Filed(p.1, repo))]
  {
    assert (r + [p])[..|r|] == r;
  }

  lemma AssignSnoc<T>(m: map<string, T>, r: Record<T>, p: (string, T))
    ensures Assign(m, r + [p]) == Assign(m, r)[p.0 := p.1]
  {
    assert (r + [p])[..|r|] == r;
  }

  // ---------- what the flattening keeps ----------

  /** All sessions in the order the loops meet them, each filed under its repository. */
  function Together(rs: Record<Record<Session>>): Record<Session> {
    if rs == [] then [] else Together(rs[..|rs| - 1]) + FiledUnder(rs[|rs| - 1].1, rs[|rs| - 1].0)
  }

  function Joined(rs: Record<Record<string>>): Record<string> {
    if rs == [] then [] else Joined(rs[..|rs| - 1]) + rs[|rs| - 1].1
  }

  lemma {:induction false} AssignConcat<T>(m: map<string, T>, r: Record<T>, q: Record<T>)
    ensures Assign(m, r + q) == Assign(Assign(m, r), q)
  {
    if q == [] {
      assert r + q == r;
    } else {
      assert (r + q)[..|r + q| - 1] == r + q[..|q| - 1];
      AssignConcat(m, r, q[..|q| - 1]);
    }
  }

  lemma {:induction false} SessionsAssigned(rs: Record<Record<Session>>)
    ensures FlatSessions(rs) == Assign(map[], Together(rs))
  {
    if rs != [] {
      SessionsAssigned(rs[..|rs| - 1]);
      AssignConcat(map[], Together(rs[..|rs| - 1]), FiledUnder(rs[|rs| - 1].1, rs[|rs| - 1].0));
    }
  }

  lemma {:induction false} EntriesAssigned(rs: Record<Record<string>>)
    ensures FlatEntries(rs) == Assign(map[], Joined(rs))
  {
    if rs != [] {
      EntriesAssigned(rs[..|rs| - 1]);
      AssignConcat(map[], Joined(rs[..|rs| - 1]), rs[|rs| - 1].1);
    }
  }

  lemma {:induction false} AssignedNames<T>(r: Record<T>)
    ensures Assign(map[], r).Keys == Names(r)
    ensures forall n :: n in Assign(map[], r) ==> (n, Assign(map[], r)[n]) in r
  {
    if r != [] {
      AssignedNames(r[..|r| - 1]);
      var last := r[|r| - 1];
      assert last in r;
      assert Names(r) == Names(r[..|r| - 1]) + {last.0};
    }
  }

  lemma NamesOnceSnoc<T>(r: Record<T>)
    requires r != []
    ensures var front, last := r[..|r| - 1], r[|r| - 1];
            NamesOnce(r) <==> NamesOnce(front) && last.0 !in Names(front)
  {
    var front, last := r[..|r| - 1], r[|r| - 1];
    if NamesOnce(front) && last.0 !in Names(front) {
      forall i, j | 0 <= i < j < |r|
        ensures r[i].0 != r[j].0
      {
        assert front[i].0 in Names(front);
      }
    }
    if last.0 in Names(front) {
      var k :| 0 <= k < |front| && front[k].0 == last.0;
      assert r[k].0 == r[|r| - 1].0;
    }
    assert NamesOnce(r) ==> NamesOnce(front);
  }

  /** Assigning loses nothing if and only if no name is assigned twice. */
  lemma {:induction false} AssignCounts<T>(r: Record<T>)
    ensures |Assign(map[], r)| <= |r|
    ensures |Assign(map[], r)| == |r| <==> NamesOnce(r)
  {
    if r != [] {
      var front, last := r[..|r| - 1], r[|r| - 1];
      var m := Assign(map[], front);
      AssignCounts(front);
      AssignedNames(front);
      NamesOnceSnoc(r);
      assert Assign(map[], r) == m[last.0 := last.1];
      hide Assign, NamesOnce, Names;
      assert m[last.0 := last.1].Keys == m.Keys + {last.0};
      if last.0 in m {
        assert m[last.0 := last.1].Keys == m.Keys;
      }
    }
  }

  lemma {:induction false} AssignKeeps<T>(r: Record<T>, k: nat)
    requires NamesOnce(r) && k < |r|
    ensures r[k].0 in Assign(map[], r) && Assign(map[], r)[r[k].0] == r[k].1
  {
    if k < |r| - 1 {
      AssignKeeps(r[..|r| - 1], k);
    }
  }

  lemma {:induction false} FiledAt(r: Record<Session>, repo: string, k: nat)
    requires k < |r|
    ensures |FiledUnder(r, repo)| == |r| && FiledUnder(r, repo)[k] == (r[k].0, Filed(r[k].1, repo))
  {
    if k < |r| - 1 {
      FiledAt(r[..|r| - 1], repo, k);
    } else if k > 0 {
      FiledAt(r[..|r| - 1], repo, k - 1);
    }
  }

  lemma {:induction false} InTogether(rs: Record<Record<Session>>, a: nat, k: nat)
    requires a < |rs| && k < |rs[a].1|
    ensures (rs[a].1[k].0, Filed(rs[a].1[k].1, rs[a].0)) in Together(rs)
  {
    if a < |rs| - 1 {
      InTogether(rs[..|rs| - 1], a, k);
    } else {
      FiledAt(rs[a].1, rs[a].0, k);
    }
  }

  lemma {:induction false} TogetherFiled(rs: Record<Record<Session>>, p: (Id, Session))
    requires p in Together(rs)
    ensures p.1.repositories.Some? && p.1.repositories.value != []
    ensures exists a, k :: 0 <= a < |rs| && 0 <= k < |rs[a].1| && p == (rs[a].1[k].0, Filed(rs[a].1[k].1, rs[a].0))
  {
    var front, last := rs[..|rs| - 1], rs[|rs| - 1];
    if p in Together(front) {
      TogetherFiled(front, p);
      var a, k :| 0 <= a < |front| && 0 <= k < |front[a].1|
                  && p == (front[a].1[k].0, Filed(front[a].1[k].1, front[a].0));
      assert rs[a] == front[a];
    } else {
      var k :| 0 <= k < |FiledUnder(last.1, last.0)| && FiledUnder(last.1, last.0)[k] == p;
      FiledLength(last.1, last.0);
      FiledAt(last.1, last.0, k);
    }
  }

  lemma {:induction false} FiledLength(r: Record<Session>, repo: string)
    ensures |FiledUnder(r, repo)| == |r|
  {
    if r != [] {
      FiledLength(r[..|r| - 1], repo);
    }
  }

  /** Flattening keeps every session if and only if no id occurs twice; it invents none,
      and each session it keeps has a repository: its own, or the one it was under. */
  lemma FlatKeepsSessions(rs: Record<Record<Session>>)
    ensures |FlatSessions(rs)| == |Together(rs)| <==> NamesOnce(Together(rs))
    ensures forall id :: id in FlatSessions(rs) ==>
              var s := FlatSessions(rs)[id];
              && s.repositories.Some? && s.repositories.value != []
              && exists a, k :: 0 <= a < |rs| && 0 <= k < |rs[a].1|
                                && (id, s) == (rs[a].1[k].0, Filed(rs[a].1[k].1, rs[a].0))
  {
    SessionsAssigned(rs);
    AssignCounts(Together(rs));
    AssignedNames(Together(rs));
    forall id | id in FlatSessions(rs)
      ensures var s := FlatSessions(rs)[id];
              && s.repositories.Some? && s.repositories.value != []
              && exists a, k :: 0 <= a < |rs| && 0 <= k < |rs[a].1|
                                && (id, s) == (rs[a].1[k].0, Filed(rs[a].1[k].1, rs[a].0))
    {
      TogetherFiled(rs, (id, FlatSessions(rs)[id]));
    }
  }

  lemma FlatHolds(rs: Record<Record<Session>>, a: nat, k: nat)
    requires a < |rs| && k < |rs[a].1| && NamesOnce(Together(rs))
    ensures rs[a].1[k].0 in FlatSessions(rs)
    ensures var s := rs[a].1[k].1;
            FlatSessions(rs)[rs[a].1[k].0] ==
              if s.repositories.Some? && s.repositories.value != [] then s else s.(repositories := Some([rs[a].0]))
  {
    var t := Together(rs);
    SessionsAssigned(rs);
    InTogether(rs, a, k);
    var p: nat :| p < |t| && t[p] == (rs[a].1[k].0, Filed(rs[a].1[k].1, rs[a].0));
    AssignKeeps(t, p);
  }

  lemma {:induction false} InJoined(rs: Record<Record<string>>, a: nat, k: nat)
    requires a < |rs| && k < |rs[a].1|
    ensures rs[a].1[k] in Joined(rs)
  {
    if a < |rs| - 1 {
      InJoined(rs[..|rs| - 1], a, k);
    }
  }

  /** The same for the entry lists. */
  lemma FlatKeepsEntries(rs: Record<Record<string>>)
    ensures |FlatEntries(rs)| == |Joined(rs)| <==> NamesOnce(Joined(rs))
    ensures NamesOnce(Joined(rs)) ==>
              forall a, k :: 0 <= a < |rs| && 0 <= k < |rs[a].1| ==>
                rs[a].1[k].0 in FlatEntries(rs) && FlatEntries(rs)[rs[a].1[k].0] == rs[a].1[k].1
  {
    EntriesAssigned(rs);
    AssignCounts(Joined(rs));
    if NamesOnce(Joined(rs)) {
      forall a, k | 0 <= a < |rs| && 0 <= k < |rs[a].1|
        ensures rs[a].1[k].0 in FlatEntries(rs) && FlatEntries(rs)[rs[a].1[k].0] == rs[a].1[k].1
      {
        InJoined(rs, a, k);
        var p: nat :| p < |Joined(rs)| && Joined(rs)[p] == rs[a].1[k];
        AssignKeeps(Joined(rs), p);
      }
    }
  }

  /** The cache keeps every issue, with its one repository as a list. */
  lemma {:induction false} CacheWrapped(r: Record<string>)
    ensures Wrapped(r).Keys == Names(r)
    ensures forall k :: 0 <= k < |r| && (forall j :: k < j < |r| ==> r[j].0 != r[k].0) ==>
              r[k].0 in Wrapped(r) && Wrapped(r)[r[k].0] == [r[k].1]
  {
    if r != [] {
      var front, last := r[..|r| - 1], r[|r| - 1];
      CacheWrapped(front);
      assert Names(r) == Names(front) + {last.0};
      forall k | 0 <= k < |r| && (forall j :: k < j < |r| ==> r[j].0 != r[k].0)
        ensures r[k].0 in Wrapped(r) && Wrapped(r)[r[k].0] == [r[k].1]
      {
        if k < |front| {
          assert front[k] == r[k] && r[|r| - 1].0 != r[k].0;
          forall j | k < j < |front| ensures front[j].0 != front[k].0 {
            assert front[j] == r[j];
          }
        }
      }
    }
  }

  // ---------- version 2.0 through both steps ----------

  predicate LinearIdsOnce(r: Record<OldSession>) {
    forall i, j :: 0 <= i < j < |r| ==> r[i].1.linearId != r[j].1.linearId
  }

  lemma {:induction false} RekeyedInOrder(r: Record<OldSession>)
    requires LinearIdsOnce(r)
    ensures |Rekeyed(r)| == |r|
    ensures forall k :: 0 <= k < |r| ==> Rekeyed(r)[k] == (r[k].1.linearId, MigrateSession(r[k].1))
  {
    if r != [] {
      var front := r[..|r| - 1];
      RekeyedInOrder(front);
      var s := MigrateSession(r[|r| - 1].1);
      SetAppends(Rekeyed(front), s.id, s);
    }
  }

  lemma {:induction false} RepositoriesInOrder(rs: Record<Record<OldSession>>)
    requires NamesOnce(rs)
    ensures |RekeyedAll(rs)| == |rs|
    ensures forall a :: 0 <= a < |rs| ==> RekeyedAll(rs)[a] == (rs[a].0, Rekeyed(rs[a].1))
  {
    if rs != [] {
      var front := rs[..|rs| - 1];
      RepositoriesInOrder(front);
      SetAppends(RekeyedAll(front), rs[|rs| - 1].0, Rekeyed(rs[|rs| - 1].1));
    }
  }

  function IdsOf(r: Record<OldSession>): (ids: seq<Id>)
    ensures |ids| == |r| && forall k :: 0 <= k < |r| ==> ids[k] == r[k].1.linearId
  {
    if r == [] then [] else IdsOf(r[..|r| - 1]) + [r[|r| - 1].1.linearId]
  }

  /** Every Linear id in the document, repository by repository. */
  function LinearIds(rs: Record<Record<OldSession>>): seq<Id> {
    if rs == [] then [] else LinearIds(rs[..|rs| - 1]) + IdsOf(rs[|rs| - 1].1)
  }

  predicate NoRepeat(ids: seq<Id>) {
    forall i, j :: 0 <= i < j < |ids| ==> ids[i] != ids[j]
  }

  lemma NoRepeatSplit(i: seq<Id>, j: seq<Id>)
    requires NoRepeat(i + j)
    ensures NoRepeat(i) && NoRepeat(j)
  {
    assert forall k :: 0 <= k < |i| ==> (i + j)[k] == i[k];
    forall k, l | 0 <= k < l < |j|
      ensures j[k] != j[l]
    {
      assert (i + j)[|i| + k] == j[k] && (i + j)[|i| + l] == j[l];
    }
  }

  lemma {:induction false} OnceInEach(rs: Record<Record<OldSession>>, a: nat)
    requires NoRepeat(LinearIds(rs)) && a < |rs|
    ensures LinearIdsOnce(rs[a].1)
  {
    NoRepeatSplit(LinearIds(rs[..|rs| - 1]), IdsOf(rs[|rs| - 1].1));
    if a < |rs| - 1 {
      OnceInEach(rs[..|rs| - 1], a);
    }
    hide NoRepeat;
    EachId(rs[|rs| - 1].1);
  }

  lemma EachId(r: Record<OldSession>)
    ensures NoRepeat(IdsOf(r)) ==> LinearIdsOnce(r)
  {
  }

  predicate NamesAre<T>(r: Record<T>, ids: seq<Id>) {
    |r| == |ids| && forall k :: 0 <= k < |r| ==> r[k].0 == ids[k]
  }

  lemma NamesConcat<T>(r: Record<T>, i: seq<Id>, q: Record<T>, j: seq<Id>)
    requires NamesAre(r, i) && NamesAre(q, j)
    ensures NamesAre(r + q, i + j)
  {
  }

  lemma FiledNames(r: Record<OldSession>, repo: string)
    requires LinearIdsOnce(r)
    ensures NamesAre(FiledUnder(Rekeyed(r), repo), IdsOf(r))
  {
    RekeyedInOrder(r);
    var q := Rekeyed(r);
    FiledLength(q, repo);
    forall k | 0 <= k < |q|
      ensures FiledUnder(q, repo)[k].0 == IdsOf(r)[k]
    {
      FiledAt(q, repo, k);
    }
    hide FiledUnder, Rekeyed;
  }

  lemma {:induction false} MigratedIds(rs: Record<Record<OldSession>>)
    requires NamesOnce(rs) && NoRepeat(LinearIds(rs))
    ensures NamesAre(Together(RekeyedAll(rs)), LinearIds(rs))
  {
    if rs != [] {
      var front, last := rs[..|rs| - 1], rs[|rs| - 1];
      NoRepeatSplit(LinearIds(front), IdsOf(last.1));
      MigratedIds(front);
      RepositoriesInOrder(rs);
      RepositoriesInOrder(front);
      assert RekeyedAll(rs)[..|rs| - 1] == RekeyedAll(front);
      OnceInEach(rs, |rs| - 1);
      FiledNames(last.1, last.0);
      NamesConcat(Together(RekeyedAll(front)), LinearIds(front), FiledUnder(Rekeyed(last.1), last.0), IdsOf(last.1));
      hide FiledUnder, Rekeyed, IdsOf, NoRepeat, NamesAre, RekeyedAll, LinearIdsOnce;
    }
  }

  /** A version 2.0 document through both steps: when no Linear id occurs twice, each
      session is found under its Linear id, migrated, with exactly its old repository. */
  lemma BothSteps(v: Nested<OldSession>, a: nat, k: nat)
    requires v.sessions.Some? && NamesOnce(v.sessions.value) && NoRepeat(LinearIds(v.sessions.value))
    requires a < |v.sessions.value| && k < |v.sessions.value[a].1|
    ensures var old2 := v.sessions.value[a].1[k].1;
            var flat := ToFlat(ToNested(v));
            && old2.linearId in flat.sessions
            && flat.sessions[old2.linearId] ==
               Session(old2.linearId, Some(old2.linearId),
                       Some(IssueContext("linear", old2.issueId,
                         if old2.identifier.Some? && old2.identifier.value != "" then old2.identifier.value
                         else old2.issueId)),
                       Some([v.sessions.value[a].0]), old2.issueId, old2.rest)
            && |flat.sessions| == |LinearIds(v.sessions.value)|
            && flat.entries == (if v.entries.Some? then FlatEntries(v.entries.value) else map[])
            && flat.children == v.children
            && flat.cache == (if v.cache.Some? then Some(Wrapped(v.cache.value)) else None)
  {
    var rs := v.sessions.value;
    RepositoriesInOrder(rs);
    OnceInEach(rs, a);
    RekeyedInOrder(rs[a].1);
    MigratedIds(rs);
    assert NamesOnce(Together(RekeyedAll(rs)));
    assert RekeyedAll(rs)[a] == (rs[a].0, Rekeyed(rs[a].1));
    FlatHolds(RekeyedAll(rs), a, k);
    FlatKeepsSessions(RekeyedAll(rs));
    hide FlatSessions, Together, RekeyedAll, Rekeyed, LinearIds;
  }

  // ---------- loading ----------

  datatype Document = V2(old2: Nested<OldSession>) | V3(old3: Nested<Session>) | V4(state: Flat) | Unusable

  /** What a load returns and the document it leaves on disk; `saved` says whether the
      save of a migrated document succeeds, without which the load returns nothing. */
  function Load(d: Document, saved: bool): (Option<Flat>, Document) {
    match d
    case V2(v) => var m := ToFlat(ToNested(v)); if saved then (Some(m), V4(m)) else (None, d)
    case V3(v) => var m := ToFlat(v); if saved then (Some(m), V4(m)) else (None, d)
    case V4(m) => (Some(m), d)
    case Unusable => (None, d)
  }

  method LoadDocument(d: Document, saved: bool) returns (state: Option<Flat>, left: Document)
    ensures (state, left) == Load(d, saved)
    ensures d.Unusable? ==> state == None && left == d
    ensures d.V4? ==> state == Some(d.state) && left == d
    ensures (d.V2? || d.V3?) && !saved ==> state == None && left == d
    ensures d.V2? && saved ==> state == Some(ToFlat(ToNested(d.old2))) && left == V4(state.value)
    ensures d.V3? && saved ==> state == Some(ToFlat(d.old3)) && left == V4(state.value)
  {
    match d {
      case V2(v) =>
        var nested := MigrateV2ToV3(v);
        var migrated := MigrateV3ToV4(nested);
        if saved {
          return Some(migrated), V4(migrated);
        }
        return None, d;
      case V3(v) =>
        var migrated := MigrateV3ToV4(v);
        if saved {
          return Some(migrated), V4(migrated);
        }
        return None, d;
      case V4(m) =>
        return Some(m), d;
      case Unusable =>
        return None, d;
    }
  }

  /** However many migrating saves fail first, the loads end with the same state: nothing
      is given before a save succeeds, and every load after that gives the same. */
  function Loads(d: Document, saves: seq<bool>): Document {
    if saves == [] then d else Load(Loads(d, saves[..|saves| - 1]), saves[|saves| - 1]).1
  }

  lemma {:induction false} LoadsAgree(d: Document, saves: seq<bool>, saved: bool)
    ensures var r := Load(Loads(d, saves), saved).0;
            if d.V4? || saved || true in saves then r == Load(d, true).0 else r == None
  {
    if saves != [] {
      var front := saves[..|saves| - 1];
      assert saves == front + [saves[|saves| - 1]];
      LoadsAgree(d, front, saved);
      LoadsAgree(d, front, saves[|saves| - 1]);
    }
    hide ToFlat, ToNested;
  }
}
