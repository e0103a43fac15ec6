/** Locks across crashes: what recovery releases, for every run of the lifecycle steps. */
module CrashRecovery {
  import opened SessionLifecycle
  import opened Wrappers

  predicate RunnerFree(sessions: Store) {
    forall id :: id in sessions ==> !sessions[id].runner
  }

  /** Looks alive on disk although its terminal signal was claimed. */
  predicate Zombie(s: Session) {
    (s.status == Active || s.status == Pending) && s.terminal.Some?
  }

  predicate Settled(s: Status) {
    s in {Active, Pending, Complete, Error}
  }

  // ---------- the reconciliation loop ----------

  /** `r` is `w` with those among `ids` failed and signalled that look alive, have no runner
      and were not signalled before. */
  ghost predicate Reconciled(w: World, r: World, ids: set<Id>) {
    var hit := set id | id in ids && id in w.sessions && !w.sessions[id].runner && w.sessions[id].terminal.None?
                        && w.sessions[id].status in {Active, Pending} && id !in w.claimed;
    && r.up == w.up && r.sessions.Keys == w.sessions.Keys && r.inFlight == w.inFlight
    && r.locks == w.locks - hit && r.claimed == w.claimed + hit
    && forall id :: id in w.sessions ==>
         r.sessions[id] == if id in hit then Session(Error, Some(Failed), false) else w.sessions[id]
  }

  lemma {:induction false} ReconcileOneEffect(w: World, turn: Turn)
    ensures Reconciled(w, ReconcileOne(w, turn), {turn.id})
  {
    if Interrupted(w, turn.id) {
      var w1 := Apply(w, SetStatus(turn.id, Error));
      var w2 := if turn.postThrows then w1 else Apply(w1, Post(turn.id, ErrorActivity));
      EmitEffect(w2, Signal(turn.id, Failed, false), turn.flushOk);
    }
  }

  lemma ReconciledTwice(w: World, v: World, r: World, id: Id, ids: set<Id>)
    requires Reconciled(w, v, {id}) && Reconciled(v, r, ids) && id !in ids
    ensures Reconciled(w, r, {id} + ids)
  {
    assert forall i :: i in ids ==> (Interrupted(v, i) <==> Interrupted(w, i));
  }

  lemma {:induction false} ReconcileEffect(w: World, turns: seq<Turn>)
    requires Distinct(turns)
    ensures Reconciled(w, Reconcile(w, turns), TurnIds(turns))
    decreases |turns|
  {
    if turns != [] {
      var v := ReconcileOne(w, turns[0]);
      ReconcileOneEffect(w, turns[0]);
      ReconcileEffect(v, turns[1..]);
      assert turns == [turns[0]] + turns[1..];
      forall t | t in turns[1..]
        ensures t.id != turns[0].id
      {
        var k :| 0 <= k < |turns[1..]| && turns[1..][k] == t;
        assert turns[k + 1] == t;
      }
      ReconciledTwice(w, v, Reconcile(w, turns), turns[0].id, TurnIds(turns[1..]));
      assert TurnIds(turns) == {turns[0].id} + TurnIds(turns[1..]);
    }
  }

  // ---------- one crash, from any state ----------

  /** Restore, reconcile every restored session once, say hello. */
  function Recover(w: World, turns: seq<Turn>): World {
    Apply(Reconcile(Apply(Apply(w, Crash), Restore), turns), Hello)
  }

  predicate CoversDisk(w: World, turns: seq<Turn>) {
    Distinct(turns) && TurnIds(turns) == w.disk.Keys
  }

  /** After a crash in any state, restart, reconciliation and the hello frame leave a lock
      on a session that looks active, pending, complete or failed exactly when it was
      locked and is a zombie on disk. */
  lemma LeakExactly(w: World, turns: seq<Turn>, id: Id)
    requires RunnerFree(w.disk) && CoversDisk(w, turns)
    ensures var r := Recover(w, turns);
            && r.locks <= r.sessions.Keys
            && (id in r.locks && Settled(r.sessions[id].status) <==>
                id in w.locks && id in w.disk && Zombie(w.disk[id]))
  {
    ReconcileEffect(Apply(Apply(w, Crash), Restore), turns);
  }

  // ---------- every run ----------

  /** Bookkeeping beside a run. `dirty` are the sessions attached since the snapshot in the
      state file was taken, `behind` those attached since each snapshot that has yet to land;
      `hit` are the sessions that some crash found dirty, or with a signal claimed but not
      yet emitted. */
  datatype Track = Track(w: World, dirty: set<Id>, behind: map<nat, set<Id>>, hit: set<Id>)

  function InFlightIds(flight: multiset<Signal>): set<Id> {
    set g | g in flight :: g.id
  }

  function Behind(t: Track, save: nat): set<Id> {
    if save in t.behind then t.behind[save] else {}
  }

  function Next(t: Track, step: Step): Track {
    var v := Apply(t.w, step);
    match step
    case Attach(id) =>
      if id !in t.w.sessions then t.(w := v) else
        Track(v, t.dirty + {id}, map k | k in t.behind :: t.behind[k] + {id}, t.hit)
    case Snapshot(k) => t.(w := v, behind := t.behind[k := {}])
    case Land(k) => Track(v, Behind(t, k), t.behind - {k}, t.hit)
    case Abandon(k) => t.(w := v, behind := t.behind - {k})
    case Crash => Track(v, {}, map[], t.hit + t.dirty + InFlightIds(t.w.inFlight))
    case _ => t.(w := v)
  }

  function RunTrack(t: Track, steps: seq<Step>): Track
    decreases |steps|
  {
    if steps == [] then t else RunTrack(Next(t, steps[0]), steps[1..])
  }

  /** A store whose locked terminal sessions are all accounted for. */
  ghost predicate Accounted(t: Track, store: Store, attached: set<Id>) {
    forall id :: id in store && store[id].terminal.Some? && id in t.w.locks ==>
      id in InFlightIds(t.w.inFlight) + attached + t.hit
  }

  ghost predicate Inv(t: Track) {
    && RunnerFree(t.w.disk)
    && (!t.w.up ==> t.w.sessions == map[] && t.w.inFlight == multiset{} && t.w.saving == map[] && t.dirty == {})
    && Accounted(t, t.w.sessions, {})
    && Accounted(t, t.w.disk, t.dirty)
    && t.behind.Keys == t.w.saving.Keys
    && (forall k :: k in t.w.saving ==> RunnerFree(t.w.saving[k]) && Accounted(t, t.w.saving[k], Behind(t, k)))
  }

  /** A start: no process, and no lock on a session the state file calls terminal. */
  ghost predicate Start(t: Track) {
    && !t.w.up && t.w.sessions == map[] && t.w.inFlight == multiset{} && t.w.saving == map[]
    && t.dirty == {} && t.behind == map[] && t.hit == {} && RunnerFree(t.w.disk)
    && forall id :: id in t.w.disk && id in t.w.locks ==> t.w.disk[id].terminal.None?
  }

  lemma InFlightGrows(flight: multiset<Signal>, g: Signal)
    ensures InFlightIds(flight + multiset{g}) == InFlightIds(flight) + {g.id}
  {
    var after := flight + multiset{g};
    assert g in after;
    forall id | id in InFlightIds(flight)
      ensures id in InFlightIds(after)
    {
      var h :| h in flight && h.id == id;
      assert h in after;
    }
  }

  lemma InFlightShrinks(flight: multiset<Signal>, g: Signal)
    requires g in flight
    ensures var after := InFlightIds(flight - multiset{g});
            g.id in InFlightIds(flight) && after <= InFlightIds(flight) <= after + {g.id}
  {
    var after := flight - multiset{g};
    forall h | h in flight && h != g
      ensures h.id in InFlightIds(after)
    {
      assert h in after;
    }
    forall h | h in after
      ensures h.id in InFlightIds(flight)
    {
      assert h in flight;
    }
  }

  lemma InvSignalStep(t: Track, step: Step)
    requires Inv(t) && Enabled(t.w, step) && (step.Claim? || step.Emit?)
    ensures Inv(Next(t, step))
  {
    if step.Claim? {
      InFlightGrows(t.w.inFlight, step.signal);
    } else {
      InFlightShrinks(t.w.inFlight, step.signal);
    }
  }

  lemma InvSaveStep(t: Track, step: Step)
    requires Inv(t) && Enabled(t.w, step) && (step.Attach? || step.Snapshot? || step.Land? || step.Abandon?)
    ensures Inv(Next(t, step))
  {
  }

  lemma InvOtherStep(t: Track, step: Step)
    requires Inv(t) && Enabled(t.w, step) && !step.Claim? && !step.Emit?
    requires !step.Attach? && !step.Snapshot? && !step.Land? && !step.Abandon?
    ensures Inv(Next(t, step))
  {
  }

  lemma {:induction false} InvStep(t: Track, step: Step)
    requires Inv(t) && Enabled(t.w, step)
    ensures Inv(Next(t, step))
  {
    hide *;
    if step.Claim? || step.Emit? {
      InvSignalStep(t, step);
    } else if step.Attach? || step.Snapshot? || step.Land? || step.Abandon? {
      InvSaveStep(t, step);
    } else {
      InvOtherStep(t, step);
    }
  }

  lemma {:induction false} InvRun(t: Track, steps: seq<Step>)
    requires Inv(t) && Legal(t.w, steps)
    ensures Inv(RunTrack(t, steps)) && RunTrack(t, steps).w == Run(t.w, steps)
    decreases |steps|
  {
    if steps != [] {
      InvStep(t, steps[0]);
      InvRun(Next(t, steps[0]), steps[1..]);
    }
  }

  /** In every run, however saves overlap and fail, signals interleave and crashes repeat:
      after a further crash and recovery each remaining lock on a settled session belongs to
      one that some crash hit between claim and emission, or attached since the snapshot in
      the state file was taken. */
  lemma LocksRecovered(t: Track, steps: seq<Step>, turns: seq<Turn>, id: Id)
    requires Start(t) && Legal(t.w, steps)
    requires CoversDisk(Run(t.w, steps), turns)
    ensures var end := Next(RunTrack(t, steps), Crash);
            var r := Recover(Run(t.w, steps), turns);
            && r.locks <= r.sessions.Keys
            && (id in r.locks && Settled(r.sessions[id].status) ==> id in end.hit)
  {
    InvRun(t, steps);
    LeakExactly(Run(t.w, steps), turns, id);
  }

  /** No crash finds an open claim, or an attachment that the state file does not show. */
  predicate Quiet(t: Track, steps: seq<Step>)
    decreases |steps|
  {
    steps == [] ||
    ((steps[0].Crash? ==> t.dirty == {} && t.w.inFlight == multiset{}) && Quiet(Next(t, steps[0]), steps[1..]))
  }

  lemma {:induction false} QuietNeverHit(t: Track, steps: seq<Step>)
    requires Quiet(t, steps) && t.hit == {}
    ensures RunTrack(t, steps).hit == {}
    decreases |steps|
  {
    if steps != [] {
      QuietNeverHit(Next(t, steps[0]), steps[1..]);
    }
  }

  /** With flush and emission as one step and attachments in the state file, no lock leaks: after
      any such run and a crash, every lock still held belongs to a session that is none of
      active, pending, complete and failed. */
  lemma NoLockLeaks(t: Track, steps: seq<Step>, turns: seq<Turn>, id: Id)
    requires Start(t) && Legal(t.w, steps) && Quiet(t, steps + [Crash])
    requires CoversDisk(Run(t.w, steps), turns)
    ensures var r := Recover(Run(t.w, steps), turns);
            id in r.locks ==> id in r.sessions && !Settled(r.sessions[id].status)
  {
    LocksRecovered(t, steps, turns, id);
    TrackConcat(t, steps, [Crash]);
    QuietNeverHit(t, steps + [Crash]);
    assert [Crash][1..] == [];
  }

  lemma {:induction false} TrackConcat(t: Track, a: seq<Step>, b: seq<Step>)
    ensures RunTrack(t, a + b) == RunTrack(RunTrack(t, a), b)
    decreases |a|
  {
    if a == [] {
      assert a + b == b;
    } else {
      assert (a + b)[1..] == a[1..] + b;
      TrackConcat(Next(t, a[0]), a[1..], b);
    }
  }

  // ---------- the gaps are real ----------

  const A: Id := "a"
  const STOP_SIGNAL: Signal := Signal(A, Stopped, false)
  const EMPTY_WORLD: World := World(true, map[], {}, {}, multiset{}, map[], map[], {}, [])

  /** Created, attached and then stopped, with one save's snapshot taken since, and a
      second one, the stop's own, landed; the signal is not yet emitted. */
  lemma StopSaved() returns (w: World)
    ensures Reaches(EMPTY_WORLD, w) && w.up
    ensures w.sessions == map[A := Session(Active, Some(Stopped), true)]
    ensures w.disk == map[A := Session(Active, Some(Stopped), false)] && w.saving == map[0 := w.disk]
    ensures w.locks == {A} && w.inFlight == multiset{STOP_SIGNAL} && w.claimed == {A}
  {
    hide Reaches;
    ReachesSelf(EMPTY_WORLD);
    ReachesStep(EMPTY_WORLD, EMPTY_WORLD, Create(A));
    var w1 := Apply(EMPTY_WORLD, Create(A));
    ReachesStep(EMPTY_WORLD, w1, Attach(A));
    var w2 := Apply(w1, Attach(A));
    assert w2.sessions == map[A := Session(Active, None, true)];
    ReachesStep(EMPTY_WORLD, w2, Claim(STOP_SIGNAL));
    var w3 := Apply(w2, Claim(STOP_SIGNAL));
    assert w3.sessions == map[A := Session(Active, Some(Stopped), true)];
    var zombie := map[A := Session(Active, Some(Stopped), false)];
    assert Serialized(w3.sessions) == zombie;
    ReachesStep(EMPTY_WORLD, w3, Snapshot(0));
    var w4 := Apply(w3, Snapshot(0));
    assert w4.saving == map[0 := zombie];
    ReachesStep(EMPTY_WORLD, w4, Snapshot(1));
    var w5 := Apply(w4, Snapshot(1));
    assert w5.saving[1] == zombie;
    ReachesStep(EMPTY_WORLD, w5, Land(1));
    w := Apply(w5, Land(1));
    assert w.saving == map[0 := zombie];
  }

  /** A stop that is saved but not emitted when the host dies leaves the lock held. */
  lemma CrashBeforeEmission(turn: Turn)
    requires turn.id == A
    ensures exists w :: Reaches(EMPTY_WORLD, w) && A in Recover(w, [turn]).locks
  {
    var w := StopSaved();
    LeakExactly(w, [turn], A);
  }

  /** Stopped, signalled and revived. */
  lemma StoppedThenRevived() returns (w: World)
    ensures Reaches(EMPTY_WORLD, w) && w.up
    ensures w.sessions == map[A := Session(Active, None, true)] && w.inFlight == multiset{} && w.locks == {A}
    ensures w.disk == map[A := Session(Active, Some(Stopped), false)] && w.saving == map[0 := w.disk]
  {
    hide Reaches;
    var w0 := StopSaved();
    ReachesStep(EMPTY_WORLD, w0, Emit(STOP_SIGNAL));
    var w1 := Apply(w0, Emit(STOP_SIGNAL));
    ReachesStep(EMPTY_WORLD, w1, Attach(A));
    w := Apply(w1, Attach(A));
  }

  /** So does a session stopped, revived and not saved again when the host dies. */
  lemma CrashBeforeAttachSaved(turn: Turn)
    requires turn.id == A
    ensures exists w :: Reaches(EMPTY_WORLD, w) && w.inFlight == multiset{} && A in Recover(w, [turn]).locks
  {
    var w := StoppedThenRevived();
    LeakExactly(w, [turn], A);
  }

  /** And so does one that was saved again, if a save called before the revival lands after
      that: up to this landing a crash would have leaked nothing. */
  lemma OlderSaveLands(turn: Turn)
    requires turn.id == A
    ensures exists w ::
              && Reaches(EMPTY_WORLD, w) && w.inFlight == multiset{} && w.disk == Serialized(w.sessions)
              && Enabled(w, Land(0))
              && !(A in Recover(w, [turn]).locks)
              && A in Recover(Apply(w, Land(0)), [turn]).locks
  {
    hide Reaches;
    var w0 := StoppedThenRevived();
    ReachesStep(EMPTY_WORLD, w0, Snapshot(1));
    var w1 := Apply(w0, Snapshot(1));
    ReachesStep(EMPTY_WORLD, w1, Land(1));
    var w := Apply(w1, Land(1));
    assert w.disk == map[A := Session(Active, None, false)] && w.saving[0] == w0.disk;
    FailedKeepsNoLock(w, turn);
    LeakExactly(Apply(w, Land(0)), [turn], A);
  }

  /** An interrupted session is failed by the recovery, which drops its lock. */
  lemma FailedKeepsNoLock(w: World, turn: Turn)
    requires turn.id == A && w.disk == map[A := Session(Active, None, false)]
    ensures A !in Recover(w, [turn]).locks
  {
    hide Reconcile, Reconciled;
    var restored := Apply(Apply(w, Crash), Restore);
    ReconcileEffect(restored, [turn]);
    assert turn in [turn] && A in TurnIds([turn]);
    ReconciledUnlocks(restored, Reconcile(restored, [turn]), TurnIds([turn]), A);
  }

  lemma ReconciledUnlocks(w: World, r: World, ids: set<Id>, id: Id)
    requires Reconciled(w, r, ids) && id in ids && Interrupted(w, id)
    ensures id !in r.locks
  {
  }
}
