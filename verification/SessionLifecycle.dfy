/** The life of an agent session as the steps between two awaits: what each step does
    to the manager's memory, to the state file and to the locks the router holds. */
module SessionLifecycle {
  import opened Numbers
  import opened Wrappers

  type Id = string

  datatype Status = Pending | Active | AwaitingInput | Complete | Error | Stale

  datatype Terminal = Completed | Failed | Stopped

  datatype Session = Session(status: Status, terminal: Option<Terminal>, runner: bool)

  type Store = map<Id, Session>

  datatype Signal = Signal(id: Id, state: Terminal, forced: bool)

  datatype Activity = ResultEntry | Thought | ErrorActivity

  datatype Event =
    | Posted(id: Id, activity: Activity)
    | Flushed(ok: bool)
    | Signalled(signal: Signal)
    | Resumed(id: Id)

  datatype World = World(
    up: bool,
    sessions: Store,              // lost in a crash
    claimed: set<Id>,             // terminal signal already sent, lost in a crash
    stops: set<Id>,               // stop requests, lost in a crash
    inFlight: multiset<Signal>,   // claimed but not yet emitted, lost in a crash
    disk: Store,                  // the state file; it never holds a runner
    saving: map<nat, Store>,      // snapshots taken by saves that have not landed, lost in a crash
    locks: set<Id>,               // issue locks the router holds for this device
    log: seq<Event>)

  datatype Step =
    | Create(id: Id)
    | Attach(id: Id)
    | SetStatus(id: Id, status: Status)
    | RequestStop(id: Id)
    | DropStop(id: Id)
    | Post(id: Id, activity: Activity)
    | Claim(signal: Signal)
    | Snapshot(save: nat)   // a save is called and takes its snapshot
    | Land(save: nat)       // the save's file replaces the state file
    | Abandon(save: nat)    // the save fails
    | Emit(signal: Signal)
    | Remove(id: Id)
    | Crash
    | Restore
    | Hello

  predicate TerminalStatus(s: Status) {
    s == Complete || s == Error
  }

  /** A runner cannot be written to the state file. */
  function Serialized(sessions: Store): (r: Store)
    ensures r.Keys == sessions.Keys
    ensures forall id :: id in r ==> r[id] == sessions[id].(runner := false)
  {
    map id | id in sessions :: sessions[id].(runner := false)
  }

  /** Sessions the device still answers for; the router keeps only their locks. */
  function Live(sessions: Store): set<Id> {
    set id | id in sessions && (sessions[id].runner || !TerminalStatus(sessions[id].status))
  }

  function Revived(s: Session, claimed: bool): Session {
    Session(if (claimed || s.terminal.Some?) && TerminalStatus(s.status) then Active else s.status, None, true)
  }

  predicate Enabled(w: World, step: Step) {
    match step
    case Restore => !w.up
    case Crash => true
    case Create(id) =>
      w.up && id !in w.sessions && id !in w.disk && forall k :: k in w.saving ==> id !in w.saving[k]
    case Claim(g) => w.up && (g.id !in w.claimed || g.forced)
    case Emit(g) => w.up && g in w.inFlight
    case Snapshot(k) => w.up && k !in w.saving
    case Land(k) => w.up && k in w.saving
    case Abandon(k) => w.up && k in w.saving
    case _ => w.up
  }

  function Apply(w: World, step: Step): World {
    match step
    case Create(id) =>
      w.(sessions := w.sessions[id := Session(Active, None, false)], locks := w.locks + {id})
    case Attach(id) =>
      if id !in w.sessions then w else
        w.(sessions := w.sessions[id := Revived(w.sessions[id], id in w.claimed)],
           claimed := w.claimed - {id},
           locks := w.locks + {id},
           log := w.log + [Resumed(id)])
    case SetStatus(id, s) =>
      if id !in w.sessions then w else w.(sessions := w.sessions[id := w.sessions[id].(status := s)])
    case RequestStop(id) => w.(stops := w.stops + {id})
    case DropStop(id) => w.(stops := w.stops - {id})
    case Post(id, a) => w.(log := w.log + [Posted(id, a)])
    case Claim(g) =>
      w.(claimed := w.claimed + {g.id},
         sessions := if g.id in w.sessions
                     then w.sessions[g.id := w.sessions[g.id].(terminal := Some(g.state))] else w.sessions,
         inFlight := w.inFlight + multiset{g})
    case Snapshot(k) => w.(saving := w.saving[k := Serialized(w.sessions)])
    case Land(k) =>
      if k !in w.saving then w else
        w.(disk := w.saving[k], saving := w.saving - {k}, log := w.log + [Flushed(true)])
    case Abandon(k) => w.(saving := w.saving - {k}, log := w.log + [Flushed(false)])
    case Emit(g) =>
      w.(inFlight := w.inFlight - multiset{g}, locks := w.locks - {g.id}, log := w.log + [Signalled(g)])
    case Remove(id) =>
      w.(sessions := w.sessions - {id}, claimed := w.claimed - {id}, stops := w.stops - {id})
    case Crash =>
      w.(up := false, sessions := map[], claimed := {}, stops := {}, inFlight := multiset{}, saving := map[])
    case Restore =>
      w.(up := true, sessions := w.disk, claimed := set id | id in w.disk && w.disk[id].terminal.Some?)
    case Hello =>
      w.(locks := w.locks * Live(w.sessions))
  }

  // ---------- runs ----------

  predicate Legal(w: World, steps: seq<Step>)
    decreases |steps|
  {
    steps == [] || (Enabled(w, steps[0]) && Legal(Apply(w, steps[0]), steps[1..]))
  }

  function Run(w: World, steps: seq<Step>): World
    decreases |steps|
  {
    if steps == [] then w else Run(Apply(w, steps[0]), steps[1..])
  }

  ghost predicate Reaches(w: World, v: World) {
    exists steps :: Legal(w, steps) && Run(w, steps) == v
  }

  lemma {:induction false} RunConcat(w: World, a: seq<Step>, b: seq<Step>)
    requires Legal(w, a) && Legal(Run(w, a), b)
    ensures Legal(w, a + b) && Run(w, a + b) == Run(Run(w, a), b)
    decreases |a|
  {
    if a == [] {
      assert a + b == b;
    } else {
      assert (a + b)[1..] == a[1..] + b;
      RunConcat(Apply(w, a[0]), a[1..], b);
    }
  }

  lemma OneStep(w: World, step: Step)
    ensures Legal(w, [step]) <==> Enabled(w, step)
    ensures Run(w, [step]) == Apply(w, step)
  {
    assert [step][1..] == [];
    assert Run(Apply(w, step), []) == Apply(w, step);
  }

  lemma ReachesStep(w: World, v: World, step: Step)
    requires Reaches(w, v) && Enabled(v, step)
    ensures Reaches(w, Apply(v, step))
  {
    var steps :| Legal(w, steps) && Run(w, steps) == v;
    OneStep(v, step);
    RunConcat(w, steps, [step]);
  }

  lemma ReachesSelf(w: World)
    ensures Reaches(w, w)
  {
    assert Legal(w, []) && Run(w, []) == w;
  }

  // ---------- the manager's operations, undisturbed ----------

  /** A save with nothing in between: snapshot, then landing or failure. */
  function Flush(w: World, ok: bool): World {
    w.(disk := if ok then Serialized(w.sessions) else w.disk, log := w.log + [Flushed(ok)])
  }

  lemma FlushIsRun(w: World, ok: bool)
    requires w.up
    ensures Reaches(w, Flush(w, ok))
  {
    var k := Unused(w.saving.Keys);
    assert k !in w.saving;
    var taken := Apply(w, Snapshot(k));
    ReachesSelf(w);
    ReachesStep(w, w, Snapshot(k));
    var settled := if ok then Land(k) else Abandon(k);
    ReachesStep(w, taken, settled);
    assert taken.saving - {k} == w.saving;
    assert Apply(taken, settled) == Flush(w, ok);
  }

  /** Claim, flush, emit; nothing when the signal is already claimed and not forced. */
  function EmitOnce(w: World, g: Signal, flushOk: bool): World {
    if g.id in w.claimed && !g.forced then w else
      Apply(Flush(Apply(w, Claim(g)), flushOk), Emit(g))
  }

  lemma EmitEffect(w: World, g: Signal, flushOk: bool)
    requires g.id !in w.claimed || g.forced
    ensures var marked := if g.id in w.sessions
                          then w.sessions[g.id := w.sessions[g.id].(terminal := Some(g.state))] else w.sessions;
            EmitOnce(w, g, flushOk) ==
              World(w.up, marked, w.claimed + {g.id}, w.stops, w.inFlight,
                    if flushOk then Serialized(marked) else w.disk, w.saving, w.locks - {g.id},
                    w.log + [Flushed(flushOk)] + [Signalled(g)])
  {
    assert w.inFlight + multiset{g} - multiset{g} == w.inFlight;
  }

  /** How the surroundings of a completing session behave. */
  datatype Surroundings = Surroundings(
    postThrows: bool,     // posting the result entry, or the stop activity, throws
    blank: bool,          // the result has no content, and nothing is posted for it
    pendingWork: bool,    // the runner, if any, reports scheduled or background work
    thoughtThrows: bool,  // posting the pending-work thought throws, or there is nothing to say
    flushOk: bool)

  predicate StopWins(w: World, id: Id) {
    id in w.stops
  }

  /** The turn ended well, its result was posted, and the runner still has work. */
  predicate Defers(w: World, id: Id, success: bool, env: Surroundings) {
    && id in w.sessions && !StopWins(w, id)
    && success && !env.postThrows && env.pendingWork && w.sessions[id].runner
  }

  function ResultStatus(stopped: bool, success: bool): Status {
    if !stopped && success then Complete else Error
  }

  function ResultTerminal(stopped: bool, success: bool): Terminal {
    if stopped then Stopped else if success then Completed else Failed
  }

  /** The stop request is consumed, the status set and the outcome posted. */
  function Reported(w: World, id: Id, success: bool, env: Surroundings): World {
    var stopped := StopWins(w, id);
    var w1 := Apply(Apply(w, DropStop(id)), SetStatus(id, ResultStatus(stopped, success)));
    if env.postThrows || (env.blank && !stopped) then w1
    else Apply(w1, Post(id, if stopped then ErrorActivity else ResultEntry))
  }

  function Completion(w: World, id: Id, success: bool, env: Surroundings): World {
    if id !in w.sessions then w else
      var w2 := Reported(w, id, success, env);
      if Defers(w, id, success, env) then
        if env.thoughtThrows then w2 else Apply(w2, Post(id, Thought))
      else
        EmitOnce(w2, Signal(id, ResultTerminal(StopWins(w, id), success), false), env.flushOk)
  }

  function Abort(w: World, id: Id, force: bool, flushOk: bool): World {
    EmitOnce(w, Signal(id, Stopped, force), flushOk)
  }

  function Failure(w: World, id: Id, postThrows: bool, flushOk: bool): World {
    var w1 := Apply(w, SetStatus(id, Error));
    var w2 := if postThrows then w1 else Apply(w1, Post(id, ErrorActivity));
    EmitOnce(w2, Signal(id, Failed, false), flushOk)
  }

  /** A failure in full: the status, the activity unless posting throws, and the signal
      behind it unless it had been sent before; the last two for an unknown session, too. */
  lemma {:induction false} FailureExactly(w: World, id: Id, postThrows: bool, flushOk: bool)
    ensures var told := if postThrows then [] else [Posted(id, ErrorActivity)];
            var errored := if id in w.sessions then w.sessions[id := w.sessions[id].(status := Error)] else w.sessions;
            var marked := if id in w.sessions
                          then w.sessions[id := Session(Error, Some(Failed), w.sessions[id].runner)] else w.sessions;
            Failure(w, id, postThrows, flushOk) ==
              if id in w.claimed then w.(sessions := errored, log := w.log + told)
              else
                w.(sessions := marked, claimed := w.claimed + {id},
                   disk := if flushOk then Serialized(marked) else w.disk, locks := w.locks - {id},
                   log := w.log + told + [Flushed(flushOk), Signalled(Signal(id, Failed, false))])
  {
    hide EmitOnce, Serialized, Failure;
    var told := if postThrows then [] else [Posted(id, ErrorActivity)];
    var w2 := w.(sessions := if id in w.sessions then w.sessions[id := w.sessions[id].(status := Error)] else w.sessions,
                 log := w.log + told);
    assert w.log + [] == w.log;
    FailureEmits(w, id, postThrows, flushOk, w2);
    var g := Signal(id, Failed, false);
    if id !in w.claimed {
      EmitEffect(w2, g, flushOk);
      assert w2.log + [Flushed(flushOk)] + [Signalled(g)] == w2.log + [Flushed(flushOk), Signalled(g)];
    } else {
      EmittedBefore(w2, g, flushOk);
    }
  }

  lemma {:induction false} FailureEmits(w: World, id: Id, postThrows: bool, flushOk: bool, w2: World)
    requires w2 == w.(sessions := if id in w.sessions then w.sessions[id := w.sessions[id].(status := Error)] else w.sessions,
                      log := w.log + if postThrows then [] else [Posted(id, ErrorActivity)])
    ensures Failure(w, id, postThrows, flushOk) == EmitOnce(w2, Signal(id, Failed, false), flushOk)
  {
    assert w.log + [] == w.log;
    hide EmitOnce;
  }

  lemma {:induction false} EmittedBefore(w: World, g: Signal, flushOk: bool)
    requires g.id in w.claimed && !g.forced
    ensures EmitOnce(w, g, flushOk) == w
  {
  }

  /** A stop signals unless the session was signalled before; a forced one always does. */
  lemma {:induction false} AbortExactly(w: World, id: Id, force: bool, flushOk: bool)
    ensures var r := Abort(w, id, force, flushOk);
            if id in w.claimed && !force then r == w
            else r.claimed == w.claimed + {id} && r.locks == w.locks - {id}
                 && r.log == w.log + [Flushed(flushOk), Signalled(Signal(id, Stopped, force))]
                 && (id in w.sessions ==> r.sessions == w.sessions[id := w.sessions[id].(terminal := Some(Stopped))])
  {
    var g := Signal(id, Stopped, force);
    if id !in w.claimed || force {
      EmitEffect(w, g, flushOk);
      assert w.log + [Flushed(flushOk)] + [Signalled(g)] == w.log + [Flushed(flushOk), Signalled(g)];
    }
    hide EmitOnce, Serialized;
  }

  /** An attached session holds its lock, has its claim and terminal state back, and is
      active again if it had ended and said so; else it keeps its status. */
  lemma {:induction false} AttachExactly(w: World, id: Id)
    requires id in w.sessions
    ensures var s, r := w.sessions[id], Apply(w, Attach(id));
            var ended := s.status == Complete || s.status == Error;
            && id in r.locks && id !in r.claimed && r.sessions.Keys == w.sessions.Keys
            && r.sessions[id].runner && r.sessions[id].terminal.None?
            && (ended && (id in w.claimed || s.terminal.Some?) ==> r.sessions[id].status == Active)
            && (!ended || (id !in w.claimed && s.terminal.None?) ==> r.sessions[id].status == s.status)
            && (forall i :: i != id ==>
                 (i in r.locks <==> i in w.locks) && (i in r.claimed <==> i in w.claimed)
                 && (i in w.sessions ==> r.sessions[i] == w.sessions[i]))
  {
  }

  /** A hello leaves exactly the locks of sessions with a runner or a status that is not final. */
  lemma {:induction false} HelloExactly(w: World, id: Id)
    ensures id in Apply(w, Hello).locks <==>
            && id in w.locks && id in w.sessions
            && (w.sessions[id].runner || (w.sessions[id].status != Complete && w.sessions[id].status != Error))
  {
  }

  // ---------- reconciliation after a restart ----------

  predicate Interrupted(w: World, id: Id) {
    && id in w.sessions && !w.sessions[id].runner
    && (w.sessions[id].status == Active || w.sessions[id].status == Pending)
    && w.sessions[id].terminal.None? && id !in w.claimed
  }

  /** One round of the loop: which session, and how its post and its flush turn out. */
  datatype Turn = Turn(id: Id, postThrows: bool, flushOk: bool)

  function ReconcileOne(w: World, turn: Turn): World {
    if Interrupted(w, turn.id) then Failure(w, turn.id, turn.postThrows, turn.flushOk) else w
  }

  /** The loop over the restored sessions, in whatever order the map yields them. */
  function Reconcile(w: World, turns: seq<Turn>): World
    decreases |turns|
  {
    if turns == [] then w else Reconcile(ReconcileOne(w, turns[0]), turns[1..])
  }

  predicate Distinct(turns: seq<Turn>) {
    forall i, j :: 0 <= i < j < |turns| ==> turns[i].id != turns[j].id
  }

  function TurnIds(turns: seq<Turn>): set<Id> {
    set t | t in turns :: t.id
  }
}
