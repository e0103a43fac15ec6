/** The chat session handler's queues: which events await a reply, which wait for the turn
    to end, and what becomes of each, for every interleaving at the awaits. */
module ChatReplies {
  import opened Wrappers

  /** One webhook delivery; deliveries are told apart by `token`. A runner goes by the event
      it was made for. */
  datatype Event = Event(token: nat, thread: string)

  type Queues<K> = map<K, seq<Event>>

  function At<K>(q: Queues<K>, k: K): seq<Event> {
    if k in q then q[k] else []
  }

  function Flat(batches: seq<seq<Event>>): seq<Event> {
    if batches == [] then [] else batches[0] + Flat(batches[1..])
  }

  /** Where an event is. The first three are on the way to a turn of its own, at one of the
      awaits before that starts: no list of the handler holds them, nor a lost event. */
  datatype Place =
    | Creating                      // the workspace of a new session is being made
    | Configuring(session: string)  // the runner is being configured
    | Catching(session: string)     // the runner is attached, the thread's context is read
    | Replying(session: string)
    | Posting(call: nat)
    | FollowUp(thread: string)
    | Scheduled
    | Acknowledged
    | Discarded
    | Lost

  /** What a runner has emitted and the handler has yet to come to. */
  datatype Message = Init(session: string) | Result(session: string)

  /** `current` is the runner attached to a session, `runners` are all ever attached, with
      their sessions, `running` those that run, `unsettled` those whose start may yet fail.
      A session is `resumable` once it has been told a runner session id. */
  datatype Roster = Roster(
    current: map<string, Event>,
    runners: map<Event, string>,
    running: set<Event>,
    unsettled: set<Event>,
    resumable: set<string>,
    pending: multiset<Message>)

  /** `posting` holds, per result being handled, the events drained and not yet
      acknowledged; `sessions` remembers the thread each session was created for. `given` are
      the events whose prompt a runner has been given, `outstanding` maps those injected
      whose prompt still waits for the thread's context to the runner that is to have it. */
  datatype State = State(
    threads: map<string, string>,
    replies: Queues<string>,
    last: map<string, Event>,
    followups: Queues<string>,
    scheduled: seq<seq<Event>>,
    posting: Queues<nat>,
    calls: map<nat, string>,
    acknowledged: seq<Event>,
    discarded: seq<Event>,
    sessions: map<string, string>,
    place: map<Event, Place>,
    given: set<Event>,
    outstanding: map<Event, Event>,
    roster: Roster)

  const UNMANNED := Roster(map[], map[], {}, {}, {}, multiset{})

  const IDLE := State(map[], map[], map[], map[], [], map[], map[], [], [], map[], map[], {}, map[], UNMANNED)

  /** What the handler does with an event before its first await. */
  datatype Way =
    | Inject  // into the thread's running, streaming turn
    | Busy    // the running turn takes no input
    | Resume  // a turn of the thread's session is to be started
    | Create  // and here one of a new session
    | Ignore

  datatype Step =
    | Arrive(event: Event, way: Way)
    | Redispatch(way: Way)                     // the oldest scheduled batch is handled again
    | Bind(event: Event, session: string)      // the session created for the event is its thread's
    | Attach(event: Event, session: string)    // the session gets the runner made for the event
    | Start(event: Event, session: string)     // which is started with the event's prompt
    | Drop(event: Event)                       // any of the three fails
    | Deliver(event: Event)                    // `addStreamMessage` takes its prompt
    | Refuse(event: Event)                     // `addStreamMessage` throws
    | Emit(runner: Event, message: Message)
    | Identified(session: string)              // an `Init` is handled
    | ResultArrives(call: nat, session: string)
    | Posted(call: nat)                        // the reply is posted, or posting failed
    | Stop(runner: Event)                      // it runs no longer
    | Fail(runner: Event)                      // the promise of its start is rejected

  function MoveAll(place: map<Event, Place>, es: seq<Event>, p: Place): (moved: map<Event, Place>)
    ensures moved.Keys == place.Keys
  {
    map e | e in place :: if e in es then p else place[e]
  }

  function Enqueue(s: State, es: seq<Event>, session: string): State
    requires es != []
  {
    s.(replies := s.replies[session := At(s.replies, session) + es], last := s.last[session := es[|es| - 1]],
       place := MoveAll(s.place, es, Replying(session)))
  }

  /** The follow-ups of the session's thread, if it is still that thread's session. */
  function ScheduleFollowups(s: State, session: string): State {
    if session !in s.sessions then s else
      var t := s.sessions[session];
      if t !in s.threads || s.threads[t] != session || At(s.followups, t) == [] then s
      else
        s.(followups := s.followups - {t}, scheduled := s.scheduled + [At(s.followups, t)],
           place := MoveAll(s.place, At(s.followups, t), Scheduled))
  }

  /** The drained events when there is nobody to post for. */
  function Undelivered(s: State, id: string): State {
    s.(replies := s.replies - {id}, place := MoveAll(s.place, At(s.replies, id), Lost))
  }

  function Acked(s: State, c: nat): State {
    s.(posting := s.posting - {c}, calls := s.calls - {c}, acknowledged := s.acknowledged + At(s.posting, c),
       place := MoveAll(s.place, At(s.posting, c), Acknowledged))
  }

  function Drained(s: State, c: nat, id: string): State {
    s.(replies := s.replies - {id}, posting := s.posting[c := At(s.replies, id)], calls := s.calls[c := id],
       place := MoveAll(s.place, At(s.replies, id), Posting(c)))
  }

  function Cleared(s: State, id: string): State {
    s.(replies := s.replies - {id}, last := s.last - {id}, discarded := s.discarded + At(s.replies, id),
       place := MoveAll(s.place, At(s.replies, id), Discarded))
  }

  /** The runner attached to the session a thread is bound to. */
  function RunnerOf(s: State, t: string): Option<Event> {
    if t in s.threads && s.threads[t] in s.roster.current then Some(s.roster.current[s.threads[t]]) else None
  }

  predicate Running(s: State, t: string) {
    RunnerOf(s, t).Some? && RunnerOf(s, t).value in s.roster.running
  }

  /** The ways open to an event of the thread. Whatever the thread, the adapter may throw. */
  predicate Open(s: State, t: string, way: Way) {
    match way
    case Inject => Running(s, t)
    case Busy => Running(s, t)
    case Resume => !Running(s, t) && RunnerOf(s, t).Some? && s.threads[t] in s.roster.resumable
    case Create => !Running(s, t) && (RunnerOf(s, t).Some? ==> s.threads[t] !in s.roster.resumable)
    case Ignore => true
  }

  /** Where a way leads. */
  function To(s: State, t: string, way: Way): Place {
    match way
    case Busy => FollowUp(t)
    case Create => Creating
    case Inject => if t in s.threads then Replying(s.threads[t]) else Lost
    case Resume => if t in s.threads then Configuring(s.threads[t]) else Lost
    case Ignore => Lost
  }

  /** Events of one thread are taken up together. */
  function Take(s: State, es: seq<Event>, way: Way): State
    requires es != []
  {
    var t := es[0].thread;
    if way.Inject? && RunnerOf(s, t).Some? then
      Enqueue(s, es, s.threads[t])
    else
      var v := s.(place := MoveAll(s.place, es, To(s, t, way)));
      if way.Busy? then v.(followups := s.followups[t := At(s.followups, t) + es]) else v
  }

  /** What a step tells of the runners. */
  function Noted(r: Roster, step: Step): Roster {
    match step
    case Attach(e, id) => r.(current := r.current[id := e], runners := r.runners[e := id])
    case Start(e, _) => r.(running := r.running + {e}, unsettled := r.unsettled + {e})
    case Emit(_, m) => r.(pending := r.pending + multiset{m})
    case Identified(id) => r.(pending := r.pending - multiset{Init(id)}, resumable := r.resumable + {id})
    case ResultArrives(_, id) => r.(pending := r.pending - multiset{Result(id)})
    case Stop(e) => r.(running := r.running - {e})
    case Fail(e) => r.(running := r.running - {e}, unsettled := r.unsettled - {e})
    case _ => r
  }

  /** What it does to the handler's own lists. */
  function Shifted(s: State, step: Step): State {
    match step
    case Arrive(e, way) => Take(s.(place := s.place[e := Lost]), [e], way)
    case Redispatch(way) =>
      if s.scheduled == [] || s.scheduled[0] == [] then s
      else Take(s.(scheduled := s.scheduled[1..]), s.scheduled[0], way)
    case Bind(e, id) =>
      s.(threads := s.threads[e.thread := id], sessions := s.sessions[id := e.thread],
         place := MoveAll(s.place, [e], Configuring(id)))
    case Attach(e, id) => s.(place := MoveAll(s.place, [e], Catching(id)))
    case Start(e, id) => Enqueue(s, [e], id)
    case Drop(e) => s.(place := MoveAll(s.place, [e], Lost))
    case ResultArrives(c, id) =>
      if id in s.roster.current && (At(s.replies, id) != [] || id in s.last) then Drained(s, c, id)
      else ScheduleFollowups(Undelivered(s, id), id)
    case Posted(c) =>
      if c !in s.calls then s else
        ScheduleFollowups(Acked(s, c), s.calls[c])
    case Fail(r) => if r in s.roster.runners then Cleared(s, s.roster.runners[r]) else s
    case _ => s
  }

  function Given(s: State, step: Step): set<Event> {
    match step
    case Start(e, _) => s.given + {e}
    case Deliver(e) => s.given + {e}
    case _ => s.given
  }

  /** The prompts an injection leaves to be given, each with its runner. */
  function Injections(s: State, es: seq<Event>, way: Way): map<Event, Event>
    requires es != []
  {
    if way.Inject? && RunnerOf(s, es[0].thread).Some? then
      map e | e in es :: RunnerOf(s, es[0].thread).value
    else map[]
  }

  function Outstanding(s: State, step: Step): map<Event, Event> {
    match step
    case Arrive(e, way) => s.outstanding + Injections(s, [e], way)
    case Redispatch(way) =>
      if s.scheduled == [] || s.scheduled[0] == [] then s.outstanding
      else s.outstanding + Injections(s, s.scheduled[0], way)
    case Deliver(e) => s.outstanding - {e}
    case Refuse(e) => s.outstanding - {e}
    case _ => s.outstanding
  }

  function Apply(s: State, step: Step): State {
    Shifted(s, step).(
      roster := Noted(s.roster, step), given := Given(s, step), outstanding := Outstanding(s, step))
  }

  predicate Is(s: State, e: Event, p: Place) {
    e in s.place && s.place[e] == p
  }

  /** The places on the way to a turn of one's own. */
  predicate OnWay(p: Place) {
    p.Creating? || p.Configuring? || p.Catching?
  }

  predicate Enabled(s: State, step: Step) {
    match step
    case Arrive(e, way) => e !in s.place && Open(s, e.thread, way)
    case Redispatch(way) =>
      s.scheduled != [] && s.scheduled[0] != [] && way != Ignore && Open(s, s.scheduled[0][0].thread, way)
    case Bind(e, id) => Is(s, e, Creating) && id !in s.sessions
    case Attach(e, id) => Is(s, e, Configuring(id))
    case Start(e, id) => Is(s, e, Catching(id))
    case Drop(e) => e in s.place && OnWay(s.place[e])
    case Deliver(e) => e in s.outstanding && s.outstanding[e] in s.roster.running
    case Refuse(e) => e in s.outstanding
    case Emit(r, m) => r in s.roster.running && r in s.roster.runners && s.roster.runners[r] == m.session
    case Identified(id) => Init(id) in s.roster.pending
    case ResultArrives(c, id) => Result(id) in s.roster.pending && c !in s.calls && c !in s.posting
    case Posted(c) => c in s.calls
    case Stop(r) => r in s.roster.running
    case Fail(r) => r in s.roster.unsettled
  }

  function Run(s: State, ss: seq<Step>): State {
    if ss == [] then s else Apply(Run(s, ss[..|ss| - 1]), ss[|ss| - 1])
  }

  predicate Legal(s: State, ss: seq<Step>) {
    ss == [] || (Legal(s, ss[..|ss| - 1]) && Enabled(Run(s, ss[..|ss| - 1]), ss[|ss| - 1]))
  }

  // ---------- conservation ----------

  predicate Held(p: Place) {
    !OnWay(p) && !p.Lost?
  }

  /** The handler's own list behind a place. */
  function Holds(s: State, p: Place): seq<Event> {
    match p
    case Replying(id) => At(s.replies, id)
    case Posting(c) => At(s.posting, c)
    case FollowUp(t) => At(s.followups, t)
    case Scheduled => Flat(s.scheduled)
    case Acknowledged => s.acknowledged
    case Discarded => s.discarded
    case _ => []
  }

  predicate NoDup(es: seq<Event>) {
    forall i, j :: 0 <= i < j < |es| ==> es[i] != es[j]
  }

  /** Every list holds exactly the events of its place, each once. */
  ghost predicate Placed(s: State) {
    forall p :: Held(p) ==> NoDup(Holds(s, p)) && forall e :: e in Holds(s, p) <==> Is(s, e, p)
  }

  lemma NoDupConcat(x: seq<Event>, y: seq<Event>)
    requires NoDup(x) && NoDup(y) && forall e :: e in x ==> e !in y
    ensures NoDup(x + y)
  {
    forall i, j | 0 <= i < j < |x + y|
      ensures (x + y)[i] != (x + y)[j]
    {
      if i < |x| <= j {
        assert x[i] in x && y[j - |x|] in y;
      }
    }
  }

  lemma NoDupSplit(x: seq<Event>, y: seq<Event>)
    requires NoDup(x + y)
    ensures NoDup(x) && NoDup(y) && forall e :: e in x ==> e !in y
  {
    forall i, j | 0 <= i < |x| && 0 <= j < |y|
      ensures x[i] != y[j]
    {
      assert (x + y)[i] == x[i] && (x + y)[|x| + j] == y[j];
    }
    forall i, j | 0 <= i < j < |x|
      ensures x[i] != x[j]
    {
      assert (x + y)[i] == x[i] && (x + y)[j] == x[j];
    }
    forall i, j | 0 <= i < j < |y|
      ensures y[i] != y[j]
    {
      assert (x + y)[|x| + i] == y[i] && (x + y)[|x| + j] == y[j];
    }
  }

  /** Moving a list of events from one place to another keeps every event placed. */
  lemma Moved(s: State, v: State, es: seq<Event>, from: Place, to: Place)
    requires Placed(s) && from != to && NoDup(es) && forall e :: e in es ==> Is(s, e, from)
    requires v.place == MoveAll(s.place, es, to)
    requires Held(from) ==> Holds(s, from) == es + Holds(v, from)
    requires Held(to) ==> Holds(v, to) == Holds(s, to) + es
    requires forall p :: Held(p) && p != from && p != to ==> Holds(v, p) == Holds(s, p)
    ensures Placed(v)
  {
    forall p | Held(p)
      ensures NoDup(Holds(v, p)) && forall e :: e in Holds(v, p) <==> Is(v, e, p)
    {
      PlaceMoved(s, v, es, from, to, p);
    }
  }

  lemma PlaceMoved(s: State, v: State, es: seq<Event>, from: Place, to: Place, p: Place)
    requires Placed(s) && from != to && NoDup(es) && forall e :: e in es ==> Is(s, e, from)
    requires v.place == MoveAll(s.place, es, to)
    requires Held(p)
    requires p == from ==> Holds(s, from) == es + Holds(v, from)
    requires p == to ==> Holds(v, to) == Holds(s, to) + es
    requires p != from && p != to ==> Holds(v, p) == Holds(s, p)
    ensures NoDup(Holds(v, p)) && forall e :: e in Holds(v, p) <==> Is(v, e, p)
  {
    assert NoDup(Holds(s, p)) && forall e :: e in Holds(s, p) <==> Is(s, e, p);
    assert forall e :: e in es ==> Is(s, e, from);
    IsMoved(s, v, es, to, p);
    if p == from {
      LeftBehind(s, v, es, Holds(v, p), from);
    } else if p == to {
      Joined(s, v, es, Holds(s, p), from, to);
    } else {
      Untouched(s, es, from, p);
    }
  }

  lemma IsMoved(s: State, v: State, es: seq<Event>, to: Place, p: Place)
    requires v.place == MoveAll(s.place, es, to)
    ensures forall e :: Is(v, e, p) <==> (if e in es then e in s.place && p == to else Is(s, e, p))
  {
  }

  lemma LeftBehind(s: State, v: State, es: seq<Event>, rest: seq<Event>, from: Place)
    requires NoDup(es + rest) && forall e :: e in es + rest <==> Is(s, e, from)
    requires forall e :: Is(v, e, from) <==> e !in es && Is(s, e, from)
    ensures NoDup(rest) && forall e :: e in rest <==> Is(v, e, from)
  {
    NoDupSplit(es, rest);
    hide *;
    forall e ensures e in rest <==> Is(v, e, from) {
      assert e in es + rest <==> e in es || e in rest;
    }
  }

  lemma Joined(s: State, v: State, es: seq<Event>, before: seq<Event>, from: Place, to: Place)
    requires NoDup(es) && NoDup(before) && from != to
    requires forall e :: e in before <==> Is(s, e, to)
    requires forall e :: e in es ==> Is(s, e, from)
    requires forall e :: Is(v, e, to) <==> (if e in es then e in s.place else Is(s, e, to))
    ensures NoDup(before + es) && forall e :: e in before + es <==> Is(v, e, to)
  {
    forall e | e in es ensures e !in before && e in s.place {
      assert Is(s, e, from);
    }
    NoDupConcat(before, es);
    hide *;
    forall e ensures e in before + es <==> Is(v, e, to) {
      assert e in before + es <==> e in before || e in es;
    }
  }

  lemma Untouched(s: State, es: seq<Event>, from: Place, p: Place)
    requires p != from && forall e :: e in es ==> Is(s, e, from)
    ensures forall e :: e in es ==> !Is(s, e, p)
  {
  }

  lemma ScheduleKeeps(s: State, id: string)
    requires Placed(s)
    ensures Placed(ScheduleFollowups(s, id))
  {
    var v := ScheduleFollowups(s, id);
    if v != s {
      var t := s.sessions[id];
      var es := At(s.followups, t);
      assert es == Holds(s, FollowUp(t));
      assert Held(FollowUp(t));
      FlatSnoc(s.scheduled, es);
      assert es == es + Holds(v, FollowUp(t));
      Moved(s, v, es, FollowUp(t), Scheduled);
    }
  }

  lemma {:induction false} FlatSnoc(bs: seq<seq<Event>>, b: seq<Event>)
    ensures Flat(bs + [b]) == Flat(bs) + b
  {
    if bs == [] {
      assert bs + [b] == [b] && [b][1..] == [];
      assert Flat([b]) == b + [];
    } else {
      assert (bs + [b])[1..] == bs[1..] + [b];
      FlatSnoc(bs[1..], b);
      assert bs[0] + (Flat(bs[1..]) + b) == bs[0] + Flat(bs[1..]) + b;
    }
  }

  lemma StepKeeps(s: State, step: Step)
    requires Placed(s) && Enabled(s, step)
    ensures Placed(Apply(s, step))
  {
    ShiftKeeps(s, step);
    hide Shifted, Enabled, Noted, Given, Outstanding;
    RestKeeps(Shifted(s, step), Apply(s, step));
  }

  /** Where the events are is no matter of the runners and their prompts. */
  lemma RestKeeps(s: State, v: State)
    requires Placed(s) && v == s.(roster := v.roster, given := v.given, outstanding := v.outstanding)
    ensures Placed(v)
  {
    assert forall p :: Holds(v, p) == Holds(s, p);
    hide Holds, NoDup;
  }

  lemma ShiftKeeps(s: State, step: Step)
    requires Placed(s) && Enabled(s, step)
    ensures Placed(Shifted(s, step))
  {
    match step
    case Arrive(e, way) => ArriveKeeps(s, e, way);
    case Redispatch(way) => RedispatchKeeps(s, way);
    case Bind(e, _) => WayKeeps(s, step, e);
    case Attach(e, _) => WayKeeps(s, step, e);
    case Start(e, _) => WayKeeps(s, step, e);
    case Drop(e) => WayKeeps(s, step, e);
    case ResultArrives(c, id) => ResultKeeps(s, c, id);
    case Posted(c) => PostedKeeps(s, c);
    case Fail(r) => FailKeeps(s, r);
    case _ =>
    hide *;
  }

  lemma WayKeeps(s: State, step: Step, e: Event)
    requires step.Bind? || step.Attach? || step.Start? || step.Drop?
    requires Placed(s) && Enabled(s, step) && step.event == e
    ensures Placed(Shifted(s, step))
  {
    hide Placed, MoveAll, Take, ScheduleFollowups;
    var v := Shifted(s, step);
    match step
    case Bind(_, id) => OneMoved(s, v, e, Configuring(id));
    case Attach(_, id) => OneMoved(s, v, e, Catching(id));
    case Start(_, id) => OneMoved(s, v, e, Replying(id));
    case Drop(_) => OneMoved(s, v, e, Lost);
  }

  lemma OneMoved(s: State, v: State, e: Event, to: Place)
    requires Placed(s) && e in s.place && OnWay(s.place[e]) && to != s.place[e]
    requires v.place == MoveAll(s.place, [e], to) && (Held(to) ==> Holds(v, to) == Holds(s, to) + [e])
    requires forall p :: Held(p) && p != to ==> Holds(v, p) == Holds(s, p)
    ensures Placed(v)
  {
    hide Holds;
    Moved(s, v, [e], s.place[e], to);
  }

  lemma NewKeeps(s: State, e: Event)
    requires Placed(s) && e !in s.place
    ensures Placed(s.(place := s.place[e := Lost]))
  {
    var v := s.(place := s.place[e := Lost]);
    forall p | Held(p)
      ensures NoDup(Holds(v, p)) && forall d :: d in Holds(v, p) <==> Is(v, d, p)
    {
      assert Holds(v, p) == Holds(s, p);
      assert forall d :: d in Holds(s, p) <==> Is(s, d, p);
      assert forall d :: Is(v, d, p) <==> Is(s, d, p);
    }
  }

  /** Taking events up keeps them placed: those of a batch no longer in its list, and a
      single one that has just come. */
  lemma TakeKeeps(s: State, u: State, es: seq<Event>, from: Place, way: Way)
    requires Placed(s) && (from == Lost || from == Scheduled) && es != [] && NoDup(es)
    requires forall e :: e in es ==> Is(s, e, from)
    requires u == s.(scheduled := u.scheduled) && (from == Lost ==> u == s)
    requires from == Scheduled ==> Holds(s, Scheduled) == es + Holds(u, Scheduled)
    requires Open(s, es[0].thread, way) && way != Ignore
    ensures Placed(Take(u, es, way))
  {
    var t := es[0].thread;
    var v, to := Take(u, es, way), To(s, t, way);
    assert v.place == MoveAll(s.place, es, to);
    assert Held(to) ==> Holds(v, to) == Holds(s, to) + es;
    assert forall p :: Held(p) && p != to && p != from ==> Holds(v, p) == Holds(s, p);
    assert from == Scheduled ==> Holds(v, from) == Holds(u, from);
    hide Placed, Take, To, Open, Holds;
    Moved(s, v, es, from, to);
  }

  lemma ArriveKeeps(s: State, e: Event, way: Way)
    requires Placed(s) && Enabled(s, Arrive(e, way))
    ensures Placed(Shifted(s, Arrive(e, way)))
  {
    var u := s.(place := s.place[e := Lost]);
    NewKeeps(s, e);
    assert Open(u, e.thread, way);
    if way == Ignore {
      assert Take(u, [e], way).place == u.place;
    } else {
      hide Placed;
      TakeKeeps(u, u, [e], Lost, way);
    }
  }

  lemma RedispatchKeeps(s: State, way: Way)
    requires Placed(s) && Enabled(s, Redispatch(way))
    ensures Placed(Shifted(s, Redispatch(way)))
  {
    var u, es := s.(scheduled := s.scheduled[1..]), s.scheduled[0];
    assert Holds(s, Scheduled) == es + Holds(u, Scheduled);
    assert Held(Scheduled);
    NoDupSplit(es, Holds(u, Scheduled));
    forall e | e in es ensures Is(s, e, Scheduled) {
      assert e in Holds(s, Scheduled);
    }
    hide Placed, Take, Open;
    TakeKeeps(s, u, es, Scheduled, way);
  }

  lemma FailKeeps(s: State, r: Event)
    requires Placed(s)
    ensures Placed(Shifted(s, Fail(r)))
  {
    hide Placed;
    if r in s.roster.runners {
      DrainKeeps(s, Cleared(s, s.roster.runners[r]), s.roster.runners[r], Discarded);
    }
  }

  /** A session's whole reply queue moves on. */
  lemma DrainKeeps(s: State, v: State, id: string, to: Place)
    requires Placed(s) && to != Replying(id)
    requires v.place == MoveAll(s.place, At(s.replies, id), to) && At(v.replies, id) == []
    requires Held(to) ==> Holds(v, to) == Holds(s, to) + At(s.replies, id)
    requires forall p :: Held(p) && p != Replying(id) && p != to ==> Holds(v, p) == Holds(s, p)
    ensures Placed(v)
  {
    var es := At(s.replies, id);
    assert Holds(s, Replying(id)) == es && Held(Replying(id));
    assert es == es + Holds(v, Replying(id));
    Moved(s, v, es, Replying(id), to);
  }

  lemma ResultKeeps(s: State, c: nat, id: string)
    requires Placed(s) && c !in s.posting
    ensures Placed(Shifted(s, ResultArrives(c, id)))
  {
    if id in s.roster.current && (At(s.replies, id) != [] || id in s.last) {
      DrainedKeeps(s, c, id);
      hide Placed, Drained;
    } else {
      LostKeeps(s, id);
      ScheduleKeeps(Undelivered(s, id), id);
      hide ScheduleFollowups, Placed;
    }
  }

  lemma DrainedKeeps(s: State, c: nat, id: string)
    requires Placed(s) && c !in s.posting
    ensures Placed(Drained(s, c, id))
  {
    assert At(s.posting, c) == [] && [] + At(s.replies, id) == At(s.replies, id);
    DrainKeeps(s, Drained(s, c, id), id, Posting(c));
  }

  lemma LostKeeps(s: State, id: string)
    requires Placed(s)
    ensures Placed(Undelivered(s, id))
  {
    DrainKeeps(s, Undelivered(s, id), id, Lost);
  }

  lemma AckedKeeps(s: State, c: nat)
    requires Placed(s)
    ensures Placed(Acked(s, c))
  {
    var es, v := At(s.posting, c), Acked(s, c);
    assert Holds(s, Posting(c)) == es && Held(Posting(c));
    assert es == es + Holds(v, Posting(c));
    Moved(s, v, es, Posting(c), Acknowledged);
  }

  lemma PostedKeeps(s: State, c: nat)
    requires Placed(s) && c in s.calls
    ensures Placed(Shifted(s, Posted(c)))
  {
    AckedKeeps(s, c);
    ScheduleKeeps(Acked(s, c), s.calls[c]);
    hide ScheduleFollowups, Placed;
  }

  lemma IdlePlaced()
    ensures Placed(IDLE)
  {
  }

  lemma {:induction false} RunPlaced(ss: seq<Step>)
    requires Legal(IDLE, ss)
    ensures Placed(Run(IDLE, ss))
  {
    if ss == [] {
      IdlePlaced();
    } else {
      RunPlaced(ss[..|ss| - 1]);
      StepKeeps(Run(IDLE, ss[..|ss| - 1]), ss[|ss| - 1]);
      hide Placed, Apply, Enabled;
    }
  }

  lemma {:induction false} CountsOnce(es: seq<Event>, e: Event)
    requires NoDup(es)
    ensures multiset(es)[e] == if e in es then 1 else 0
  {
    if es != [] {
      var front, last := es[..|es| - 1], es[|es| - 1];
      assert es == front + [last];
      CountsOnce(front, e);
    }
  }

  /** Conservation: in every run, at every moment, an event that arrived is in exactly one
      of the handler's lists, once, or on the way to its turn, or lost. */
  lemma {:induction false} OnePlace(ss: seq<Step>, e: Event)
    requires Legal(IDLE, ss) && e in Run(IDLE, ss).place
    ensures var s := Run(IDLE, ss);
            forall p :: Held(p) ==> multiset(Holds(s, p))[e] == if s.place[e] == p then 1 else 0
  {
    var s := Run(IDLE, ss);
    RunPlaced(ss);
    forall p | Held(p)
      ensures multiset(Holds(s, p))[e] == if s.place[e] == p then 1 else 0
    {
      assert NoDup(Holds(s, p)) && forall d :: d in Holds(s, p) <==> Is(s, d, p);
      CountsOnce(Holds(s, p), e);
    }
    hide Holds, Run, Legal;
  }

  lemma HeldAt(s: State, e: Event, p: Place)
    requires Placed(s) && Held(p)
    ensures e in Holds(s, p) <==> Is(s, e, p)
  {
    hide Holds;
  }

  /** Which events a step moves, and where from. */
  lemma Followed(s: State, id: string, e: Event)
    requires Placed(s) && e in s.place
    ensures var v := ScheduleFollowups(s, id);
            && e in v.place
            && (s.place[e] != v.place[e] <==>
                  id in s.sessions && s.sessions[id] in s.threads && s.threads[s.sessions[id]] == id
                  && s.place[e] == FollowUp(s.sessions[id]))
            && (s.place[e] != v.place[e] ==> v.place[e] == Scheduled)
  {
    if id in s.sessions {
      HeldAt(s, e, FollowUp(s.sessions[id]));
    }
    hide Placed;
  }

  lemma QueuedAt(s: State, e: Event, id: string)
    requires Placed(s)
    ensures e in At(s.replies, id) <==> Is(s, e, Replying(id))
  {
    HeldAt(s, e, Replying(id));
    hide Placed;
  }

  /** The session whose turn a step ends: when its reply is posted, or at once when there
      is none to post. */
  function TurnEnded(s: State, step: Step): Option<string> {
    match step
    case Posted(c) => if c in s.calls then Some(s.calls[c]) else None
    case ResultArrives(_, id) =>
      if id in s.roster.current && (At(s.replies, id) != [] || id in s.last) then None else Some(id)
    case _ => None
  }

  /** The follow-ups of thread `t` go on when a turn of its current session ends. */
  predicate GoesOn(s: State, id: string, t: string) {
    id in s.sessions && s.sessions[id] == t && t in s.threads && s.threads[t] == id
  }

  /** Where a step takes an event that is at a place. */
  function Destination(s: State, step: Step, e: Event, p: Place): Place {
    var ended := TurnEnded(s, step);
    if p.FollowUp? && ended.Some? && GoesOn(s, ended.value, p.thread) then Scheduled else
      match step
      case Redispatch(way) =>
        if p.Scheduled? && s.scheduled != [] && e in s.scheduled[0] then To(s, s.scheduled[0][0].thread, way) else p
      case Bind(d, id) => if d == e then Configuring(id) else p
      case Attach(d, id) => if d == e then Catching(id) else p
      case Start(d, id) => if d == e then Replying(id) else p
      case Drop(d) => if d == e then Lost else p
      case ResultArrives(c, id) => if p != Replying(id) then p else if ended.None? then Posting(c) else Lost
      case Posted(c) => if p == Posting(c) then Acknowledged else p
      case Fail(r) => if r in s.roster.runners && p == Replying(s.roster.runners[r]) then Discarded else p
      case _ => p
  }

  lemma UndeliveredMoves(s: State, id: string, e: Event)
    requires Placed(s) && e in s.place
    ensures var v, p := ScheduleFollowups(Undelivered(s, id), id), s.place[e];
            Is(v, e, if p == Replying(id) then Lost else if p.FollowUp? && GoesOn(s, id, p.thread) then Scheduled else p)
  {
    QueuedAt(s, e, id);
    LostKeeps(s, id);
    Followed(Undelivered(s, id), id, e);
    hide ScheduleFollowups, Placed;
  }

  lemma ResultMoves(s: State, c: nat, id: string, e: Event)
    requires Placed(s) && e in s.place
    ensures var step := ResultArrives(c, id);
            Is(Shifted(s, step), e, Destination(s, step, e, s.place[e]))
  {
    hide ScheduleFollowups, Undelivered, Placed, Take, Cleared, Acked, Enqueue, To;
    QueuedAt(s, e, id);
    UndeliveredMoves(s, id, e);
  }

  lemma PostedMoves(s: State, c: nat, e: Event)
    requires Placed(s) && c in s.calls && e in s.place
    ensures Is(Shifted(s, Posted(c)), e, Destination(s, Posted(c), e, s.place[e]))
  {
    hide ScheduleFollowups, Placed;
    AckedKeeps(s, c);
    HeldAt(s, e, Posting(c));
    Followed(Acked(s, c), s.calls[c], e);
  }

  lemma FailMoves(s: State, r: Event, e: Event)
    requires Placed(s) && e in s.place
    ensures Is(Shifted(s, Fail(r)), e, Destination(s, Fail(r), e, s.place[e]))
  {
    if r in s.roster.runners {
      QueuedAt(s, e, s.roster.runners[r]);
    }
    hide Placed;
  }

  lemma ArriveMoves(s: State, d: Event, way: Way, e: Event)
    requires e in s.place && d != e
    ensures Is(Shifted(s, Arrive(d, way)), e, s.place[e])
  {
  }

  lemma RedispatchMoves(s: State, way: Way, e: Event)
    requires Placed(s) && Enabled(s, Redispatch(way)) && e in s.place
    ensures Is(Shifted(s, Redispatch(way)), e, Destination(s, Redispatch(way), e, s.place[e]))
  {
    HeldAt(s, e, Scheduled);
    hide Placed;
    assert Shifted(s, Redispatch(way)).place == MoveAll(s.place, s.scheduled[0], To(s, s.scheduled[0][0].thread, way));
  }

  lemma ShiftMoves(s: State, step: Step, e: Event)
    requires Placed(s) && Enabled(s, step) && e in s.place
    ensures Is(Shifted(s, step), e, Destination(s, step, e, s.place[e]))
  {
    match step
    case ResultArrives(c, id) =>
      ResultMoves(s, c, id, e);
      hide *;
    case Posted(c) =>
      PostedMoves(s, c, e);
      hide *;
    case Fail(r) =>
      FailMoves(s, r, e);
      hide *;
    case Arrive(d, way) =>
      ArriveMoves(s, d, way, e);
      hide *;
    case Redispatch(way) =>
      RedispatchMoves(s, way, e);
      hide *;
    case _ => hide Placed, ScheduleFollowups, Take, Cleared, Undelivered, Acked, Drained, Open, To;
  }

  /** Every step moves exactly the events it should, and to where it should. */
  lemma PlaceAfter(s: State, step: Step, e: Event)
    requires Placed(s) && Enabled(s, step) && e in s.place
    ensures Is(Apply(s, step), e, Destination(s, step, e, s.place[e]))
  {
    ShiftMoves(s, step, e);
    hide Placed, Shifted, Enabled, Destination, Noted, Given, Outstanding;
  }

  /** Where the events go that have just come. */
  lemma Arrived(s: State, e: Event, way: Way)
    requires Enabled(s, Arrive(e, way))
    ensures Is(Apply(s, Arrive(e, way)), e, To(s, e.thread, way))
  {
  }

  /** Until the reply of a result is posted, the events it drained stay with it. */
  lemma StaysPosting(s: State, step: Step, e: Event, c: nat)
    requires Placed(s) && Enabled(s, step) && Is(s, e, Posting(c)) && step != Posted(c)
    ensures Is(Apply(s, step), e, Posting(c))
  {
    PlaceAfter(s, step, e);
    hide Placed, Apply;
  }

  lemma {:induction false} RunKeeps(s: State, ss: seq<Step>)
    requires Placed(s) && Legal(s, ss)
    ensures Placed(Run(s, ss))
  {
    if ss != [] {
      RunKeeps(s, ss[..|ss| - 1]);
      StepKeeps(Run(s, ss[..|ss| - 1]), ss[|ss| - 1]);
      hide Placed, Apply, Enabled;
    }
  }

  lemma {:induction false} WaitsForPost(s: State, ss: seq<Step>, e: Event, c: nat)
    requires Placed(s) && Legal(s, ss) && Is(s, e, Posting(c)) && Posted(c) !in ss
    ensures Is(Run(s, ss), e, Posting(c))
  {
    if ss != [] {
      var front := ss[..|ss| - 1];
      WaitsForPost(s, front, e, c);
      RunKeeps(s, front);
      StaysPosting(Run(s, front), ss[|ss| - 1], e, c);
      hide Placed, Apply, Enabled;
    }
  }

  lemma ResultDrains(s: State, c: nat, id: string, e: Event)
    requires Placed(s) && Enabled(s, ResultArrives(c, id)) && id in s.roster.current && e in At(s.replies, id)
    ensures var v := Apply(s, ResultArrives(c, id)); At(v.replies, id) == [] && Is(v, e, Posting(c)) && Placed(v)
  {
    StepKeeps(s, ResultArrives(c, id));
    QueuedAt(s, e, id);
    hide Placed, ScheduleFollowups;
  }

  lemma PostAcknowledges(s: State, c: nat, e: Event)
    requires Placed(s) && Enabled(s, Posted(c)) && Is(s, e, Posting(c))
    ensures Is(Apply(s, Posted(c)), e, Acknowledged)
  {
    PlaceAfter(s, Posted(c), e);
    hide Placed, Apply;
  }

  /** A result answers the whole queue: nothing is left in it, and every event that was in
      it is acknowledged once the reply is posted, whatever happens in between. */
  lemma {:induction false} ResultAnswersAll(s: State, c: nat, id: string, between: seq<Step>, e: Event)
    requires Placed(s) && Enabled(s, ResultArrives(c, id)) && id in s.roster.current && e in At(s.replies, id)
    requires var v := Apply(s, ResultArrives(c, id));
             Legal(v, between) && Posted(c) !in between && Enabled(Run(v, between), Posted(c))
    ensures var v := Apply(s, ResultArrives(c, id));
            At(v.replies, id) == [] && Is(Apply(Run(v, between), Posted(c)), e, Acknowledged)
  {
    var v := Apply(s, ResultArrives(c, id));
    ResultDrains(s, c, id, e);
    WaitsForPost(v, between, e, c);
    RunKeeps(v, between);
    PostAcknowledges(Run(v, between), c, e);
    hide *;
  }
}
