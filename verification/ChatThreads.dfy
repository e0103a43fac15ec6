/** The threads, sessions and runners of the chat handler: which of them an event belongs
    to, in every run. */
module ChatThreads {
  import opened ChatReplies
  import opened Wrappers

  predicate AllOf(es: seq<Event>, thread: string) {
    forall e :: e in es ==> e.thread == thread
  }

  /** The session was created for the thread. */
  predicate Of(s: State, id: string, t: string) {
    id in s.sessions && s.sessions[id] == t
  }

  /** A thread's current session was created for that thread. */
  ghost predicate Bound(s: State) {
    forall t :: t in s.threads ==> Of(s, s.threads[t], t)
  }

  /** An event is dealt with in its own thread, and has a runner only once it is attached. */
  predicate AtHome(s: State, e: Event)
    requires e in s.place
  {
    match s.place[e]
    case Creating => e !in s.roster.runners
    case Configuring(id) => Of(s, id, e.thread) && e !in s.roster.runners
    case Catching(id) => Of(s, id, e.thread) && e in s.roster.runners && s.roster.runners[e] == id
    case Replying(id) => Of(s, id, e.thread)
    case FollowUp(t) => t == e.thread && t in s.threads && e !in s.roster.runners
    case Scheduled => e.thread in s.threads && e !in s.roster.runners
    case _ => true
  }

  ghost predicate Home(s: State) {
    s.roster.runners.Keys <= s.place.Keys && forall e :: e in s.place ==> AtHome(s, e)
  }

  /** A batch is of one thread. */
  ghost predicate Batched(s: State) {
    forall b: seq<Event> :: b in s.scheduled ==> b != [] && AllOf(b, b[0].thread)
  }

  /** Whatever speaks of a session, that session has a runner, and a runner one session. */
  ghost predicate Manned(r: Roster, sessions: map<string, string>) {
    && r.running <= r.runners.Keys && r.unsettled <= r.runners.Keys && r.resumable <= r.current.Keys
    && (forall id :: id in r.current ==>
         id in sessions && r.current[id] in r.runners && r.runners[r.current[id]] == id)
    && (forall e :: e in r.runners ==> r.runners[e] in r.current)
    && (forall m :: m in r.pending ==> m.session in r.current)
  }

  ghost predicate Sound(s: State) {
    Placed(s) && Bound(s) && Home(s) && Batched(s) && Manned(s.roster, s.sessions)
  }

  // ---------- what a step leaves alone ----------

  predicate SameBindings(s: State, v: State) {
    s.threads == v.threads && s.sessions == v.sessions && s.roster == v.roster
  }

  lemma {:induction false} TakeFrame(s: State, es: seq<Event>, way: Way)
    requires es != []
    ensures var v := Take(s, es, way);
            SameBindings(s, v) && v.place.Keys == s.place.Keys && v.scheduled == s.scheduled
            && v.posting == s.posting && v.calls == s.calls
  {
    hide MoveAll, At, To;
  }

  lemma {:induction false} FollowUpsFrame(s: State, id: string)
    ensures var v := ScheduleFollowups(s, id);
            SameBindings(s, v) && v.place.Keys == s.place.Keys && v.last == s.last
            && v.given == s.given && v.outstanding == s.outstanding && v.posting == s.posting && v.calls == s.calls
  {
  }

  lemma {:induction false} ResultFrame(s: State, c: nat, id: string)
    ensures SameBindings(s, Shifted(s, ResultArrives(c, id)))
  {
    hide ScheduleFollowups, At, MoveAll, Take, Enqueue, Acked, Cleared;
    FollowUpsFrame(Undelivered(s, id), id);
  }

  lemma {:induction false} PostedFrame(s: State, c: nat)
    ensures SameBindings(s, Shifted(s, Posted(c)))
  {
    hide ScheduleFollowups, At, MoveAll, Take, Enqueue, Drained, Undelivered, Cleared;
    if c in s.calls {
      FollowUpsFrame(Acked(s, c), s.calls[c]);
    }
  }

  lemma {:induction false} ClearedFrame(s: State, id: string)
    ensures SameBindings(s, Cleared(s, id))
  {
  }

  lemma {:induction false} FailFrame(s: State, r: Event)
    ensures SameBindings(s, Shifted(s, Fail(r)))
  {
    hide At, MoveAll, Take, Enqueue, Acked, Drained, Undelivered, Cleared, ScheduleFollowups;
    if r in s.roster.runners {
      ClearedFrame(s, s.roster.runners[r]);
    }
  }

  lemma {:induction false} TurnFrame(s: State, step: Step)
    requires step.ResultArrives? || step.Posted? || step.Fail?
    ensures SameBindings(s, Shifted(s, step))
  {
    hide *;
    match step
    case ResultArrives(c, id) => ResultFrame(s, c, id);
    case Posted(c) => PostedFrame(s, c);
    case Fail(r) => FailFrame(s, r);
  }

  lemma {:induction false} ShiftFrame(s: State, step: Step)
    ensures var v := Shifted(s, step);
            && v.threads == (if step.Bind? then s.threads[step.event.thread := step.session] else s.threads)
            && v.sessions == (if step.Bind? then s.sessions[step.session := step.event.thread] else s.sessions)
  {
    if step.ResultArrives? || step.Posted? || step.Fail? {
      TurnFrame(s, step);
      hide *;
    } else {
      hide Take, ScheduleFollowups, At, MoveAll, Drained, Undelivered, Acked, Cleared;
      match step
      case Arrive(e, way) => TakeFrame(s.(place := s.place[e := Lost]), [e], way);
      case Redispatch(way) =>
        if s.scheduled != [] && s.scheduled[0] != [] {
          TakeFrame(s.(scheduled := s.scheduled[1..]), s.scheduled[0], way);
        }
      case _ =>
    }
  }

  lemma {:induction false} ShiftKeys(s: State, step: Step)
    ensures Shifted(s, step).place.Keys == s.place.Keys + (if step.Arrive? then {step.event} else {})
  {
    hide Take, ScheduleFollowups, At, MoveAll;
    match step
    case Arrive(e, way) => TakeFrame(s.(place := s.place[e := Lost]), [e], way);
    case Redispatch(way) =>
      if s.scheduled != [] && s.scheduled[0] != [] {
        TakeFrame(s.(scheduled := s.scheduled[1..]), s.scheduled[0], way);
      }
    case ResultArrives(_, id) => FollowUpsFrame(Undelivered(s, id), id);
    case Posted(c) =>
      if c in s.calls {
        FollowUpsFrame(Acked(s, c), s.calls[c]);
      }
    case _ =>
  }

  lemma {:induction false} Framed(s: State, step: Step)
    ensures var v := Apply(s, step);
            && v.roster == Noted(s.roster, step)
            && v.place.Keys == s.place.Keys + (if step.Arrive? then {step.event} else {})
            && v.threads == (if step.Bind? then s.threads[step.event.thread := step.session] else s.threads)
            && v.sessions == (if step.Bind? then s.sessions[step.session := step.event.thread] else s.sessions)
  {
    ShiftFrame(s, step);
    ShiftKeys(s, step);
    hide Shifted, Noted, Given, Outstanding;
  }

  lemma {:induction false} StepBound(s: State, step: Step)
    requires Bound(s) && Enabled(s, step)
    ensures Bound(Apply(s, step))
  {
    Framed(s, step);
    hide Apply;
  }

  lemma {:induction false} NotedManned(r: Roster, sessions: map<string, string>, step: Step)
    requires Manned(r, sessions) && !step.Attach? && !step.Identified?
    requires step.Start? ==> step.event in r.runners
    requires step.Emit? ==> step.runner in r.runners && r.runners[step.runner] == step.message.session
    ensures Manned(Noted(r, step), sessions)
  {
  }

  lemma {:induction false} IdentifiedManned(r: Roster, sessions: map<string, string>, id: string)
    requires Manned(r, sessions) && Init(id) in r.pending
    ensures Manned(Noted(r, Identified(id)), sessions)
  {
    assert Init(id).session in r.current;
  }

  lemma {:induction false} AttachedManned(r: Roster, sessions: map<string, string>, e: Event, id: string)
    requires Manned(r, sessions) && id in sessions && e !in r.runners
    ensures Manned(Noted(r, Attach(e, id)), sessions)
  {
  }

  lemma {:induction false} BoundManned(r: Roster, sessions: map<string, string>, step: Step)
    requires Manned(r, sessions) && step.Bind?
    ensures Manned(Noted(r, step), sessions[step.session := step.event.thread])
  {
  }

  lemma {:induction false} StepManned(s: State, step: Step)
    requires Home(s) && Manned(s.roster, s.sessions) && Enabled(s, step)
    ensures Manned(Apply(s, step).roster, Apply(s, step).sessions)
  {
    Framed(s, step);
    hide Apply, Noted, Manned;
    if step.Attach? || step.Start? {
      assert AtHome(s, step.event);
    }
    hide Home, AtHome, Open;
    match step
    case Attach(e, id) => AttachedManned(s.roster, s.sessions, e, id);
    case Identified(id) => IdentifiedManned(s.roster, s.sessions, id);
    case Bind(_, _) => BoundManned(s.roster, s.sessions, step);
    case _ => NotedManned(s.roster, s.sessions, step);
  }

  lemma {:induction false} StayHome(s: State, v: State, step: Step, e: Event)
    requires Enabled(s, step) && e in s.place && AtHome(s, e) && Is(v, e, s.place[e])
    requires v.roster == Noted(s.roster, step)
    requires forall id :: id in s.sessions ==> id in v.sessions && v.sessions[id] == s.sessions[id]
    requires s.threads.Keys <= v.threads.Keys && (step.Attach? ==> step.event != e)
    ensures AtHome(v, e)
  {
  }

  lemma {:induction false} MoveHome(s: State, v: State, step: Step, e: Event)
    requires Bound(s) && Enabled(s, step) && e in s.place && AtHome(s, e)
    requires Destination(s, step, e, s.place[e]) != s.place[e] && Is(v, e, Destination(s, step, e, s.place[e]))
    requires step.Redispatch? && e in s.scheduled[0] ==> s.scheduled[0][0].thread == e.thread
    requires step.Bind? ==> Of(v, step.session, step.event.thread)
    requires !step.Bind? ==> v.threads == s.threads && v.sessions == s.sessions
    requires v.roster == Noted(s.roster, step)
    ensures AtHome(v, e)
  {
  }

  lemma {:induction false} StepAtHome(s: State, step: Step, e: Event)
    requires Placed(s) && Bound(s) && Home(s) && Batched(s) && Enabled(s, step) && e in s.place
    ensures e in Apply(s, step).place && AtHome(Apply(s, step), e)
  {
    assert AtHome(s, e);
    Framed(s, step);
    PlaceAfter(s, step, e);
    if step.Redispatch? && e in s.scheduled[0] {
      BatchThread(s, e);
    }
    var v := Apply(s, step);
    if Destination(s, step, e, s.place[e]) == s.place[e] {
      Stays(s, step, e);
      hide Apply, Placed, Noted, Home, Batched, AtHome, Destination;
      StayHome(s, v, step, e);
    } else {
      hide Apply, Placed, Noted, Home, Batched, AtHome, Destination;
      MoveHome(s, v, step, e);
    }
  }

  lemma {:induction false} Stays(s: State, step: Step, e: Event)
    requires Enabled(s, step) && e in s.place && Destination(s, step, e, s.place[e]) == s.place[e]
    ensures step.Attach? ==> step.event != e
  {
  }

  /** The batch an event is in is of its thread. */
  lemma {:induction false} BatchThread(s: State, e: Event)
    requires Placed(s) && Home(s) && Batched(s) && s.scheduled != [] && e in s.scheduled[0]
    ensures s.scheduled[0][0].thread == e.thread && Is(s, e, Scheduled) && AtHome(s, e)
  {
    HeldAt(s, e, Scheduled);
    hide Placed;
  }

  lemma {:induction false} RunnersPlaced(s: State, step: Step)
    requires Home(s) && Enabled(s, step)
    ensures Noted(s.roster, step).runners.Keys <= s.place.Keys
  {
  }

  lemma {:induction false} EachAtHome(s: State, step: Step, e: Event)
    requires Placed(s) && Bound(s) && Home(s) && Batched(s) && Enabled(s, step) && e in Apply(s, step).place
    ensures AtHome(Apply(s, step), e)
  {
    Framed(s, step);
    hide Placed, AtHome, Apply;
    if e in s.place {
      StepAtHome(s, step, e);
    } else {
      Arrived(s, e, step.way);
      NewAtHome(s, Apply(s, step), e, step.way);
    }
  }

  lemma {:induction false} StepHome(s: State, step: Step)
    requires Placed(s) && Bound(s) && Home(s) && Batched(s) && Enabled(s, step)
    ensures Home(Apply(s, step))
  {
    Framed(s, step);
    RunnersPlaced(s, step);
    hide Apply, AtHome, Placed, Bound, Batched, Noted, Enabled;
    forall e | e in Apply(s, step).place ensures AtHome(Apply(s, step), e) {
      EachAtHome(s, step, e);
    }
  }

  lemma {:induction false} NewAtHome(s: State, v: State, e: Event, way: Way)
    requires Bound(s) && Home(s) && SameBindings(s, v)
    requires Enabled(s, Arrive(e, way)) && Is(v, e, To(s, e.thread, way))
    ensures AtHome(v, e)
  {
  }

  lemma {:induction false} StepBatched(s: State, step: Step)
    requires Placed(s) && Home(s) && Batched(s) && Enabled(s, step)
    ensures Batched(Apply(s, step))
  {
    match step
    case ResultArrives(_, id) =>
      FollowUpsBatched(s, Undelivered(s, id), id);
      hide ScheduleFollowups, Placed;
    case Posted(c) =>
      FollowUpsBatched(s, Acked(s, c), s.calls[c]);
      hide ScheduleFollowups, Placed;
    case Arrive(e, way) =>
      TakeFrame(s.(place := s.place[e := Lost]), [e], way);
      hide Take, Placed, Home;
    case Redispatch(way) =>
      TakeFrame(s.(scheduled := s.scheduled[1..]), s.scheduled[0], way);
      assert forall b: seq<Event> :: b in s.scheduled[1..] ==> b in s.scheduled;
      hide Take, Placed, Home, To, Open;
    case _ => hide Placed, Home, MoveAll, At, ScheduleFollowups, Drained, Undelivered, Acked, To;
  }

  lemma {:induction false} FollowUpsBatched(s: State, v: State, id: string)
    requires Placed(s) && Home(s) && Batched(s) && v.scheduled == s.scheduled && v.followups == s.followups
    ensures Batched(ScheduleFollowups(v, id))
  {
    forall t, e | e in At(s.followups, t) ensures e.thread == t {
      HeldAt(s, e, FollowUp(t));
      assert AtHome(s, e);
    }
    hide Placed, Home, MoveAll;
  }

  lemma {:induction false} StepSound(s: State, step: Step)
    requires Sound(s) && Enabled(s, step)
    ensures Sound(Apply(s, step))
  {
    StepKeeps(s, step);
    StepBound(s, step);
    StepHome(s, step);
    StepBatched(s, step);
    StepManned(s, step);
    hide Placed, Bound, Home, Batched, Manned, Apply, Enabled;
  }

  lemma {:induction false} RunSound(ss: seq<Step>)
    requires Legal(IDLE, ss)
    ensures Sound(Run(IDLE, ss))
  {
    if ss == [] {
      IdlePlaced();
    } else {
      RunSound(ss[..|ss| - 1]);
      StepSound(Run(IDLE, ss[..|ss| - 1]), ss[|ss| - 1]);
      hide Sound, Apply, Enabled;
    }
  }

  // ---------- losses and follow-ups ----------

  /** An event is lost by exactly two kinds of step: it is ignored when it comes, or given
      up on the way to its turn. No result loses one, for its session has a runner. */
  lemma {:induction false} LossExactly(s: State, step: Step, e: Event)
    requires Sound(s) && Enabled(s, step)
    ensures Is(Apply(s, step), e, Lost) <==> Is(s, e, Lost) || step == Drop(e) || step == Arrive(e, Ignore)
  {
    hide Apply, Bound, Noted;
    Framed(s, step);
    if e in s.place {
      PlaceAfter(s, step, e);
      if step.ResultArrives? {
        QueuedAt(s, e, step.session);
        Answered(s.roster, s.sessions, step.session);
      }
      hide Placed, Home, Batched, Manned, Destination;
      SentToLost(s, step, e);
    } else if step.Arrive? && step.event == e {
      Arrived(s, e, step.way);
      hide Placed, Home, Batched, Manned, Destination;
    }
  }

  lemma {:induction false} Answered(r: Roster, sessions: map<string, string>, id: string)
    requires Manned(r, sessions) && Result(id) in r.pending
    ensures id in r.current
  {
    assert Result(id).session in r.current;
  }

  lemma {:induction false} SentToLost(s: State, step: Step, e: Event)
    requires Enabled(s, step) && e in s.place
    requires step.ResultArrives? ==>
               && step.session in s.roster.current
               && (s.place[e] == Replying(step.session) ==> At(s.replies, step.session) != [])
    ensures Destination(s, step, e, s.place[e]) == Lost <==> s.place[e] == Lost || step == Drop(e)
  {
  }

  /** An event is acknowledged by exactly the step in which the reply to its result is posted
      or fails to be, and discarded by exactly the failure of a start in its session. */
  lemma {:induction false} EndsExactly(s: State, step: Step, e: Event)
    requires Sound(s) && Enabled(s, step) && e in s.place
    ensures Is(Apply(s, step), e, Acknowledged) <==>
            Is(s, e, Acknowledged) || (step.Posted? && Is(s, e, Posting(step.call)))
    ensures Is(Apply(s, step), e, Discarded) <==>
            Is(s, e, Discarded)
            || (step.Fail? && s.place[e].Replying? && step.runner in s.roster.runners
                && s.roster.runners[step.runner] == s.place[e].session)
  {
    PlaceAfter(s, step, e);
    SentToEnd(s, step, e);
    hide Placed, Home, Batched, Manned, Bound, Apply, Destination, Enabled;
  }

  lemma {:induction false} SentToEnd(s: State, step: Step, e: Event)
    requires Enabled(s, step) && e in s.place
    ensures var p, q := s.place[e], Destination(s, step, e, s.place[e]);
            && (q == Acknowledged <==> p == Acknowledged || (step.Posted? && p == Posting(step.call)))
            && (q == Discarded <==>
                 p == Discarded
                 || (step.Fail? && p.Replying? && step.runner in s.roster.runners && s.roster.runners[step.runner] == p.session))
  {
    hide TurnEnded, GoesOn, Running, RunnerOf;
  }

  /** A waiting follow-up is scheduled again exactly when a turn of its thread's current
      session ends: its reply is posted, or its result finds nothing to post for. In
      particular a runner's failure leaves it waiting. */
  lemma {:induction false} FollowupsWait(s: State, step: Step, e: Event)
    requires Sound(s) && Enabled(s, step) && Is(s, e, FollowUp(e.thread))
    ensures var ends := e.thread in s.threads &&
                        ((step.Posted? && s.calls[step.call] == s.threads[e.thread])
                         || (step.ResultArrives? && step.session == s.threads[e.thread]
                             && At(s.replies, step.session) == [] && step.session !in s.last));
            Is(Apply(s, step), e, if ends then Scheduled else FollowUp(e.thread))
  {
    hide Placed, Home, Batched, Manned, Apply;
    PlaceAfter(s, step, e);
    if step.ResultArrives? {
      Answered(s.roster, s.sessions, step.session);
    }
  }

  // ---------- addresses ----------

  /** A session's last event is of its thread. */
  ghost predicate Addressed(s: State) {
    forall id :: id in s.last ==> Of(s, id, s.last[id].thread)
  }

  /** The event a result's reply is posted for. */
  function ReplyEvent(s: State, id: string): Option<Event> {
    var events := At(s.replies, id);
    if events != [] then Some(events[0]) else if id in s.last then Some(s.last[id]) else None
  }

  lemma {:induction false} TakeLast(s: State, es: seq<Event>, way: Way, id: string)
    requires es != [] && id in Take(s, es, way).last
    ensures var e := Take(s, es, way).last[id];
            || (id in s.last && e == s.last[id])
            || (e in es && es[0].thread in s.threads && s.threads[es[0].thread] == id)
  {
    hide MoveAll, At, To;
  }

  /** The last events of the sessions, after a step. */
  lemma {:induction false} LastAfter(s: State, step: Step, id: string)
    requires Enabled(s, step) && id in Shifted(s, step).last
    ensures var e := Shifted(s, step).last[id];
            || (id in s.last && e == s.last[id])
            || (step == Start(e, id))
            || (step.Arrive? && step.event == e && e.thread in s.threads && s.threads[e.thread] == id)
            || (step.Redispatch? && e in s.scheduled[0]
                && s.scheduled[0][0].thread in s.threads && s.threads[s.scheduled[0][0].thread] == id)
  {
    hide ScheduleFollowups, MoveAll, At, Take, Open, Acked, Undelivered;
    match step
    case Arrive(e, way) => TakeLast(s.(place := s.place[e := Lost]), [e], way, id);
    case Redispatch(way) => TakeLast(s.(scheduled := s.scheduled[1..]), s.scheduled[0], way, id);
    case ResultArrives(_, i) =>
      FollowUpsFrame(Undelivered(s, i), i);
      ListsFrame(s, 0, i);
    case Posted(c) =>
      FollowUpsFrame(Acked(s, c), s.calls[c]);
      ListsFrame(s, c, "");
    case _ =>
  }

  lemma {:induction false} ListsFrame(s: State, c: nat, id: string)
    ensures Acked(s, c).last == s.last && Undelivered(s, id).last == s.last
  {
  }

  lemma {:induction false} StepAddressed(s: State, step: Step)
    requires Sound(s) && Addressed(s) && Enabled(s, step)
    ensures Addressed(Apply(s, step))
  {
    var v := Apply(s, step);
    Framed(s, step);
    forall id | id in v.last ensures Of(v, id, v.last[id].thread) {
      LastAfter(s, step, id);
      var e := v.last[id];
      if step.Start? {
        assert AtHome(s, step.event);
      }
      if step.Redispatch? && e in s.scheduled[0] {
        BatchThread(s, e);
      }
      hide Apply, Placed, Manned, Open;
    }
  }

  predicate ReplyThread(s: State, id: string) {
    var e := ReplyEvent(s, id);
    e.Some? ==> Of(s, id, e.value.thread)
  }

  lemma {:induction false} AddressedReply(s: State, id: string)
    requires Sound(s) && Addressed(s)
    ensures ReplyThread(s, id)
  {
    var es := At(s.replies, id);
    if es != [] {
      QueuedAt(s, es[0], id);
      assert AtHome(s, es[0]);
    }
    hide Placed;
  }

  /** In every run a reply is posted into the thread its session was created for. */
  lemma {:induction false} RepliesAddressed(ss: seq<Step>, id: string)
    requires Legal(IDLE, ss)
    ensures Addressed(Run(IDLE, ss)) && ReplyThread(Run(IDLE, ss), id)
  {
    RunSound(ss);
    if ss != [] {
      RepliesAddressed(ss[..|ss| - 1], id);
      RunSound(ss[..|ss| - 1]);
      StepAddressed(Run(IDLE, ss[..|ss| - 1]), ss[|ss| - 1]);
    }
    hide Apply, Enabled, ReplyThread, Sound;
    AddressedReply(Run(IDLE, ss), id);
  }
}
