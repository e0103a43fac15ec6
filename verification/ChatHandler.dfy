/** The chat session handler as the object it is, each method proved against the steps. */
module ChatHandler {
  import opened ChatReplies
  import opened ChatThreads
  import opened Wrappers

  /** The branch the handler takes for an event of the thread: the thread's session runs and
      its runner takes input or not, or could be resumed, or has to be created; unless the
      adapter throws, or nothing is bound and the event may not begin a session. */
  function Branch(s: State, t: string, streaming: bool, initiates: bool, throws: bool): Way {
    if throws then Ignore
    else if Running(s, t) then if streaming then Inject else Busy
    else if RunnerOf(s, t).Some? && s.threads[t] in s.roster.resumable then Resume
    else if t !in s.threads && !initiates then Ignore
    else Create
  }

  /** The steps allow an event exactly the ways that some circumstances lead it. */
  lemma {:induction false} OpenExactly(s: State, t: string, way: Way)
    ensures Open(s, t, way) <==> exists streaming, initiates, throws :: Branch(s, t, streaming, initiates, throws) == way
  {
    if Open(s, t, way) {
      assert Branch(s, t, way == Inject, true, way == Ignore) == way;
    }
  }

  /** What handling events of one thread, one after the other, comes to. */
  function Handled(s: State, es: seq<Event>, way: Way): State
    requires es != []
  {
    Take(s, es, way).(outstanding := s.outstanding + Injections(s, es, way))
  }

  lemma {:induction false} HandledMoved(s: State, es: seq<Event>, way: Way)
    requires es != [] && !way.Inject? && !way.Busy?
    ensures Handled(s, es, way) == s.(place := MoveAll(s.place, es, To(s, es[0].thread, way)))
  {
    hide MoveAll, At, To;
  }

  lemma {:induction false} HandledBusy(s: State, es: seq<Event>)
    requires es != []
    ensures var t := es[0].thread;
            Handled(s, es, Busy) ==
            s.(place := MoveAll(s.place, es, FollowUp(t)), followups := s.followups[t := At(s.followups, t) + es])
  {
    hide MoveAll, At;
  }

  lemma {:induction false} HandledInject(s: State, es: seq<Event>)
    requires es != [] && RunnerOf(s, es[0].thread).Some?
    ensures var t := es[0].thread;
            Handled(s, es, Inject) ==
            Enqueue(s, es, s.threads[t]).(outstanding := s.outstanding + map e | e in es :: RunnerOf(s, t).value)
  {
    hide Enqueue, To;
  }

  lemma {:induction false} EnqueuedTwice(s: State, es: seq<Event>, e: Event, id: string)
    requires es != []
    ensures Enqueue(Enqueue(s, es, id), [e], id) == Enqueue(s, es + [e], id)
  {
    hide MoveAll;
    MovedTwice(s.place, es, e, Replying(id));
    assert At(s.replies, id) + es + [e] == At(s.replies, id) + (es + [e]);
  }

  lemma {:induction false} EnqueueRest(s: State, es: seq<Event>, id: string, waiting: map<Event, Event>)
    requires es != []
    ensures Enqueue(s.(outstanding := waiting), es, id) == Enqueue(s, es, id).(outstanding := waiting)
    ensures SameBindings(s, Enqueue(s, es, id))
  {
    hide MoveAll, At;
  }

  lemma {:induction false} InjectedSnoc(s: State, es: seq<Event>, e: Event)
    requires es != [] && es[0].thread == e.thread && RunnerOf(s, e.thread).Some?
    ensures Handled(Handled(s, es, Inject), [e], Inject) == Handled(s, es + [e], Inject)
  {
    hide Handled, Enqueue, MoveAll, At;
    var t := e.thread;
    var id, r := s.threads[t], RunnerOf(s, t).value;
    var waiting := s.outstanding + map d | d in es :: r;
    var u := Handled(s, es, Inject);
    HandledInject(s, es);
    HandledInject(s, es + [e]);
    EnqueueRest(s, es, id, waiting);
    HandledBindings(s, es, Inject);
    HandledInject(u, [e]);
    EnqueueRest(Enqueue(s, es, id), [e], id, waiting);
    EnqueuedTwice(s, es, e, id);
    WaitingTwice(s.outstanding, es, e, r);
  }

  lemma {:induction false} WaitingTwice(waiting: map<Event, Event>, es: seq<Event>, e: Event, r: Event)
    ensures waiting + (map d | d in es :: r) + (map d | d in [e] :: r) == waiting + map d | d in es + [e] :: r
  {
  }

  lemma {:induction false} UninjectedSnoc(s: State, es: seq<Event>, e: Event)
    requires es != [] && es[0].thread == e.thread && RunnerOf(s, e.thread).None?
    ensures Handled(Handled(s, es, Inject), [e], Inject) == Handled(s, es + [e], Inject)
  {
    hide Handled, MoveAll;
    UninjectedMoved(s, es);
    UninjectedMoved(s, es + [e]);
    UninjectedMoved(Handled(s, es, Inject), [e]);
    MovedTwice(s.place, es, e, To(s, e.thread, Inject));
  }

  lemma {:induction false} UninjectedMoved(s: State, es: seq<Event>)
    requires es != [] && RunnerOf(s, es[0].thread).None?
    ensures Handled(s, es, Inject) == s.(place := MoveAll(s.place, es, To(s, es[0].thread, Inject)))
  {
    hide MoveAll, Enqueue, To;
  }

  /** A batch is handled event by event. */
  lemma {:induction false} HandledSnoc(s: State, es: seq<Event>, e: Event, way: Way)
    requires es != [] && es[0].thread == e.thread
    ensures Handled(Handled(s, es, way), [e], way) == Handled(s, es + [e], way)
  {
    var t := e.thread;
    hide Handled, MoveAll, At;
    match way
    case Inject =>
      if RunnerOf(s, t).Some? {
        InjectedSnoc(s, es, e);
      } else {
        UninjectedSnoc(s, es, e);
      }
    case Busy =>
      HandledBusy(s, es);
      HandledBusy(Handled(s, es, Busy), [e]);
      HandledBusy(s, es + [e]);
      BusyTwice(s.followups, t, es, e);
      MovedTwice(s.place, es, e, FollowUp(t));
    case _ =>
      HandledMoved(s, es, way);
      HandledMoved(Handled(s, es, way), [e], way);
      HandledMoved(s, es + [e], way);
      MovedTwice(s.place, es, e, To(s, t, way));
  }

  lemma {:induction false} BusyTwice(q: Queues<string>, t: string, es: seq<Event>, e: Event)
    ensures var p := q[t := At(q, t) + es]; p[t := At(p, t) + [e]] == q[t := At(q, t) + (es + [e])]
  {
    assert At(q, t) + es + [e] == At(q, t) + (es + [e]);
  }

  lemma {:induction false} MovedTwice(place: map<Event, Place>, es: seq<Event>, e: Event, p: Place)
    ensures MoveAll(MoveAll(place, es, p), [e], p) == MoveAll(place, es + [e], p)
  {
  }

  lemma {:induction false} SameBranch(s: State, v: State, t: string, streaming: bool, initiates: bool, throws: bool)
    requires SameBindings(s, v)
    ensures Branch(v, t, streaming, initiates, throws) == Branch(s, t, streaming, initiates, throws)
  {
  }

  /** Events that arrive, and batches, are handled alike. */
  lemma {:induction false} ArriveHandled(s: State, e: Event, way: Way)
    ensures Apply(s, Arrive(e, way)) == Handled(s.(place := s.place[e := Lost]), [e], way)
  {
    TakeFrame(s.(place := s.place[e := Lost]), [e], way);
    hide Take;
  }

  lemma {:induction false} RedispatchHandled(s: State, way: Way)
    requires s.scheduled != [] && s.scheduled[0] != []
    ensures Apply(s, Redispatch(way)) == Handled(s.(scheduled := s.scheduled[1..]), s.scheduled[0], way)
  {
    TakeFrame(s.(scheduled := s.scheduled[1..]), s.scheduled[0], way);
    hide Take;
  }

  lemma {:induction false} HandledBindings(s: State, es: seq<Event>, way: Way)
    requires es != []
    ensures SameBindings(s, Handled(s, es, way))
  {
    TakeFrame(s, es, way);
    hide Take;
  }

  lemma {:induction false} ResultShift(s: State, c: nat, id: string)
    ensures var v, step := Shifted(s, ResultArrives(c, id)), ResultArrives(c, id);
            && v == (if TurnEnded(s, step).Some? then ScheduleFollowups(Undelivered(s, id), id) else Drained(s, c, id))
            && v.roster == s.roster && v.given == s.given && v.outstanding == s.outstanding
  {
    FollowUpsFrame(Undelivered(s, id), id);
    hide ScheduleFollowups, MoveAll, At;
  }

  lemma {:induction false} UndeliveredBound(s: State, id: string)
    requires Bound(s)
    ensures Bound(Undelivered(s, id))
  {
  }

  lemma {:induction false} InjectedOne(s: State, e: Event)
    requires RunnerOf(s, e.thread).Some?
    ensures Handled(s, [e], Inject) ==
            Enqueue(s, [e], s.threads[e.thread]).(outstanding := s.outstanding[e := RunnerOf(s, e.thread).value])
  {
    hide Handled, Enqueue;
    HandledInject(s, [e]);
    var r := RunnerOf(s, e.thread).value;
    assert s.outstanding + (map d | d in [e] :: r) == s.outstanding[e := r];
  }

  class ChatSessionHandler {
    var threadSessions: map<string, string>
    var pendingReplyEvents: Queues<string>
    var lastReplyEvent: map<string, Event>
    var pendingFollowups: Queues<string>
    /** Batches handed to `setImmediate`, and the results being answered. */
    var immediates: seq<seq<Event>>
    var answering: Queues<nat>
    var answeringFor: map<nat, string>
    var acknowledged: seq<Event>
    var discarded: seq<Event>
    /** The prompts given to runners, and the injections that wait for the thread's context. */
    var given: set<Event>
    var outstanding: map<Event, Event>
    /** What the session manager and the runners know. */
    var roster: Roster
    ghost var sessions: map<string, string>
    ghost var place: map<Event, Place>

    ghost function View(): State
      reads this
    {
      State(threadSessions, pendingReplyEvents, lastReplyEvent, pendingFollowups, immediates, answering, answeringFor,
            acknowledged, discarded, sessions, place, given, outstanding, roster)
    }

    constructor ()
      ensures View() == IDLE
    {
      threadSessions, pendingReplyEvents, lastReplyEvent, pendingFollowups := map[], map[], map[], map[];
      immediates, answering, answeringFor, acknowledged, discarded := [], map[], map[], [], [];
      sessions, place, given, outstanding, roster := map[], map[], {}, map[], UNMANNED;
    }

    method EnqueueReply(session: string, event: Event)
      modifies this
      ensures View() == Enqueue(old(View()), [event], session)
      ensures pendingReplyEvents == old(pendingReplyEvents)[session := At(old(pendingReplyEvents), session) + [event]]
      ensures lastReplyEvent == old(lastReplyEvent)[session := event]
      ensures place == MoveAll(old(place), [event], Replying(session))
      ensures pendingFollowups == old(pendingFollowups) && outstanding == old(outstanding) && roster == old(roster)
    {
      var queue := At(pendingReplyEvents, session);
      pendingReplyEvents := pendingReplyEvents[session := queue + [event]];
      lastReplyEvent := lastReplyEvent[session := event];
      place := MoveAll(place, [event], Replying(session));
    }

    method DrainReplies(session: string) returns (events: seq<Event>)
      modifies this
      ensures events == At(old(pendingReplyEvents), session)
      ensures View() == old(View()).(replies := old(pendingReplyEvents) - {session})
    {
      events := At(pendingReplyEvents, session);
      pendingReplyEvents := pendingReplyEvents - {session};
    }

    method ClearPendingReplies(session: string)
      modifies this
      ensures View() == Cleared(old(View()), session)
      ensures pendingReplyEvents == old(pendingReplyEvents) - {session} && lastReplyEvent == old(lastReplyEvent) - {session}
      ensures discarded == old(discarded) + At(old(pendingReplyEvents), session) && acknowledged == old(acknowledged)
    {
      hide MoveAll;
      lastReplyEvent := lastReplyEvent - {session};
      var events := DrainReplies(session);
      discarded := discarded + events;
      place := MoveAll(place, events, Discarded);
    }

    method QueuePendingFollowup(event: Event)
      modifies this
      ensures View() == Handled(old(View()), [event], Busy)
      ensures place.Keys == old(place).Keys
      ensures event in old(place) ==> QueuedForLater(event)
    {
      var queue := At(pendingFollowups, event.thread);
      pendingFollowups := pendingFollowups[event.thread := queue + [event]];
      place := MoveAll(place, [event], FollowUp(event.thread));
    }

    method ThreadKeyForSession(session: string) returns (key: Option<string>)
      ensures key.Some? ==> key.value in threadSessions && threadSessions[key.value] == session
      ensures key.None? ==> forall t :: t in threadSessions ==> threadSessions[t] != session
    {
      var left := threadSessions.Keys;
      while left != {}
        invariant left <= threadSessions.Keys
        invariant forall t :: t in threadSessions && t !in left ==> threadSessions[t] != session
        decreases |left|
      {
        var t :| t in left;
        if threadSessions[t] == session {
          return Some(t);
        }
        left := left - {t};
      }
      key := None;
    }

    method DrainPendingFollowups(session: string)
      requires Bound(View())
      modifies this
      ensures View() == ScheduleFollowups(old(View()), session)
      ensures forall t :: t in old(threadSessions) && old(threadSessions)[t] == session ==>
                var waiting := At(old(pendingFollowups), t);
                && immediates == old(immediates) + (if waiting == [] then [] else [waiting])
                && pendingFollowups == if waiting == [] then old(pendingFollowups) else old(pendingFollowups) - {t}
      ensures session !in old(threadSessions).Values ==>
                immediates == old(immediates) && pendingFollowups == old(pendingFollowups)
      ensures acknowledged == old(acknowledged) && answering == old(answering)
    {
      var key := ThreadKeyForSession(session);
      if key.None? {
        return;
      }
      var queue := At(pendingFollowups, key.value);
      if queue == [] {
        return;
      }
      pendingFollowups := pendingFollowups - {key.value};
      immediates := immediates + [queue];
      place := MoveAll(place, queue, Scheduled);
    }

    /** The part of a result's handling before the reply is awaited. */
    method HandleResult(call: nat, session: string) returns (reply: Option<Event>)
      requires Bound(View())
      modifies this
      ensures View() == Apply(old(View()), ResultArrives(call, session))
      ensures session !in old(roster).current ==> reply == None
      ensures session in old(roster).current ==>
                var events := At(old(pendingReplyEvents), session);
                reply == if events != [] then Some(events[0])
                         else if session in old(lastReplyEvent) then Some(old(lastReplyEvent)[session]) else None
    {
      hide MoveAll, ScheduleFollowups, At;
      ghost var before := View();
      ResultShift(before, call, session);
      hide Shifted, Drained, Apply;
      reply := None;
      var hasRunner := session in roster.current;
      var events := DrainReplies(session);
      if hasRunner && (events != [] || session in lastReplyEvent) {
        reply := Some(if events != [] then events[0] else lastReplyEvent[session]);
        BeginAnswer(call, session, events, before);
      } else {
        Abandon(session, events, before);
        UndeliveredBound(before, session);
        hide Undelivered, Bound;
        DrainPendingFollowups(session);
      }
      Settle(Result(session), before, ResultArrives(call, session));
    }

    /** A runner's message is dealt with. */
    method Settle(message: Message, ghost before: State, ghost step: Step)
      requires step.ResultArrives? && message == Result(step.session)
      requires View() == Shifted(before, step)
      requires roster == before.roster && given == before.given && outstanding == before.outstanding
      modifies this
      ensures View() == Apply(before, step)
    {
      hide Shifted;
      roster := roster.(pending := roster.pending - multiset{message});
    }

    method BeginAnswer(call: nat, session: string, events: seq<Event>, ghost before: State)
      requires View() == before.(replies := before.replies - {session}) && events == At(before.replies, session)
      modifies this
      ensures View() == Drained(before, call, session)
    {
      answering := answering[call := events];
      answeringFor := answeringFor[call := session];
      place := MoveAll(place, events, Posting(call));
    }

    method Abandon(session: string, ghost events: seq<Event>, ghost before: State)
      requires View() == before.(replies := before.replies - {session}) && events == At(before.replies, session)
      modifies this
      ensures View() == Undelivered(before, session)
    {
      place := MoveAll(place, events, Lost);
    }

    /** The part after it: the drained events are acknowledged, then follow-ups go on. */
    method ReplyPosted(call: nat)
      requires call in answeringFor && Bound(View())
      modifies this
      ensures View() == Apply(old(View()), Posted(call))
      ensures acknowledged == old(acknowledged) + At(old(answering), call) && answering == old(answering) - {call}
    {
      hide MoveAll, ScheduleFollowups;
      ghost var before := View();
      var session := answeringFor[call];
      var events := At(answering, call);
      answering := answering - {call};
      answeringFor := answeringFor - {call};
      acknowledged := acknowledged + events;
      place := MoveAll(place, events, Acknowledged);
      assert View() == Acked(before, call);
      FollowUpsFrame(Acked(before, call), session);
      hide Acked;
      DrainPendingFollowups(session);
    }

    method SetAside(event: Event, ghost way: Way)
      requires !way.Inject? && !way.Busy?
      modifies this
      ensures View() == Handled(old(View()), [event], way)
      ensures place.Keys == old(place).Keys
      ensures event in old(place) ==> OnlyPlaced(event, To(old(View()), event.thread, way))
    {
      HandledMoved(View(), [event], way);
      hide Handled, MoveAll;
      place := MoveAll(place, [event], To(View(), event.thread, way));
    }

    method InjectInto(event: Event, existing: string, runner: Event)
      requires event.thread in threadSessions && threadSessions[event.thread] == existing
      requires existing in roster.current && roster.current[existing] == runner
      modifies this
      ensures View() == Handled(old(View()), [event], Inject)
      ensures place.Keys == old(place).Keys
      ensures event in old(place) ==> InjectedFor(event, existing, runner)
    {
      InjectedOne(View(), event);
      hide Handled, Enqueue, At;
      EnqueueReply(existing, event);
      outstanding := outstanding[event := runner];
    }

    /** The event is put in its place, and no queue is touched. */
    twostate predicate OnlyPlaced(event: Event, p: Place)
      reads this
    {
      && event in place && place[event] == p
      && pendingReplyEvents == old(pendingReplyEvents) && lastReplyEvent == old(lastReplyEvent)
      && pendingFollowups == old(pendingFollowups) && outstanding == old(outstanding)
    }

    /** It ends the session's reply queue, and its prompt waits for the runner. */
    twostate predicate InjectedFor(event: Event, id: string, runner: Event)
      reads this
    {
      && event in place && place[event] == Replying(id)
      && pendingReplyEvents == old(pendingReplyEvents)[id := At(old(pendingReplyEvents), id) + [event]]
      && lastReplyEvent == old(lastReplyEvent)[id := event] && outstanding == old(outstanding)[event := runner]
      && pendingFollowups == old(pendingFollowups)
    }

    /** It ends its thread's follow-ups. */
    twostate predicate QueuedForLater(event: Event)
      reads this
    {
      && event in place && place[event] == FollowUp(event.thread)
      && pendingFollowups == old(pendingFollowups)[event.thread := At(old(pendingFollowups), event.thread) + [event]]
      && pendingReplyEvents == old(pendingReplyEvents) && lastReplyEvent == old(lastReplyEvent)
      && outstanding == old(outstanding)
    }

    /** Up to its first await: the branch is taken. */
    method HandleEvent(event: Event, streaming: bool, initiates: bool, throws: bool)
      requires event in place
      modifies this
      ensures var s := old(View());
              View() == Handled(s, [event], Branch(s, event.thread, streaming, initiates, throws))
      ensures place.Keys == old(place).Keys
      ensures throws ==> OnlyPlaced(event, Lost)
      ensures !throws && event.thread !in old(threadSessions) ==> OnlyPlaced(event, if initiates then Creating else Lost)
      ensures !throws && event.thread in old(threadSessions) ==>
                var id, was := old(threadSessions)[event.thread], old(roster);
                if id !in was.current then OnlyPlaced(event, Creating)
                else if was.current[id] !in was.running then
                  OnlyPlaced(event, if id in was.resumable then Configuring(id) else Creating)
                else if streaming then InjectedFor(event, id, was.current[id])
                else QueuedForLater(event)
    {
      hide Handled, OnlyPlaced, InjectedFor, QueuedForLater;
      if throws {
        SetAside(event, Ignore);
        return;
      }
      if event.thread in threadSessions {
        var existing := threadSessions[event.thread];
        if existing in roster.current {
          var runner := roster.current[existing];
          if runner in roster.running {
            if streaming {
              InjectInto(event, existing, runner);
            } else {
              QueuePendingFollowup(event);
            }
            return;
          }
          if existing in roster.resumable {
            SetAside(event, Resume);
            return;
          }
        }
      } else if !initiates {
        SetAside(event, Ignore);
        return;
      }
      SetAside(event, Create);
    }

    /** A delivery comes. */
    method Receive(event: Event, streaming: bool, initiates: bool, throws: bool)
      modifies this
      ensures var s := old(View());
              View() == Apply(s, Arrive(event, Branch(s, event.thread, streaming, initiates, throws)))
    {
      ghost var s := View();
      place := place[event := Lost];
      ArriveHandled(s, event, Branch(s, event.thread, streaming, initiates, throws));
      SameBranch(s, View(), event.thread, streaming, initiates, throws);
      hide Apply, Handled, Branch;
      HandleEvent(event, streaming, initiates, throws);
    }

    /** The loop of a `setImmediate` callback, over a batch of one thread. */
    method HandleBatch(streaming: bool, initiates: bool)
      requires immediates != [] && immediates[0] != [] && AllOf(immediates[0], immediates[0][0].thread)
      requires forall e :: e in immediates[0] ==> e in place
      modifies this
      ensures var s := old(View());
              View() == Apply(s, Redispatch(Branch(s, s.scheduled[0][0].thread, streaming, initiates, false)))
    {
      ghost var s := View();
      var queue := immediates[0];
      ghost var t, way := queue[0].thread, Branch(s, queue[0].thread, streaming, initiates, false);
      RedispatchHandled(s, way);
      immediates := immediates[1..];
      ghost var u := View();
      assert SameBindings(s, u);
      hide Apply, Handled, Branch;
      SameBranch(s, u, t, streaming, initiates, false);
      HandleEvent(queue[0], streaming, initiates, false);
      assert queue[..1] == [queue[0]];
      var i := 1;
      while i < |queue|
        invariant 1 <= i <= |queue|
        invariant View() == Handled(u, queue[..i], way) && place.Keys == old(place).Keys
      {
        assert queue[..i + 1] == queue[..i] + [queue[i]];
        assert queue[i] in queue;
        HandledBindings(u, queue[..i], way);
        SameBranch(u, View(), t, streaming, initiates, false);
        HandledSnoc(u, queue[..i], queue[i], way);
        HandleEvent(queue[i], streaming, initiates, false);
        i := i + 1;
      }
      assert queue[..i] == queue;
    }

    /** The rest of an injection, once the thread's context has been read. */
    method CatchUp(event: Event, throws: bool)
      requires event in outstanding
      modifies this
      ensures View() == Apply(old(View()),
                if throws || old(outstanding)[event] !in old(roster).running then Refuse(event) else Deliver(event))
      ensures event !in outstanding
      ensures given == if throws || old(outstanding)[event] !in old(roster).running then old(given) else old(given) + {event}
    {
      var runner := outstanding[event];
      outstanding := outstanding - {event};
      if !throws && runner in roster.running {
        given := given + {event};
      }
    }

    method GiveUp(ghost event: Event)
      modifies this
      ensures View() == Apply(old(View()), Drop(event))
    {
      place := MoveAll(place, [event], Lost);
    }

    /** With a workspace, the event's session becomes its thread's. */
    method OpenSession(event: Event, session: string, works: bool)
      modifies this
      ensures View() == Apply(old(View()), if works then Bind(event, session) else Drop(event))
      ensures threadSessions == if works then old(threadSessions)[event.thread := session] else old(threadSessions)
    {
      if works {
        threadSessions := threadSessions[event.thread := session];
        sessions := sessions[session := event.thread];
        place := MoveAll(place, [event], Configuring(session));
      } else {
        GiveUp(event);
      }
    }

    /** With a configuration, the session gets its runner. */
    method AddRunner(event: Event, session: string, works: bool)
      modifies this
      ensures View() == Apply(old(View()), if works then Attach(event, session) else Drop(event))
      ensures roster.current == if works then old(roster).current[session := event] else old(roster).current
      ensures threadSessions == old(threadSessions)
    {
      if works {
        roster := roster.(current := roster.current[session := event], runners := roster.runners[event := session]);
        place := MoveAll(place, [event], Catching(session));
      } else {
        GiveUp(event);
      }
    }

    /** With the thread's context, the runner is started. */
    method StartRunner(event: Event, session: string, works: bool)
      modifies this
      ensures View() == Apply(old(View()), if works then Start(event, session) else Drop(event))
      ensures pendingReplyEvents ==
                if works then old(pendingReplyEvents)[session := At(old(pendingReplyEvents), session) + [event]]
                else old(pendingReplyEvents)
      ensures roster.running == if works then old(roster).running + {event} else old(roster).running
      ensures given == if works then old(given) + {event} else old(given)
    {
      if works {
        EnqueueReply(session, event);
        roster := roster.(running := roster.running + {event}, unsettled := roster.unsettled + {event});
        given := given + {event};
      } else {
        GiveUp(event);
      }
    }

    /** The promise of a start is rejected. */
    method StartFailed(runner: Event)
      requires runner in roster.runners
      modifies this
      ensures View() == Apply(old(View()), Fail(runner))
      ensures discarded == old(discarded) + At(old(pendingReplyEvents), old(roster).runners[runner])
      ensures runner !in roster.running
    {
      ClearPendingReplies(roster.runners[runner]);
      roster := roster.(running := roster.running - {runner}, unsettled := roster.unsettled - {runner});
    }
  }
}
