/** Whether a chat event is ever answered, and whether the runner has its prompt by then. */
module ChatAnswers {
  import opened ChatReplies
  import opened ChatThreads
  import opened ChatPrompts
  import opened Wrappers
  import opened Numbers

  // ---------- futures ----------

  /** In every future from here the event is acknowledged only after its prompt was given. */
  ghost predicate HeardFirst(s: State, e: Event) {
    forall ss :: Legal(s, ss) && Is(Run(s, ss), e, Acknowledged) ==> e in Run(s, ss).given
  }

  /** Some future acknowledges the event. */
  ghost predicate Answerable(s: State, e: Event) {
    exists ss :: Legal(s, ss) && Is(Run(s, ss), e, Acknowledged)
  }

  /** Some future does, without its prompt being given on the way. */
  ghost predicate AnsweredAsIs(s: State, e: Event) {
    exists ss :: AsIs(s, ss, e)
  }

  predicate AsIs(s: State, ss: seq<Step>, e: Event) {
    Legal(s, ss) && Is(Run(s, ss), e, Acknowledged) && (e in Run(s, ss).given ==> e in s.given)
  }

  /** A result may yet be handled for the session: one is on its way, a runner of it runs,
      one is about to start, or its thread would resume it. */
  predicate Live(s: State, id: string) {
    Served(s.roster, id) || Starting(s, id) || Resumed(s, id)
  }

  predicate Served(r: Roster, id: string) {
    Result(id) in r.pending || exists e :: e in r.running && e in r.runners && r.runners[e] == id
  }

  predicate Starting(s: State, id: string) {
    exists d :: d in s.place && (s.place[d] == Configuring(id) || s.place[d] == Catching(id))
  }

  predicate Resumed(s: State, id: string) {
    && id in s.sessions && GoesOn(s, id, s.sessions[id])
    && (id in s.roster.resumable || Init(id) in s.roster.pending)
  }

  /** Queued for a reply that no runner will ever give. */
  predicate Stranded(s: State, e: Event) {
    e in s.place && s.place[e].Replying? && !Live(s, s.place[e].session)
  }

  /** Out of the game: no step moves the event again. */
  predicate Gone(s: State, e: Event) {
    Is(s, e, Lost) || Is(s, e, Discarded)
  }

  lemma {:induction false} RunCons(s: State, step: Step, ss: seq<Step>)
    requires Enabled(s, step) && Legal(Apply(s, step), ss)
    ensures Legal(s, [step] + ss) && Run(s, [step] + ss) == Run(Apply(s, step), ss)
  {
    hide Apply, Enabled;
    if ss == [] {
      assert [step] + ss == [step] && [step][..0] == [];
      assert Run(s, []) == s && Legal(s, []);
    } else {
      assert ([step] + ss)[..|ss|] == [step] + ss[..|ss| - 1];
      RunCons(s, step, ss[..|ss| - 1]);
    }
  }

  lemma {:induction false} AsIsBefore(s: State, step: Step, e: Event)
    requires Enabled(s, step) && AnsweredAsIs(Apply(s, step), e)
    requires e in Given(s, step) ==> e in s.given
    ensures AnsweredAsIs(s, e)
  {
    var v := Apply(s, step);
    hide Shifted, Noted, Outstanding, Given, Enabled, Is, Run, Legal;
    var ss :| AsIs(v, ss, e);
    RunCons(s, step, ss);
    assert AsIs(s, [step] + ss, e);
  }

  lemma {:induction false} AnswerableBefore(s: State, step: Step, e: Event)
    requires Enabled(s, step) && Answerable(Apply(s, step), e)
    ensures Answerable(s, e)
  {
    hide Apply, Enabled, Is, Run, Legal;
    var ss :| Legal(Apply(s, step), ss) && Is(Run(Apply(s, step), ss), e, Acknowledged);
    RunCons(s, step, ss);
  }

  /** One step on: the state is as sane, the event where it is led, the rest as framed. */
  lemma {:induction false} Ahead(s: State, step: Step, e: Event)
    requires Sane(s) && Enabled(s, step) && e in s.place
    ensures var v := Apply(s, step);
            && Sane(v) && Is(v, e, Destination(s, step, e, s.place[e]))
            && v.roster == Noted(s.roster, step)
            && (!step.Bind? ==> v.threads == s.threads && v.sessions == s.sessions)
            && (step.Bind? ==> v.threads == s.threads[step.event.thread := step.session])
  {
    StepSane(s, step);
    PlaceAfter(s, step, e);
    Framed(s, step);
    hide Sound, Prompted, Apply, Destination, Noted, Enabled;
  }

  // ---------- how a queued event comes to be acknowledged ----------

  lemma {:induction false} AnsweredNow(s: State, e: Event)
    requires Is(s, e, Acknowledged)
    ensures AnsweredAsIs(s, e)
  {
    assert AsIs(s, [], e);
  }

  lemma {:induction false} AnsweredPosting(s: State, e: Event, c: nat)
    requires Sane(s) && Is(s, e, Posting(c))
    ensures AnsweredAsIs(s, e)
  {
    HeldAt(s, e, Posting(c));
    assert c in s.calls;
    Ahead(s, Posted(c), e);
    hide Apply, Sane, AnsweredAsIs;
    AnsweredNow(Apply(s, Posted(c)), e);
    AsIsBefore(s, Posted(c), e);
  }

  lemma {:induction false} AnsweredPending(s: State, e: Event, id: string)
    requires Sane(s) && Is(s, e, Replying(id)) && Result(id) in s.roster.pending
    ensures AnsweredAsIs(s, e)
  {
    var c := Unused(s.calls.Keys);
    var step := ResultArrives(c, id);
    QueuedAt(s, e, id);
    Answered(s.roster, s.sessions, id);
    assert Enabled(s, step);
    Ahead(s, step, e);
    hide Apply, Sane, AnsweredAsIs;
    AnsweredPosting(Apply(s, step), e, c);
    AsIsBefore(s, step, e);
  }

  lemma {:induction false} AnsweredRunning(s: State, e: Event, id: string, r: Event)
    requires Sane(s) && Is(s, e, Replying(id))
    requires r in s.roster.running && r in s.roster.runners && s.roster.runners[r] == id
    ensures AnsweredAsIs(s, e)
  {
    var step := Emit(r, Result(id));
    Ahead(s, step, e);
    hide Apply, Sane, AnsweredAsIs;
    AnsweredPending(Apply(s, step), e, id);
    AsIsBefore(s, step, e);
  }

  lemma {:induction false} CatchingRunner(s: State, d: Event, id: string)
    requires Sane(s) && Is(s, d, Catching(id))
    ensures d in s.roster.runners && s.roster.runners[d] == id
  {
    assert AtHome(s, d);
  }

  lemma {:induction false} AnsweredCatching(s: State, e: Event, id: string, d: Event)
    requires Sane(s) && Is(s, e, Replying(id)) && Is(s, d, Catching(id))
    ensures AnsweredAsIs(s, e)
  {
    hide Apply, Sane, AnsweredAsIs;
    var step := Start(d, id);
    CatchingRunner(s, d, id);
    Ahead(s, step, e);
    AnsweredRunning(Apply(s, step), e, id, d);
    AsIsBefore(s, step, e);
  }

  lemma {:induction false} AnsweredConfiguring(s: State, e: Event, id: string, d: Event)
    requires Sane(s) && Is(s, e, Replying(id)) && Is(s, d, Configuring(id))
    ensures AnsweredAsIs(s, e)
  {
    var step := Attach(d, id);
    Ahead(s, step, e);
    Ahead(s, step, d);
    hide Apply, Sane, AnsweredAsIs;
    AnsweredCatching(Apply(s, step), e, id, d);
    AsIsBefore(s, step, e);
  }

  /** An event of the thread that has not come yet. */
  lemma {:induction false} NewEvent(s: State, t: string) returns (d: Event)
    ensures d !in s.place && d.thread == t
  {
    var tokens := set e | e in s.place :: e.token;
    var k := Unused(tokens);
    d := Event(k, t);
    assert k !in tokens;
    assert forall e :: e in s.place ==> e.token in tokens;
  }

  lemma {:induction false} CurrentRunner(s: State, t: string) returns (r: Event)
    requires Sane(s) && Running(s, t)
    ensures t in s.threads && r == RunnerOf(s, t).value
    ensures r in s.roster.running && r in s.roster.runners && s.roster.runners[r] == s.threads[t]
  {
    r := RunnerOf(s, t).value;
    hide Placed, Home, Batched, Bound, Prompted;
  }

  lemma {:induction false} AnsweredResumable(s: State, e: Event, id: string)
    requires Sane(s) && Is(s, e, Replying(id)) && id in s.roster.resumable
    requires id in s.sessions && GoesOn(s, id, s.sessions[id])
    ensures AnsweredAsIs(s, e)
  {
    var t := s.sessions[id];
    assert id in s.roster.current;
    if Running(s, t) {
      var r := CurrentRunner(s, t);
      hide Sane, AnsweredAsIs;
      AnsweredRunning(s, e, id, r);
    } else {
      var d := NewEvent(s, t);
      var step := Arrive(d, Resume);
      assert Enabled(s, step);
      Ahead(s, step, e);
      Arrived(s, d, Resume);
      hide Apply, Sane, AnsweredAsIs;
      AnsweredConfiguring(Apply(s, step), e, id, d);
      AsIsBefore(s, step, e);
    }
  }

  lemma {:induction false} AnsweredIdentified(s: State, e: Event, id: string)
    requires Sane(s) && Is(s, e, Replying(id)) && Init(id) in s.roster.pending
    requires id in s.sessions && GoesOn(s, id, s.sessions[id])
    ensures AnsweredAsIs(s, e)
  {
    var step := Identified(id);
    Ahead(s, step, e);
    hide Apply, Sane, AnsweredAsIs;
    AnsweredResumable(Apply(s, step), e, id);
    AsIsBefore(s, step, e);
  }

  lemma {:induction false} AnsweredReplying(s: State, e: Event, id: string)
    requires Sane(s) && Is(s, e, Replying(id)) && Live(s, id)
    ensures AnsweredAsIs(s, e)
  {
    hide Sane, AnsweredAsIs;
    if Result(id) in s.roster.pending {
      AnsweredPending(s, e, id);
    } else if r: Event :| r in s.roster.running && r in s.roster.runners && s.roster.runners[r] == id {
      AnsweredRunning(s, e, id, r);
    } else if d :| d in s.place && (s.place[d] == Configuring(id) || s.place[d] == Catching(id)) {
      if s.place[d] == Configuring(id) {
        AnsweredConfiguring(s, e, id, d);
      } else {
        AnsweredCatching(s, e, id, d);
      }
    } else if id in s.roster.resumable {
      AnsweredResumable(s, e, id);
    } else {
      AnsweredIdentified(s, e, id);
    }
  }

  // ---------- and a waiting one ----------

  predicate Waiting(s: State, e: Event) {
    Is(s, e, FollowUp(e.thread)) || Is(s, e, Scheduled)
  }

  /** The way a batch is taken that finds no streaming turn. */
  function Deferred(s: State, t: string): (way: Way)
    ensures Open(s, t, way) && way != Ignore && way != Inject
  {
    if Running(s, t) then Busy
    else if RunnerOf(s, t).Some? && s.threads[t] in s.roster.resumable then Resume
    else Create
  }

  lemma {:induction false} BatchTaken(s: State, way: Way)
    requires Enabled(s, Redispatch(way))
    ensures Apply(s, Redispatch(way)).scheduled == s.scheduled[1..]
  {
    TakeFrame(s.(scheduled := s.scheduled[1..]), s.scheduled[0], way);
    hide Take;
  }

  lemma {:induction false} FirstBatch(s: State, e: Event)
    requires Sane(s) && Is(s, e, Scheduled)
    ensures s.scheduled != [] && s.scheduled[0] != []
    ensures e in s.scheduled[0] ==> s.scheduled[0][0].thread == e.thread
  {
    HeldAt(s, e, Scheduled);
    if e in s.scheduled[0] {
      BatchThread(s, e);
    }
    hide Placed, Home, Bound, Manned, Prompted;
    assert s.scheduled[0] in s.scheduled;
  }

  lemma {:induction false} AnsweredBatch(s: State, e: Event)
    requires Sane(s) && Is(s, e, Scheduled) && Running(s, e.thread)
    requires Enabled(s, Redispatch(Inject)) && e in s.scheduled[0] && s.scheduled[0][0].thread == e.thread
    ensures AnsweredAsIs(s, e)
  {
    hide Apply, Sane, AnsweredAsIs, RunnerOf, Running;
    var step := Redispatch(Inject);
    var r := CurrentRunner(s, e.thread);
    Ahead(s, step, e);
    AnsweredRunning(Apply(s, step), e, s.threads[e.thread], r);
    AsIsBefore(s, step, e);
  }

  lemma {:induction false} StillRunning(s: State, v: State, way: Way, t: string)
    requires Running(s, t) && v.threads == s.threads && v.roster == Noted(s.roster, Redispatch(way))
    ensures Running(v, t)
  {
  }

  /** The batches before it are taken first, and then it finds the turn running. */
  lemma {:induction false} AnsweredScheduled(s: State, e: Event)
    requires Sane(s) && Is(s, e, Scheduled) && Running(s, e.thread)
    ensures AnsweredAsIs(s, e)
    decreases |s.scheduled|
  {
    hide Sane, AnsweredAsIs;
    FirstBatch(s, e);
    if e in s.scheduled[0] {
      AnsweredBatch(s, e);
    } else {
      var way := Deferred(s, s.scheduled[0][0].thread);
      var step := Redispatch(way);
      Ahead(s, step, e);
      BatchTaken(s, way);
      StillRunning(s, Apply(s, step), way, e.thread);
      hide Apply, Deferred, Running, Noted;
      AnsweredScheduled(Apply(s, step), e);
      AsIsBefore(s, step, e);
    }
  }

  lemma {:induction false} CallMade(s: State, c: nat, id: string)
    requires TurnEnded(s, ResultArrives(c, id)).None?
    ensures c in Apply(s, ResultArrives(c, id)).calls && Apply(s, ResultArrives(c, id)).calls[c] == id
  {
    hide MoveAll, At, ScheduleFollowups;
  }

  lemma {:induction false} AnsweredPosted(s: State, e: Event, c: nat)
    requires Sane(s) && Is(s, e, FollowUp(e.thread)) && Running(s, e.thread)
    requires c in s.calls && GoesOn(s, s.calls[c], e.thread)
    ensures AnsweredAsIs(s, e)
  {
    hide Apply, Sane, AnsweredAsIs;
    var step := Posted(c);
    Ahead(s, step, e);
    AnsweredScheduled(Apply(s, step), e);
    AsIsBefore(s, step, e);
  }

  lemma {:induction false} AnsweredFollowUp(s: State, e: Event, id: string)
    requires Sane(s) && Is(s, e, FollowUp(e.thread)) && Running(s, e.thread) && s.threads[e.thread] == id
    requires Result(id) in s.roster.pending && GoesOn(s, id, e.thread)
    ensures AnsweredAsIs(s, e)
  {
    var c := Unused(s.calls.Keys);
    var step := ResultArrives(c, id);
    assert c !in s.calls && c !in s.posting;
    hide Sane;
    Ahead(s, step, e);
    if TurnEnded(s, step).None? {
      CallMade(s, c, id);
      hide Apply, AnsweredAsIs;
      AnsweredPosted(Apply(s, step), e, c);
    } else {
      hide Apply, AnsweredAsIs;
      AnsweredScheduled(Apply(s, step), e);
    }
    AsIsBefore(s, step, e);
  }

  lemma {:induction false} AnsweredTurning(s: State, e: Event)
    requires Sane(s) && Waiting(s, e) && Running(s, e.thread)
    ensures AnsweredAsIs(s, e)
  {
    if Is(s, e, Scheduled) {
      AnsweredScheduled(s, e);
    } else {
      var r := CurrentRunner(s, e.thread);
      var id := s.threads[e.thread];
      var step := Emit(r, Result(id));
      Ahead(s, step, e);
      hide Apply, AnsweredAsIs;
      AnsweredFollowUp(Apply(s, step), e, id);
      AsIsBefore(s, step, e);
    }
  }

  lemma {:induction false} WaitingCatching(s: State, e: Event, id: string, d: Event)
    requires Sane(s) && Waiting(s, e) && Is(s, d, Catching(id))
    requires e.thread in s.threads && s.threads[e.thread] == id && id in s.roster.current && s.roster.current[id] == d
    ensures AnsweredAsIs(s, e)
  {
    hide Apply, Sane, AnsweredAsIs;
    var step := Start(d, id);
    Ahead(s, step, e);
    AnsweredTurning(Apply(s, step), e);
    AsIsBefore(s, step, e);
  }

  lemma {:induction false} WaitingConfiguring(s: State, e: Event, id: string, d: Event)
    requires Sane(s) && Waiting(s, e) && Is(s, d, Configuring(id)) && e.thread in s.threads && s.threads[e.thread] == id
    ensures AnsweredAsIs(s, e)
  {
    var step := Attach(d, id);
    Ahead(s, step, e);
    Ahead(s, step, d);
    hide Apply, Sane, AnsweredAsIs;
    WaitingCatching(Apply(s, step), e, id, d);
    AsIsBefore(s, step, e);
  }

  lemma {:induction false} FreshSession(keys: set<string>) returns (id: string)
    ensures forall k :: k in keys ==> |k| < |id|
    decreases |keys|
  {
    if keys == {} {
      id := "";
    } else {
      var k :| k in keys;
      id := FreshSession(keys - {k});
      assert forall j :: j in keys ==> j == k || j in keys - {k};
      id := if |id| <= |k| then k + "+" else id;
    }
  }

  lemma {:induction false} WaitingCreating(s: State, e: Event, d: Event)
    requires Sane(s) && Waiting(s, e) && Is(s, d, Creating) && d.thread == e.thread
    ensures AnsweredAsIs(s, e)
  {
    var id := FreshSession(s.sessions.Keys);
    var step := Bind(d, id);
    Ahead(s, step, e);
    Ahead(s, step, d);
    hide Apply, Sane, AnsweredAsIs;
    WaitingConfiguring(Apply(s, step), e, id, d);
    AsIsBefore(s, step, e);
  }

  /** Another event of the thread brings up a turn, if none runs. */
  lemma {:induction false} AnsweredWaiting(s: State, e: Event)
    requires Sane(s) && Waiting(s, e)
    ensures AnsweredAsIs(s, e)
  {
    if Running(s, e.thread) {
      AnsweredTurning(s, e);
    } else {
      var d := NewEvent(s, e.thread);
      var way := Deferred(s, e.thread);
      var step := Arrive(d, way);
      assert Enabled(s, step);
      Ahead(s, step, e);
      Arrived(s, d, way);
      hide Apply, Sane, AnsweredAsIs;
      if way == Resume {
        WaitingConfiguring(Apply(s, step), e, s.threads[e.thread], d);
      } else {
        WaitingCreating(Apply(s, step), e, d);
      }
      AsIsBefore(s, step, e);
    }
  }

  // ---------- what never changes any more ----------

  lemma {:induction false} ServedBefore(r: Roster, step: Step, id: string)
    requires Served(Noted(r, step), id)
    requires step.Emit? ==>
               step.runner in r.running && step.runner in r.runners && r.runners[step.runner] == step.message.session
    requires step.Start? ==> step.event in r.runners && r.runners[step.event] == step.session
    requires step.Attach? ==> step.event !in r.running
    ensures Served(r, id) || (step.Start? && step.session == id)
  {
  }

  lemma {:induction false} ResumedBefore(s: State, v: State, step: Step, id: string)
    requires Bound(s) && Enabled(s, step) && id in s.sessions && Resumed(v, id)
    requires v.roster == Noted(s.roster, step)
    requires step.Bind? ==> v.threads == s.threads[step.event.thread := step.session]
                            && v.sessions == s.sessions[step.session := step.event.thread]
    requires !step.Bind? ==> v.threads == s.threads && v.sessions == s.sessions
    ensures Resumed(s, id) || Served(s.roster, id)
  {
    if step.Emit? && step.message.session == id {
      assert s.roster.runners[step.runner] == id;
    }
  }

  lemma {:induction false} NotServedAgain(s: State, step: Step, id: string)
    requires Sane(s) && Enabled(s, step) && Served(Noted(s.roster, step), id)
    ensures Live(s, id)
  {
    hide Sound, Served, Noted, Resumed, Prompted;
    if step.Start? {
      CatchingRunner(s, step.event, step.session);
    }
    if step.Attach? {
      NotYetRunning(s, step.event, step.session);
    }
    ServedBefore(s.roster, step, id);
  }

  lemma {:induction false} NotYetRunning(s: State, e: Event, id: string)
    requires Sane(s) && Is(s, e, Configuring(id))
    ensures e !in s.roster.running
  {
    hide Sound;
  }

  lemma {:induction false} NotResumedAgain(s: State, step: Step, id: string)
    requires Sane(s) && Enabled(s, step) && id in s.sessions && Resumed(Apply(s, step), id)
    ensures Live(s, id)
  {
    Framed(s, step);
    hide Apply, Noted, Placed, Home, Batched, Manned, Prompted, Resumed, Served, Starting;
    ResumedBefore(s, Apply(s, step), step, id);
  }

  /** A session no result can be handled for stays so. */
  lemma {:induction false} NotLiveAgain(s: State, step: Step, id: string)
    requires Sane(s) && Enabled(s, step) && id in s.sessions && Live(Apply(s, step), id)
    ensures Live(s, id)
  {
    var v := Apply(s, step);
    Framed(s, step);
    hide Apply, Sane, Noted, Served, Resumed, Enabled;
    if d :| d in v.place && (v.place[d] == Configuring(id) || v.place[d] == Catching(id)) {
      NotStartingAgain(s, step, id, d);
    } else if Resumed(v, id) {
      NotResumedAgain(s, step, id);
    } else {
      NotServedAgain(s, step, id);
    }
  }

  lemma {:induction false} SentToStart(s: State, step: Step, d: Event, id: string)
    requires Enabled(s, step) && d in s.place
    ensures var p, q := s.place[d], Destination(s, step, d, s.place[d]);
            q == Configuring(id) || q == Catching(id) ==>
              || p == Configuring(id) || p == Catching(id) || (step.Bind? && step.session == id)
              || (step.Redispatch? && step.way == Resume && To(s, s.scheduled[0][0].thread, Resume) == Configuring(id))
  {
  }

  lemma {:induction false} NotStartingAgain(s: State, step: Step, id: string, d: Event)
    requires Sane(s) && Enabled(s, step) && id in s.sessions
    requires Is(Apply(s, step), d, Configuring(id)) || Is(Apply(s, step), d, Catching(id))
    ensures Live(s, id)
  {
    Framed(s, step);
    hide Apply, Noted, Home, Batched, Manned, Prompted;
    if d in s.place {
      PlaceAfter(s, step, d);
      SentToStart(s, step, d, id);
      hide Placed, Destination;
      if step.Redispatch? {
        ResumedLive(s, s.scheduled[0][0].thread, id);
      }
    } else {
      hide Placed, Destination;
      Arrived(s, d, step.way);
      ResumedLive(s, d.thread, id);
    }
  }

  lemma {:induction false} ResumedLive(s: State, t: string, id: string)
    requires Bound(s)
    ensures Open(s, t, Resume) && To(s, t, Resume) == Configuring(id) ==> Live(s, id)
  {
  }

  lemma {:induction false} StrandedStays(s: State, step: Step, e: Event)
    requires Sane(s) && Enabled(s, step) && Stranded(s, e)
    ensures var v := Apply(s, step); Gone(v, e) || Stranded(v, e)
  {
    var id := s.place[e].session;
    var v := Apply(s, step);
    assert AtHome(s, e);
    PlaceAfter(s, step, e);
    if Live(v, id) {
      NotLiveAgain(s, step, id);
    }
    hide Apply, Sane, Live;
    StrandedTo(s, step, e, id);
  }

  lemma {:induction false} StrandedTo(s: State, step: Step, e: Event, id: string)
    requires Enabled(s, step) && Is(s, e, Replying(id)) && !Live(s, id)
    ensures Destination(s, step, e, Replying(id)) in {Replying(id), Discarded}
  {
  }

  // ---------- when an event is answered at all ----------

  lemma {:induction false} OutForGood(s: State, ss: seq<Step>, e: Event)
    requires Sane(s) && Legal(s, ss) && (Gone(s, e) || Stranded(s, e))
    ensures Sane(Run(s, ss)) && (Gone(Run(s, ss), e) || Stranded(Run(s, ss), e))
  {
    if ss != [] {
      var v, last := Run(s, ss[..|ss| - 1]), ss[|ss| - 1];
      OutForGood(s, ss[..|ss| - 1], e);
      StepSane(v, last);
      if Stranded(v, e) {
        StrandedStays(v, last, e);
      } else {
        PlaceAfter(v, last, e);
        Onward(v, last, e);
      }
      hide Sound, Prompted, Apply, Enabled, Live, Destination;
    }
  }

  lemma {:induction false} AsIsAnswerable(s: State, e: Event)
    requires AnsweredAsIs(s, e)
    ensures Answerable(s, e)
  {
    hide Legal, Run, Is;
  }

  lemma {:induction false} AnswerableCatching(s: State, e: Event, id: string)
    requires Sane(s) && Is(s, e, Catching(id))
    ensures Answerable(s, e)
  {
    var step := Start(e, id);
    CatchingRunner(s, e, id);
    Ahead(s, step, e);
    hide Apply, Sane, AnsweredAsIs, Answerable;
    AnsweredRunning(Apply(s, step), e, id, e);
    AsIsAnswerable(Apply(s, step), e);
    AnswerableBefore(s, step, e);
  }

  lemma {:induction false} AnswerableConfiguring(s: State, e: Event, id: string)
    requires Sane(s) && Is(s, e, Configuring(id))
    ensures Answerable(s, e)
  {
    var step := Attach(e, id);
    Ahead(s, step, e);
    hide Apply, Sane, Answerable;
    AnswerableCatching(Apply(s, step), e, id);
    AnswerableBefore(s, step, e);
  }

  lemma {:induction false} AnswerableCreating(s: State, e: Event)
    requires Sane(s) && Is(s, e, Creating)
    ensures Answerable(s, e)
  {
    var id := FreshSession(s.sessions.Keys);
    var step := Bind(e, id);
    Ahead(s, step, e);
    hide Apply, Sane, Answerable;
    AnswerableConfiguring(Apply(s, step), e, id);
    AnswerableBefore(s, step, e);
  }

  /** An event that is neither out of the game nor stranded, nor on the way to a turn of its
      own, can be acknowledged with no prompt given on the way. */
  lemma {:induction false} AnsweredFromThere(s: State, e: Event)
    requires Sane(s) && e in s.place && !Gone(s, e) && !Stranded(s, e) && !OnWay(s.place[e])
    ensures AnsweredAsIs(s, e)
  {
    assert AtHome(s, e);
    hide Sane, AnsweredAsIs, Live;
    match s.place[e]
    case Replying(id) => AnsweredReplying(s, e, id);
    case Posting(c) => AnsweredPosting(s, e, c);
    case FollowUp(_) => AnsweredWaiting(s, e);
    case Scheduled => AnsweredWaiting(s, e);
    case Acknowledged => AnsweredNow(s, e);
    case _ =>
  }

  /** From any reachable moment, some future acknowledges an event, if and only if it is not
      lost, discarded or stranded: queued for a reply in a session that no result can reach. */
  lemma {:induction false} AnswerableExactly(s: State, e: Event)
    requires Sane(s) && e in s.place
    ensures Answerable(s, e) <==> !Gone(s, e) && !Stranded(s, e)
  {
    hide Sane, AnsweredAsIs, Live;
    if Gone(s, e) || Stranded(s, e) {
      forall ss | Legal(s, ss) ensures !Is(Run(s, ss), e, Acknowledged) {
        OutForGood(s, ss, e);
      }
    } else {
      hide Answerable;
      match s.place[e]
      case Creating => AnswerableCreating(s, e);
      case Configuring(id) => AnswerableConfiguring(s, e, id);
      case Catching(id) => AnswerableCatching(s, e, id);
      case _ =>
        AnsweredFromThere(s, e);
        AsIsAnswerable(s, e);
    }
  }

  // ---------- when its prompt is heard first ----------

  /** Given by now, out of the game, stranded, or on the way to a turn of its own. */
  predicate Safe(s: State, e: Event) {
    e in s.place && (e in s.given || Gone(s, e) || Stranded(s, e) || OnWay(s.place[e]))
  }

  lemma {:induction false} OnWayTo(s: State, step: Step, e: Event)
    requires Enabled(s, step) && e in s.place && OnWay(s.place[e])
    ensures var q := Destination(s, step, e, s.place[e]);
            OnWay(q) || q == Lost || (step.Start? && step.event == e)
  {
  }

  lemma {:induction false} GivenStays(s: State, step: Step, e: Event)
    ensures e in s.given || (step.Start? && step.event == e) ==> e in Apply(s, step).given
  {
    PromptsAfter(s, step);
    hide Apply;
  }

  lemma {:induction false} SafeStays(s: State, step: Step, e: Event)
    requires Sane(s) && Enabled(s, step) && Safe(s, e)
    ensures Safe(Apply(s, step), e)
  {
    GivenStays(s, step, e);
    PlaceAfter(s, step, e);
    Onward(s, step, e);
    hide Apply, Sane, Enabled, Stranded, Destination;
    if Stranded(s, e) {
      StrandedStays(s, step, e);
    } else if OnWay(s.place[e]) {
      OnWayTo(s, step, e);
    }
  }

  lemma {:induction false} SafeForGood(s: State, ss: seq<Step>, e: Event)
    requires Sane(s) && Legal(s, ss) && Safe(s, e)
    ensures Sane(Run(s, ss)) && Safe(Run(s, ss), e)
  {
    if ss != [] {
      var v := Run(s, ss[..|ss| - 1]);
      SafeForGood(s, ss[..|ss| - 1], e);
      StepSane(v, ss[|ss| - 1]);
      SafeStays(v, ss[|ss| - 1], e);
      hide Sane, Safe, Apply, Enabled;
    }
  }

  lemma {:induction false} UnheardAsIs(s: State, e: Event)
    requires AnsweredAsIs(s, e) && e !in s.given
    ensures !HeardFirst(s, e)
  {
    hide Legal, Run, Is;
  }

  /** From any reachable moment: every future acknowledges an event only after its prompt
      was given, if and only if it has been given by now, or the event is on the way to a
      turn of its own, or it is lost, discarded or stranded. Nothing else makes a reply wait,
      neither that the event is queued nor that its prompt is on the way: the result of the
      turn before can always overtake it. */
  lemma {:induction false} HeardExactly(s: State, e: Event)
    requires Sane(s) && e in s.place
    ensures HeardFirst(s, e) <==> e in s.given || OnWay(s.place[e]) || Gone(s, e) || Stranded(s, e)
  {
    hide Sane, AnsweredAsIs, Live;
    if Safe(s, e) {
      forall ss | Legal(s, ss) && Is(Run(s, ss), e, Acknowledged)
        ensures e in Run(s, ss).given
      {
        SafeForGood(s, ss, e);
      }
    } else {
      hide HeardFirst;
      AnsweredFromThere(s, e);
      UnheardAsIs(s, e);
    }
  }

  ghost predicate NeverHeard(s: State, e: Event) {
    forall ss :: Legal(s, ss) ==> e !in Run(s, ss).given
  }

  /** Taken up, not given, and nobody is about to give it. */
  predicate Silent(s: State, e: Event) {
    && e in s.place && !Unsent(s.place[e]) && e !in s.given
    && (e in s.outstanding ==> s.outstanding[e] !in s.roster.running)
  }

  lemma {:induction false} NotInjected(s: State, step: Step, e: Event)
    requires Sane(s) && Enabled(s, step) && e in s.place && !Unsent(s.place[e])
    ensures e !in InjectedBy(s, step)
  {
    HeldAt(s, e, Scheduled);
    hide Placed, Home, Batched, Bound, Manned, Prompted;
  }

  /** A runner that has stopped is not started again. */
  lemma {:induction false} NotRunningAgain(s: State, step: Step, r: Event)
    requires Prompted(s) && Enabled(s, step) && r in s.given && r !in s.roster.running
    ensures r !in Noted(s.roster, step).running
  {
  }

  lemma {:induction false} SilentStays(s: State, step: Step, e: Event)
    requires Sane(s) && Enabled(s, step) && Silent(s, e)
    ensures Silent(Apply(s, step), e)
  {
    PlaceAfter(s, step, e);
    Onward(s, step, e);
    NotInjected(s, step, e);
    if e in Outstanding(s, step) {
      OutstandingAfter(s, step, e);
      NotRunningAgain(s, step, s.outstanding[e]);
    }
    hide Shifted, Noted, Sound, Destination, Outstanding, InjectedBy;
  }

  lemma {:induction false} SilentForGood(s: State, ss: seq<Step>, e: Event)
    requires Sane(s) && Legal(s, ss) && Silent(s, e)
    ensures Sane(Run(s, ss)) && Silent(Run(s, ss), e)
  {
    if ss != [] {
      var v := Run(s, ss[..|ss| - 1]);
      SilentForGood(s, ss[..|ss| - 1], e);
      StepSane(v, ss[|ss| - 1]);
      SilentStays(v, ss[|ss| - 1], e);
      hide Sane, Silent, Apply, Enabled;
    }
  }

  /** An event taken up and not heard, acknowledged or not, stays unheard in every future if
      and only if its prompt is not on the way to a runner that still runs. */
  lemma {:induction false} NeverHeardExactly(s: State, e: Event)
    requires Sane(s) && e in s.place && !Unsent(s.place[e]) && e !in s.given
    ensures NeverHeard(s, e) <==> !(e in s.outstanding && s.outstanding[e] in s.roster.running)
  {
    hide Sane;
    if e in s.outstanding && s.outstanding[e] in s.roster.running {
      assert Enabled(s, Deliver(e)) && Legal(s, []) && Run(s, []) == s && [Deliver(e)][..0] == [];
      assert Legal(s, [Deliver(e)]) && e in Run(s, [Deliver(e)]).given;
    } else {
      forall ss | Legal(s, ss) ensures e !in Run(s, ss).given {
        SilentForGood(s, ss, e);
      }
    }
  }
}
