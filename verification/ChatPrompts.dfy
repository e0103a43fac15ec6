/** The prompts of chat events: when a runner has been given one, and when one is on the way. */
module ChatPrompts {
  import opened ChatReplies
  import opened ChatThreads
  import opened Wrappers

  /** Places of events that have yet to be taken up by a turn. */
  predicate Unsent(p: Place) {
    OnWay(p) || p.FollowUp? || p.Scheduled?
  }

  ghost predicate Known(s: State) {
    && s.given <= s.place.Keys && s.roster.running <= s.given
    && forall e :: e in s.outstanding ==> e in s.place && s.outstanding[e] in s.given
  }

  /** An event that has yet to be taken up has no prompt on the way, and none given. A runner
      runs only once it has its own event's prompt. */
  ghost predicate Prompted(s: State) {
    && Known(s)
    && forall e :: e in s.place && Unsent(s.place[e]) ==> e !in s.given && e !in s.outstanding
  }

  ghost predicate Sane(s: State) {
    Sound(s) && Prompted(s) && s.posting.Keys == s.calls.Keys
  }

  /** The events a step injects. */
  function InjectedBy(s: State, step: Step): seq<Event> {
    match step
    case Arrive(e, way) => if way.Inject? then [e] else []
    case Redispatch(way) => if way.Inject? && s.scheduled != [] then s.scheduled[0] else []
    case _ => []
  }

  lemma {:induction false} OutstandingAfter(s: State, step: Step, e: Event)
    requires e in Outstanding(s, step)
    ensures (e in s.outstanding && Outstanding(s, step)[e] == s.outstanding[e] && !(step.Deliver? && step.event == e))
            || (e in InjectedBy(s, step) && RunnerOf(s, InjectedBy(s, step)[0].thread) == Some(Outstanding(s, step)[e]))
  {
  }

  /** Where the places lead: an event taken up is never waiting again, and one out of the
      game stays out. */
  lemma {:induction false} Onward(s: State, step: Step, e: Event)
    requires Enabled(s, step) && e in s.place
    ensures var p, q := s.place[e], Destination(s, step, e, s.place[e]);
            && (!Unsent(p) ==> !Unsent(q))
            && (p == Lost || p == Discarded ==> q == p)
            && (step.Redispatch? && step.way == Inject && s.scheduled != [] && e in s.scheduled[0] && p == Scheduled ==>
                 !Unsent(q))
            && ((step.Start? && step.event == e) ==> !Unsent(q))
  {
  }

  lemma {:induction false} InjectedTaken(s: State, step: Step, e: Event)
    requires Sound(s) && Enabled(s, step) && e in InjectedBy(s, step)
    ensures var v := Apply(s, step); e in v.place && !Unsent(v.place[e])
  {
    hide Placed, Apply, Bound, Home, Batched, Manned;
    if step.Arrive? {
      Arrived(s, e, step.way);
    } else {
      HeldAt(s, e, Scheduled);
      PlaceAfter(s, step, e);
      Onward(s, step, e);
    }
  }

  lemma {:induction false} InjectedKnown(s: State, step: Step)
    requires Sound(s) && Enabled(s, step) && InjectedBy(s, step) != []
    ensures RunnerOf(s, InjectedBy(s, step)[0].thread).Some?
    ensures RunnerOf(s, InjectedBy(s, step)[0].thread).value in s.roster.running
  {
  }

  lemma {:induction false} StepUnsent(s: State, step: Step, e: Event)
    requires Sound(s) && Prompted(s) && Enabled(s, step)
    requires var v := Apply(s, step); e in v.place && Unsent(v.place[e])
    ensures e !in Given(s, step) && e !in Outstanding(s, step)
  {
    hide Apply, Outstanding, Placed, Bound, Home, Batched, Manned, Noted, InjectedBy, Destination, RunnerOf;
    Framed(s, step);
    if e in InjectedBy(s, step) {
      InjectedTaken(s, step, e);
    }
    if e in s.place {
      PlaceAfter(s, step, e);
      Onward(s, step, e);
    }
    if e in Outstanding(s, step) {
      OutstandingAfter(s, step, e);
    }
  }

  lemma {:induction false} OutstandingKnown(s: State, step: Step, e: Event)
    requires Sound(s) && Prompted(s) && Enabled(s, step) && e in Outstanding(s, step)
    ensures e in Apply(s, step).place && Outstanding(s, step)[e] in s.given
  {
    Framed(s, step);
    OutstandingAfter(s, step, e);
    if e in InjectedBy(s, step) {
      InjectedTaken(s, step, e);
      InjectedKnown(s, step);
    }
    hide Apply, Outstanding, Placed, Bound, Home, Batched, Manned, Noted, InjectedBy, RunnerOf, Unsent;
  }

  /** The prompts are no matter of the lists. */
  lemma {:induction false} PromptsAfter(s: State, step: Step)
    ensures Apply(s, step).given == Given(s, step) && Apply(s, step).outstanding == Outstanding(s, step)
  {
    hide Shifted, Noted, Given, Outstanding;
  }

  lemma {:induction false} RunningGiven(s: State, step: Step)
    requires s.roster.running <= s.given
    ensures Noted(s.roster, step).running <= Given(s, step) && s.given <= Given(s, step)
  {
  }

  lemma {:induction false} GivenPlaced(s: State, step: Step)
    requires Known(s) && Enabled(s, step)
    ensures Given(s, step) <= s.place.Keys
  {
  }

  lemma {:induction false} StepKnown(s: State, step: Step)
    requires Sound(s) && Prompted(s) && Enabled(s, step)
    ensures Known(Apply(s, step))
  {
    var v := Apply(s, step);
    Framed(s, step);
    PromptsAfter(s, step);
    RunningGiven(s, step);
    GivenPlaced(s, step);
    hide Apply, Sound, Noted, Given, Outstanding, Unsent, Enabled, Prompted;
    forall e | e in v.outstanding ensures e in v.place && v.outstanding[e] in s.given {
      OutstandingKnown(s, step, e);
    }
  }

  lemma {:induction false} StepPrompted(s: State, step: Step)
    requires Sound(s) && Prompted(s) && Enabled(s, step)
    ensures Prompted(Apply(s, step))
  {
    hide Apply, Sound, Given, Outstanding, Unsent, Enabled, Known;
    StepKnown(s, step);
    PromptsAfter(s, step);
    forall e | e in Apply(s, step).place && Unsent(Apply(s, step).place[e])
      ensures e !in Apply(s, step).given && e !in Apply(s, step).outstanding
    {
      StepUnsent(s, step, e);
    }
  }

  lemma {:induction false} StepAnswering(s: State, step: Step)
    requires s.posting.Keys == s.calls.Keys
    ensures Shifted(s, step).posting.Keys == Shifted(s, step).calls.Keys
  {
    hide Take, ScheduleFollowups, At, MoveAll;
    match step
    case Arrive(e, way) => TakeFrame(s.(place := s.place[e := Lost]), [e], way);
    case Redispatch(way) =>
      if s.scheduled != [] && s.scheduled[0] != [] {
        TakeFrame(s.(scheduled := s.scheduled[1..]), s.scheduled[0], way);
      }
    case ResultArrives(_, id) => FollowUpsFrame(Undelivered(s, id), id);
    case Posted(c) =>
      if c in s.calls {
        FollowUpsFrame(Acked(s, c), s.calls[c]);
      }
    case _ =>
  }

  lemma {:induction false} StepSane(s: State, step: Step)
    requires Sane(s) && Enabled(s, step)
    ensures Sane(Apply(s, step))
  {
    StepSound(s, step);
    StepPrompted(s, step);
    StepAnswering(s, step);
    hide Sound, Prompted, Shifted, Enabled, Noted, Given, Outstanding;
  }

  /** Every reachable state meets what the theorems below ask for. */
  lemma {:induction false} RunSane(ss: seq<Step>)
    requires Legal(IDLE, ss)
    ensures Sane(Run(IDLE, ss))
  {
    if ss == [] {
      IdlePlaced();
    } else {
      RunSane(ss[..|ss| - 1]);
      StepSane(Run(IDLE, ss[..|ss| - 1]), ss[|ss| - 1]);
      hide Sane, Apply, Enabled;
    }
  }
}
