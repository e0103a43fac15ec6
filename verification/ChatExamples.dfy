/** Runs that show how a chat event is answered unheard, or never. */
module ChatExamples {
  import opened ChatReplies
  import opened ChatThreads
  import opened ChatPrompts
  import opened ChatAnswers
  import opened ChatHandler
  import opened Wrappers

  predicate Reaches(ss: seq<Step>, n: nat, s: State)
    requires n <= |ss|
  {
    Legal(IDLE, ss[..n]) && Run(IDLE, ss[..n]) == s
  }

  lemma {:induction false} Next(ss: seq<Step>, n: nat, s: State)
    requires n < |ss| && Reaches(ss, n, s) && Enabled(s, ss[n])
    ensures Reaches(ss, n + 1, Apply(s, ss[n]))
  {
    hide Apply, Enabled;
    assert ss[..n + 1][..n] == ss[..n];
  }

  /** Events of one thread. */
  function In(k: nat): Event {
    Event(k, "t")
  }

  /** The session of the first event, before and after it gets its runner. */
  function Opened(): State {
    IDLE.(threads := map["t" := "s"], sessions := map["s" := "t"], place := map[In(0) := Configuring("s")])
  }

  function Attached(): State {
    Opened().(place := map[In(0) := Catching("s")],
              roster := Roster(map["s" := In(0)], map[In(0) := "s"], {}, {}, {}, multiset{}))
  }

  /** A turn runs for the first event. */
  function Turning(): State {
    Opened().(replies := map["s" := [In(0)]], last := map["s" := In(0)], place := map[In(0) := Replying("s")],
              given := {In(0)}, roster := Roster(map["s" := In(0)], map[In(0) := "s"], {In(0)}, {In(0)}, {}, multiset{}))
  }

  /** The second event has been injected into it, and then its prompt refused. */
  function Injected(): State {
    Refused().(outstanding := map[In(1) := In(0)])
  }

  function Refused(): State {
    Turning().(replies := map["s" := [In(0), In(1)]], last := map["s" := In(1)],
               place := map[In(0) := Replying("s"), In(1) := Replying("s")])
  }

  lemma {:induction false} Opens()
    ensures var s1 := Apply(IDLE, Arrive(In(0), Create));
            && Enabled(IDLE, Arrive(In(0), Create)) && Enabled(s1, Bind(In(0), "s"))
            && Apply(s1, Bind(In(0), "s")) == Opened()
  {
  }

  lemma {:induction false} Attaches()
    ensures Enabled(Opened(), Attach(In(0), "s")) && Apply(Opened(), Attach(In(0), "s")) == Attached()
  {
  }

  lemma {:induction false} Starts()
    ensures Enabled(Attached(), Start(In(0), "s")) && Apply(Attached(), Start(In(0), "s")) == Turning()
  {
    assert At(Attached().replies, "s") + [In(0)] == [In(0)];
  }

  /** The second event, just come. */
  function Come(): State {
    Turning().(place := map[In(0) := Replying("s"), In(1) := Lost])
  }

  lemma {:induction false} Enqueues()
    ensures Enqueue(Come(), [In(1)], "s") == Refused()
  {
    assert At(Come().replies, "s") + [In(1)] == [In(0), In(1)];
    assert MoveAll(Come().place, [In(1)], Replying("s")) == Refused().place;
  }

  lemma {:induction false} RunsThere()
    ensures RunnerOf(Turning(), "t") == Some(In(0)) && Running(Turning(), "t") && Turning().threads["t"] == "s"
    ensures RunnerOf(Come(), "t") == Some(In(0)) && Come().threads["t"] == "s" && Come().outstanding == map[]
    ensures Come() == Turning().(place := Turning().place[In(1) := Lost]) && In(1) !in Turning().place
  {
  }

  lemma {:induction false} Injects()
    ensures Enabled(Turning(), Arrive(In(1), Inject)) && Apply(Turning(), Arrive(In(1), Inject)) == Injected()
  {
    RunsThere();
    Enqueues();
    hide Turning, Come, Refused, Apply, Handled, Enqueue, RunnerOf, Running;
    ArriveHandled(Turning(), In(1), Inject);
    HandledInject(Come(), [In(1)]);
    assert map[] + (map e | e in [In(1)] :: In(0)) == map[In(1) := In(0)];
  }

  lemma {:induction false} Refuses()
    ensures Enabled(Injected(), Refuse(In(1))) && Apply(Injected(), Refuse(In(1))) == Refused()
  {
  }

  /** A run that comes to that. */
  lemma {:induction false} Begun(ss: seq<Step>)
    requires |ss| >= 6
    requires ss[0] == Arrive(In(0), Create) && ss[1] == Bind(In(0), "s") && ss[2] == Attach(In(0), "s")
    requires ss[3] == Start(In(0), "s") && ss[4] == Arrive(In(1), Inject) && ss[5] == Refuse(In(1))
    ensures Reaches(ss, 6, Refused())
  {
    assert Reaches(ss, 0, IDLE);
    hide *;
    Opens();
    Next(ss, 0, IDLE);
    Next(ss, 1, Apply(IDLE, ss[0]));
    Attaches();
    Next(ss, 2, Opened());
    Starts();
    Next(ss, 3, Attached());
    Injects();
    Next(ss, 4, Turning());
    Refuses();
    Next(ss, 5, Injected());
  }

  predicate Unprompted(s: State, e: Event) {
    e !in s.given && e !in s.outstanding
  }

  lemma {:induction false} Promptless(s: State, step: Step, e: Event)
    requires Unprompted(s, e) && (step.Emit? || step.ResultArrives? || step.Posted?)
    ensures Unprompted(Apply(s, step), e)
  {
    hide Shifted, Noted;
  }

  /** A result of the session comes and is answered. */
  lemma {:induction false} Emits(s: State, e: Event, id: string, r: Event)
    requires Sane(s) && Is(s, e, Replying(id)) && Unprompted(s, e)
    requires r in s.roster.running && r in s.roster.runners && s.roster.runners[r] == id
    ensures var step := Emit(r, Result(id));
            var v := Apply(s, step);
            && Enabled(s, step) && Sane(v) && Is(v, e, Replying(id)) && Unprompted(v, e)
            && Result(id) in v.roster.pending && v.calls == s.calls
  {
    var step := Emit(r, Result(id));
    Ahead(s, step, e);
    Promptless(s, step, e);
    hide Sane, Unprompted;
  }

  lemma {:induction false} Answers(s: State, e: Event, id: string, c: nat)
    requires Sane(s) && Is(s, e, Replying(id)) && Unprompted(s, e) && Result(id) in s.roster.pending && c !in s.calls
    ensures var step := ResultArrives(c, id);
            var v := Apply(s, step);
            Enabled(s, step) && Sane(v) && Is(v, e, Posting(c)) && Unprompted(v, e) && c in v.calls
  {
    var step := ResultArrives(c, id);
    QueuedAt(s, e, id);
    Answered(s.roster, s.sessions, id);
    assert c !in s.posting;
    hide Sane, Unprompted;
    Ahead(s, step, e);
    CallMade(s, c, id);
    Promptless(s, step, e);
    hide Apply;
  }

  lemma {:induction false} Posts(s: State, e: Event, c: nat)
    requires Sane(s) && Is(s, e, Posting(c)) && Unprompted(s, e) && c in s.calls
    ensures var v := Apply(s, Posted(c));
            Enabled(s, Posted(c)) && Sane(v) && Is(v, e, Acknowledged) && Unprompted(v, e)
  {
    hide Sane, Unprompted;
    Ahead(s, Posted(c), e);
    Promptless(s, Posted(c), e);
    hide Apply;
  }

  lemma {:induction false} AfterRefusal()
    ensures var s := Refused();
            && Is(s, In(1), Replying("s")) && Unprompted(s, In(1)) && 0 !in s.calls
            && In(0) in s.roster.running && In(0) in s.roster.runners && s.roster.runners[In(0)] == "s"
  {
  }

  lemma {:induction false} UnheardRun(ss: seq<Step>)
    requires |ss| == 9
    requires ss[0] == Arrive(In(0), Create) && ss[1] == Bind(In(0), "s") && ss[2] == Attach(In(0), "s")
    requires ss[3] == Start(In(0), "s") && ss[4] == Arrive(In(1), Inject) && ss[5] == Refuse(In(1))
    requires ss[6] == Emit(In(0), Result("s")) && ss[7] == ResultArrives(0, "s") && ss[8] == Posted(0)
    ensures Legal(IDLE, ss) && Is(Run(IDLE, ss), In(1), Acknowledged) && NeverHeard(Run(IDLE, ss), In(1))
  {
    hide *;
    var s6 := Refused();
    AfterRefusal();
    Begun(ss);
    ReachedSane(ss, 6, s6);
    Emits(s6, In(1), "s", In(0));
    Next(ss, 6, s6);
    var s7 := Apply(s6, ss[6]);
    Answers(s7, In(1), "s", 0);
    Next(ss, 7, s7);
    var s8 := Apply(s7, ss[7]);
    Posts(s8, In(1), 0);
    Next(ss, 8, s8);
    AcknowledgedSilent(Apply(s8, ss[8]), In(1));
    ReachedWhole(ss, Apply(s8, ss[8]));
  }

  /** A run in which the second event is acknowledged with the first one's reply although
      its prompt was refused: it will never be heard. */
  lemma {:induction false} UnheardExample()
    ensures var a, b := Event(0, "t"), Event(1, "t");
            var ss := [Arrive(a, Create), Bind(a, "s"), Attach(a, "s"), Start(a, "s"), Arrive(b, Inject), Refuse(b),
                       Emit(a, Result("s")), ResultArrives(0, "s"), Posted(0)];
            Legal(IDLE, ss) && Is(Run(IDLE, ss), b, Acknowledged) && NeverHeard(Run(IDLE, ss), b)
  {
    hide Legal, Run, Apply, NeverHeard, Enabled;
    UnheardRun([Arrive(In(0), Create), Bind(In(0), "s"), Attach(In(0), "s"), Start(In(0), "s"), Arrive(In(1), Inject),
                Refuse(In(1)), Emit(In(0), Result("s")), ResultArrives(0, "s"), Posted(0)]);
  }

  lemma {:induction false} ReachedSane(ss: seq<Step>, n: nat, s: State)
    requires n <= |ss| && Reaches(ss, n, s)
    ensures Sane(s)
  {
    RunSane(ss[..n]);
    hide Sane;
  }

  lemma {:induction false} ReachedWhole(ss: seq<Step>, s: State)
    requires Reaches(ss, |ss|, s)
    ensures Legal(IDLE, ss) && Run(IDLE, ss) == s
  {
    assert ss[..|ss|] == ss;
    hide Legal, Run;
  }

  lemma {:induction false} AcknowledgedSilent(s: State, e: Event)
    requires Sane(s) && Is(s, e, Acknowledged) && Unprompted(s, e)
    ensures NeverHeard(s, e)
  {
    hide Sane, NeverHeard;
    NeverHeardExactly(s, e);
  }

  /** The runner stops before it has told a session id, and another event comes. */
  function Stopped(): State {
    Refused().(roster := Roster(map["s" := In(0)], map[In(0) := "s"], {}, {In(0)}, {}, multiset{}))
  }

  function Asked(): State {
    Stopped().(place := map[In(0) := Replying("s"), In(1) := Replying("s"), In(2) := Creating])
  }

  function Reopened(): State {
    Asked().(threads := map["t" := "u"], sessions := map["s" := "t", "u" := "t"],
             place := map[In(0) := Replying("s"), In(1) := Replying("s"), In(2) := Configuring("u")])
  }

  lemma {:induction false} Stops()
    ensures Enabled(Refused(), Stop(In(0))) && Apply(Refused(), Stop(In(0))) == Stopped()
  {
  }

  lemma {:induction false} AskedPlace()
    ensures var s := Stopped();
            var u := s.(place := s.place[In(2) := Lost]);
            Asked() == u.(place := MoveAll(u.place, [In(2)], Creating)) && Enabled(s, Arrive(In(2), Create))
  {
    var u := Stopped().(place := Stopped().place[In(2) := Lost]);
    assert MoveAll(u.place, [In(2)], Creating) == Asked().place;
  }

  lemma {:induction false} Asks()
    ensures Enabled(Stopped(), Arrive(In(2), Create)) && Apply(Stopped(), Arrive(In(2), Create)) == Asked()
  {
    hide Apply, Handled, Stopped, Asked, MoveAll, Enabled;
    AskedPlace();
    var s := Stopped();
    ArriveHandled(s, In(2), Create);
    HandledMoved(s.(place := s.place[In(2) := Lost]), [In(2)], Create);
  }

  lemma {:induction false} Reopens()
    ensures Enabled(Asked(), Bind(In(2), "u")) && Apply(Asked(), Bind(In(2), "u")) == Reopened()
  {
  }

  lemma {:induction false} LeavesStranded()
    ensures Is(Reopened(), In(1), Replying("s")) && Stranded(Reopened(), In(1))
  {
    var s := Reopened();
    assert s.roster.running == {} && s.roster.pending == multiset{};
    assert s.sessions["s"] == "t" && s.threads["t"] == "u";
    assert s.place == map[In(0) := Replying("s"), In(1) := Replying("s"), In(2) := Configuring("u")];
    hide Reopened;
  }

  lemma {:induction false} NoAnswer(s: State, e: Event)
    requires Sane(s) && Stranded(s, e)
    ensures !Answerable(s, e)
  {
    hide Sane, Live, Answerable;
    AnswerableExactly(s, e);
  }

  lemma {:induction false} StrandedRun(ss: seq<Step>)
    requires |ss| == 9
    requires ss[0] == Arrive(In(0), Create) && ss[1] == Bind(In(0), "s") && ss[2] == Attach(In(0), "s")
    requires ss[3] == Start(In(0), "s") && ss[4] == Arrive(In(1), Inject) && ss[5] == Refuse(In(1))
    requires ss[6] == Stop(In(0)) && ss[7] == Arrive(In(2), Create) && ss[8] == Bind(In(2), "u")
    ensures Legal(IDLE, ss) && Is(Run(IDLE, ss), In(1), Replying("s")) && !Answerable(Run(IDLE, ss), In(1))
  {
    hide *;
    Begun(ss);
    Stops();
    Next(ss, 6, Refused());
    Asks();
    Next(ss, 7, Stopped());
    Reopens();
    Next(ss, 8, Asked());
    LeavesStranded();
    ReachedSane(ss, 9, Reopened());
    NoAnswer(Reopened(), In(1));
    ReachedWhole(ss, Reopened());
  }

  /** A run that strands an event: its session's runner stops without a result and without
      having told a session id, so the thread's next event opens another session. No future
      acknowledges it. */
  lemma {:induction false} StrandedExample()
    ensures var a, b, c := Event(0, "t"), Event(1, "t"), Event(2, "t");
            var ss := [Arrive(a, Create), Bind(a, "s"), Attach(a, "s"), Start(a, "s"), Arrive(b, Inject), Refuse(b),
                       Stop(a), Arrive(c, Create), Bind(c, "u")];
            Legal(IDLE, ss) && Is(Run(IDLE, ss), b, Replying("s")) && !Answerable(Run(IDLE, ss), b)
  {
    hide Legal, Run, Apply, Answerable, Enabled;
    StrandedRun([Arrive(In(0), Create), Bind(In(0), "s"), Attach(In(0), "s"), Start(In(0), "s"), Arrive(In(1), Inject),
                 Refuse(In(1)), Stop(In(0)), Arrive(In(2), Create), Bind(In(2), "u")]);
  }
}
