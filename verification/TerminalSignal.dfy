/** The one-shot terminal signal under every interleaving of the lifecycle steps. */
module TerminalSignal {
  import opened SessionLifecycle
  import opened Wrappers
  import opened CrashRecovery

  // ---------- how often a session is signalled ----------

  predicate UnforcedEmission(step: Step, id: Id) {
    step.Emit? && step.signal.id == id && !step.signal.forced
  }

  function Emissions(steps: seq<Step>, id: Id): nat {
    if steps == [] then 0 else
      (if UnforcedEmission(steps[0], id) then 1 else 0) + Emissions(steps[1..], id)
  }

  /** How often a step of the run takes the session's claim away again. */
  function Rearms(w: World, steps: seq<Step>, id: Id): nat
    decreases |steps|
  {
    if steps == [] then 0 else
      var v := Apply(w, steps[0]);
      (if id in w.claimed && id !in v.claimed then 1 else 0) + Rearms(v, steps[1..], id)
  }

  /** Unforced signals still in flight, and one more while the claim is free. */
  function Credit(w: World, id: Id): nat {
    w.inFlight[Signal(id, Completed, false)] + w.inFlight[Signal(id, Failed, false)]
    + w.inFlight[Signal(id, Stopped, false)] + if id in w.claimed then 0 else 1
  }

  lemma CreditStep(w: World, step: Step, id: Id)
    requires Enabled(w, step)
    ensures var v := Apply(w, step);
            Credit(v, id) + (if UnforcedEmission(step, id) then 1 else 0) <=
            Credit(w, id) + if id in w.claimed && id !in v.claimed then 1 else 0
  {
    match step
    case Claim(g) => assert g.id == id && !g.forced ==> g == Signal(id, g.state, false);
    case Emit(g) =>
      OneLess(w.inFlight, g, Signal(id, Completed, false));
      OneLess(w.inFlight, g, Signal(id, Failed, false));
      OneLess(w.inFlight, g, Signal(id, Stopped, false));
      assert g.state == Completed || g.state == Failed || g.state == Stopped;
    case _ =>
  }

  lemma OneLess(flight: multiset<Signal>, g: Signal, h: Signal)
    requires g in flight
    ensures (flight - multiset{g})[h] == flight[h] - if g == h then 1 else 0
  {
  }

  lemma {:induction false} EmissionsBounded(w: World, steps: seq<Step>, id: Id)
    requires Legal(w, steps)
    ensures Emissions(steps, id) + Credit(Run(w, steps), id) <= Credit(w, id) + Rearms(w, steps, id)
    decreases |steps|
  {
    if steps != [] {
      CreditStep(w, steps[0], id);
      EmissionsBounded(Apply(w, steps[0]), steps[1..], id);
    }
  }

  /** Attachments that found the terminal signal claimed. */
  function Revivals(w: World, steps: seq<Step>, id: Id): nat
    decreases |steps|
  {
    if steps == [] then 0 else
      (if steps[0] == Attach(id) && id in w.claimed then 1 else 0) + Revivals(Apply(w, steps[0]), steps[1..], id)
  }

  predicate Undisturbed(steps: seq<Step>, id: Id) {
    forall k :: 0 <= k < |steps| ==> steps[k] != Crash && steps[k] != Remove(id) && steps[k] != Restore
  }

  lemma RearmIsRevival(w: World, step: Step, id: Id)
    requires step != Crash && step != Remove(id) && step != Restore
    ensures id in w.claimed && id !in Apply(w, step).claimed ==> step == Attach(id)
  {
  }

  lemma {:induction false} RearmsAreRevivals(w: World, steps: seq<Step>, id: Id)
    requires Undisturbed(steps, id)
    ensures Rearms(w, steps, id) <= Revivals(w, steps, id)
    decreases |steps|
  {
    if steps != [] {
      RearmIsRevival(w, steps[0], id);
      RearmsAreRevivals(Apply(w, steps[0]), steps[1..], id);
      hide Apply;
    }
  }

  /** Without removal and restart, the unforced terminal emissions of a session never
      exceed one plus the attachments that revived it, whatever the interleaving. */
  lemma OneShot(w: World, steps: seq<Step>, id: Id)
    requires Legal(w, steps) && w.inFlight == multiset{} && Undisturbed(steps, id)
    ensures Emissions(steps, id) <= 1 + Revivals(w, steps, id)
  {
    EmissionsBounded(w, steps, id);
    RearmsAreRevivals(w, steps, id);
  }

  /** Counting only attachments after the first would be wrong: a session that failed
      before it was attached is revived by its first attachment and signalled again. */
  lemma FirstAttachmentRevives()
    ensures var f, c := Signal(A, Failed, false), Signal(A, Completed, false);
            var steps := [Create(A)] + ([Claim(f), Emit(f)] + ([Attach(A)] + [Claim(c), Emit(c)]));
            Legal(EMPTY_WORLD, steps) && Emissions(steps, A) == 2 && Revivals(EMPTY_WORLD, steps, A) == 1
  {
    var f, c := Signal(A, Failed, false), Signal(A, Completed, false);
    var w1 := Apply(EMPTY_WORLD, Create(A));
    var w2 := Apply(Apply(w1, Claim(f)), Emit(f));
    var w3 := Apply(w2, Attach(A));
    assert w1.up && A !in w1.claimed && w2.up && A in w2.claimed && w3.up && A !in w3.claimed;
    assert Enabled(EMPTY_WORLD, Create(A)) && Enabled(w2, Attach(A)) && A !in EMPTY_WORLD.claimed;
    NoSteps(Apply(Apply(w3, Claim(c)), Emit(c)));
    hide Apply, Legal, Emissions, Revivals;
    Cycle(w3, c, []);
    assert [Claim(c), Emit(c)] + [] == [Claim(c), Emit(c)];
    Counted(w2, Attach(A), [Claim(c), Emit(c)]);
    Cycle(w1, f, [Attach(A)] + [Claim(c), Emit(c)]);
    Counted(EMPTY_WORLD, Create(A), [Claim(f), Emit(f)] + ([Attach(A)] + [Claim(c), Emit(c)]));
  }

  // The exact condition for the bound by attachments.

  /** Unforced signals of the session that are claimed and not yet emitted. */
  function Unforced(w: World, id: Id): nat {
    w.inFlight[Signal(id, Completed, false)] + w.inFlight[Signal(id, Failed, false)]
    + w.inFlight[Signal(id, Stopped, false)]
  }

  function Attachments(steps: seq<Step>, id: Id): nat {
    if steps == [] then 0 else (if steps[0] == Attach(id) then 1 else 0) + Attachments(steps[1..], id)
  }

  lemma {:induction false} RevivalsAreAttachments(w: World, steps: seq<Step>, id: Id)
    ensures Revivals(w, steps, id) <= Attachments(steps, id)
    decreases |steps|
  {
    if steps != [] {
      RevivalsAreAttachments(Apply(w, steps[0]), steps[1..], id);
    }
  }

  lemma {:induction false} EmissionsConcat(a: seq<Step>, b: seq<Step>, id: Id)
    ensures Emissions(a + b, id) == Emissions(a, id) + Emissions(b, id)
  {
    if a == [] {
      assert a + b == b;
    } else {
      assert (a + b)[1..] == a[1..] + b;
      EmissionsConcat(a[1..], b, id);
    }
  }

  /** Counting from the first attachment: one signal, and one more for each later attachment. */
  ghost predicate Bounded(w: World, before: seq<Step>, id: Id) {
    forall rest :: Legal(Apply(w, Attach(id)), rest) && Undisturbed(rest, id) ==>
      Emissions(before + [Attach(id)] + rest, id) <= 1 + Attachments(rest, id)
  }

  lemma SplitAtAttachment(before: seq<Step>, rest: seq<Step>, id: Id)
    ensures Emissions(before + [Attach(id)] + rest, id) == Emissions(before, id) + Emissions(rest, id)
  {
    EmissionsConcat(before + [Attach(id)], rest, id);
    EmissionsConcat(before, [Attach(id)], id);
    assert [Attach(id)][1..] == [];
  }

  /** A future with one more signal than the bound allows: what is in flight, then a claim. */
  lemma {:induction false} TwoSignals(w: World, id: Id)
    requires w.up && id in w.sessions
    ensures var v, c := Apply(w, Attach(id)), Signal(id, Completed, false);
            && Legal(v, [Claim(c), Emit(c)]) && Emissions([Claim(c), Emit(c)], id) == 1
            && Attachments([Claim(c), Emit(c)], id) == 0
    ensures forall g :: g in w.inFlight && g.id == id && !g.forced ==>
              var v, c := Apply(w, Attach(id)), Signal(id, Completed, false);
              && Legal(v, [Emit(g), Claim(c), Emit(c)]) && Emissions([Emit(g), Claim(c), Emit(c)], id) == 2
              && Attachments([Emit(g), Claim(c), Emit(c)], id) == 0
  {
    var v, c := Apply(w, Attach(id)), Signal(id, Completed, false);
    ClaimedAndSent(v, id);
    forall g | g in w.inFlight && g.id == id && !g.forced
      ensures Legal(v, [Emit(g), Claim(c), Emit(c)]) && Emissions([Emit(g), Claim(c), Emit(c)], id) == 2
      ensures Attachments([Emit(g), Claim(c), Emit(c)], id) == 0
    {
      ClaimedAndSent(Apply(v, Emit(g)), id);
      assert [Emit(g), Claim(c), Emit(c)][1..] == [Claim(c), Emit(c)];
    }
  }

  lemma ClaimedAndSent(v: World, id: Id)
    requires v.up && id !in v.claimed
    ensures var c := Signal(id, Completed, false);
            && Legal(v, [Claim(c), Emit(c)]) && Emissions([Claim(c), Emit(c)], id) == 1
            && Attachments([Claim(c), Emit(c)], id) == 0
  {
    var c := Signal(id, Completed, false);
    var v1 := Apply(v, Claim(c));
    OneStep(v1, Emit(c));
    assert [Claim(c), Emit(c)][1..] == [Emit(c)] && [Emit(c)][1..] == [];
    assert Emissions([], id) == 0 && Attachments([], id) == 0;
    assert Emissions([Emit(c)], id) == 1 && Attachments([Emit(c)], id) == 0;
  }

  lemma NothingBefore(w: World, before: seq<Step>, id: Id, rest: seq<Step>)
    requires w.up && id in w.sessions && Emissions(before, id) == 0 && Unforced(w, id) == 0
    requires Legal(Apply(w, Attach(id)), rest) && Undisturbed(rest, id)
    ensures Emissions(before + [Attach(id)] + rest, id) <= 1 + Attachments(rest, id)
  {
    var v := Apply(w, Attach(id));
    SplitAtAttachment(before, rest, id);
    EmissionsBounded(v, rest, id);
    RearmsAreRevivals(v, rest, id);
    RevivalsAreAttachments(v, rest, id);
    hide Emissions, Attachments, Legal, Run, Rearms, Revivals;
  }

  lemma UnforcedInFlight(w: World, id: Id) returns (g: Signal)
    requires Unforced(w, id) > 0
    ensures g in w.inFlight && g.id == id && !g.forced
  {
    var c, f := Signal(id, Completed, false), Signal(id, Failed, false);
    g := if c in w.inFlight then c else if f in w.inFlight then f else Signal(id, Stopped, false);
  }

  lemma SomethingBefore(w: World, before: seq<Step>, id: Id) returns (rest: seq<Step>)
    requires w.up && id in w.sessions && (Emissions(before, id) > 0 || Unforced(w, id) > 0)
    ensures Legal(Apply(w, Attach(id)), rest) && Undisturbed(rest, id)
    ensures Emissions(before + [Attach(id)] + rest, id) > 1 + Attachments(rest, id)
  {
    hide Emissions, Attachments, Legal, Apply, Unforced;
    var c := Signal(id, Completed, false);
    TwoSignals(w, id);
    if Emissions(before, id) > 0 {
      rest := [Claim(c), Emit(c)];
    } else {
      var g := UnforcedInFlight(w, id);
      rest := [Emit(g), Claim(c), Emit(c)];
    }
    SplitAtAttachment(before, rest, id);
  }

  /** In every future of a session's first attachment its unforced signals, those from
      before included, stay within one plus the later attachments, if and only if none was
      sent or claimed before it. */
  lemma {:induction false} FirstAttachmentExactly(w: World, before: seq<Step>, id: Id)
    requires w.up && id in w.sessions
    ensures Bounded(w, before, id) <==> Emissions(before, id) == 0 && Unforced(w, id) == 0
  {
    hide Emissions, Attachments, Legal, Apply, Unforced, Undisturbed;
    if Emissions(before, id) == 0 && Unforced(w, id) == 0 {
      forall rest | Legal(Apply(w, Attach(id)), rest) && Undisturbed(rest, id)
        ensures Emissions(before + [Attach(id)] + rest, id) <= 1 + Attachments(rest, id)
      {
        NothingBefore(w, before, id, rest);
      }
    } else {
      var rest := SomethingBefore(w, before, id);
    }
  }

  /** The same for whole runs: any run up to the first attachment and any future of it. */
  lemma {:induction false} FirstAttachmentOfRun(start: World, before: seq<Step>, id: Id)
    requires Legal(start, before) && Run(start, before).up && id in Run(start, before).sessions
    requires Attachments(before, id) == 0 && Undisturbed(before, id)
    ensures var w := Run(start, before);
            (forall rest :: Legal(w, [Attach(id)] + rest) && Undisturbed(rest, id) ==>
               Emissions(before + [Attach(id)] + rest, id) <= 1 + Attachments(rest, id)) <==>
            Emissions(before, id) == 0 && Unforced(w, id) == 0
  {
    var w := Run(start, before);
    FirstAttachmentExactly(w, before, id);
    forall rest: seq<Step>
      ensures Legal(w, [Attach(id)] + rest) <==> Legal(Apply(w, Attach(id)), rest)
    {
      assert ([Attach(id)] + rest)[1..] == rest;
    }
    hide Legal, Emissions, Attachments, Apply, Run;
  }

  lemma Cycle(w: World, g: Signal, rest: seq<Step>)
    requires w.up && A !in w.claimed && g.id == A && !g.forced
    ensures var steps, v := [Claim(g), Emit(g)] + rest, Apply(Apply(w, Claim(g)), Emit(g));
            && (Legal(w, steps) <==> Legal(v, rest)) && Emissions(steps, A) == 1 + Emissions(rest, A)
            && Revivals(w, steps, A) == Revivals(v, rest, A)
  {
    var w1 := Apply(w, Claim(g));
    assert Enabled(w1, Emit(g));
    hide Apply, Legal, Emissions, Revivals;
    Counted(w, Claim(g), [Emit(g)] + rest);
    Counted(w1, Emit(g), rest);
    assert [Claim(g), Emit(g)] + rest == [Claim(g)] + ([Emit(g)] + rest);
  }

  lemma NoSteps(w: World)
    ensures Legal(w, []) && Emissions([], A) == 0 && Revivals(w, [], A) == 0
  {
  }

  lemma Counted(w: World, step: Step, steps: seq<Step>)
    ensures Legal(w, [step] + steps) <==> Enabled(w, step) && Legal(Apply(w, step), steps)
    ensures Emissions([step] + steps, A) == Emissions(steps, A) + if UnforcedEmission(step, A) then 1 else 0
    ensures Revivals(w, [step] + steps, A)
         == Revivals(Apply(w, step), steps, A) + if step == Attach(A) && A in w.claimed then 1 else 0
  {
    assert ([step] + steps)[1..] == steps;
  }

  // ---------- a running session keeps its lock ----------

  /** Attachments wait for a signal in flight. */
  predicate Orderly(w: World, steps: seq<Step>)
    decreases |steps|
  {
    steps == [] ||
    ((steps[0].Attach? ==> steps[0].id !in InFlightIds(w.inFlight)) && Orderly(Apply(w, steps[0]), steps[1..]))
  }

  ghost predicate Running(w: World, id: Id) {
    id in w.sessions && w.sessions[id].runner && w.sessions[id].terminal.None?
  }

  ghost predicate Held(w: World) {
    && (!w.up ==> w.sessions == map[])
    && RunnerFree(w.disk) && (forall k :: k in w.saving ==> RunnerFree(w.saving[k]))
    && (forall id :: Running(w, id) ==> id in w.locks && id !in InFlightIds(w.inFlight))
  }

  lemma HeldStep(w: World, step: Step)
    requires Held(w) && Enabled(w, step)
    requires step.Attach? ==> step.id !in InFlightIds(w.inFlight)
    ensures Held(Apply(w, step))
  {
    match step
    case Claim(g) => InFlightGrows(w.inFlight, g);
    case Emit(g) => InFlightShrinks(w.inFlight, g);
    case _ =>
  }

  /** When attachments wait for signals in flight, a session with a runner and no
      terminal state holds its lock after every run. */
  lemma {:induction false} RunningKeepsLock(w: World, steps: seq<Step>, id: Id)
    requires Held(w) && Legal(w, steps) && Orderly(w, steps)
    ensures Running(Run(w, steps), id) ==> id in Run(w, steps).locks
    decreases |steps|
  {
    if steps != [] {
      HeldStep(w, steps[0]);
      RunningKeepsLock(Apply(w, steps[0]), steps[1..], id);
    }
  }

  /** Every orderly future keeps the session's lock while it runs. */
  ghost predicate KeepsLock(v: World, id: Id) {
    forall steps :: Legal(v, steps) && Orderly(v, steps) && Running(Run(v, steps), id) ==>
      id in Run(v, steps).locks
  }

  /** An attachment is safe, in every orderly future, if and only if no signal of the
      session is in flight when it is made. */
  lemma AttachmentExactly(w: World, id: Id)
    requires w.up && Held(w) && id in w.sessions
    ensures KeepsLock(Apply(w, Attach(id)), id) <==> id !in InFlightIds(w.inFlight)
  {
    var v := Apply(w, Attach(id));
    if id !in InFlightIds(w.inFlight) {
      HeldStep(w, Attach(id));
      forall steps | Legal(v, steps) && Orderly(v, steps) && Running(Run(v, steps), id)
        ensures id in Run(v, steps).locks
      {
        RunningKeepsLock(v, steps, id);
      }
    } else {
      var g :| g in w.inFlight && g.id == id;
      OneStep(v, Emit(g));
      assert [Emit(g)][1..] == [];
      assert Orderly(v, [Emit(g)]) && Legal(v, [Emit(g)]);
      assert Running(Run(v, [Emit(g)]), id) && id !in Run(v, [Emit(g)]).locks;
    }
  }

  /** When they do not wait, the signal of the turn before can strip a revived session. */
  lemma StaleSignal()
    ensures exists w :: Reaches(EMPTY_WORLD, w) && Running(w, A) && A !in w.claimed && A !in w.locks
  {
    var w := StopSaved();
    ReachesStep(EMPTY_WORLD, w, Attach(A));
    var v := Apply(w, Attach(A));
    ReachesStep(EMPTY_WORLD, v, Emit(STOP_SIGNAL));
    assert Running(Apply(v, Emit(STOP_SIGNAL)), A);
  }

  // ---------- one completion ----------

  lemma {:induction false} ReportedExactly(w: World, id: Id, success: bool, env: Surroundings)
    requires id in w.sessions
    ensures var stopped := id in w.stops;
            var told := if env.postThrows then [] else if stopped then [Posted(id, ErrorActivity)]
                        else if env.blank then [] else [Posted(id, ResultEntry)];
            Reported(w, id, success, env) ==
              w.(sessions := w.sessions[id := w.sessions[id].(status := if success && !stopped then Complete else Error)],
                 stops := w.stops - {id}, log := w.log + told)
  {
    assert w.log + [] == w.log;
  }

  /** A completion in full. The session is held open exactly when a good result was posted,
      nobody asked to stop, and its runner reports work; then nothing is signalled and the
      lock stays. In every other case the lock goes with the signal, which comes behind the
      posts and says stopped, completed or failed, unless it had been sent before. */
  lemma {:induction false} CompletionExactly(w: World, id: Id, success: bool, env: Surroundings)
    requires id in w.sessions
    ensures var s, stopped := w.sessions[id], id in w.stops;
            var heldOpen := success && id !in w.stops && !env.postThrows && env.pendingWork && s.runner;
            var status := if success && !stopped then Complete else Error;
            var state := if stopped then Stopped else if success then Completed else Failed;
            var told := if env.postThrows then [] else if stopped then [Posted(id, ErrorActivity)]
                        else if env.blank then [] else [Posted(id, ResultEntry)];
            var marked := w.sessions[id := Session(status, Some(state), s.runner)];
            Completion(w, id, success, env) ==
              if heldOpen then
                w.(sessions := w.sessions[id := s.(status := Complete)], stops := w.stops - {id},
                   log := w.log + told + if env.thoughtThrows then [] else [Posted(id, Thought)])
              else if id in w.claimed then
                w.(sessions := w.sessions[id := s.(status := status)], stops := w.stops - {id}, log := w.log + told)
              else
                w.(sessions := marked, claimed := w.claimed + {id}, stops := w.stops - {id},
                   disk := if env.flushOk then Serialized(marked) else w.disk, locks := w.locks - {id},
                   log := w.log + told + [Flushed(env.flushOk), Signalled(Signal(id, state, false))])
  {
    hide EmitOnce, Serialized, Reported;
    var stopped := id in w.stops;
    var r, g := Reported(w, id, success, env), Signal(id, ResultTerminal(stopped, success), false);
    ReportedExactly(w, id, success, env);
    assert r.log + [] == r.log;
    if id !in w.claimed {
      EmitEffect(r, g, env.flushOk);
      assert r.log + [Flushed(env.flushOk)] + [Signalled(g)] == r.log + [Flushed(env.flushOk), Signalled(g)];
    } else {
      EmittedBefore(r, g, env.flushOk);
    }
  }

  /** A known session not signalled before ends claimed, signalled and unlocked, or none of
      the three: the first if and only if it is not held open for work after a good result. */
  lemma {:induction false} CompletionClaims(w: World, id: Id, success: bool, env: Surroundings)
    requires id in w.sessions && id !in w.claimed
    ensures var r := Completion(w, id, success, env);
            var heldOpen := success && id !in w.stops && !env.postThrows && env.pendingWork && w.sessions[id].runner;
            && (id in r.claimed <==> !heldOpen)
            && (id in r.locks <==> id in w.locks && heldOpen)
            && ((exists k :: |w.log| <= k < |r.log| && r.log[k].Signalled?) <==> !heldOpen)
  {
    CompletionExactly(w, id, success, env);
    hide Completion;
    var r := Completion(w, id, success, env);
    if !(success && id !in w.stops && !env.postThrows && env.pendingWork && w.sessions[id].runner) {
      assert r.log[|r.log| - 1].Signalled?;
    }
  }

  /** An errored or stopped turn never holds its session open: the lock goes whatever work
      the runner reports. */
  lemma {:induction false} ErrorReleases(w: World, id: Id, success: bool, env: Surroundings)
    requires id in w.sessions && id !in w.claimed && (!success || id in w.stops)
    ensures var r := Completion(w, id, success, env);
            && id !in r.locks && id in r.claimed && r.sessions[id].status == Error
            && r.log[|r.log| - 1] == Signalled(Signal(id, if id in w.stops then Stopped else Failed, false))
  {
    CompletionExactly(w, id, success, env);
    hide Completion;
  }

  /** A session held open keeps its lock, is still declared to the router, and signals nothing. */
  lemma {:induction false} DeferralKeepsLock(w: World, id: Id, env: Surroundings)
    requires id in w.sessions && id !in w.stops && w.sessions[id].runner && env.pendingWork && !env.postThrows
    ensures var r := Completion(w, id, true, env);
            && r.locks == w.locks && r.disk == w.disk && r.inFlight == w.inFlight && r.claimed == w.claimed
            && r.sessions[id].runner && (id in w.locks ==> id in Apply(r, Hello).locks)
            && forall g :: Signalled(g) in r.log ==> Signalled(g) in w.log
  {
    CompletionExactly(w, id, true, env);
    hide Completion;
  }

  /** After a completion that is not deferred, no further unforced signal of the session is
      sent in any future until it is attached again, if none was in flight before. */
  lemma {:induction false} CompletionIsLast(w: World, id: Id, success: bool, env: Surroundings, steps: seq<Step>)
    requires id in w.sessions && Unforced(w, id) == 0
    requires !(success && id !in w.stops && !env.postThrows && env.pendingWork && w.sessions[id].runner)
    requires var r := Completion(w, id, success, env); Legal(r, steps) && Undisturbed(steps, id)
    requires Attachments(steps, id) == 0
    ensures Emissions(steps, id) == 0
  {
    var r := Completion(w, id, success, env);
    CompletionExactly(w, id, success, env);
    EmissionsBounded(r, steps, id);
    RearmsAreRevivals(r, steps, id);
    RevivalsAreAttachments(r, steps, id);
    hide Completion, Reported, Emissions, Attachments, Legal;
  }

  lemma EmitOnceIsRun(w: World, g: Signal, flushOk: bool)
    requires w.up
    ensures Reaches(w, EmitOnce(w, g, flushOk))
  {
    ReachesSelf(w);
    if g.id !in w.claimed || g.forced {
      ReachesStep(w, w, Claim(g));
      var w1 := Apply(w, Claim(g));
      FlushIsRun(w1, flushOk);
      ReachesTrans(w, w1, Flush(w1, flushOk));
      ReachesStep(w, Flush(w1, flushOk), Emit(g));
    }
  }

  lemma ReachesTrans(w: World, v: World, u: World)
    requires Reaches(w, v) && Reaches(v, u)
    ensures Reaches(w, u)
  {
    var a :| Legal(w, a) && Run(w, a) == v;
    var b :| Legal(v, b) && Run(v, b) == u;
    RunConcat(w, a, b);
  }

  /** A completion is one of the runs that the theorems above speak about. */
  lemma CompletionIsRun(w: World, id: Id, success: bool, env: Surroundings)
    requires w.up
    ensures Reaches(w, Completion(w, id, success, env))
  {
    ReachesSelf(w);
    if id in w.sessions {
      var stopped := id in w.stops;
      ReachesStep(w, w, DropStop(id));
      var w0 := Apply(w, DropStop(id));
      ReachesStep(w, w0, SetStatus(id, ResultStatus(stopped, success)));
      var w1 := Apply(w0, SetStatus(id, ResultStatus(stopped, success)));
      ReachesStep(w, w1, Post(id, if stopped then ErrorActivity else ResultEntry));
      var w2 := Reported(w, id, success, env);
      assert Reaches(w, w2) && w2.up;
      hide Reported, Reaches;
      if Defers(w, id, success, env) {
        ReachesStep(w, w2, Post(id, Thought));
      } else {
        var g := Signal(id, ResultTerminal(stopped, success), false);
        EmitOnceIsRun(w2, g, env.flushOk);
        ReachesTrans(w, w2, EmitOnce(w2, g, env.flushOk));
      }
    }
  }

  lemma FailureIsRun(w: World, id: Id, postThrows: bool, flushOk: bool)
    requires w.up
    ensures Reaches(w, Failure(w, id, postThrows, flushOk))
  {
    ReachesSelf(w);
    ReachesStep(w, w, SetStatus(id, Error));
    var w1 := Apply(w, SetStatus(id, Error));
    if !postThrows {
      ReachesStep(w, w1, Post(id, ErrorActivity));
    }
    var w2 := if postThrows then w1 else Apply(w1, Post(id, ErrorActivity));
    assert Reaches(w, w2);
    var g := Signal(id, Failed, false);
    EmitOnceIsRun(w2, g, flushOk);
    ReachesTrans(w, w2, EmitOnce(w2, g, flushOk));
  }
}
