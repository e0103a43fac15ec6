/** The per-session promise chain that serialises message handlers, under every
    schedule of the promise machinery and every failure of a handler. */
module MessageQueue {
  import opened Wrappers

  type Id = string

  datatype Promise = Pending | Fulfilled | Rejected

  /** One call of `handleClaudeMessage`: the call whose caught promise it is chained to,
      whether its handler has started, the promise `next` that the handler settles, and
      the promise `caught` that swallows a rejection of `next`. */
  datatype Job = Job(session: Id, prev: Option<nat>, started: bool, next: Promise, caught: Promise)

  datatype Host = Host(
    jobs: seq<Job>,          // in order of arrival
    queues: map<Id, nat>,    // per session, the job whose caught promise ends the chain
    starts: seq<nat>)        // handlers in the order they started

  datatype Step =
    | Arrive(session: Id)
    | Start(job: nat)             // `then` runs its callback
    | Skip(job: nat)              // `then` on a rejected promise rejects without running it
    | Finish(job: nat, ok: bool)  // the handler returns or throws
    | Catch(job: nat)             // `catch` settles
    | Remove(session: Id)

  function PrevState(h: Host, job: Job): Promise {
    match job.prev
    case None => Fulfilled
    case Some(p) => if p < |h.jobs| then h.jobs[p].caught else Pending
  }

  predicate Running(job: Job) {
    job.started && job.next == Pending
  }

  predicate Enabled(h: Host, step: Step) {
    match step
    case Arrive(_) => true
    case Remove(_) => true
    case Start(j) => j < |h.jobs| && !h.jobs[j].started && h.jobs[j].next == Pending
                     && PrevState(h, h.jobs[j]) == Fulfilled
    case Skip(j) => j < |h.jobs| && !h.jobs[j].started && h.jobs[j].next == Pending
                    && PrevState(h, h.jobs[j]) == Rejected
    case Finish(j, _) => j < |h.jobs| && Running(h.jobs[j])
    case Catch(j) => j < |h.jobs| && h.jobs[j].next != Pending && h.jobs[j].caught == Pending
  }

  function Apply(h: Host, step: Step): Host
    requires Enabled(h, step)
  {
    match step
    case Arrive(s) =>
      var prev := if s in h.queues then Some(h.queues[s]) else None;
      h.(jobs := h.jobs + [Job(s, prev, false, Pending, Pending)], queues := h.queues[s := |h.jobs|])
    case Start(j) =>
      h.(jobs := h.jobs[j := h.jobs[j].(started := true)], starts := h.starts + [j])
    case Skip(j) => h.(jobs := h.jobs[j := h.jobs[j].(next := Rejected)])
    case Finish(j, ok) => h.(jobs := h.jobs[j := h.jobs[j].(next := if ok then Fulfilled else Rejected)])
    case Catch(j) => h.(jobs := h.jobs[j := h.jobs[j].(caught := Fulfilled)])
    case Remove(s) => h.(queues := h.queues - {s})
  }

  /** The manager's part: chaining a call and forgetting a session. */
  class MessageQueues {
    var messageProcessingQueues: map<Id, nat>
    var promises: seq<Job>
    ghost var starts: seq<nat>

    ghost function View(): Host
      reads this
    {
      Host(promises, messageProcessingQueues, starts)
    }

    method HandleClaudeMessage(session: Id)
      modifies this
      ensures View() == Apply(old(View()), Arrive(session))
      ensures messageProcessingQueues == old(messageProcessingQueues)[session := |old(promises)|]
      ensures promises == old(promises) + [Job(session, promises[|old(promises)|].prev, false, Pending, Pending)]
      ensures promises[|old(promises)|].prev ==
              if session in old(messageProcessingQueues) then Some(old(messageProcessingQueues)[session]) else None
    {
      var prev := if session in messageProcessingQueues then Some(messageProcessingQueues[session]) else None;
      var next := |promises|;
      promises := promises + [Job(session, prev, false, Pending, Pending)];
      messageProcessingQueues := messageProcessingQueues[session := next];
    }

    method RemoveSession(session: Id)
      modifies this
      ensures View() == Apply(old(View()), Remove(session))
      ensures messageProcessingQueues == old(messageProcessingQueues) - {session} && promises == old(promises)
    {
      messageProcessingQueues := messageProcessingQueues - {session};
    }
  }

  // ---------- the invariant, session by session ----------

  predicate Same(h: Host, s: Id, j: int) {
    0 <= j < |h.jobs| && h.jobs[j].session == s
  }

  /** Every handler of the session has returned or thrown. */
  ghost predicate Calm(h: Host, s: Id) {
    forall j :: Same(h, s, j) ==> h.jobs[j].next != Pending
  }

  /** A handler that settles has run; the caught promise follows it and never rejects. */
  ghost predicate PromisesFollow(h: Host, s: Id) {
    forall j :: Same(h, s, j) ==>
      && h.jobs[j].caught != Rejected
      && (h.jobs[j].next != Pending ==> h.jobs[j].started)
      && (h.jobs[j].caught == Fulfilled ==> h.jobs[j].next != Pending)
  }

  /** No call starts, or is chained past, while an earlier one of the session is unsettled. */
  ghost predicate Chained(h: Host, s: Id) {
    && (forall i, j :: i < j && Same(h, s, i) && Same(h, s, j) && h.jobs[i].next == Pending ==>
          !h.jobs[j].started && h.jobs[j].prev.Some? && i <= h.jobs[j].prev.value)
    && (forall j :: Same(h, s, j) && h.jobs[j].prev.Some? ==>
          h.jobs[j].prev.value < j && Same(h, s, h.jobs[j].prev.value))
  }

  /** The queue ends in the session's last call, unless all have settled. */
  ghost predicate QueueAtEnd(h: Host, s: Id) {
    if s in h.queues then
      Same(h, s, h.queues[s]) && forall j :: Same(h, s, j) ==> j <= h.queues[s]
    else Calm(h, s)
  }

  /** Started calls are exactly those logged, in order of arrival. */
  ghost predicate LogFaithful(h: Host, s: Id) {
    && (forall j: nat :: Same(h, s, j) ==> (h.jobs[j].started <==> j in h.starts))
    && (forall a :: 0 <= a < |h.starts| ==> h.starts[a] < |h.jobs|)
    && (forall a, b :: 0 <= a < b < |h.starts| && Same(h, s, h.starts[a]) && Same(h, s, h.starts[b]) ==>
          h.starts[a] < h.starts[b])
  }

  ghost predicate Inv(h: Host, s: Id) {
    PromisesFollow(h, s) && Chained(h, s) && QueueAtEnd(h, s) && LogFaithful(h, s)
  }

  lemma SameStep(h: Host, s: Id, step: Step)
    requires Enabled(h, step)
    ensures var v := Apply(h, step);
            && |h.jobs| <= |v.jobs|
            && (forall j :: 0 <= j < |h.jobs| ==>
                  v.jobs[j].session == h.jobs[j].session && v.jobs[j].prev == h.jobs[j].prev)
            && (forall j :: Same(h, s, j) ==> Same(v, s, j))
            && (forall j :: Same(v, s, j) && j < |h.jobs| ==> Same(h, s, j))
  {
  }

  lemma PromisesStep(h: Host, s: Id, step: Step)
    requires Inv(h, s) && Enabled(h, step)
    ensures PromisesFollow(Apply(h, step), s)
  {
    hide Chained, QueueAtEnd, LogFaithful;
    if step.Skip? && h.jobs[step.job].session == s {
      NeverRejected(h, s, step.job);
    }
  }

  lemma NeverRejected(h: Host, s: Id, j: nat)
    requires Inv(h, s) && Same(h, s, j)
    ensures PrevState(h, h.jobs[j]) != Rejected
  {
    hide QueueAtEnd, LogFaithful;
  }

  lemma ChainArrive(h: Host, s: Id, t: Id)
    requires Inv(h, s)
    ensures Chained(Apply(h, Arrive(t)), s)
  {
    hide LogFaithful, PromisesFollow;
    var v := Apply(h, Arrive(t));
    SameStep(h, s, Arrive(t));
    assert forall j :: 0 <= j < |h.jobs| ==> v.jobs[j] == h.jobs[j];
  }

  lemma ChainStart(h: Host, s: Id, k: nat)
    requires Inv(h, s) && Enabled(h, Start(k)) && h.jobs[k].session == s
    ensures Chained(Apply(h, Start(k)), s)
  {
    SameStep(h, s, Start(k));
    SettledBefore(h, s, k);
    hide LogFaithful, QueueAtEnd, PromisesFollow;
  }

  lemma {:induction false} ChainStep(h: Host, s: Id, step: Step)
    requires Inv(h, s) && Enabled(h, step)
    ensures Chained(Apply(h, step), s)
  {
    if step.Arrive? {
      ChainArrive(h, s, step.session);
    } else if step.Start? && h.jobs[step.job].session == s {
      ChainStart(h, s, step.job);
    } else {
      SameStep(h, s, step);
      hide LogFaithful, QueueAtEnd, PromisesFollow;
      var v := Apply(h, step);
      assert forall j :: Same(v, s, j) ==> (h.jobs[j].next != Pending ==> v.jobs[j].next != Pending);
    }
  }

  /** A call that may start finds every earlier call of its session settled. */
  lemma SettledBefore(h: Host, s: Id, k: nat)
    requires Inv(h, s) && Same(h, s, k) && PrevState(h, h.jobs[k]) == Fulfilled
    ensures forall i :: i < k && Same(h, s, i) ==> h.jobs[i].next != Pending
  {
    hide QueueAtEnd, LogFaithful;
  }

  lemma QueueStep(h: Host, s: Id, step: Step)
    requires Inv(h, s) && Enabled(h, step)
    requires step == Remove(s) ==> Calm(h, s)
    ensures QueueAtEnd(Apply(h, step), s)
  {
    hide Chained, LogFaithful;
    SameStep(h, s, step);
  }

  lemma LogStep(h: Host, s: Id, step: Step)
    requires Inv(h, s) && Enabled(h, step)
    ensures LogFaithful(Apply(h, step), s)
  {
    SameStep(h, s, step);
    if step.Start? && h.jobs[step.job].session == s {
      SettledBefore(h, s, step.job);
      var v := Apply(h, step);
      forall a | 0 <= a < |h.starts| && Same(h, s, h.starts[a])
        ensures h.starts[a] < step.job
      {
        assert h.starts[a] in h.starts && h.jobs[h.starts[a]].started;
      }
    }
    hide PromisesFollow, Chained, QueueAtEnd;
  }

  lemma {:induction false} InvStep(h: Host, s: Id, step: Step)
    requires Inv(h, s) && Enabled(h, step)
    requires step == Remove(s) ==> Calm(h, s)
    ensures Inv(Apply(h, step), s)
  {
    PromisesStep(h, s, step);
    ChainStep(h, s, step);
    QueueStep(h, s, step);
    LogStep(h, s, step);
  }

  ghost predicate Legal(h: Host, steps: seq<Step>)
    decreases |steps|
  {
    steps == [] || (Enabled(h, steps[0]) && Legal(Apply(h, steps[0]), steps[1..]))
  }

  ghost function Run(h: Host, steps: seq<Step>): Host
    requires Legal(h, steps)
    decreases |steps|
  {
    if steps == [] then h else Run(Apply(h, steps[0]), steps[1..])
  }

  /** The session is removed only while none of its handlers is outstanding. */
  ghost predicate CalmRemovals(h: Host, steps: seq<Step>, s: Id)
    requires Legal(h, steps)
    decreases |steps|
  {
    steps == [] ||
    ((steps[0] == Remove(s) ==> Calm(h, s)) && CalmRemovals(Apply(h, steps[0]), steps[1..], s))
  }

  lemma {:induction false} InvRun(h: Host, steps: seq<Step>, s: Id)
    requires Inv(h, s) && Legal(h, steps) && CalmRemovals(h, steps, s)
    ensures Inv(Run(h, steps), s)
    decreases |steps|
  {
    if steps != [] {
      InvStep(h, s, steps[0]);
      InvRun(Apply(h, steps[0]), steps[1..], s);
    }
  }

  const FRESH: Host := Host([], map[], [])

  lemma FreshInv(s: Id)
    ensures Inv(FRESH, s)
  {
  }

  /** For every schedule and every failure of handlers: at most one handler of a session
      runs at a time, and none starts before every earlier one has settled. */
  lemma OneAtATime(steps: seq<Step>, s: Id, i: nat, j: nat)
    requires Legal(FRESH, steps) && CalmRemovals(FRESH, steps, s)
    requires var h := Run(FRESH, steps); Same(h, s, i) && Same(h, s, j) && i < j
    ensures var h := Run(FRESH, steps);
            && !(Running(h.jobs[i]) && Running(h.jobs[j]))
            && (h.jobs[j].started ==> h.jobs[i].started && h.jobs[i].next != Pending)
  {
    FreshInv(s);
    InvRun(FRESH, steps, s);
  }

  /** Handlers of a session start in the order in which their messages arrived. */
  lemma ArrivalOrder(steps: seq<Step>, s: Id, a: nat, b: nat)
    requires Legal(FRESH, steps) && CalmRemovals(FRESH, steps, s)
    requires var h := Run(FRESH, steps); a < b < |h.starts| && Same(h, s, h.starts[a]) && Same(h, s, h.starts[b])
    ensures var h := Run(FRESH, steps); h.starts[a] < h.starts[b]
  {
    FreshInv(s);
    InvRun(FRESH, steps, s);
  }

  /** No call is skipped because an earlier handler failed, and while one is outstanding
      some call of the session can take a step. */
  lemma NoneLost(steps: seq<Step>, s: Id)
    requires Legal(FRESH, steps) && CalmRemovals(FRESH, steps, s)
    ensures var h := Run(FRESH, steps);
            && (forall j: nat :: Same(h, s, j) ==> !Enabled(h, Skip(j)))
            && (Calm(h, s) || exists j: nat :: Same(h, s, j) && CanMove(h, j))
  {
    var h := Run(FRESH, steps);
    FreshInv(s);
    InvRun(FRESH, steps, s);
    forall j: nat | Same(h, s, j)
      ensures !Enabled(h, Skip(j))
    {
      NeverRejected(h, s, j);
    }
    if !Calm(h, s) {
      var k :| Same(h, s, k) && h.jobs[k].next == Pending;
      var j := Movable(h, s, k);
    }
  }

  predicate CanMove(h: Host, j: nat) {
    Enabled(h, Start(j)) || Enabled(h, Finish(j, true)) || Enabled(h, Catch(j))
  }

  /** The earliest outstanding call, or the catch before it, can take a step. */
  lemma Movable(h: Host, s: Id, k: nat) returns (j: nat)
    requires Inv(h, s) && Same(h, s, k) && h.jobs[k].next == Pending
    ensures Same(h, s, j) && CanMove(h, j)
    decreases k
  {
    if i: nat :| i < k && Same(h, s, i) && h.jobs[i].next == Pending {
      j := Movable(h, s, i);
    } else if h.jobs[k].started || h.jobs[k].prev.None? {
      j := k;
    } else {
      var p := h.jobs[k].prev.value;
      j := if h.jobs[p].caught == Pending then p else k;
    }
  }

  // ---------- removing a session with calls outstanding ----------

  ghost predicate Serial(h: Host, s: Id) {
    forall i, j :: Same(h, s, i) && Same(h, s, j) && Running(h.jobs[i]) && Running(h.jobs[j]) ==> i == j
  }

  ghost predicate StaysSerial(h: Host, s: Id) {
    forall steps :: Legal(h, steps) && CalmRemovals(h, steps, s) ==> Serial(Run(h, steps), s)
  }

  lemma InvSerial(h: Host, s: Id)
    requires Inv(h, s)
    ensures Serial(h, s)
  {
  }

  /** One more step keeps a broken future broken. */
  lemma BrokenBefore(h: Host, step: Step, s: Id)
    requires Enabled(h, step) && step != Remove(s) && !StaysSerial(Apply(h, step), s)
    ensures !StaysSerial(h, s)
  {
    var v := Apply(h, step);
    var steps :| Legal(v, steps) && CalmRemovals(v, steps, s) && !Serial(Run(v, steps), s);
    var all := [step] + steps;
    assert all[1..] == steps;
    assert Legal(h, all) && CalmRemovals(h, all, s) && Run(h, all) == Run(v, steps);
  }

  lemma BrokenNow(h: Host, s: Id)
    requires !Serial(h, s)
    ensures !StaysSerial(h, s)
  {
    assert Legal(h, []) && CalmRemovals(h, [], s) && Run(h, []) == h;
  }

  /** With the queue forgotten, the next call runs beside the one in progress. */
  lemma SecondRunner(h: Host, s: Id, k: nat)
    requires s !in h.queues && Same(h, s, k) && Running(h.jobs[k])
    ensures !StaysSerial(h, s)
  {
    var n := |h.jobs|;
    var h1 := Apply(h, Arrive(s));
    var h2 := Apply(h1, Start(n));
    assert Same(h2, s, k) && Running(h2.jobs[k]) && Same(h2, s, n) && Running(h2.jobs[n]);
    BrokenNow(h2, s);
    BrokenBefore(h1, Start(n), s);
    BrokenBefore(h, Arrive(s), s);
  }

  lemma FirstUnsettled(h: Host, s: Id, k: nat) returns (j: nat)
    requires Same(h, s, k) && h.jobs[k].next == Pending
    ensures Same(h, s, j) && h.jobs[j].next == Pending
    ensures forall i :: 0 <= i < j && Same(h, s, i) ==> h.jobs[i].next != Pending
    decreases k
  {
    if i: nat :| i < k && Same(h, s, i) && h.jobs[i].next == Pending {
      j := FirstUnsettled(h, s, i);
    } else {
      j := k;
    }
  }

  lemma StartThenBreak(h: Host, s: Id, k: nat)
    requires s !in h.queues && Same(h, s, k) && Enabled(h, Start(k))
    ensures !StaysSerial(h, s)
  {
    SecondRunner(Apply(h, Start(k)), s, k);
    BrokenBefore(h, Start(k), s);
  }

  lemma RemovalBreaks(h: Host, s: Id)
    requires Inv(h, s) && !Calm(h, s)
    ensures !StaysSerial(Apply(h, Remove(s)), s)
  {
    var v := Apply(h, Remove(s));
    var j :| Same(h, s, j) && h.jobs[j].next == Pending;
    var k := FirstUnsettled(h, s, j);
    if h.jobs[k].started {
      SecondRunner(v, s, k);
    } else if h.jobs[k].prev.None? {
      StartThenBreak(v, s, k);
    } else {
      var p := h.jobs[k].prev.value;
      if h.jobs[p].caught == Pending {
        var u := Apply(v, Catch(p));
        assert Enabled(u, Start(k)) && Same(u, s, k);
        StartThenBreak(u, s, k);
        BrokenBefore(v, Catch(p), s);
      } else {
        StartThenBreak(v, s, k);
      }
    }
  }

  /** Removing a session leaves its handlers serialised in every future exactly when
      none of them is outstanding. */
  lemma {:induction false} RemovalExactly(h: Host, s: Id)
    requires Inv(h, s)
    ensures Calm(h, s) <==> StaysSerial(Apply(h, Remove(s)), s)
  {
    var v := Apply(h, Remove(s));
    if Calm(h, s) {
      InvStep(h, s, Remove(s));
      forall steps | Legal(v, steps) && CalmRemovals(v, steps, s)
        ensures Serial(Run(v, steps), s)
      {
        InvRun(v, steps, s);
        InvSerial(Run(v, steps), s);
      }
    } else {
      RemovalBreaks(h, s);
    }
  }
}
