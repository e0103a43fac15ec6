/** The prompt stream: messages queued for readers, and readers waiting for messages. */
module StreamingPrompt {
  import opened Wrappers

  datatype Message = Message(content: string, session: string)

  /** How the promise of one `next()` call was resolved. */
  datatype Answer = Value(message: Message) | Done

  /** Readers are numbered in the order of their `next()` calls; a promise that is not in
      `answers` is pending. */
  datatype State = State(
    queue: seq<Message>,
    resolvers: seq<nat>,
    complete: bool,
    session: Option<string>,
    asked: nat,
    answers: map<nat, Answer>)

  datatype Event = Add(content: string) | Complete | Next | SetSession(id: string)

  function Stamp(content: string, session: Option<string>): Message {
    Message(content, if session.Some? && session.value != "" then session.value else "pending")
  }

  /** The loop that pairs waiting readers with messages, or with the end of the stream. */
  function Drain(s: State): State
    decreases |s.resolvers|
  {
    if s.resolvers == [] || (s.queue == [] && !s.complete) then s
    else if s.queue != [] then
      Drain(s.(resolvers := s.resolvers[1..], queue := s.queue[1..],
               answers := s.answers[s.resolvers[0] := Value(s.queue[0])]))
    else Drain(s.(resolvers := s.resolvers[1..], answers := s.answers[s.resolvers[0] := Done]))
  }

  function Apply(s: State, e: Event): State {
    match e
    case Add(c) => if s.complete then s else Drain(s.(queue := s.queue + [Stamp(c, s.session)]))
    case Complete => Drain(s.(complete := true))
    case SetSession(id) => s.(session := Some(id))
    case Next =>
      if s.queue != [] then
        s.(queue := s.queue[1..], answers := s.answers[s.asked := Value(s.queue[0])], asked := s.asked + 1)
      else if s.complete then s.(answers := s.answers[s.asked := Done], asked := s.asked + 1)
      else s.(resolvers := s.resolvers + [s.asked], asked := s.asked + 1)
  }

  function Empty(session: Option<string>): State {
    State([], [], false, session, 0, map[])
  }

  function Run(s: State, es: seq<Event>): State {
    if es == [] then s else Apply(Run(s, es[..|es| - 1]), es[|es| - 1])
  }

  class StreamingPrompt {
    var messageQueue: seq<Message>
    var resolvers: seq<nat>
    var isComplete: bool
    var sessionId: Option<string>
    var asked: nat
    var answers: map<nat, Answer>

    ghost function View(): State
      reads this
    {
      State(messageQueue, resolvers, isComplete, sessionId, asked, answers)
    }

    constructor (session: Option<string>, initialPrompt: string)
      ensures View() == if initialPrompt == "" then Empty(session) else Apply(Empty(session), Add(initialPrompt))
    {
      messageQueue, resolvers, isComplete, sessionId, asked, answers := [], [], false, session, 0, map[];
      new;
      if initialPrompt != "" {
        var added := AddMessage(initialPrompt);
      }
    }

    method UpdateSessionId(session: string)
      modifies this
      ensures View() == Apply(old(View()), SetSession(session))
    {
      sessionId := Some(session);
    }

    /** False where the source throws. */
    method AddMessage(content: string) returns (added: bool)
      modifies this
      ensures View() == Apply(old(View()), Add(content))
      ensures added <==> !old(isComplete)
    {
      if isComplete {
        return false;
      }
      messageQueue := messageQueue + [Stamp(content, sessionId)];
      ProcessQueue();
      added := true;
    }

    method CompleteStream()
      modifies this
      ensures View() == Apply(old(View()), Complete)
    {
      isComplete := true;
      ProcessQueue();
    }

    method ProcessQueue()
      modifies this
      ensures View() == Drain(old(View()))
    {
      while |resolvers| > 0 && (|messageQueue| > 0 || isComplete)
        invariant Drain(View()) == Drain(old(View()))
        decreases |resolvers|
      {
        var resolver := resolvers[0];
        resolvers := resolvers[1..];
        if |messageQueue| > 0 {
          var message := messageQueue[0];
          messageQueue := messageQueue[1..];
          answers := answers[resolver := Value(message)];
        } else {
          answers := answers[resolver := Done];
        }
      }
    }

    method NextMessage() returns (ticket: nat)
      modifies this
      ensures View() == Apply(old(View()), Next)
      ensures ticket == old(asked)
    {
      ticket := asked;
      asked := asked + 1;
      if |messageQueue| > 0 {
        var message := messageQueue[0];
        messageQueue := messageQueue[1..];
        answers := answers[ticket := Value(message)];
      } else if isComplete {
        answers := answers[ticket := Done];
      } else {
        resolvers := resolvers + [ticket];
      }
    }
  }

  // ---------- what the calls alone determine ----------

  function Session(start: Option<string>, es: seq<Event>): Option<string> {
    if es == [] then start
    else if es[|es| - 1].SetSession? then Some(es[|es| - 1].id) else Session(start, es[..|es| - 1])
  }

  predicate Completed(es: seq<Event>) {
    es != [] && (es[|es| - 1].Complete? || Completed(es[..|es| - 1]))
  }

  /** Every message added before the stream was completed. */
  function Accepted(start: Option<string>, es: seq<Event>): seq<Message> {
    if es == [] then [] else
      var front, last := es[..|es| - 1], es[|es| - 1];
      Accepted(start, front) +
      if last.Add? && !Completed(front) then [Stamp(last.content, Session(start, front))] else []
  }

  function Asked(es: seq<Event>): nat {
    if es == [] then 0 else Asked(es[..|es| - 1]) + if es[|es| - 1].Next? then 1 else 0
  }

  function Range(a: nat, b: nat): seq<nat> {
    if a < b then Range(a, b - 1) + [b - 1] else []
  }

  function Answers(ms: seq<Message>, n: nat, complete: bool): map<nat, Answer> {
    map k: nat | k < n && (k < |ms| || complete) :: if k < |ms| then Value(ms[k]) else Done
  }

  /** `ms` accepted and `n` asked for: the k-th reader has or waits for the k-th message. */
  function Ideal(ms: seq<Message>, n: nat, complete: bool, session: Option<string>): State {
    State(
      if n <= |ms| then ms[n..] else [],
      if complete || n <= |ms| then [] else Range(|ms|, n),
      complete, session, n, Answers(ms, n, complete))
  }

  lemma {:induction false} RangeSplits(a: nat, b: nat)
    requires a < b
    ensures Range(a, b) == [a] + Range(a + 1, b)
  {
    if a + 1 < b {
      RangeSplits(a, b - 1);
    }
  }

  lemma AddIdeal(ms: seq<Message>, n: nat, session: Option<string>, m: Message)
    ensures var s := Ideal(ms, n, false, session);
            Drain(s.(queue := s.queue + [m])) == Ideal(ms + [m], n, false, session)
  {
    var s := Ideal(ms, n, false, session);
    if n <= |ms| {
      assert (ms + [m])[n..] == ms[n..] + [m];
      assert Answers(ms + [m], n, false) == Answers(ms, n, false);
    } else {
      RangeSplits(|ms|, n);
      assert s.resolvers[1..] == Range(|ms| + 1, n);
      assert Answers(ms + [m], n, false) == Answers(ms, n, false)[|ms| := Value(m)];
      assert ([] + [m])[1..] == [];
      assert n == |ms| + 1 ==> (ms + [m])[n..] == [];
    }
  }

  /** The readers from the `a`-th to the `n`-th all get the end of the stream. */
  lemma {:induction false} DrainDone(s: State, a: nat, n: nat)
    requires s.queue == [] && s.complete && a <= n && s.resolvers == Range(a, n)
    ensures Drain(s) == s.(resolvers := [], answers := Drain(s).answers)
    ensures forall k: nat :: k in Drain(s).answers <==> k in s.answers || a <= k < n
    ensures forall k: nat :: k in Drain(s).answers ==>
              Drain(s).answers[k] == if a <= k < n then Done else s.answers[k]
    decreases n - a
  {
    if a < n {
      RangeSplits(a, n);
      assert s.resolvers[1..] == Range(a + 1, n);
      DrainDone(s.(resolvers := Range(a + 1, n), answers := s.answers[a := Done]), a + 1, n);
    }
  }

  lemma CompleteIdeal(ms: seq<Message>, n: nat, complete: bool, session: Option<string>)
    ensures Drain(Ideal(ms, n, complete, session).(complete := true)) == Ideal(ms, n, true, session)
  {
    var s := Ideal(ms, n, complete, session).(complete := true);
    if complete || n <= |ms| {
      assert Answers(ms, n, complete) == Answers(ms, n, true);
    } else {
      DrainDone(s, |ms|, n);
      assert Drain(s).answers == Answers(ms, n, true);
    }
  }

  lemma NextIdeal(ms: seq<Message>, n: nat, complete: bool, session: Option<string>)
    ensures Apply(Ideal(ms, n, complete, session), Next) == Ideal(ms, n + 1, complete, session)
  {
    if n < |ms| {
      assert ms[n..][0] == ms[n] && ms[n..][1..] == ms[n + 1..];
      assert Answers(ms, n + 1, complete) == Answers(ms, n, complete)[n := Value(ms[n])];
    } else if complete {
      assert Answers(ms, n + 1, complete) == Answers(ms, n, complete)[n := Done];
    } else {
      assert Answers(ms, n + 1, complete) == Answers(ms, n, complete);
      assert n == |ms| ==> ms[n..] == [] && Range(|ms|, n + 1) == Range(|ms|, n) + [n];
    }
  }

  lemma StepIdeal(ms: seq<Message>, n: nat, complete: bool, session: Option<string>, e: Event)
    ensures Apply(Ideal(ms, n, complete, session), e) ==
            Ideal(ms + (if e.Add? && !complete then [Stamp(e.content, session)] else []),
                  n + (if e.Next? then 1 else 0),
                  complete || e.Complete?,
                  if e.SetSession? then Some(e.id) else session)
  {
    assert ms + [] == ms;
    hide Answers, Range, Drain;
    match e
    case Add(content) => AddIdeal(ms, n, session, Stamp(content, session));
    case Complete => CompleteIdeal(ms, n, complete, session);
    case Next => NextIdeal(ms, n, complete, session);
    case SetSession(_) =>
  }

  /** Whatever the order of the calls, the whole state is the one in which the k-th reader
      has the k-th accepted message, waits for it, or got the end once all were given. */
  lemma {:induction false} RunIsIdeal(session: Option<string>, es: seq<Event>)
    ensures Run(Empty(session), es) == Ideal(Accepted(session, es), Asked(es), Completed(es), Session(session, es))
  {
    if es == [] {
      var none: map<nat, Answer> := map[];
      assert Answers([], 0, false) == none;
    } else {
      var front, last := es[..|es| - 1], es[|es| - 1];
      RunIsIdeal(session, front);
      StepIdeal(Accepted(session, front), Asked(front), Completed(front), Session(session, front), last);
      hide Ideal, Apply, Stamp;
    }
  }

  /** What every reachable state promises its callers. */
  lemma Delivery(session: Option<string>, es: seq<Event>, k: nat)
    requires k < Asked(es)
    ensures var s, ms := Run(Empty(session), es), Accepted(session, es);
            && (s.resolvers != [] ==> s.queue == [] && !s.complete)
            && (k < |ms| <==> k in s.answers && s.answers[k].Value?)
            && (k < |ms| ==> s.answers[k] == Value(ms[k]))
            && (k in s.answers && s.answers[k].Done? <==> s.complete && |ms| <= k)
            && (k in s.resolvers <==> k !in s.answers)
            && |s.queue| <= |ms| && ms == ms[..|ms| - |s.queue|] + s.queue
            && (s.complete && |ms| <= k ==> s.queue == [])
  {
    RunIsIdeal(session, es);
    RangeHas(|Accepted(session, es)|, Asked(es), k);
  }

  /** An accepted message carries its content, and the session id set by then, or "pending";
      one added after the stream's completion is not accepted. */
  lemma {:induction false} AcceptedCarries(session: Option<string>, es: seq<Event>, content: string)
    ensures var s, ms := Run(Empty(session), es), Accepted(session, es);
            Accepted(session, es + [Add(content)]) ==
            ms + if s.complete then []
                 else [Message(content, if s.session.Some? && s.session.value != "" then s.session.value else "pending")]
    ensures forall e: Event :: !e.Add? ==> Accepted(session, es + [e]) == Accepted(session, es)
    ensures forall id :: Run(Empty(session), es + [SetSession(id)]).session == Some(id)
    ensures Run(Empty(session), es + [Complete]).complete
  {
    RunIsIdeal(session, es);
    assert (es + [Add(content)])[..|es|] == es;
    forall e: Event | !e.Add? ensures Accepted(session, es + [e]) == Accepted(session, es) {
      assert (es + [e])[..|es|] == es;
    }
    forall id ensures Run(Empty(session), es + [SetSession(id)]).session == Some(id) {
      assert (es + [SetSession(id)])[..|es|] == es;
    }
    RunIsIdeal(session, es + [Complete]);
    assert (es + [Complete])[|es|] == Complete;
    hide Run, Answers, Range;
  }

  lemma {:induction false} RangeHas(a: nat, b: nat, k: nat)
    ensures k in Range(a, b) <==> a <= k < b
  {
    if a < b {
      RangeHas(a, b - 1, k);
    }
  }
}
