/** The request queue between the client thread and the hardware thread: TQueue of
    libs/v6utils/include/utils/tqueue.h, Request and ReqHandling of libs/v6core/src/hardware.cpp. */
module Requests {

  const MAX_LENGTH := 10

  /** push and emplace: a queue already longer than its limit first loses its oldest item. */
  function Pushed<T>(q: seq<T>, max: nat, item: T): (r: seq<T>)
    ensures |q| <= max + 1 ==> |r| <= max + 1
  {
    (if |q| > max then q[1..] else q) + [item]
  }

  /** A queue no one pops. */
  function Fed<T>(items: seq<T>, max: nat): (q: seq<T>)
  {
    if |items| == 0 then [] else Pushed(Fed(items[..|items| - 1], max), max, items[|items| - 1])
  }

  /** The newest `max` + 1 of a list. */
  function Newest<T>(items: seq<T>, max: nat): (r: seq<T>)
  {
    if |items| <= max + 1 then items else items[|items| - (max + 1)..]
  }

  lemma PushedNewest<T>(items: seq<T>, max: nat)
    requires |items| > 0
    ensures Pushed(Newest(items[..|items| - 1], max), max, items[|items| - 1]) == Newest(items, max)
  {
    var init, n := items[..|items| - 1], |items| - 1;
    if n > max + 1 { assert init[n - (max + 1)..][1..] == init[n - max..]; }
    if n > max { assert items[n - max..] == init[n - max..] + [items[n]]; }
  }

  lemma FedNext<T>(items: seq<T>, max: nat)
    ensures |items| == 0 ==> Fed(items, max) == []
    ensures |items| > 0 ==> Fed(items, max) == Pushed(Fed(items[..|items| - 1], max), max, items[|items| - 1])
  {
    hide Pushed;
  }

  /** It keeps the newest items in order, one more of them than its limit. */
  lemma {:induction false} QueueKeepsNewest<T>(items: seq<T>, max: nat)
    ensures Fed(items, max) == Newest(items, max)
  {
    hide Fed, Pushed;
    FedNext(items, max);
    if |items| > 0 {
      hide Newest;
      QueueKeepsNewest(items[..|items| - 1], max);
      PushedNewest(items, max);
    }
  }

  class TQueue<T> {
    var queue: seq<T>
    const maxLength: nat

    constructor (maxLength: nat)
      ensures queue == [] && this.maxLength == maxLength
    {
      queue, this.maxLength := [], maxLength;
    }

    method Push(item: T)
      modifies this
      ensures queue == Pushed(old(queue), maxLength, item)
    {
      if |queue| > maxLength { queue := queue[1..]; }
      queue := queue + [item];
    }

    /** A pop that found nothing before its wait time ran out returns nothing. */
    method Pop() returns (found: bool, items: seq<T>)
      modifies this
      ensures found == (old(queue) != [])
      ensures found ==> items == [old(queue)[0]] && queue == old(queue)[1..]
      ensures !found ==> items == [] && queue == []
    {
      if queue == [] { return false, []; }
      found, items := true, [queue[0]];
      queue := queue[1..];
    }
  }

  // ---- The two threads as interleaved steps -----------------------------------

  /** How a handler ends: with data, with an exception, or without a handler for the request. */
  datatype Outcome<D> = Handled(data: D) | Failed(error: string) | Unhandled

  /** A response; `answers` is the number of the request its handler took from the queue. */
  datatype Response<D> = Response(answers: nat, outcome: Outcome<D>)

  /** `handling` is the stack of ReqHandling activations in progress, innermost last: executing an instruction for one
      request polls the queue again. `received` is what Request has returned so far. */
  datatype System<D> = System(
    requests: seq<nat>, responses: seq<Response<D>>, handling: seq<nat>, sent: nat, waiting: bool, received: seq<Response<D>>,
    dropped: nat)

  datatype Step<D> =
    | Send                        // the client pushes request number `sent` and blocks
    | Receive                     // the client pops the response it waits for
    | Take                        // the hardware thread pops a request, at top level or inside a handler
    | PollEmpty                   // it finds the queue empty
    | Finish(outcome: Outcome<D>) // the innermost handler ends and emplaces its response

  predicate Enabled<D>(s: System<D>, step: Step<D>)
  {
    match step
    case Send => !s.waiting
    case Receive => s.waiting && s.responses != []
    case Take => s.requests != []
    case PollEmpty => s.requests == []
    case Finish(_) => s.handling != []
  }

  function Next<D>(s: System<D>, step: Step<D>): (s': System<D>)
    requires Enabled(s, step)
  {
    match step
    case Send =>
      s.(requests := Pushed(s.requests, MAX_LENGTH, s.sent), sent := s.sent + 1, waiting := true,
         dropped := if |s.requests| > MAX_LENGTH then s.dropped + 1 else s.dropped)
    case Receive => s.(responses := s.responses[1..], received := s.received + [s.responses[0]], waiting := false)
    case Take => s.(requests := s.requests[1..], handling := s.handling + [s.requests[0]])
    case PollEmpty => s
    case Finish(outcome) =>
      var top := s.handling[|s.handling| - 1];
      s.(handling := s.handling[..|s.handling| - 1], responses := Pushed(s.responses, MAX_LENGTH, Response(top, outcome)),
         dropped := if |s.responses| > MAX_LENGTH then s.dropped + 1 else s.dropped)
  }

  function Init<D>(): (s: System<D>) { System([], [], [], 0, false, [], 0) }

  /** While the client waits, exactly one thing is outstanding, the last request, and it is in exactly one place. */
  predicate InOrder<D>(s: System<D>)
  {
    && s.dropped == 0
    && |s.requests| + |s.handling| + |s.responses| == (if s.waiting then 1 else 0)
    && |s.received| + (if s.waiting then 1 else 0) == s.sent
    && (s.requests != [] ==> s.requests[0] == s.sent - 1)
    && (s.handling != [] ==> s.handling[0] == s.sent - 1)
    && (s.responses != [] ==> s.responses[0].answers == s.sent - 1)
    && (forall k :: 0 <= k < |s.received| ==> s.received[k].answers == k)
  }

  lemma NextInOrder<D>(s: System<D>, step: Step<D>)
    requires InOrder(s) && Enabled(s, step)
    ensures InOrder(Next(s, step))
    ensures s.received <= Next(s, step).received
  {
  }

  ghost predicate Runs<D(!new)>(t: nat -> System<D>, steps: nat -> Step<D>)
  {
    t(0) == Init() && forall i: nat :: Enabled(t(i), steps(i)) && t(i + 1) == Next(t(i), steps(i))
  }

  /** In every interleaving of one client with the hardware thread, the k-th response answers the k-th request, at
      most one item is outstanding, and no queue ever drops one. */
  lemma {:induction false} EveryRequestAnsweredInOrder<D(!new)>(t: nat -> System<D>, steps: nat -> Step<D>, n: nat)
    requires Runs(t, steps)
    ensures InOrder(t(n))
  {
    if n > 0 {
      EveryRequestAnsweredInOrder(t, steps, n - 1);
      assert Enabled(t(n - 1), steps(n - 1)) && t(n) == Next(t(n - 1), steps(n - 1));
      NextInOrder(t(n - 1), steps(n - 1));
    }
  }

  /** A handler that polls the queue while its own request is unanswered finds it empty: handlers never nest. */
  lemma HandlersNeverNest<D(!new)>(t: nat -> System<D>, steps: nat -> Step<D>, n: nat)
    requires Runs(t, steps) && t(n).handling != []
    ensures |t(n).handling| == 1 && !Enabled(t(n), Step<D>.Take) && !Enabled(t(n), Step<D>.Send)
  {
    EveryRequestAnsweredInOrder(t, steps, n);
  }

  /** How far the outstanding request is from its response. */
  function Distance<D>(s: System<D>): (d: nat)
  {
    if s.requests != [] then 3 else if s.handling != [] then 2 else if s.waiting then 1 else 0
  }

  /** While the client waits a step is always possible, and every step other than an empty poll brings its response
      one step nearer: a request is answered in exactly three. */
  lemma WaitingMakesProgress<D(!new)>(s: System<D>, step: Step<D>)
    requires InOrder(s) && s.waiting
    ensures Enabled(s, Take) || (exists o :: Enabled(s, Finish(o))) || Enabled(s, Receive)
    ensures Enabled(s, step) && step != PollEmpty ==> Distance(Next(s, step)) == Distance(s) - 1
    ensures Distance(s) > 0
  {
    if s.handling != [] { assert Enabled(s, Finish(Unhandled)); }
  }

  /** A request's reply is the outcome of the handler that took it, on all three paths. */
  lemma {:induction false} ReplyIsOwnOutcome<D(!new)>(t: nat -> System<D>, steps: nat -> Step<D>, n: nat, k: nat)
    requires Runs(t, steps) && k < |t(n).received|
    ensures exists i, o :: 0 <= i < n && steps(i) == Finish(o) && t(i).handling == [k] && t(n).received[k] == Response(k, o)
  {
    Origin(t, steps, n, t(n).received[k]);
    EveryRequestAnsweredInOrder(t, steps, n);
    var i, o :| 0 <= i < n && steps(i) == Finish(o) && t(i).handling != []
      && t(n).received[k] == Response(t(i).handling[|t(i).handling| - 1], o);
    EveryRequestAnsweredInOrder(t, steps, i);
    assert t(i).handling == [k];
  }

  /** Every response in flight or received was emplaced by some handler. */
  lemma {:induction false} Origin<D(!new)>(t: nat -> System<D>, steps: nat -> Step<D>, n: nat, r: Response<D>)
    requires Runs(t, steps) && (r in t(n).received || r in t(n).responses)
    ensures exists i, o :: 0 <= i < n && steps(i) == Finish(o) && t(i).handling != []
                           && r == Response(t(i).handling[|t(i).handling| - 1], o)
  {
    assert n > 0;
    var s, step := t(n - 1), steps(n - 1);
    assert Enabled(s, step) && t(n) == Next(s, step);
    if r in s.received || r in s.responses {
      Origin(t, steps, n - 1, r);
    } else {
      assert step.Finish?;
      assert r == Response(s.handling[|s.handling| - 1], step.outcome);
    }
  }
}
