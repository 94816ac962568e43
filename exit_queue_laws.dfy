/**
 * Laws of the exit queue and of repeated executions: FIFO draining down to a
 * sticky last exit, failure on an empty queue, and a history that grows by
 * exactly one faithful record per successful execution.
 */
module ExitQueueLaws {
  import opened JavaModel
  import opened MethodRuntime

  /** The results of `n` successive `getNextExit` calls, and the queue left afterwards. */
  function Consume<R>(queue: seq<MethodExit<R>>, n: nat)
    : (r: (seq<Result<MethodExit<R>, ControllableMethodException>>, seq<MethodExit<R>>))
    ensures |r.0| == n
    decreases n
  {
    if n == 0 then ([], queue)
    else
      var (first, rest) := NextExit(queue);
      var (results, left) := Consume(rest, n - 1);
      ([first] + results, left)
  }

  /** The i-th of n successive calls hands out the i-th exit, or the last one once the others are gone. */
  lemma {:induction false} HandedOutAt<R>(queue: seq<MethodExit<R>>, n: nat, i: nat)
    requires queue != [] && i < n
    ensures Consume(queue, n).0[i] == Ok(queue[Min(i, |queue| - 1)])
    decreases n
  {
    var (first, rest) := NextExit(queue);
    var (results, left) := Consume(rest, n - 1);
    assert Consume(queue, n) == ([first] + results, left);
    if i > 0 {
      HandedOutAt(rest, n - 1, i - 1);
      assert results[i - 1] == Ok(rest[Min(i - 1, |rest| - 1)]);
      if |queue| == 1 {
        assert rest == queue;
        assert rest[Min(i - 1, |rest| - 1)] == queue[0];
      } else {
        assert rest == queue[1..];
        assert rest[Min(i - 1, |rest| - 1)] == queue[Min(i, |queue| - 1)];
      }
      assert ([first] + results)[i] == results[i - 1];
    } else {
      assert first == Ok(queue[0]);
    }
  }

  /** After n calls the queue has lost its first n exits, but never its last one. */
  lemma {:induction false} QueueLeftAfter<R>(queue: seq<MethodExit<R>>, n: nat)
    requires queue != []
    ensures Consume(queue, n).1 == queue[Min(n, |queue| - 1)..]
    decreases n
  {
    if n > 0 {
      var (first, rest) := NextExit(queue);
      var (results, left) := Consume(rest, n - 1);
      assert Consume(queue, n) == ([first] + results, left);
      QueueLeftAfter(rest, n - 1);
      if |queue| == 1 {
        assert rest == queue;
      } else {
        assert rest == queue[1..];
      }
    }
  }

  /**
   * FIFO, then sticky: exits [A, B, C] are handed out as A, B, C, C, ...,
   * and the queue shrinks to its last exit and stays there.
   */
  lemma FifoThenSticky<R>(queue: seq<MethodExit<R>>, n: nat)
    requires queue != []
    ensures forall i :: 0 <= i < n ==> Consume(queue, n).0[i] == Ok(queue[Min(i, |queue| - 1)])
    ensures Consume(queue, n).1 == queue[Min(n, |queue| - 1)..]
  {
    forall i | 0 <= i < n
      ensures Consume(queue, n).0[i] == Ok(queue[Min(i, |queue| - 1)])
    {
      HandedOutAt(queue, n, i);
    }
    QueueLeftAfter(queue, n);
  }

  /** With one exit queued, every call yields that exit and the queue never changes. */
  lemma StickyDefault<R>(e: MethodExit<R>, n: nat)
    ensures forall i :: 0 <= i < n ==> Consume([e], n).0[i] == Ok(e)
    ensures Consume([e], n).1 == [e]
  {
    FifoThenSticky([e], n);
  }

  /** Draining a queue of k exits with k calls hands out each exit exactly once, in order. */
  lemma DrainYieldsEachExitOnce<R>(queue: seq<MethodExit<R>>)
    requires queue != []
    ensures forall i :: 0 <= i < |queue| ==> Consume(queue, |queue|).0[i] == Ok(queue[i])
    ensures Consume(queue, |queue|).1 == [queue[|queue| - 1]]
  {
    var n := |queue|;
    forall i | 0 <= i < n
      ensures Consume(queue, n).0[i] == Ok(queue[i])
    {
      HandedOutAt(queue, n, i);
      assert Min(i, n - 1) == i;
    }
    QueueLeftAfter(queue, n);
    assert Min(n, n - 1) == n - 1;
    assert queue[n - 1..] == [queue[n - 1]];
  }

  /** An empty queue fails every call and stays empty. */
  lemma {:induction false} EmptyQueueAlwaysFails<R>(n: nat)
    ensures forall i :: 0 <= i < n ==> Consume<R>([], n).0[i] == Err(NoExitsFailure)
    ensures Consume<R>([], n).1 == []
    decreases n
  {
    if n > 0 {
      EmptyQueueAlwaysFails<R>(n - 1);
      forall i | 0 <= i < n
        ensures Consume<R>([], n).0[i] == Err(NoExitsFailure)
      {
        if i > 0 {
          assert Consume<R>([], n).0[i] == Consume<R>([], n - 1).0[i - 1];
        }
      }
    }
  }

  /** The arguments and the clock reading of one call to a controlled method. */
  datatype Invocation = Invocation(arguments: seq<Arg>, now: Long)

  /** Runs `exit(args)` once per invocation, in order: the outcomes, final queue and final history. */
  function ExecuteAll<R>(queue: seq<MethodExit<R>>, history: seq<MethodCall<R>>, calls: seq<Invocation>, declaresChecked: bool)
    : (r: (seq<Outcome<R>>, seq<MethodExit<R>>, seq<MethodCall<R>>))
    ensures |r.0| == |calls|
    decreases |calls|
  {
    if calls == [] then ([], queue, history)
    else
      var (o, q, h) := Execute(queue, history, calls[0].arguments, calls[0].now, declaresChecked);
      var (outcomes, q', h') := ExecuteAll(q, h, calls[1..], declaresChecked);
      ([o] + outcomes, q', h')
  }

  /** How many outcomes are not the configuration failure. */
  function Resolved<R>(outcomes: seq<Outcome<R>>): (k: nat)
    ensures k <= |outcomes|
  {
    if outcomes == [] then 0
    else (if outcomes[0].ControllableFailure? then 0 else 1) + Resolved(outcomes[1..])
  }

  /**
   * The history only ever grows at its end, and it grows by exactly the number
   * of executions that did not fail with the configuration error.
   */
  lemma {:induction false} HistoryGrowsByResolvedCalls<R>(queue: seq<MethodExit<R>>, history: seq<MethodCall<R>>, calls: seq<Invocation>, declaresChecked: bool)
    ensures var (outcomes, _, h) := ExecuteAll(queue, history, calls, declaresChecked);
            history <= h && |h| == |history| + Resolved(outcomes)
    decreases |calls|
  {
    if calls != [] {
      var (o, q, h) := Execute(queue, history, calls[0].arguments, calls[0].now, declaresChecked);
      HistoryGrowsByResolvedCalls(q, h, calls[1..], declaresChecked);
      var (outcomes, _, _) := ExecuteAll(queue, history, calls, declaresChecked);
      assert outcomes[1..] == ExecuteAll(q, h, calls[1..], declaresChecked).0;
    }
  }

  /** An unscripted method fails every call and records nothing. */
  lemma {:induction false} UnscriptedMethodRecordsNothing<R>(history: seq<MethodCall<R>>, calls: seq<Invocation>, declaresChecked: bool)
    ensures var (outcomes, q, h) := ExecuteAll([], history, calls, declaresChecked);
            && q == [] && h == history
            && forall i :: 0 <= i < |calls| ==> outcomes[i] == ControllableFailure(NoExitsFailure)
    decreases |calls|
  {
    if calls != [] {
      UnscriptedMethodRecordsNothing(history, calls[1..], declaresChecked);
    }
  }

  /**
   * On a scripted method the i-th call is recorded with exactly its arguments
   * and clock reading, and with the exit FIFO-then-sticky order hands it; its
   * outcome is that exit's resolution.
   */
  lemma {:induction false} ScriptedCallsAreRecordedFaithfully<R>(queue: seq<MethodExit<R>>, history: seq<MethodCall<R>>, calls: seq<Invocation>, declaresChecked: bool)
    requires queue != []
    ensures var (outcomes, q, h) := ExecuteAll(queue, history, calls, declaresChecked);
            && |h| == |history| + |calls| && h[..|history|] == history
            && q == queue[Min(|calls|, |queue| - 1)..]
            && forall i :: 0 <= i < |calls| ==>
                 && h[|history| + i] == MethodCall(calls[i].now, calls[i].arguments, queue[Min(i, |queue| - 1)])
                 && outcomes[i] == Resolve(queue[Min(i, |queue| - 1)], declaresChecked)
    decreases |calls|
  {
    if calls != [] {
      var (o, q, h) := Execute(queue, history, calls[0].arguments, calls[0].now, declaresChecked);
      ScriptedCallsAreRecordedFaithfully(q, h, calls[1..], declaresChecked);
      var (outcomes, qEnd, hEnd) := ExecuteAll(queue, history, calls, declaresChecked);
      assert outcomes[1..] == ExecuteAll(q, h, calls[1..], declaresChecked).0;
      assert |h| == |history| + 1;
      forall i | 0 <= i < |calls|
        ensures hEnd[|history| + i] == MethodCall(calls[i].now, calls[i].arguments, queue[Min(i, |queue| - 1)])
        ensures outcomes[i] == Resolve(queue[Min(i, |queue| - 1)], declaresChecked)
      {
        if i > 0 {
          assert calls[1..][i - 1] == calls[i];
          assert hEnd[|h| + (i - 1)] == hEnd[|history| + i];
          assert outcomes[i] == outcomes[1..][i - 1];
          if |queue| > 1 {
            assert q == queue[1..];
          }
        } else {
          assert hEnd[..|h|] == h;
          assert hEnd[|history|] == h[|history|];
        }
      }
      if |queue| > 1 {
        assert q == queue[1..];
        assert q[Min(|calls| - 1, |q| - 1)..] == queue[Min(|calls|, |queue| - 1)..];
      }
      assert hEnd[..|h|] == h;
      assert hEnd[..|history|] == h[..|history|];
    }
  }
}
