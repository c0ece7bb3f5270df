/**
 * Runs as call traces.  A run of a piece of the script is the sequence of
 * requests it issued, in order, together with how it ended: `Completed`, or
 * `Aborted` when a TypeError escaped, which rejects the prompt callback's
 * promise so that nothing after it runs.
 */
module Trace {
  import opened Requests

  datatype Outcome = Completed | Aborted

  datatype Run = Run(calls: seq<Call>, outcome: Outcome)

  /** A piece that issues nothing and finishes. */
  const Done := Run([], Completed)

  /** A piece that throws before issuing anything. */
  const Abort := Run([], Aborted)

  /** A piece that issues one request and finishes; requests never throw (their errors are caught). */
  function Issue(c: Call): Run {
    Run([c], Completed)
  }

  /** `r` followed by `s`; once `r` has thrown, `s` never starts. */
  function Then(r: Run, s: Run): Run {
    if r.outcome == Aborted then r else Run(r.calls + s.calls, s.outcome)
  }

  /** A `for...of` loop whose body is `step`: the steps in order, up to the first that throws. */
  function Seq<T>(xs: seq<T>, step: T -> Run): Run
    decreases |xs|
  {
    if |xs| == 0 then Done else Then(Seq(xs[..|xs| - 1], step), step(xs[|xs| - 1]))
  }

  /** The requests of all the steps, one after another (a reference for `Seq` when no step throws). */
  function AllCalls<T>(xs: seq<T>, step: T -> Run): seq<Call>
    decreases |xs|
  {
    if |xs| == 0 then [] else step(xs[0]).calls + AllCalls(xs[1..], step)
  }

  predicate AllComplete<T>(xs: seq<T>, step: T -> Run) {
    forall i :: 0 <= i < |xs| ==> step(xs[i]).outcome == Completed
  }

  lemma {:induction false} AllCallsSnoc<T>(xs: seq<T>, x: T, step: T -> Run)
    ensures AllCalls(xs + [x], step) == AllCalls(xs, step) + step(x).calls
    decreases |xs|
  {
    if |xs| == 0 {
      assert xs + [x] == [x];
      assert [x][1..] == [];
    } else {
      assert (xs + [x])[1..] == xs[1..] + [x];
      AllCallsSnoc(xs[1..], x, step);
    }
  }

  /** One more loop iteration: how a loop invariant over `xs[..i]` advances. */
  lemma {:induction false} SeqSnoc<T>(xs: seq<T>, i: nat, step: T -> Run)
    requires i < |xs|
    ensures Seq(xs[..i + 1], step) == Then(Seq(xs[..i], step), step(xs[i]))
  {
    assert xs[..i + 1][..i] == xs[..i];
  }

  /**
   * One more loop iteration, stated over the log: if the log held `c0`
   * followed by the requests of the steps before `i`, and step `i` (which
   * ran as `r`) appended its requests, the log now holds `c0` followed by
   * the requests of the steps up to `i`; when step `i` threw, the loop is over.
   */
  lemma {:induction false} LoopStep<T>(xs: seq<T>, i: nat, step: T -> Run, c0: seq<Call>, c1: seq<Call>, r: Run, c2: seq<Call>)
    requires i < |xs|
    requires c1 == c0 + Seq(xs[..i], step).calls && Seq(xs[..i], step).outcome == Completed
    requires r == step(xs[i])
    requires c2 == c1 + r.calls
    ensures c2 == c0 + Seq(xs[..i + 1], step).calls && Seq(xs[..i + 1], step).outcome == r.outcome
    ensures r.outcome == Aborted ==> Seq(xs, step) == Seq(xs[..i + 1], step)
  {
    var before := Seq(xs[..i], step);
    SeqSnoc(xs, i, step);
    assert Seq(xs[..i + 1], step) == Run(before.calls + r.calls, r.outcome);
    assert c2 == c0 + (before.calls + r.calls);
    if r.outcome == Aborted {
      SeqAbortedPrefix(xs, i + 1, step);
    }
  }

  /**
   * One more await in a chain: if the log held `c0` followed by the
   * requests of `done`, which finished, and `r` then appended its requests,
   * the log holds `c0` followed by the requests of `done` then `r`.
   */
  lemma ThenStep(c0: seq<Call>, done: Run, c1: seq<Call>, r: Run, c2: seq<Call>)
    requires c1 == c0 + done.calls && done.outcome == Completed
    requires c2 == c1 + r.calls
    ensures c2 == c0 + Then(done, r).calls && Then(done, r).outcome == r.outcome
  {
  }

  /** A loop over seven elements is the chain of its seven steps. */
  lemma {:induction false} SeqOfSeven<T>(xs: seq<T>, step: T -> Run, r0: Run, r1: Run, r2: Run, r3: Run, r4: Run, r5: Run, r6: Run)
    requires |xs| == 7
    requires step(xs[0]) == r0 && step(xs[1]) == r1 && step(xs[2]) == r2 && step(xs[3]) == r3
    requires step(xs[4]) == r4 && step(xs[5]) == r5 && step(xs[6]) == r6
    ensures Seq(xs, step) == Then(Then(Then(Then(Then(Then(r0, r1), r2), r3), r4), r5), r6)
  {
    assert Seq(xs[..0], step) == Done;
    SeqSnoc(xs, 0, step);
    assert Seq(xs[..1], step) == r0;
    var acc := r0;
    ChainStep(xs, 1, step, acc, r1);
    acc := Then(acc, r1);
    ChainStep(xs, 2, step, acc, r2);
    acc := Then(acc, r2);
    ChainStep(xs, 3, step, acc, r3);
    acc := Then(acc, r3);
    ChainStep(xs, 4, step, acc, r4);
    acc := Then(acc, r4);
    ChainStep(xs, 5, step, acc, r5);
    acc := Then(acc, r5);
    ChainStep(xs, 6, step, acc, r6);
    assert xs[..7] == xs;
  }

  lemma {:induction false} ChainStep<T>(xs: seq<T>, i: nat, step: T -> Run, acc: Run, r: Run)
    requires i < |xs| && Seq(xs[..i], step) == acc && step(xs[i]) == r
    ensures Seq(xs[..i + 1], step) == Then(acc, r)
  {
    SeqSnoc(xs, i, step);
  }

  /** The requests of a piece after one request, by position. */
  lemma {:induction false} Prefixed(first: Call, rest: seq<Call>)
    ensures var cs := [first] + rest;
      && |cs| == |rest| + 1
      && cs[0] == first
      && forall j :: 0 <= j < |rest| ==> cs[j + 1] == rest[j]
  {
  }

  /** The requests of a piece framed by one request before and one after, by position. */
  lemma {:induction false} Framed(first: Call, middle: seq<Call>, last: Call)
    ensures var cs := [first] + middle + [last];
      && |cs| == |middle| + 2
      && cs[0] == first
      && cs[|middle| + 1] == last
      && forall j :: 0 <= j < |middle| ==> cs[j + 1] == middle[j]
  {
  }

  /**
   * A list request followed by a loop: it finishes exactly when every step
   * does, and then it has issued the list request and each step's requests
   * in list order.
   */
  lemma {:induction false} ListThenLoop<T>(first: Call, xs: seq<T>, step: T -> Run)
    ensures Then(Issue(first), Seq(xs, step)).outcome == Completed <==> AllComplete(xs, step)
    ensures AllComplete(xs, step) ==> Then(Issue(first), Seq(xs, step)).calls == [first] + AllCalls(xs, step)
  {
    SeqCompletes(xs, step);
  }

  /**
   * A list request followed by a loop whose step `k` is the first to throw:
   * the list request, the requests of the steps before `k`, those of step
   * `k`, and nothing more.
   */
  lemma {:induction false} ListThenLoopStops<T>(first: Call, xs: seq<T>, step: T -> Run, k: nat)
    requires k < |xs|
    requires AllComplete(xs[..k], step)
    requires step(xs[k]).outcome == Aborted
    ensures Then(Issue(first), Seq(xs, step)) == Run([first] + AllCalls(xs[..k], step) + step(xs[k]).calls, Aborted)
  {
    SeqStopsAtFirstAbort(xs, k, step);
  }

  /** Once a loop has thrown, the rest of the list makes no difference. */
  lemma {:induction false} SeqAbortedPrefix<T>(xs: seq<T>, j: nat, step: T -> Run)
    requires j <= |xs|
    requires Seq(xs[..j], step).outcome == Aborted
    ensures Seq(xs, step) == Seq(xs[..j], step)
    decreases |xs| - j
  {
    if j < |xs| {
      SeqSnoc(xs, j, step);
      SeqAbortedPrefix(xs, j + 1, step);
    } else {
      assert xs[..j] == xs;
    }
  }

  /**
   * A loop finishes exactly when each of its steps does, and then it has
   * issued the requests of every step in list order.
   */
  lemma {:induction false} SeqCompletes<T>(xs: seq<T>, step: T -> Run)
    ensures Seq(xs, step).outcome == Completed <==> AllComplete(xs, step)
    ensures AllComplete(xs, step) ==> Seq(xs, step).calls == AllCalls(xs, step)
    decreases |xs|
  {
    if |xs| > 0 {
      var init := xs[..|xs| - 1];
      var last := xs[|xs| - 1];
      SeqCompletes(init, step);
      assert xs == init + [last];
      AllCallsSnoc(init, last, step);
      if AllComplete(xs, step) {
        assert AllComplete(init, step) by {
          forall i | 0 <= i < |init| ensures step(init[i]).outcome == Completed {
            assert init[i] == xs[i];
          }
        }
      } else {
        var k :| 0 <= k < |xs| && step(xs[k]).outcome != Completed;
        if k < |init| {
          assert init[k] == xs[k];
        }
      }
    }
  }

  /**
   * A loop whose step `k` is the first to throw: the requests of the steps
   * before it, then those of step `k`, and nothing more.
   */
  lemma {:induction false} SeqStopsAtFirstAbort<T>(xs: seq<T>, k: nat, step: T -> Run)
    requires k < |xs|
    requires AllComplete(xs[..k], step)
    requires step(xs[k]).outcome == Aborted
    ensures Seq(xs, step) == Run(AllCalls(xs[..k], step) + step(xs[k]).calls, Aborted)
  {
    SeqCompletes(xs[..k], step);
    SeqSnoc(xs, k, step);
    SeqAbortedPrefix(xs, k + 1, step);
  }

  /** Every request of `Then(r, s)` is a request of `r` or of `s`. */
  lemma {:induction false} ThenCallsIn(r: Run, s: Run, p: Call -> bool)
    requires forall c :: c in r.calls ==> p(c)
    requires forall c :: c in s.calls ==> p(c)
    ensures forall c :: c in Then(r, s).calls ==> p(c)
  {
  }

  /** Every request of a loop is a request of one of its steps. */
  lemma {:induction false} SeqCallsIn<T>(xs: seq<T>, step: T -> Run, p: Call -> bool)
    requires forall i, c :: 0 <= i < |xs| && c in step(xs[i]).calls ==> p(c)
    ensures forall c :: c in Seq(xs, step).calls ==> p(c)
    decreases |xs|
  {
    if |xs| > 0 {
      var init := xs[..|xs| - 1];
      assert forall i :: 0 <= i < |init| ==> init[i] == xs[i];
      SeqCallsIn(init, step, p);
    }
  }

  /**
   * A loop whose step on `x` throws unless `ok(x)`, and otherwise issues the
   * one request `f(x)`: it issues `f` of the longest prefix of elements that
   * are `ok`, in order, and it throws exactly when some element is not `ok`,
   * namely at the element right after that prefix.
   */
  lemma {:induction false} SeqOfGuardedSingles<T>(xs: seq<T>, step: T -> Run, ok: T -> bool, f: T -> Call)
    requires forall i :: 0 <= i < |xs| ==> step(xs[i]) == (if ok(xs[i]) then Issue(f(xs[i])) else Abort)
    ensures Seq(xs, step).outcome == Completed <==> forall i :: 0 <= i < |xs| ==> ok(xs[i])
    ensures |Seq(xs, step).calls| <= |xs|
    ensures forall i :: 0 <= i < |Seq(xs, step).calls| ==> ok(xs[i]) && Seq(xs, step).calls[i] == f(xs[i])
    ensures Seq(xs, step).outcome == Completed ==> |Seq(xs, step).calls| == |xs|
    ensures Seq(xs, step).outcome == Aborted ==> |Seq(xs, step).calls| < |xs| && !ok(xs[|Seq(xs, step).calls|])
    decreases |xs|
  {
    if |xs| > 0 {
      var n := |xs| - 1;
      var init := xs[..n];
      assert forall i :: 0 <= i < |init| ==> init[i] == xs[i];
      SeqOfGuardedSingles(init, step, ok, f);
      var before := Seq(init, step);
      if before.outcome == Completed {
        assert |before.calls| == n;
        if ok(xs[n]) {
          assert Seq(xs, step) == Run(before.calls + [f(xs[n])], Completed);
        } else {
          assert Seq(xs, step) == Run(before.calls, Aborted);
        }
      } else {
        assert Seq(xs, step) == before;
        assert !ok(xs[|before.calls|]);
      }
    }
  }

  /**
   * A list request followed by a loop of single requests `f(x)`: the list
   * request, then `f` of every element in order, and it finishes.
   */
  lemma {:induction false} ListThenSingles<T>(first: Call, xs: seq<T>, step: T -> Run, f: T -> Call)
    requires forall i :: 0 <= i < |xs| ==> step(xs[i]) == Issue(f(xs[i]))
    ensures var r := Then(Issue(first), Seq(xs, step));
      && r.outcome == Completed
      && |r.calls| == |xs| + 1
      && r.calls[0] == first
      && forall j :: 0 <= j < |xs| ==> r.calls[j + 1] == f(xs[j])
  {
    SeqOfSingles(xs, step, f);
    var s := Seq(xs, step);
    assert Then(Issue(first), s).calls == [first] + s.calls;
  }

  /**
   * A list request, a loop of single requests, then one last request: the
   * list request, `f` of every element in order, the last request.
   */
  lemma {:induction false} ListThenSinglesThenLast<T>(first: Call, xs: seq<T>, step: T -> Run, f: T -> Call, last: Call)
    requires forall i :: 0 <= i < |xs| ==> step(xs[i]) == Issue(f(xs[i]))
    ensures var r := Then(Issue(first), Then(Seq(xs, step), Issue(last)));
      && r.outcome == Completed
      && |r.calls| == |xs| + 2
      && r.calls[0] == first
      && (forall j :: 0 <= j < |xs| ==> r.calls[j + 1] == f(xs[j]))
      && r.calls[|xs| + 1] == last
  {
    SeqOfSingles(xs, step, f);
    var s := Seq(xs, step);
    assert Then(Issue(first), Then(s, Issue(last))).calls == [first] + s.calls + [last];
  }

  /**
   * A list request followed by a loop of guarded single requests: the list
   * request, then `f` of the longest prefix of `ok` elements in order; it
   * throws exactly when some element is not `ok`, right after that prefix.
   */
  lemma {:induction false} ListThenGuardedSingles<T>(first: Call, xs: seq<T>, step: T -> Run, ok: T -> bool, f: T -> Call, r: Run)
    requires forall i :: 0 <= i < |xs| ==> step(xs[i]) == (if ok(xs[i]) then Issue(f(xs[i])) else Abort)
    requires r == Then(Issue(first), Seq(xs, step))
    ensures var n := |r.calls| - 1;
      && |r.calls| >= 1
      && r.calls[0] == first
      && n <= |xs|
      && (forall j :: 0 <= j < n ==> ok(xs[j]) && r.calls[j + 1] == f(xs[j]))
      && (r.outcome == Completed <==> forall j :: 0 <= j < |xs| ==> ok(xs[j]))
      && (r.outcome == Completed ==> n == |xs|)
      && (r.outcome == Aborted ==> n < |xs| && !ok(xs[n]))
  {
    SeqOfGuardedSingles(xs, step, ok, f);
    Prefixed(first, Seq(xs, step).calls);
  }

  /**
   * A list request, a loop of guarded single requests, then one last
   * request: when every element is `ok`, the list request, `f` of every
   * element in order, and the last request; otherwise `f` of the elements
   * before the first that is not `ok`, and no last request.
   */
  lemma {:induction false} ListThenGuardedSinglesThenLast<T>(first: Call, xs: seq<T>, step: T -> Run, ok: T -> bool, f: T -> Call, last: Call, r: Run)
    requires forall i :: 0 <= i < |xs| ==> step(xs[i]) == (if ok(xs[i]) then Issue(f(xs[i])) else Abort)
    requires r == Then(Issue(first), Then(Seq(xs, step), Issue(last)))
    ensures |r.calls| >= 1 && r.calls[0] == first
    ensures r.outcome == Completed <==> forall j :: 0 <= j < |xs| ==> ok(xs[j])
    ensures r.outcome == Completed ==>
      && |r.calls| == |xs| + 2
      && (forall j :: 0 <= j < |xs| ==> r.calls[j + 1] == f(xs[j]))
      && r.calls[|xs| + 1] == last
    ensures r.outcome == Aborted ==>
      var n := |r.calls| - 1;
      && n < |xs|
      && !ok(xs[n])
      && forall j :: 0 <= j < n ==> ok(xs[j]) && r.calls[j + 1] == f(xs[j])
  {
    SeqOfGuardedSingles(xs, step, ok, f);
    var s := Seq(xs, step);
    if s.outcome == Completed {
      Framed(first, s.calls, last);
    } else {
      Prefixed(first, s.calls);
    }
  }

  /** A loop whose every step issues the one request `f(x)`: those requests in list order, and it finishes. */
  lemma {:induction false} SeqOfSingles<T>(xs: seq<T>, step: T -> Run, f: T -> Call)
    requires forall i :: 0 <= i < |xs| ==> step(xs[i]) == Issue(f(xs[i]))
    ensures Seq(xs, step).outcome == Completed
    ensures |Seq(xs, step).calls| == |xs|
    ensures forall i :: 0 <= i < |xs| ==> Seq(xs, step).calls[i] == f(xs[i])
  {
    SeqOfGuardedSingles(xs, step, _ => true, f);
  }

  /** Two loop bodies that agree on every element give the same run. */
  lemma {:induction false} SeqCongruent<T>(xs: seq<T>, f: T -> Run, g: T -> Run)
    requires forall i :: 0 <= i < |xs| ==> f(xs[i]) == g(xs[i])
    ensures Seq(xs, f) == Seq(xs, g)
    decreases |xs|
  {
    if |xs| > 0 {
      var init := xs[..|xs| - 1];
      assert forall i :: 0 <= i < |init| ==> init[i] == xs[i];
      SeqCongruent(init, f, g);
    }
  }
}
