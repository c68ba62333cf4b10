/** Completion times of processes run one after the other, and the orders that minimise their sum. */
module FlowTime {
  import opened Processes
  import opened Simulation

  /** The processes completed one after the other, from tick t on. */
  function Completions(q: seq<Pcb>, t: nat): seq<Completion> {
    if q == [] then [] else
      [Completion(q[0].pid, q[0].totalTicks + Work(q[0]), t + Work(q[0]))] + Completions(q[1..], t + Work(q[0]))
  }

  function FinishSum(done: seq<Completion>): nat {
    if done == [] then 0 else done[0].at + FinishSum(done[1..])
  }

  lemma CompletionsNil(t: nat)
    ensures Completions([], t) == []
  {
  }

  lemma CompletionsCons(c: Pcb, q: seq<Pcb>, t: nat)
    ensures Completions([c] + q, t)
         == [Completion(c.pid, c.totalTicks + Work(c), t + Work(c))] + Completions(q, t + Work(c))
  {
    assert ([c] + q)[1..] == q;
  }

  /** Completions depend only on the pid, the charges so far and the work. */
  lemma SameCompletions(p: Pcb, p': Pcb, q: seq<Pcb>, t: nat)
    requires p.pid == p'.pid && p.totalTicks == p'.totalTicks && p.remainingTime == p'.remainingTime
    ensures Completions([p] + q, t) == Completions([p'] + q, t)
  {
    CompletionsCons(p, q, t);
    CompletionsCons(p', q, t);
  }

  /** The sum of finish ticks when the queue runs in its own order: the last one ends when all the
      work is done. */
  function Flow(q: seq<Pcb>): nat {
    if q == [] then 0 else Flow(q[..|q| - 1]) + TotalWork(q)
  }

  lemma FinishSumAppend(done: seq<Completion>, d: Completion)
    ensures FinishSum(done + [d]) == FinishSum(done) + d.at
  {
    if done != [] {
      assert (done + [d])[1..] == done[1..] + [d];
      FinishSumAppend(done[1..], d);
    }
  }

  lemma CompletionsAppend(q: seq<Pcb>, p: Pcb, t: nat)
    ensures Completions(q + [p], t)
         == Completions(q, t) + [Completion(p.pid, p.totalTicks + Work(p), t + TotalWork(q) + Work(p))]
    decreases |q|
  {
    hide Work;
    if q == [] {
      assert q + [p] == [p] + [];
      CompletionsCons(p, [], t);
    } else {
      assert q + [p] == [q[0]] + (q[1..] + [p]);
      assert q == [q[0]] + q[1..];
      CompletionsCons(q[0], q[1..] + [p], t);
      CompletionsCons(q[0], q[1..], t);
      CompletionsAppend(q[1..], p, t + Work(q[0]));
    }
  }

  lemma FinishSumIsFlow(q: seq<Pcb>)
    ensures FinishSum(Completions(q, 0)) == Flow(q)
    decreases |q|
  {
    hide Work, TotalWork, Completions;
    if q == [] {
      CompletionsNil(0);
    } else {
      var n := |q| - 1;
      assert q == q[..n] + [q[n]];
      FinishSumIsFlow(q[..n]);
      CompletionsAppend(q[..n], q[n], 0);
      var last := Completion(q[n].pid, q[n].totalTicks + Work(q[n]), TotalWork(q[..n]) + Work(q[n]));
      FinishSumAppend(Completions(q[..n], 0), last);
      TotalWorkAppend(q[..n], q[n]);
    }
  }

  predicate SortedByWork(q: seq<Pcb>) {
    forall i, j :: 0 <= i < j < |q| ==> Work(q[i]) <= Work(q[j])
  }

  lemma FlowAppend(q: seq<Pcb>, p: Pcb)
    ensures Flow(q + [p]) == Flow(q) + TotalWork(q) + Work(p)
  {
    hide Work, TotalWork;
    assert (q + [p])[..|q|] == q;
    TotalWorkAppend(q, p);
  }

  lemma ShorterFirst(t: seq<Pcb>, h: Pcb, m: Pcb)
    requires Work(h) <= Work(m)
    ensures Flow(t + [h] + [m]) <= Flow(t + [m] + [h])
  {
    hide Work, TotalWork, Flow;
    FlowAppend(t, h);
    FlowAppend(t, m);
    FlowAppend(t + [h], m);
    FlowAppend(t + [m], h);
    TotalWorkAppend(t, h);
    TotalWorkAppend(t, m);
  }

  /** Moving a longest process to the end never makes the sum larger. */
  lemma MoveToEnd(q: seq<Pcb>, k: nat)
    requires k < |q| && forall i :: 0 <= i < |q| ==> Work(q[i]) <= Work(q[k])
    ensures Flow(Without(q, k) + [q[k]]) <= Flow(q)
    decreases |q|
  {
    hide Work, TotalWork, Flow;
    var n := |q| - 1;
    if k == n {
      assert Without(q, k) + [q[k]] == q;
    } else {
      var t, h, m := q[..n], q[n], q[k];
      var t' := Without(t, k);
      assert Without(q, k) == t' + [h];
      assert q == t + [h];
      MoveToEnd(t, k);
      ShorterFirst(t', h, m);
      FlowAppend(t, h);
      FlowAppend(t' + [m], h);
      TotalWorkWithout(t, k);
      TotalWorkAppend(t', m);
    }
  }

  lemma WithoutPermutes<T>(b: seq<T>, k: nat)
    requires k < |b|
    ensures multiset(b) == multiset(Without(b, k)) + multiset{b[k]}
  {
    assert b == b[..k] + [b[k]] + b[k + 1..];
  }

  lemma RestsPermute(a: seq<Pcb>, i: nat, b: seq<Pcb>, k: nat)
    requires multiset(a) == multiset(b) && i < |a| && k < |b| && a[i] == b[k]
    ensures multiset(Without(a, i)) == multiset(Without(b, k))
  {
    hide Without;
    WithoutPermutes(a, i);
    WithoutPermutes(b, k);
    assert multiset(Without(a, i)) == multiset(a) - multiset{a[i]};
  }

  lemma SameSize(a: seq<Pcb>, b: seq<Pcb>)
    requires multiset(a) == multiset(b)
    ensures |a| == |b|
  {
    assert |multiset(a)| == |a| && |multiset(b)| == |b|;
  }

  /** Any order with the same total work; permutations in particular. */
  lemma PermutationWork(a: seq<Pcb>, b: seq<Pcb>)
    requires multiset(a) == multiset(b)
    ensures TotalWork(a) == TotalWork(b)
    decreases |a|
  {
    hide Work;
    SameSize(a, b);
    if a != [] {
      assert a[0] in multiset(b);
      var k :| 0 <= k < |b| && b[k] == a[0];
      RestsPermute(a, 0, b, k);
      assert Without(a, 0) == a[1..];
      PermutationWork(a[1..], Without(b, k));
      TotalWorkWithout(b, k);
    }
  }

  lemma WithoutLast(a: seq<Pcb>)
    requires a != []
    ensures Without(a, |a| - 1) == a[..|a| - 1]
  {
  }

  lemma {:induction false} SortedIsMinimal(a: seq<Pcb>, b: seq<Pcb>)
    requires SortedByWork(a) && multiset(a) == multiset(b)
    ensures Flow(a) <= Flow(b)
    decreases |a|
  {
    hide Work, TotalWork, Flow, Without;
    SameSize(a, b);
    if a == [] {
      assert a == b;
    } else {
      var n := |a| - 1;
      assert a[n] in multiset(b);
      var k :| 0 <= k < |b| && b[k] == a[n];
      forall i | 0 <= i < |b| ensures Work(b[i]) <= Work(b[k]) {
        assert b[i] in multiset(a);
        var j :| 0 <= j < |a| && a[j] == b[i];
      }
      var rest := Without(b, k);
      assert a == a[..n] + [a[n]];
      RestsPermute(a, n, b, k);
      WithoutLast(a);
      SortedIsMinimal(a[..n], rest);
      PermutationWork(a[..n], rest);
      MoveToEnd(b, k);
      FlowAppend(a[..n], a[n]);
      FlowAppend(rest, b[k]);
    }
  }

  function SwapNext(q: seq<Pcb>, i: nat): seq<Pcb>
    requires i + 1 < |q|
  {
    q[i := q[i + 1]][i + 1 := q[i]]
  }

  lemma SwapPermutes(q: seq<Pcb>, i: nat)
    requires i + 1 < |q|
    ensures multiset(SwapNext(q, i)) == multiset(q)
  {
  }

  lemma SwapFlow(q: seq<Pcb>, i: nat)
    requires i + 1 < |q|
    ensures Flow(SwapNext(q, i)) == Flow(q) + Work(q[i + 1]) - Work(q[i])
    decreases |q|
  {
    hide Work, TotalWork, Flow;
    var r, n := SwapNext(q, i), |q| - 1;
    assert q == q[..n] + [q[n]];
    assert r == r[..n] + [r[n]];
    FlowAppend(q[..n], q[n]);
    FlowAppend(r[..n], r[n]);
    if i + 1 == n {
      assert q[..n] == q[..i] + [q[i]];
      assert r[..n] == q[..i] + [q[n]];
      FlowAppend(q[..i], q[i]);
      FlowAppend(q[..i], q[n]);
      TotalWorkAppend(q[..i], q[i]);
      TotalWorkAppend(q[..i], q[n]);
    } else {
      assert r[..n] == SwapNext(q[..n], i);
      SwapFlow(q[..n], i);
      SwapPermutes(q[..n], i);
      PermutationWork(r[..n], q[..n]);
    }
  }

  /** No other order of the same processes has a smaller sum of finish ticks. */
  ghost predicate MinimalFlow(q: seq<Pcb>) {
    forall other: seq<Pcb> :: multiset(other) == multiset(q) ==>
      FinishSum(Completions(q, 0)) <= FinishSum(Completions(other, 0))
  }

  lemma UnsortedStep(q: seq<Pcb>) returns (i: nat)
    requires !SortedByWork(q)
    ensures i + 1 < |q| && Work(q[i]) > Work(q[i + 1])
  {
    hide Work;
    i := 0;
    while i + 1 < |q| && Work(q[i]) <= Work(q[i + 1])
      invariant i < |q|
      invariant forall a, b :: 0 <= a < b <= i ==> Work(q[a]) <= Work(q[b])
      decreases |q| - i
    {
      i := i + 1;
    }
  }

  /** An order of completion is optimal exactly when it is nondecreasing in the work. */
  lemma OptimalIffSorted(q: seq<Pcb>)
    ensures MinimalFlow(q) <==> SortedByWork(q)
  {
    hide Work, TotalWork, Flow, Completions, FinishSum;
    FinishSumIsFlow(q);
    if SortedByWork(q) {
      forall other: seq<Pcb> | multiset(other) == multiset(q)
        ensures FinishSum(Completions(q, 0)) <= FinishSum(Completions(other, 0))
      {
        FinishSumIsFlow(other);
        SortedIsMinimal(q, other);
      }
    } else {
      var i := UnsortedStep(q);
      SwapFlow(q, i);
      SwapPermutes(q, i);
      FinishSumIsFlow(SwapNext(q, i));
    }
  }
}
