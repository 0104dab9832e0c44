/** Plugins, the services they offer and need, and the theory of startup orders:
    everything here is about the bare collection of nodes, not about the index
    structures that the dependency graph keeps beside it. */
module Plugins {
  import opened Ordering

  datatype ServiceDeclaration = ServiceDeclaration(serviceType: string, version: string)

  datatype ServiceDependency = ServiceDependency(
    serviceType: string, minVersion: string, requiredForStartup: bool, watchForChanges: bool)

  datatype Node = Node(
    runtimeID: string, selfID: string,
    provided: seq<ServiceDeclaration>, required: seq<ServiceDependency>)

  type Collection = map<string, Node>

  ghost predicate Offers(n: Node, t: string) {
    exists i :: 0 <= i < |n.provided| && n.provided[i].serviceType == t
  }

  ghost predicate NeedsAtStartup(n: Node, t: string) {
    exists i :: 0 <= i < |n.required| && n.required[i].serviceType == t && n.required[i].requiredForStartup
  }

  ghost predicate Provider(N: Collection, p: string, t: string) {
    p in N && Offers(N[p], t)
  }

  ghost predicate Requirer(N: Collection, q: string, t: string) {
    q in N && NeedsAtStartup(N[q], t)
  }

  /** `p` has to be started before `q`: it provides a type that `q` needs at startup. */
  ghost predicate Before(N: Collection, p: string, q: string) {
    exists t :: Requirer(N, q, t) && Provider(N, p, t)
  }

  ghost predicate HasProvider(N: Collection, t: string) {
    exists p :: Provider(N, p, t)
  }

  /** Every type needed at startup has a provider. */
  ghost predicate Satisfied(N: Collection) {
    forall q, t :: Requirer(N, q, t) ==> HasProvider(N, t)
  }

  /** `o` lists every plugin once, each provider before its requirers. */
  ghost predicate StartupSequence(N: Collection, o: seq<string>) {
    && NoDuplicates(o)
    && Elements(o) == N.Keys
    && forall i, j :: 0 <= i < |o| && 0 <= j < |o| && Before(N, o[i], o[j]) ==> i < j
  }

  ghost predicate Startable(N: Collection) {
    Satisfied(N) && exists o :: StartupSequence(N, o)
  }

  // ---------------------------------------------------------------- cycles

  ghost predicate IsWalk(N: Collection, w: seq<string>) {
    forall k :: 0 <= k < |w| - 1 ==> Before(N, w[k], w[k + 1])
  }

  ghost predicate IsCycle(N: Collection, w: seq<string>) {
    |w| >= 2 && w[0] == w[|w| - 1] && IsWalk(N, w)
  }

  ghost predicate Cyclic(N: Collection) {
    exists w :: IsCycle(N, w)
  }

  ghost function Position(o: seq<string>, x: string): (i: nat)
    requires x in o
    ensures i < |o| && o[i] == x
  {
    var i :| 0 <= i < |o| && o[i] == x; i
  }

  /** Along a walk the positions in a startup sequence increase. */
  lemma {:induction false} WalkAscends(N: Collection, w: seq<string>, o: seq<string>, k: nat)
    requires StartupSequence(N, o) && IsWalk(N, w) && 1 <= k < |w|
    ensures w[0] in o && w[k] in o && Position(o, w[0]) < Position(o, w[k])
  {
    assert Before(N, w[k - 1], w[k]);
    assert w[k - 1] in Elements(o) && w[k] in Elements(o);
    if k > 1 {
      WalkAscends(N, w, o, k - 1);
    }
  }

  lemma SequenceExcludesCycles(N: Collection, o: seq<string>)
    requires StartupSequence(N, o)
    ensures !Cyclic(N)
  {
    forall w | |w| >= 2 && IsWalk(N, w) ensures w[0] != w[|w| - 1] {
      WalkAscends(N, w, o, |w| - 1);
    }
  }

  ghost predicate HasPredecessorIn(N: Collection, S: set<string>, x: string) {
    exists p :: p in S && Before(N, p, x)
  }

  /** Following predecessors inside a finite set must revisit a plugin. */
  lemma {:induction false} PredecessorsFormCycle(N: Collection, S: set<string>, w: seq<string>)
    requires |w| >= 1 && IsWalk(N, w) && Elements(w) <= S
    requires forall x {:trigger HasPredecessorIn(N, S, x)} :: x in S ==> HasPredecessorIn(N, S, x)
    ensures Cyclic(N)
    decreases S - Elements(w)
  {
    assert w[0] in Elements(w);
    assert HasPredecessorIn(N, S, w[0]);
    var p :| p in S && Before(N, p, w[0]);
    var v := [p] + w;
    assert IsWalk(N, v) by {
      forall k | 0 <= k < |v| - 1 ensures Before(N, v[k], v[k + 1]) {
        if k > 0 { assert Before(N, w[k - 1], w[k]); }
      }
    }
    if p in w {
      var i :| 0 <= i < |w| && w[i] == p;
      assert IsCycle(N, v[..i + 2]);
    } else {
      assert p in S - Elements(w);
      assert Elements(v) == Elements(w) + {p};
      PredecessorsFormCycle(N, S, v);
    }
  }

  // ---------------------------------------------------------------- greedy runs

  /** `x` is still to be started and every plugin that must precede it is in `done`. */
  ghost predicate Ready(N: Collection, done: set<string>, x: string) {
    x in N && x !in done && forall p :: Before(N, p, x) ==> p in done
  }

  ghost predicate LeastReady(N: Collection, done: set<string>, x: string) {
    Ready(N, done, x) && forall y :: Ready(N, done, y) ==> Leq(x, y)
  }

  /** Each entry of `r` is the least plugin that was ready when it was chosen. */
  ghost predicate GreedyRun(N: Collection, r: seq<string>) {
    forall k :: 0 <= k < |r| ==> LeastReady(N, Elements(r[..k]), r[k])
  }

  ghost predicate Exhausted(N: Collection, r: seq<string>) {
    forall x :: !Ready(N, Elements(r), x)
  }

  lemma GreedyRunIsDistinct(N: Collection, r: seq<string>)
    requires GreedyRun(N, r)
    ensures NoDuplicates(r) && Elements(r) <= N.Keys
  {
    forall i, j | 0 <= i < j < |r| ensures r[i] != r[j] {
      assert LeastReady(N, Elements(r[..j]), r[j]);
      assert r[..j][i] == r[i];
    }
    forall x | x in Elements(r) ensures x in N.Keys {
      var i :| 0 <= i < |r| && r[i] == x;
      assert LeastReady(N, Elements(r[..i]), r[i]);
    }
  }

  lemma ExtendGreedyRun(N: Collection, r: seq<string>, x: string)
    requires GreedyRun(N, r) && LeastReady(N, Elements(r), x)
    ensures GreedyRun(N, r + [x])
  {
    var s := r + [x];
    forall k | 0 <= k < |s| ensures LeastReady(N, Elements(s[..k]), s[k]) {
      if k < |r| { assert s[..k] == r[..k]; } else { assert s[..k] == r; }
    }
  }

  /** The greedy choice leaves no freedom: two exhausted runs are equal. */
  lemma {:induction false} GreedyRunIsUnique(N: Collection, a: seq<string>, b: seq<string>, k: nat)
    requires GreedyRun(N, a) && GreedyRun(N, b) && Exhausted(N, a) && Exhausted(N, b)
    requires k <= |a| && k <= |b| && a[..k] == b[..k]
    ensures a == b
    decreases |a| - k
  {
    if k < |a| {
      assert LeastReady(N, Elements(a[..k]), a[k]);
      assert b == b[..|b|];
      assert LeastReady(N, Elements(b[..k]), b[k]);
      LeqAntisymmetric(a[k], b[k]);
      assert a[..k + 1] == a[..k] + [a[k]] == b[..k + 1];
      GreedyRunIsUnique(N, a, b, k + 1);
    } else {
      assert a == a[..k];
      assert b == b[..k];
    }
  }

  lemma {:induction false} GreedyRunExists(N: Collection, r: seq<string>) returns (s: seq<string>)
    requires GreedyRun(N, r)
    ensures GreedyRun(N, s) && Exhausted(N, s)
    decreases N.Keys - Elements(r)
  {
    var ready := set x | x in N && Ready(N, Elements(r), x);
    if ready == {} {
      s := r;
      assert forall x :: Ready(N, Elements(r), x) ==> x in ready;
    } else {
      var x := LeastElement(ready);
      assert forall y :: Ready(N, Elements(r), y) ==> y in ready;
      ExtendGreedyRun(N, r, x);
      ElementsAppend(r, x);
      s := GreedyRunExists(N, r + [x]);
    }
  }

  /** An exhausted greedy run that reaches every plugin is a startup sequence. */
  lemma FullRunIsSequence(N: Collection, r: seq<string>)
    requires GreedyRun(N, r) && Elements(r) == N.Keys
    ensures StartupSequence(N, r)
  {
    GreedyRunIsDistinct(N, r);
    forall i, j | 0 <= i < |r| && 0 <= j < |r| && Before(N, r[i], r[j]) ensures i < j {
      assert LeastReady(N, Elements(r[..j]), r[j]);
      assert r[i] in Elements(r[..j]);
    }
  }

  lemma HeldUpByAnother(N: Collection, done: set<string>, x: string)
    requires x in N && x !in done && !Ready(N, done, x)
    ensures HasPredecessorIn(N, N.Keys - done, x)
  {
    var p :| Before(N, p, x) && p !in done;
  }

  /** One that does not reach every plugin is held up by a cycle. */
  lemma PartialRunHasCycle(N: Collection, r: seq<string>)
    requires GreedyRun(N, r) && Exhausted(N, r) && Elements(r) != N.Keys
    ensures Cyclic(N)
  {
    GreedyRunIsDistinct(N, r);
    var S := N.Keys - Elements(r);
    forall x {:trigger HasPredecessorIn(N, S, x)} | x in S ensures HasPredecessorIn(N, S, x) {
      HeldUpByAnother(N, Elements(r), x);
    }
    assert S != {} by { assert Elements(r) + S == N.Keys; }
    var x :| x in S;
    assert IsWalk(N, [x]) && Elements([x]) == {x};
    PredecessorsFormCycle(N, S, [x]);
  }

  /** A startup sequence exists exactly when no plugin transitively precedes itself. */
  lemma SequenceIffAcyclic(N: Collection)
    ensures (exists o :: StartupSequence(N, o)) <==> !Cyclic(N)
  {
    forall o | StartupSequence(N, o) ensures !Cyclic(N) { SequenceExcludesCycles(N, o); }
    if !Cyclic(N) {
      assert GreedyRun(N, []);
      var r := GreedyRunExists(N, []);
      assert Elements(r) == N.Keys by { if Elements(r) != N.Keys { PartialRunHasCycle(N, r); } }
      FullRunIsSequence(N, r);
    }
  }

  lemma NextInSequenceIsReady(N: Collection, o: seq<string>, k: nat)
    requires StartupSequence(N, o) && k < |o|
    ensures Ready(N, Elements(o[..k]), o[k])
  {
    assert o[k] in Elements(o);
    forall p | Before(N, p, o[k]) ensures p in Elements(o[..k]) {
      assert p in Elements(o);
      var i :| 0 <= i < |o| && o[i] == p;
      assert o[..k][i] == p;
    }
  }

  /** The greedy run comes no later than any startup sequence in lexicographic order. */
  lemma {:induction false} GreedyRunIsLeast(N: Collection, r: seq<string>, o: seq<string>, k: nat)
    requires GreedyRun(N, r) && StartupSequence(N, r) && StartupSequence(N, o)
    requires k <= |r| == |o| && r[..k] == o[..k]
    ensures LexLeq(r, o)
    decreases |r| - k
  {
    if k == |r| {
      assert r == r[..k] && o == o[..k];
    } else {
      assert LeastReady(N, Elements(r[..k]), r[k]);
      NextInSequenceIsReady(N, o, k);
      if r[k] == o[k] {
        assert r[..k + 1] == r[..k] + [r[k]] == o[..k + 1];
        GreedyRunIsLeast(N, r, o, k + 1);
      }
    }
  }

  /** `r` is the startup sequence that every other one follows lexicographically. */
  ghost predicate LeastSequence(N: Collection, r: seq<string>) {
    StartupSequence(N, r) && forall o :: StartupSequence(N, o) ==> LexLeq(r, o)
  }

  lemma FullRunIsLeastSequence(N: Collection, r: seq<string>)
    requires GreedyRun(N, r) && Elements(r) == N.Keys
    ensures LeastSequence(N, r)
  {
    FullRunIsSequence(N, r);
    forall o | StartupSequence(N, o) ensures LexLeq(r, o) {
      DistinctCount(r);
      DistinctCount(o);
      GreedyRunIsLeast(N, r, o, 0);
    }
  }

  /** There is only one least sequence, so nothing but the collection determines it. */
  lemma LeastSequenceIsUnique(N: Collection, a: seq<string>, b: seq<string>)
    requires LeastSequence(N, a) && LeastSequence(N, b)
    ensures a == b
  {
    LexLeqAntisymmetric(a, b);
  }
}
