/** How removing, adding and replacing plugins changes what can be started. */
module Changes {
  import opened Ordering
  import opened Plugins
  import opened GraphIndex
  import opened Impact
  import opened DepGraph

  /** `T` holds some of the plugins of `N`, unchanged. */
  ghost predicate SubCollection(T: Collection, N: Collection) {
    forall id :: id in T ==> id in N && T[id] == N[id]
  }

  // ---------------------------------------------------------------- outcomes

  /** The outcome depends on the nodes alone: two runs agree on success and on the order, or on
      how far the greedy run gets; only the choice of an unprovided need to report is free. */
  lemma OutcomeIsDetermined(N: Collection, a: OrderResult, b: OrderResult)
    requires StartupOutcome(N, a) && StartupOutcome(N, b)
    ensures a == b || (a.NoProviderFor? && b.NoProviderFor?)
  {
    if a.Ordered? && b.Ordered? {
      LeastSequenceIsUnique(N, a.order, b.order);
    } else if a.CycleDetected? && b.CycleDetected? {
      var r :| GreedyRun(N, r) && Exhausted(N, r) && |r| == a.processed;
      var s :| GreedyRun(N, s) && Exhausted(N, s) && |s| == b.processed;
      GreedyRunIsUnique(N, r, s, 0);
    }
  }

  lemma StartableIffAcyclic(N: Collection)
    ensures Startable(N) <==> Satisfied(N) && !Cyclic(N)
  {
    SequenceIffAcyclic(N);
  }

  lemma SucceedsIffStartable(N: Collection, a: OrderResult)
    requires StartupOutcome(N, a)
    ensures a.Ordered? <==> Startable(N)
  {
    StartableIffAcyclic(N);
  }

  lemma SubCollectionStaysAcyclic(T: Collection, N: Collection)
    requires SubCollection(T, N) && !Cyclic(N)
    ensures !Cyclic(T)
  {
    forall w | IsCycle(T, w) ensures IsCycle(N, w) {
      forall k | 0 <= k < |w| - 1 ensures Before(N, w[k], w[k + 1]) {
        assert Before(T, w[k], w[k + 1]);
        var t :| Requirer(T, w[k + 1], t) && Provider(T, w[k], t);
        assert Requirer(N, w[k + 1], t) && Provider(N, w[k], t);
      }
    }
  }

  // ---------------------------------------------------------------- Remove

  /** Removing one plugin leaves a need unprovided exactly when it stranded another plugin. */
  lemma SatisfiedWithout(N: Collection, x: string)
    requires Satisfied(N)
    ensures Satisfied(N - {x}) <==> forall y :: !Strands(N, x, y)
  {
    var T := N - {x};
    if y :| Strands(N, x, y) {
      var t :| Requirer(N, y, t) && SoleProvider(N, x, t);
      assert Requirer(T, y, t);
      forall p ensures !Provider(T, p, t) { assert Provider(T, p, t) ==> Provider(N, p, t); }
      assert !HasProvider(T, t);
    } else {
      forall q, t | Requirer(T, q, t) ensures HasProvider(T, t) {
        assert Requirer(N, q, t) && HasProvider(N, t) && !Strands(N, x, q);
        assert !SoleProvider(N, x, t);
        var p :| Provider(N, p, t) && p != x;
        assert Provider(T, p, t);
      }
    }
  }

  lemma UnaffectedIffNoneStranded(N: Collection, x: string)
    ensures AffectedBy(N, x) == {} <==> forall y :: !Strands(N, x, y)
  {
    if y :| Strands(N, x, y) {
      StepCascades(N, x, y);
      CascadeLandsInside(N, x, y);
    } else {
      forall y ensures !Cascades(N, x, y) {
        forall w | |w| >= 2 && w[0] == x ensures !StrandWalk(N, w) { assert !Strands(N, w[0], w[0 + 1]); }
      }
    }
  }

  /** A startable collection stays startable without `x` exactly when `x` affects nobody. */
  lemma RemovalKeepsStartable(N: Collection, x: string)
    requires Startable(N)
    ensures Startable(N - {x}) <==> AffectedBy(N, x) == {}
  {
    StartableIffAcyclic(N);
    StartableIffAcyclic(N - {x});
    SubCollectionStaysAcyclic(N - {x}, N);
    SatisfiedWithout(N, x);
    UnaffectedIffNoneStranded(N, x);
  }

  /** The same as calls: whatever `StartupOrder` returns before, as long as it is an order, and after
      `Remove`, against `GetImpact` before it. */
  lemma OrderAfterRemove(s: State, x: string)
    requires Exact(s)
    ensures forall before, after ::
              StartupOutcome(s.nodes, before) && before.Ordered? && StartupOutcome(Removed(s, x).nodes, after) ==>
                (after.Ordered? <==> AffectedBy(s.nodes, x) == {})
  {
    RemoveKeepsExact(s, x);
    forall before, after | StartupOutcome(s.nodes, before) && before.Ordered? && StartupOutcome(Removed(s, x).nodes, after)
      ensures after.Ordered? <==> AffectedBy(s.nodes, x) == {}
    {
      SucceedsIffStartable(s.nodes, before);
      SucceedsIffStartable(Removed(s, x).nodes, after);
      RemovalKeepsStartable(s.nodes, x);
    }
  }

  // ---------------------------------------------------------------- the failure cascade

  /** The plugin together with everything its removal affects. */
  ghost function Failing(N: Collection, x: string): set<string> {
    {x} + AffectedBy(N, x)
  }

  lemma {:induction false} CascadeLeavesSatisfied(T: Collection, N: Collection, w: seq<string>, k: nat)
    requires SubCollection(T, N) && Satisfied(T) && StrandWalk(N, w) && k < |w| && w[0] !in T
    ensures w[k] !in T
  {
    if k > 0 {
      CascadeLeavesSatisfied(T, N, w, k - 1);
      assert Strands(N, w[k - 1], w[k - 1 + 1]);
      var t :| Requirer(N, w[k], t) && SoleProvider(N, w[k - 1], t);
      forall p ensures !Provider(T, p, t) { assert Provider(T, p, t) ==> Provider(N, p, t); }
      assert !HasProvider(T, t) && !Requirer(T, w[k], t);
    }
  }

  /** No startable part of the collection that lacks `x` contains an affected plugin. */
  lemma StartableAvoidsFailing(T: Collection, N: Collection, x: string)
    requires SubCollection(T, N) && Startable(T) && x !in T
    ensures T.Keys !! Failing(N, x)
  {
    forall y | y in AffectedBy(N, x) ensures y !in T {
      var w :| |w| >= 2 && w[0] == x && w[|w| - 1] == y && StrandWalk(N, w);
      CascadeLeavesSatisfied(T, N, w, |w| - 1);
    }
  }

  /** A plugin outside the failing set needs a type that several plugins provide, all failing. */
  ghost predicate LosesSharedType(N: Collection, D: set<string>, y: string, t: string) {
    && y !in D && Requirer(N, y, t)
    && (forall p :: Provider(N, p, t) ==> p in D)
    && exists p, q :: p != q && Provider(N, p, t) && Provider(N, q, t)
  }

  lemma SoleFailingProviderStrands(N: Collection, x: string, p: string, y: string, t: string)
    requires p in Failing(N, x) && SoleProvider(N, p, t) && Requirer(N, y, t)
    ensures y in Failing(N, x)
  {
    if y != p {
      assert Strands(N, p, y);
      if p == x { StepCascades(N, x, y); } else { CascadeExtends(N, x, p, y); }
      CascadeLandsInside(N, x, y);
    }
  }

  /** Taking the failing set away leaves a startable collection, except when some type was
      served by several plugins that all fail and a survivor still needs it. */
  lemma SurvivorsStartableIff(N: Collection, x: string)
    requires Startable(N)
    ensures Startable(N - Failing(N, x)) <==> forall y, t :: !LosesSharedType(N, Failing(N, x), y, t)
  {
    var D := Failing(N, x);
    var T := N - D;
    StartableIffAcyclic(N);
    StartableIffAcyclic(T);
    SubCollectionStaysAcyclic(T, N);
    if y, t :| LosesSharedType(N, D, y, t) {
      assert Requirer(T, y, t);
      forall p ensures !Provider(T, p, t) { assert Provider(T, p, t) ==> Provider(N, p, t); }
      assert !HasProvider(T, t);
    } else {
      forall q, t | Requirer(T, q, t) ensures HasProvider(T, t) {
        SurvivorKeepsProvider(N, x, q, t);
        var p :| Provider(N, p, t) && p !in D;
        assert Provider(T, p, t);
      }
    }
  }

  lemma SurvivorKeepsProvider(N: Collection, x: string, q: string, t: string)
    requires Satisfied(N) && q !in Failing(N, x) && Requirer(N, q, t)
    requires !LosesSharedType(N, Failing(N, x), q, t)
    ensures exists p :: Provider(N, p, t) && p !in Failing(N, x)
  {
    assert HasProvider(N, t);
    var p :| Provider(N, p, t);
    if p in Failing(N, x) {
      if SoleProvider(N, p, t) {
        SoleFailingProviderStrands(N, x, p, q, t);
      } else {
        var r :| Provider(N, r, t) && r != p;
      }
    }
  }

  ghost predicate AtMostOneProvider(N: Collection) {
    forall p, q, t :: Provider(N, p, t) && Provider(N, q, t) ==> p == q
  }

  /** With one provider per type, the target and the affected plugins are exactly the failure
      cascade: the rest starts without them, and nothing that starts without the target
      includes any of them. */
  lemma FailureCascade(N: Collection, x: string)
    requires Startable(N) && AtMostOneProvider(N)
    ensures Startable(N - Failing(N, x))
    ensures forall T: Collection :: SubCollection(T, N) && Startable(T) && x !in T ==> T.Keys !! Failing(N, x)
  {
    SurvivorsStartableIff(N, x);
    forall T: Collection | SubCollection(T, N) && Startable(T) && x !in T ensures T.Keys !! Failing(N, x) {
      StartableAvoidsFailing(T, N, x);
    }
  }

  // ---------------------------------------------------------------- the true cascade

  /** Whoever loses all the providers of a type it needs at startup is in `S`, too. */
  ghost predicate ClosedUnderLoss(N: Collection, S: set<string>) {
    forall y, t :: Requirer(N, y, t) && (forall p :: Provider(N, p, t) ==> p in S) ==> y in S
  }

  /** What really fails with `x`, however many providers a type has: the least set that contains `x`
      and is closed under loss. */
  ghost function Doomed(N: Collection, x: string): set<string> {
    set y | y in N.Keys + {x} && forall S: set<string> :: x in S && ClosedUnderLoss(N, S) ==> y in S
  }

  lemma DoomedIsLeast(N: Collection, x: string)
    ensures x in Doomed(N, x) && ClosedUnderLoss(N, Doomed(N, x))
    ensures forall S :: x in S && ClosedUnderLoss(N, S) ==> Doomed(N, x) <= S
  {
    forall y, t | Requirer(N, y, t) && (forall p :: Provider(N, p, t) ==> p in Doomed(N, x)) ensures y in Doomed(N, x) {
      forall S: set<string> | x in S && ClosedUnderLoss(N, S) ensures y in S {
        assert forall p :: Provider(N, p, t) ==> p in S;
      }
    }
  }

  lemma SurvivorHasProvider(N: Collection, S: set<string>, y: string, t: string)
    requires ClosedUnderLoss(N, S) && Requirer(N, y, t) && y !in S
    ensures HasProvider(N - S, t)
  {
    var p :| Provider(N, p, t) && p !in S;
    assert Provider(N - S, p, t);
  }

  /** With any number of providers, what is left after taking a closed set away is startable. */
  lemma SurvivorsOfClosedSetAreStartable(N: Collection, S: set<string>)
    requires Startable(N) && ClosedUnderLoss(N, S)
    ensures Startable(N - S)
  {
    StartableIffAcyclic(N);
    StartableIffAcyclic(N - S);
    SubCollectionStaysAcyclic(N - S, N);
    forall q, t | Requirer(N - S, q, t) ensures HasProvider(N - S, t) {
      assert Requirer(N, q, t);
      SurvivorHasProvider(N, S, q, t);
    }
  }

  /** Everything outside a startable part of the collection is closed under loss. */
  lemma OutsideIsClosed(T: Collection, N: Collection, x: string)
    requires SubCollection(T, N) && Startable(T) && x !in T
    ensures ClosedUnderLoss(N, N.Keys + {x} - T.Keys)
  {
    var S := N.Keys + {x} - T.Keys;
    forall y, t | Requirer(N, y, t) && (forall p :: Provider(N, p, t) ==> p in S) ensures y in S {
      forall p ensures !Provider(T, p, t) { assert Provider(T, p, t) ==> Provider(N, p, t); }
      assert Requirer(T, y, t) ==> HasProvider(T, t);
    }
  }

  lemma StartableAvoidsDoomed(T: Collection, N: Collection, x: string)
    requires SubCollection(T, N) && Startable(T) && x !in T
    ensures T.Keys !! Doomed(N, x)
  {
    var S := N.Keys + {x} - T.Keys;
    OutsideIsClosed(T, N, x);
    forall y | y in Doomed(N, x) ensures y in S {
      assert x in S && ClosedUnderLoss(N, S);
    }
  }

  /** The true cascade is exact for any number of providers: taking it away leaves a startable
      collection, and every startable part without `x` avoids all of it. */
  lemma DoomedIsExact(N: Collection, x: string)
    requires Startable(N)
    ensures Startable(N - Doomed(N, x))
    ensures forall T: Collection :: SubCollection(T, N) && Startable(T) && x !in T ==> T.Keys !! Doomed(N, x)
  {
    DoomedIsLeast(N, x);
    SurvivorsOfClosedSetAreStartable(N, Doomed(N, x));
    forall T: Collection | SubCollection(T, N) && Startable(T) && x !in T ensures T.Keys !! Doomed(N, x) {
      StartableAvoidsDoomed(T, N, x);
    }
  }

  /** The cascade that `GetImpact` follows stays inside every closed set. */
  lemma {:induction false} StrandWalkStaysInside(N: Collection, S: set<string>, w: seq<string>, k: nat)
    requires ClosedUnderLoss(N, S) && StrandWalk(N, w) && k < |w| && w[0] in S
    ensures w[k] in S
  {
    if k > 0 {
      StrandWalkStaysInside(N, S, w, k - 1);
      assert Strands(N, w[k - 1], w[k - 1 + 1]);
      var t :| Requirer(N, w[k], t) && SoleProvider(N, w[k - 1], t);
    }
  }

  /** What `GetImpact` lists always fails, and it lists all that fails exactly when no survivor needs
      a type that several plugins provide and all of them fail; in particular when no type has more
      than one provider. */
  lemma ImpactIsDoomedIff(N: Collection, x: string)
    requires Satisfied(N)
    ensures Failing(N, x) <= Doomed(N, x)
    ensures Failing(N, x) == Doomed(N, x) <==> forall y, t :: !LosesSharedType(N, Failing(N, x), y, t)
    ensures AtMostOneProvider(N) ==> Failing(N, x) == Doomed(N, x)
  {
    DoomedIsLeast(N, x);
    var F, D := Failing(N, x), Doomed(N, x);
    forall y | y in F ensures y in D {
      if y != x {
        var w :| |w| >= 2 && w[0] == x && w[|w| - 1] == y && StrandWalk(N, w);
        StrandWalkStaysInside(N, D, w, |w| - 1);
      }
    }
    if forall y, t :: !LosesSharedType(N, F, y, t) {
      forall y, t | Requirer(N, y, t) && (forall p :: Provider(N, p, t) ==> p in F) ensures y in F {
        if y !in F {
          assert !LosesSharedType(N, F, y, t);
          SurvivorKeepsProvider(N, x, y, t);
        }
      }
      assert ClosedUnderLoss(N, F);
    }
    if F == D {
      forall y, t ensures !LosesSharedType(N, F, y, t) {}
    }
  }

  /** Everything that fails, apart from `x`, is stranded by some single plugin that fails. */
  ghost predicate EachStranded(N: Collection, x: string) {
    forall y :: y in Doomed(N, x) && y != x ==> StrandedBy(N, Doomed(N, x), y)
  }

  lemma {:induction false} StrandedDoomedIsListed(N: Collection, x: string, o: seq<string>, y: string)
    requires StartupSequence(N, o) && y in Doomed(N, x) && EachStranded(N, x)
    ensures y in Failing(N, x)
    decreases if y in o then Position(o, y) + 1 else 0
  {
    if y != x {
      assert y in Elements(o);
      var p :| p in Doomed(N, x) && Strands(N, p, y);
      assert Before(N, p, y) && p in Elements(o);
      assert o[Position(o, p)] == p && o[Position(o, y)] == y;
      StrandedDoomedIsListed(N, x, o, p);
      var t :| Requirer(N, y, t) && SoleProvider(N, p, t);
      SoleFailingProviderStrands(N, x, p, y, t);
    }
  }

  lemma ListedIsStranded(N: Collection, x: string, y: string)
    requires y in Failing(N, x) && y != x
    ensures StrandedBy(N, Doomed(N, x), y)
  {
    DoomedIsLeast(N, x);
    var w :| |w| >= 2 && w[0] == x && w[|w| - 1] == y && StrandWalk(N, w);
    StrandWalkStaysInside(N, Doomed(N, x), w, |w| - 2);
    assert Strands(N, w[|w| - 2], w[|w| - 2 + 1]);
  }

  /** So `GetImpact` lists all that fails exactly when everything that fails is stranded by some single
      plugin that fails: a condition on the true cascade alone. */
  lemma ImpactIsCompleteIff(N: Collection, x: string)
    requires Startable(N)
    ensures Failing(N, x) == Doomed(N, x) <==> EachStranded(N, x)
  {
    ImpactIsDoomedIff(N, x);
    if EachStranded(N, x) {
      var o :| StartupSequence(N, o);
      forall y | y in Doomed(N, x) ensures y in Failing(N, x) { StrandedDoomedIsListed(N, x, o, y); }
    } else if Failing(N, x) == Doomed(N, x) {
      forall y | y in Failing(N, x) && y != x ensures StrandedBy(N, Doomed(N, x), y) { ListedIsStranded(N, x, y); }
    }
  }

  /** A plugin of a small example, by the types it offers and the types it needs at startup. */
  function Example(id: string, offers: seq<string>, needs: seq<string>): Node {
    Node(id, id, seq(|offers|, i requires 0 <= i < |offers| => ServiceDeclaration(offers[i], "1.0.0")),
         seq(|needs|, i requires 0 <= i < |needs| => ServiceDependency(needs[i], "", true, false)))
  }

  /** Two providers of one type, the second of which needs the first: the type is lost when the
      first goes, yet its other user is not reported. */
  const SHARED: Collection := map[
    "a" := Example("a", ["t", "u"], []),
    "b" := Example("b", ["t"], ["u"]),
    "c" := Example("c", [], ["t"])]

  lemma SharedFacts()
    ensures forall p, t :: Provider(SHARED, p, t) <==> (p, t) in {("a", "t"), ("a", "u"), ("b", "t")}
    ensures forall q, t :: Requirer(SHARED, q, t) <==> (q, t) in {("b", "u"), ("c", "t")}
  {
    assert SHARED["a"].provided[0].serviceType == "t" && SHARED["a"].provided[1].serviceType == "u";
    assert SHARED["b"].provided[0].serviceType == "t";
    assert SHARED["b"].required[0].serviceType == "u" && SHARED["c"].required[0].serviceType == "t";
  }

  lemma SharedBefore(p: string, q: string)
    ensures Before(SHARED, p, q) ==> p == "a" || q == "c"
    ensures Before(SHARED, p, q) ==> p != q && q != "a" && p != "c"
  {
    SharedFacts();
    if Before(SHARED, p, q) {
      var t :| Requirer(SHARED, q, t) && Provider(SHARED, p, t);
    }
  }

  lemma SharedSequence()
    ensures StartupSequence(SHARED, ["a", "b", "c"])
  {
    var o := ["a", "b", "c"];
    forall i, j | 0 <= i < |o| && 0 <= j < |o| && Before(SHARED, o[i], o[j]) ensures i < j {
      SharedBefore(o[i], o[j]);
    }
    assert Elements(o) == SHARED.Keys;
  }

  lemma SharedIsStartable()
    ensures Startable(SHARED)
  {
    SharedSequence();
    assert Satisfied(SHARED) by {
      SharedFacts();
      assert Provider(SHARED, "a", "u") && Provider(SHARED, "a", "t");
    }
  }

  lemma SharedImpact()
    ensures "b" in Failing(SHARED, "a") && "c" !in Failing(SHARED, "a")
  {
    SharedFacts();
    assert SoleProvider(SHARED, "a", "u") && Strands(SHARED, "a", "b");
    StepCascades(SHARED, "a", "b");
    CascadeLandsInside(SHARED, "a", "b");
    forall x ensures !Strands(SHARED, x, "c") {
      assert Provider(SHARED, "a", "t") && Provider(SHARED, "b", "t");
    }
    forall w | |w| >= 2 && StrandWalk(SHARED, w) ensures w[|w| - 1] != "c" {
      assert Strands(SHARED, w[|w| - 2], w[|w| - 2 + 1]);
    }
  }

  lemma SharedTypeIsLost()
    ensures LosesSharedType(SHARED, Failing(SHARED, "a"), "c", "t")
  {
    SharedFacts();
    SharedImpact();
  }

  lemma SharedTypeEscapesImpact()
    ensures Startable(SHARED) && "c" !in Failing(SHARED, "a") && !Startable(SHARED - Failing(SHARED, "a"))
  {
    SharedIsStartable();
    SharedImpact();
    SharedTypeIsLost();
    SurvivorsStartableIff(SHARED, "a");
  }

  /** And in the same example `GetImpact` lists a service of `a` that `b` goes on providing. */
  lemma ListedServiceSurvives(services: seq<string>, affected: seq<string>, optional: seq<string>)
    requires ImpactOutcome(SHARED, "a", services, affected, optional)
    ensures "t" in services && HasProvider(SHARED - {"a"}, "t")
  {
    SharedFacts();
    assert Provider(SHARED, "a", "t") && Provider(SHARED, "b", "t");
    ServiceIsLostIff(SHARED, "a", services, affected, optional, "t");
  }

  // ---------------------------------------------------------------- replacing a plugin

  /** `new` offers exactly what `old` offers and needs nothing at startup that `old` does not. */
  ghost predicate CanReplace(new': Node, old': Node) {
    && (forall t :: Offers(new', t) <==> Offers(old', t))
    && (forall t :: NeedsAtStartup(new', t) ==> NeedsAtStartup(old', t))
  }

  /** A cycle through the replacement would have been a cycle through the original. */
  lemma ReplacementAddsNoCycle(N: Collection, x: string, n: Node)
    requires x in N && n.runtimeID !in N && CanReplace(n, N[x]) && !Cyclic(N)
    ensures !Cyclic(N[n.runtimeID := n])
  {
    var N' := N[n.runtimeID := n];
    forall w | IsCycle(N', w) ensures Cyclic(N) {
      var v := seq(|w|, k requires 0 <= k < |w| => if w[k] == n.runtimeID then x else w[k]);
      forall k | 0 <= k < |v| - 1 ensures Before(N, v[k], v[k + 1]) {
        assert Before(N', w[k], w[k + 1]);
        var t :| Requirer(N', w[k + 1], t) && Provider(N', w[k], t);
        assert Requirer(N, v[k + 1], t) && Provider(N, v[k], t);
      }
      assert IsCycle(N, v);
    }
  }

  /** Adding a replacement and then removing the original keeps the collection startable at
      both points, and no provided type is without a provider at either. */
  lemma ReplacementKeepsStartable(N: Collection, x: string, n: Node)
    requires Startable(N) && x in N && n.runtimeID !in N && CanReplace(n, N[x])
    ensures Startable(N[n.runtimeID := n])
    ensures Startable(N[n.runtimeID := n] - {x})
    ensures forall t :: HasProvider(N, t) ==> HasProvider(N[n.runtimeID := n], t) && HasProvider(N[n.runtimeID := n] - {x}, t)
  {
    var N1 := N[n.runtimeID := n];
    var N2 := N1 - {x};
    forall t | HasProvider(N, t) ensures HasProvider(N1, t) && HasProvider(N2, t) {
      var p :| Provider(N, p, t);
      assert Provider(N1, p, t);
      assert Provider(N2, if p == x then n.runtimeID else p, t);
    }
    forall q, t | Requirer(N1, q, t) ensures HasProvider(N, t) {
      assert Requirer(N, if q == n.runtimeID then x else q, t);
    }
    assert forall q, t :: Requirer(N2, q, t) ==> Requirer(N1, q, t);
    StartableIffAcyclic(N);
    ReplacementAddsNoCycle(N, x, n);
    SubCollectionStaysAcyclic(N2, N1);
    StartableIffAcyclic(N1);
    StartableIffAcyclic(N2);
  }

  // ---------------------------------------------------------------- adding a plugin

  /** The new plugin would come before some `q`, which leads to some `p` that must come before it. */
  ghost predicate ClosesThrough(N: Collection, n: Node, w: seq<string>) {
    && |w| >= 1 && IsWalk(N, w)
    && (exists t :: Offers(n, t) && Requirer(N, w[0], t))
    && (exists t :: NeedsAtStartup(n, t) && Provider(N, w[|w| - 1], t))
  }

  /** Adding `n` would make it transitively precede itself. */
  ghost predicate ClosesCycle(N: Collection, n: Node) {
    || (exists t :: Offers(n, t) && NeedsAtStartup(n, t))
    || (exists w :: ClosesThrough(N, n, w))
  }

  lemma BeforeAmongOthers(N: Collection, n: Node, p: string, q: string)
    requires n.runtimeID !in N && p != n.runtimeID && q != n.runtimeID
    ensures Before(N[n.runtimeID := n], p, q) <==> Before(N, p, q)
  {
    var N' := N[n.runtimeID := n];
    assert forall t :: (Requirer(N', q, t) <==> Requirer(N, q, t)) && (Provider(N', p, t) <==> Provider(N, p, t));
  }

  lemma WalkAmongOthers(N: Collection, n: Node, w: seq<string>)
    requires n.runtimeID !in N && n.runtimeID !in w
    ensures IsWalk(N[n.runtimeID := n], w) <==> IsWalk(N, w)
  {
    forall k | 0 <= k < |w| - 1
      ensures Before(N[n.runtimeID := n], w[k], w[k + 1]) <==> Before(N, w[k], w[k + 1])
    {
      BeforeAmongOthers(N, n, w[k], w[k + 1]);
    }
  }

  lemma ClosingMakesCycle(N: Collection, n: Node)
    requires n.runtimeID !in N && ClosesCycle(N, n)
    ensures Cyclic(N[n.runtimeID := n])
  {
    var id, N' := n.runtimeID, N[n.runtimeID := n];
    if t :| Offers(n, t) && NeedsAtStartup(n, t) {
      assert Requirer(N', id, t) && Provider(N', id, t);
      assert IsCycle(N', [id, id]);
    } else {
      var w :| ClosesThrough(N, n, w);
      WalkStaysInCollection(N, n, w);
      var c := [id] + w + [id];
      forall k | 0 <= k < |c| - 1 ensures Before(N', c[k], c[k + 1]) {
        if k == 0 {
          var t :| Offers(n, t) && Requirer(N, w[0], t);
          assert Requirer(N', w[0], t) && Provider(N', id, t);
        } else if k == |w| {
          var t :| NeedsAtStartup(n, t) && Provider(N, w[|w| - 1], t);
          assert Requirer(N', id, t) && Provider(N', w[|w| - 1], t);
        } else {
          assert Before(N', w[k - 1], w[k - 1 + 1]);
        }
      }
      assert IsCycle(N', c);
    }
  }

  lemma WalkStaysInCollection(N: Collection, n: Node, w: seq<string>)
    requires n.runtimeID !in N && ClosesThrough(N, n, w)
    ensures n.runtimeID !in w && IsWalk(N[n.runtimeID := n], w)
  {
    forall k | 0 <= k < |w| ensures w[k] in N {
      if k > 0 { assert Before(N, w[k - 1], w[k - 1 + 1]); }
    }
    WalkAmongOthers(N, n, w);
  }

  /** A closed walk that leaves the new plugin and first returns to it at `k`. */
  lemma FirstReturnCloses(N: Collection, n: Node, c: seq<string>, k: nat)
    requires n.runtimeID !in N && IsWalk(N[n.runtimeID := n], c)
    requires 1 <= k < |c| && c[0] == c[k] == n.runtimeID && n.runtimeID !in c[1..k]
    ensures ClosesCycle(N, n)
  {
    var id, N' := n.runtimeID, N[n.runtimeID := n];
    assert Before(N', c[0], c[0 + 1]) && Before(N', c[k - 1], c[k - 1 + 1]);
    var t :| Requirer(N', c[1], t) && Provider(N', id, t);
    var u :| Requirer(N', id, u) && Provider(N', c[k - 1], u);
    if k > 1 {
      var w := c[1..k];
      forall j | 0 <= j < |w| - 1 ensures Before(N', w[j], w[j + 1]) { assert Before(N', c[j + 1], c[j + 1 + 1]); }
      WalkAmongOthers(N, n, w);
      assert w[0] == c[1] && w[|w| - 1] == c[k - 1];
      assert w[0] in w && w[|w| - 1] in w;
      assert Requirer(N, w[0], t) && Provider(N, w[|w| - 1], u);
      assert ClosesThrough(N, n, w);
    }
  }

  lemma {:induction false} FirstReturn(c: seq<string>, x: string, k: nat) returns (r: nat)
    requires 1 <= k < |c| && c[k] == x
    ensures 1 <= r <= k && c[r] == x && x !in c[1..r]
  {
    if x in c[1..k] {
      var j :| 0 <= j < |c[1..k]| && c[1..k][j] == x;
      r := FirstReturn(c, x, j + 1);
    } else {
      r := k;
    }
  }

  lemma NewCycleCloses(N: Collection, n: Node, c: seq<string>)
    requires n.runtimeID !in N && !Cyclic(N) && IsCycle(N[n.runtimeID := n], c)
    ensures ClosesCycle(N, n)
  {
    var id, N' := n.runtimeID, N[n.runtimeID := n];
    NewCycleUsesNewcomer(N, n, c);
    var i :| 0 <= i < |c| && c[i] == id;
    var d := c[i..] + c[1..i + 1];
    forall k | 0 <= k < |d| - 1 ensures Before(N', d[k], d[k + 1]) {
      if k < |c| - i - 1 { assert Before(N', c[i + k], c[i + k + 1]); }
      else { var j := k - (|c| - i - 1); assert Before(N', c[j], c[j + 1]); }
    }
    assert |d| == |c| && d[0] == id;
    assert d[|d| - 1] == id;
    var r := FirstReturn(d, id, |d| - 1);
    FirstReturnCloses(N, n, d, r);
  }

  lemma NewCycleUsesNewcomer(N: Collection, n: Node, c: seq<string>)
    requires n.runtimeID !in N && !Cyclic(N) && IsCycle(N[n.runtimeID := n], c)
    ensures n.runtimeID in c
  {
    assert !IsCycle(N, c);
    if n.runtimeID !in c { WalkAmongOthers(N, n, c); }
  }

  /** What `AddPlugin` checks, that every startup need already has a provider, is enough to keep
      a collection startable exactly when the newcomer does not close a cycle. */
  lemma AdditionKeepsStartableIff(N: Collection, n: Node)
    requires Startable(N) && n.runtimeID !in N
    requires forall t :: NeedsAtStartup(n, t) ==> HasProvider(N, t)
    ensures Startable(N[n.runtimeID := n]) <==> !ClosesCycle(N, n)
  {
    var N' := N[n.runtimeID := n];
    StartableIffAcyclic(N);
    StartableIffAcyclic(N');
    forall q, t | Requirer(N', q, t) ensures HasProvider(N', t) {
      assert q != n.runtimeID ==> Requirer(N, q, t);
      var p :| Provider(N, p, t);
      assert Provider(N', p, t);
    }
    if ClosesCycle(N, n) { ClosingMakesCycle(N, n); }
    if c :| IsCycle(N', c) { NewCycleCloses(N, n, c); }
  }

  /** In particular a newcomer whose types nobody needs yet is always safe. */
  lemma UnneededTypesAreSafe(N: Collection, n: Node)
    requires Startable(N) && n.runtimeID !in N
    requires forall t :: NeedsAtStartup(n, t) ==> HasProvider(N, t) && !Offers(n, t)
    requires forall q, t :: Requirer(N, q, t) ==> !Offers(n, t)
    ensures Startable(N[n.runtimeID := n])
  {
    AdditionKeepsStartableIff(N, n);
  }

  /** A second provider of a needed type that itself needs that type's user. */
  const CHAIN: Collection := map["a" := Example("a", ["t"], []), "b" := Example("b", ["u"], ["t"])]

  const LATECOMER := Example("c", ["t"], ["u"])

  lemma ChainFacts()
    ensures forall p, t :: Provider(CHAIN, p, t) <==> (p, t) in {("a", "t"), ("b", "u")}
    ensures forall q, t :: Requirer(CHAIN, q, t) <==> (q, t) in {("b", "t")}
    ensures Offers(LATECOMER, "t") && NeedsAtStartup(LATECOMER, "u")
    ensures forall t :: NeedsAtStartup(LATECOMER, t) ==> t == "u"
  {
    assert CHAIN["a"].provided[0].serviceType == "t" && CHAIN["b"].provided[0].serviceType == "u";
    assert CHAIN["b"].required[0].serviceType == "t";
    assert LATECOMER.provided[0].serviceType == "t" && LATECOMER.required[0].serviceType == "u";
  }

  lemma ChainIsStartable()
    ensures Startable(CHAIN)
  {
    ChainFacts();
    var o := ["a", "b"];
    forall i, j | 0 <= i < |o| && 0 <= j < |o| && Before(CHAIN, o[i], o[j]) ensures i < j {
      var t :| Requirer(CHAIN, o[j], t) && Provider(CHAIN, o[i], t);
    }
    assert Elements(o) == CHAIN.Keys;
    assert StartupSequence(CHAIN, o);
    assert Satisfied(CHAIN) by { assert Provider(CHAIN, "a", "t"); }
  }

  /** So passing the check of `AddPlugin` alone does not keep the collection startable. */
  lemma AdditionCanCloseCycle()
    ensures Startable(CHAIN) && LATECOMER.runtimeID !in CHAIN
    ensures forall t :: NeedsAtStartup(LATECOMER, t) ==> HasProvider(CHAIN, t)
    ensures !Startable(CHAIN[LATECOMER.runtimeID := LATECOMER])
  {
    ChainIsStartable();
    ChainFacts();
    assert Provider(CHAIN, "b", "u") && Requirer(CHAIN, "b", "t");
    assert ClosesThrough(CHAIN, LATECOMER, ["b"]);
    AdditionKeepsStartableIff(CHAIN, LATECOMER);
  }
}
