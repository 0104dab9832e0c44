/** What removing a plugin does to the others: the one-step relations, the cascade they
    generate, and the bookkeeping invariant of the depth-first search that computes it. */
module Impact {
  import opened Ordering
  import opened Plugins

  ghost predicate SoleProvider(N: Collection, x: string, t: string) {
    Provider(N, x, t) && forall p :: Provider(N, p, t) ==> p == x
  }

  /** `y` cannot start without `x`: it needs a type at startup that `x` alone provides. */
  ghost predicate Strands(N: Collection, x: string, y: string) {
    x != y && exists t :: Requirer(N, y, t) && SoleProvider(N, x, t)
  }

  ghost predicate DependsOnType(N: Collection, y: string, i: int, t: string) {
    y in N && 0 <= i < |N[y].required| && N[y].required[i].serviceType == t
  }

  /** `y` has a dependency on `x` that is optional or that another plugin can still serve. */
  ghost predicate Inconveniences(N: Collection, x: string, y: string) {
    x != y && exists t, i ::
      Provider(N, x, t) && DependsOnType(N, y, i, t)
      && (!N[y].required[i].requiredForStartup || !SoleProvider(N, x, t))
  }

  ghost predicate StrandWalk(N: Collection, w: seq<string>) {
    forall k :: 0 <= k < |w| - 1 ==> Strands(N, w[k], w[k + 1])
  }

  /** `y` is reached from `x` by stranding one plugin after another, in at least one step. */
  ghost predicate Cascades(N: Collection, x: string, y: string) {
    exists w :: |w| >= 2 && w[0] == x && w[|w| - 1] == y && StrandWalk(N, w)
  }

  ghost function AffectedBy(N: Collection, x: string): set<string> {
    set y | y in N && Cascades(N, x, y)
  }

  ghost predicate InconveniencedBy(N: Collection, S: set<string>, y: string) {
    exists x :: x in S && Inconveniences(N, x, y)
  }

  ghost predicate StrandedBy(N: Collection, S: set<string>, y: string) {
    exists x :: x in S && Strands(N, x, y)
  }

  ghost function OptionallyAffectedBy(N: Collection, x: string): set<string> {
    set y | y in N && InconveniencedBy(N, {x} + AffectedBy(N, x), y)
  }

  lemma StepCascades(N: Collection, x: string, y: string)
    requires Strands(N, x, y)
    ensures Cascades(N, x, y)
  {
    var w := [x, y];
    assert StrandWalk(N, w);
  }

  lemma CascadeExtends(N: Collection, x: string, y: string, z: string)
    requires Cascades(N, x, y) && Strands(N, y, z)
    ensures Cascades(N, x, z)
  {
    var w :| |w| >= 2 && w[0] == x && w[|w| - 1] == y && StrandWalk(N, w);
    var v := w + [z];
    forall k | 0 <= k < |v| - 1 ensures Strands(N, v[k], v[k + 1]) {
      if k < |w| - 1 { assert Strands(N, w[k], w[k + 1]); }
    }
    assert StrandWalk(N, v);
  }

  // ---------------------------------------------------------------- the search

  /** The visited set and the two lists that the search fills. */
  datatype Marks = Marks(visited: set<string>, affected: seq<string>, optional: seq<string>)

  ghost predicate Grew(m: Marks, m': Marks) {
    && m.visited <= m'.visited
    && (forall y :: y in m.affected ==> y in m'.affected)
    && (forall y :: y in m.optional ==> y in m'.optional)
  }

  /** Everything one step from `x` is recorded, and what it strands is visited too. */
  ghost predicate Settled(N: Collection, x: string, m: Marks) {
    && (forall y :: Strands(N, x, y) ==> y in m.affected && y in m.visited)
    && (forall y :: Inconveniences(N, x, y) ==> y in m.optional)
  }

  ghost predicate FromRoot(N: Collection, root: string, v: string) {
    v == root || Cascades(N, root, v)
  }

  /** What the search keeps between steps; `open` are the plugins still being scanned. */
  ghost predicate SearchInvariant(N: Collection, root: string, open: set<string>, m: Marks) {
    && NoDuplicates(m.affected) && NoDuplicates(m.optional)
    && (forall v :: v in m.visited ==> FromRoot(N, root, v))
    && (forall y :: y in m.affected ==> StrandedBy(N, m.visited, y))
    && (forall y :: y in m.optional ==> InconveniencedBy(N, m.visited, y))
    && (forall v :: v in m.visited && v !in open ==> Settled(N, v, m))
  }

  /** The dependency `i` of `y` on declaration `j` of `x` has been dealt with. */
  ghost predicate Handled(N: Collection, x: string, j: int, y: string, i: int, m: Marks)
    requires x in N && y in N && 0 <= j < |N[x].provided| && 0 <= i < |N[y].required|
  {
    var t := N[x].provided[j].serviceType;
    y != x && N[y].required[i].serviceType == t ==>
      if N[y].required[i].requiredForStartup && SoleProvider(N, x, t)
      then y in m.affected && y in m.visited
      else y in m.optional
  }

  ghost predicate HandledPlugin(N: Collection, x: string, j: int, y: string, m: Marks)
    requires x in N && y in N && 0 <= j < |N[x].provided|
  {
    forall i :: 0 <= i < |N[y].required| ==> Handled(N, x, j, y, i, m)
  }

  ghost predicate HandledService(N: Collection, x: string, j: int, m: Marks)
    requires x in N && 0 <= j < |N[x].provided|
  {
    forall y :: y in N ==> HandledPlugin(N, x, j, y, m)
  }

  /** The first `n` dependencies of `y` have been dealt with. */
  ghost predicate HandledBelow(N: Collection, x: string, j: int, y: string, n: int, m: Marks)
    requires x in N && y in N && 0 <= j < |N[x].provided| && n <= |N[y].required|
  {
    forall i :: 0 <= i < n ==> Handled(N, x, j, y, i, m)
  }

  /** The first `n` declarations of `x` have been dealt with. */
  ghost predicate HandledServices(N: Collection, x: string, n: int, m: Marks)
    requires x in N && n <= |N[x].provided|
  {
    forall j :: 0 <= j < n ==> HandledService(N, x, j, m)
  }

  /** The plugins outside `todo` have been matched against declaration `j` of `x`. */
  ghost predicate HandledOutside(N: Collection, x: string, j: int, todo: set<string>, m: Marks)
    requires x in N && 0 <= j < |N[x].provided|
  {
    forall y :: y in N && y !in todo ==> HandledPlugin(N, x, j, y, m)
  }

  lemma NextDependencyHandled(N: Collection, x: string, j: int, y: string, n: int, m0: Marks, m: Marks, m': Marks)
    requires x in N && y in N && 0 <= j < |N[x].provided| && 0 <= n < |N[y].required|
    requires HandledBelow(N, x, j, y, n, m) && Handled(N, x, j, y, n, m') && Grew(m0, m) && Grew(m, m')
    ensures HandledBelow(N, x, j, y, n + 1, m') && Grew(m0, m')
  {
    forall i | 0 <= i < n ensures Handled(N, x, j, y, i, m') {
      assert Handled(N, x, j, y, i, m);
    }
  }

  lemma NextPluginHandled(N: Collection, x: string, j: int, todo: set<string>, y: string, m0: Marks, m: Marks, m': Marks)
    requires x in N && y in N && 0 <= j < |N[x].provided|
    requires HandledOutside(N, x, j, todo, m) && HandledPlugin(N, x, j, y, m') && Grew(m0, m) && Grew(m, m')
    ensures HandledOutside(N, x, j, todo - {y}, m') && Grew(m0, m')
  {
    forall z | z in N && z !in todo - {y} ensures HandledPlugin(N, x, j, z, m') {
      if z != y { GrewKeepsHandledPlugin(N, x, j, z, m, m'); }
    }
  }

  lemma NextServiceHandled(N: Collection, x: string, n: int, m0: Marks, m: Marks, m': Marks)
    requires x in N && 0 <= n < |N[x].provided|
    requires HandledServices(N, x, n, m) && HandledService(N, x, n, m') && Grew(m0, m) && Grew(m, m')
    ensures HandledServices(N, x, n + 1, m') && Grew(m0, m')
  {
    forall j | 0 <= j < n ensures HandledService(N, x, j, m') {
      GrewKeepsHandledService(N, x, j, m, m');
    }
  }

  lemma GrewKeepsHandledPlugin(N: Collection, x: string, j: int, y: string, m: Marks, m': Marks)
    requires x in N && y in N && 0 <= j < |N[x].provided| && HandledPlugin(N, x, j, y, m) && Grew(m, m')
    ensures HandledPlugin(N, x, j, y, m')
  {
    forall i | 0 <= i < |N[y].required| ensures Handled(N, x, j, y, i, m') {
      assert Handled(N, x, j, y, i, m);
    }
  }

  lemma GrewKeepsHandledService(N: Collection, x: string, j: int, m: Marks, m': Marks)
    requires x in N && 0 <= j < |N[x].provided| && HandledService(N, x, j, m) && Grew(m, m')
    ensures HandledService(N, x, j, m')
  {
    forall y | y in N ensures HandledPlugin(N, x, j, y, m') {
      GrewKeepsHandledPlugin(N, x, j, y, m, m');
    }
  }

  /** Once each declaration has been matched against each dependency, the plugin is settled. */
  lemma HandledMeansSettled(N: Collection, x: string, m: Marks)
    requires x in N && forall j :: 0 <= j < |N[x].provided| ==> HandledService(N, x, j, m)
    ensures Settled(N, x, m)
  {
    forall y | Strands(N, x, y) ensures y in m.affected && y in m.visited {
      var t :| Requirer(N, y, t) && SoleProvider(N, x, t);
      var i :| 0 <= i < |N[y].required| && N[y].required[i].serviceType == t && N[y].required[i].requiredForStartup;
      MatchIsHandled(N, x, y, t, i, m);
    }
    forall y | Inconveniences(N, x, y) ensures y in m.optional {
      var t, i :| Provider(N, x, t) && DependsOnType(N, y, i, t)
                  && (!N[y].required[i].requiredForStartup || !SoleProvider(N, x, t));
      MatchIsHandled(N, x, y, t, i, m);
    }
  }

  lemma MatchIsHandled(N: Collection, x: string, y: string, t: string, i: int, m: Marks)
    requires x in N && forall j :: 0 <= j < |N[x].provided| ==> HandledService(N, x, j, m)
    requires x != y && Provider(N, x, t) && DependsOnType(N, y, i, t)
    ensures if N[y].required[i].requiredForStartup && SoleProvider(N, x, t)
            then y in m.affected && y in m.visited else y in m.optional
  {
    var j :| 0 <= j < |N[x].provided| && N[x].provided[j].serviceType == t;
    assert HandledService(N, x, j, m);
    assert HandledPlugin(N, x, j, y, m);
    assert Handled(N, x, j, y, i, m);
  }

  /** Growing the marks keeps settled plugins settled. */
  lemma GrewKeepsSettled(N: Collection, x: string, m: Marks, m': Marks)
    requires Settled(N, x, m) && Grew(m, m')
    ensures Settled(N, x, m')
  {
  }

  lemma VisitKeepsInvariant(N: Collection, root: string, open: set<string>, m: Marks, id: string)
    requires SearchInvariant(N, root, open, m) && FromRoot(N, root, id)
    ensures SearchInvariant(N, root, open + {id}, m.(visited := m.visited + {id}))
  {
    var m' := m.(visited := m.visited + {id});
    forall y | y in m'.affected ensures StrandedBy(N, m'.visited, y) {
      var x :| x in m.visited && Strands(N, x, y);
    }
    forall y | y in m'.optional ensures InconveniencedBy(N, m'.visited, y) {
      var x :| x in m.visited && Inconveniences(N, x, y);
    }
    forall v | v in m'.visited && v !in open + {id} ensures Settled(N, v, m') {
      GrewKeepsSettled(N, v, m, m');
    }
  }

  /** When all its services have been scanned, a plugin is no longer open. */
  lemma ScanKeepsInvariant(N: Collection, root: string, open: set<string>, m: Marks, id: string)
    requires SearchInvariant(N, root, open + {id}, m) && id in N && HandledServices(N, id, |N[id].provided|, m)
    ensures SearchInvariant(N, root, open, m)
  {
    HandledMeansSettled(N, id, m);
  }

  ghost function Appended(s: seq<string>, x: string): seq<string> {
    if x in s then s else s + [x]
  }

  lemma RecordAffected(N: Collection, root: string, open: set<string>, m: Marks, x: string, y: string)
    requires SearchInvariant(N, root, open, m) && x in m.visited && Strands(N, x, y)
    ensures SearchInvariant(N, root, open, m.(affected := Appended(m.affected, y)))
    ensures Grew(m, m.(affected := Appended(m.affected, y)))
  {
    var m' := m.(affected := Appended(m.affected, y));
    forall v | v in m'.visited && v !in open ensures Settled(N, v, m') { GrewKeepsSettled(N, v, m, m'); }
    forall z | z in m'.affected ensures StrandedBy(N, m'.visited, z) {
      if z != y { assert z in m.affected; }
    }
  }

  lemma RecordOptional(N: Collection, root: string, open: set<string>, m: Marks, x: string, y: string)
    requires SearchInvariant(N, root, open, m) && x in m.visited && Inconveniences(N, x, y)
    ensures SearchInvariant(N, root, open, m.(optional := Appended(m.optional, y)))
    ensures Grew(m, m.(optional := Appended(m.optional, y)))
  {
    var m' := m.(optional := Appended(m.optional, y));
    forall v | v in m'.visited && v !in open ensures Settled(N, v, m') { GrewKeepsSettled(N, v, m, m'); }
    forall z | z in m'.optional ensures InconveniencedBy(N, m'.visited, z) {
      if z != y { assert z in m.optional; }
    }
  }

  lemma {:induction false} CascadeStaysInside(N: Collection, w: seq<string>, m: Marks, k: nat)
    requires StrandWalk(N, w) && 1 <= k < |w| && w[0] in m.visited
    requires forall v :: v in m.visited ==> Settled(N, v, m)
    ensures w[k] in m.visited && w[k] in m.affected
  {
    if k > 1 { CascadeStaysInside(N, w, m, k - 1); }
    assert Strands(N, w[k - 1], w[k]);
  }

  /** A finished search has found the whole cascade and nothing else. */
  lemma FinishedSearch(N: Collection, root: string, m: Marks)
    requires SearchInvariant(N, root, {}, m) && root in m.visited
    ensures Elements(m.affected) == AffectedBy(N, root)
    ensures Elements(m.optional) == OptionallyAffectedBy(N, root)
  {
    forall y | y in m.affected ensures y in AffectedBy(N, root) {
      var x :| x in m.visited && Strands(N, x, y);
      if x == root { StepCascades(N, x, y); } else { CascadeExtends(N, root, x, y); }
    }
    forall y | y in AffectedBy(N, root) ensures y in m.affected && y in m.visited {
      var w :| |w| >= 2 && w[0] == root && w[|w| - 1] == y && StrandWalk(N, w);
      CascadeStaysInside(N, w, m, |w| - 1);
    }
    var S := {root} + AffectedBy(N, root);
    forall v | v in m.visited ensures v in S {
      if v != root { CascadeLandsInside(N, root, v); }
    }
    forall y | y in m.optional ensures y in OptionallyAffectedBy(N, root) {
      var x :| x in m.visited && Inconveniences(N, x, y);
      assert x in S;
    }
    forall y | y in OptionallyAffectedBy(N, root) ensures y in m.optional {
      var x :| x in S && Inconveniences(N, x, y);
      assert x in m.visited;
    }
  }

  lemma CascadeLandsInside(N: Collection, x: string, y: string)
    requires Cascades(N, x, y)
    ensures y in AffectedBy(N, x)
  {
    var w :| |w| >= 2 && w[0] == x && w[|w| - 1] == y && StrandWalk(N, w);
    assert Strands(N, w[|w| - 2], w[|w| - 2 + 1]);
  }
}
