/** Runs of a state machine: `next` performs one step, or yields `None` where it cannot happen. */
module Runs {
  import opened Wrappers

  function Exec<S, A>(next: (S, A) -> Option<S>, s: S, steps: seq<A>): Option<S>
    decreases |steps|
  {
    if steps == [] then Some(s)
    else
      var s' := next(s, steps[0]);
      if s'.None? then None else Exec(next, s'.value, steps[1..])
  }

  lemma {:induction false} ExecConcat<S, A>(next: (S, A) -> Option<S>, s: S, a: seq<A>, b: seq<A>)
    requires Exec(next, s, a).Some?
    ensures Exec(next, s, a + b) == Exec(next, Exec(next, s, a).value, b)
    decreases |a|
  {
    if a == [] {
      assert a + b == b;
    } else {
      assert (a + b)[0] == a[0] && (a + b)[1..] == a[1..] + b;
      ExecConcat(next, next(s, a[0]).value, a[1..], b);
    }
  }

  lemma PrefixOfRun<S, A>(next: (S, A) -> Option<S>, s: S, steps: seq<A>, k: nat)
    requires k + 1 < |steps| && next(s, steps[0]).Some?
    ensures Exec(next, s, steps[..k + 1]) == Exec(next, next(s, steps[0]).value, steps[1..][..k])
  {
    assert steps[..k + 1][1..] == steps[1..][..k];
  }

  lemma OneStep<S, A>(next: (S, A) -> Option<S>, s: S, step: A)
    ensures Exec(next, s, [step]) == next(s, step)
  {
    assert [step][1..] == [];
    assert next(s, step).Some? ==> Exec(next, next(s, step).value, []) == next(s, step);
  }

  /** A run taken apart at its last step. */
  lemma LastStep<S, A>(next: (S, A) -> Option<S>, s: S, steps: seq<A>)
    requires steps != [] && Exec(next, s, steps).Some?
    ensures var front := steps[..|steps| - 1];
            Exec(next, s, front).Some? && Exec(next, s, steps) == next(Exec(next, s, front).value, steps[|steps| - 1])
  {
    PrefixRuns(next, s, steps, |steps| - 1);
    var front, last := steps[..|steps| - 1], steps[|steps| - 1];
    assert steps == front + [last];
    ExecConcat(next, s, front, [last]);
    OneStep(next, Exec(next, s, front).value, last);
  }

  lemma {:induction false} PrefixRuns<S, A>(next: (S, A) -> Option<S>, s: S, steps: seq<A>, k: nat)
    requires k <= |steps| && Exec(next, s, steps).Some?
    ensures Exec(next, s, steps[..k]).Some?
    decreases k
  {
    if k > 0 {
      PrefixRuns(next, next(s, steps[0]).value, steps[1..], k - 1);
      assert steps[..k][1..] == steps[1..][..k - 1];
    }
  }

  /** What every step keeps, every run keeps. */
  lemma {:induction false} RunKeeps<S(!new), A(!new)>(next: (S, A) -> Option<S>, inv: S -> bool, s: S, steps: seq<A>)
    requires inv(s) && Exec(next, s, steps).Some?
    requires forall x, a :: inv(x) && next(x, a).Some? ==> inv(next(x, a).value)
    ensures inv(Exec(next, s, steps).value)
    decreases |steps|
  {
    if steps != [] {
      var s' := next(s, steps[0]).value;
      assert inv(s');
      RunKeeps(next, inv, s', steps[1..]);
    }
  }

  /** What never changes once it is there has been put there by one step of the run, as it is. */
  lemma {:induction false} StepThatEnters<S(!new), A(!new), V>(next: (S, A) -> Option<S>, get: S -> Option<V>, s: S, steps: seq<A>)
    returns (k: nat)
    requires forall x, a :: next(x, a).Some? && get(x).Some? ==> get(next(x, a).value) == get(x)
    requires Exec(next, s, steps).Some? && get(s).None? && get(Exec(next, s, steps).value).Some?
    ensures k < |steps| && Exec(next, s, steps[..k]).Some?
    ensures var before := Exec(next, s, steps[..k]).value;
            && get(before).None? && next(before, steps[k]).Some?
            && get(next(before, steps[k]).value) == get(Exec(next, s, steps).value)
    decreases |steps|
  {
    var s' := next(s, steps[0]).value;
    if get(s').Some? {
      k := 0;
      assert steps[..0] == [];
      RunKeeps(next, (x: S) => get(x) == get(s'), s', steps[1..]);
    } else {
      k := StepThatEnters(next, get, s', steps[1..]);
      PrefixOfRun(next, s, steps, k);
      k := k + 1;
    }
  }

  /** `b` can be reached from `a`. */
  ghost predicate Reaches<S, A(!new)>(next: (S, A) -> Option<S>, a: S, b: S) {
    exists steps :: Exec(next, a, steps) == Some(b)
  }

  lemma ReachesSelf<S, A(!new)>(next: (S, A) -> Option<S>, a: S)
    ensures Reaches(next, a, a)
  {
    assert Exec(next, a, []) == Some(a);
  }

  lemma ReachesTransitive<S, A(!new)>(next: (S, A) -> Option<S>, a: S, b: S, c: S)
    requires Reaches(next, a, b) && Reaches(next, b, c)
    ensures Reaches(next, a, c)
  {
    var x :| Exec(next, a, x) == Some(b);
    var y :| Exec(next, b, y) == Some(c);
    ExecConcat(next, a, x, y);
  }

  lemma ReachesStep<S, A(!new)>(next: (S, A) -> Option<S>, a: S, b: S, step: A)
    requires Reaches(next, a, b) && next(b, step).Some?
    ensures Reaches(next, a, next(b, step).value)
  {
    assert Exec(next, b, [step]) == Exec(next, next(b, step).value, []);
    ReachesTransitive(next, a, b, next(b, step).value);
  }
}
