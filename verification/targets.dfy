/** The ECMAScript target levels and the ordering the configuration merge and the
    downlevel passes rely on (native/src/config.rs, `JscTarget`). */
module Targets {

  /** Language milestones, oldest first: the declaration order is the derived `Ord`. */
  datatype JscTarget = Es3 | Es5 | Es2015 | Es2016 | Es2017 | Es2018 | Es2019

  /** Position of a target in declaration order; the derived ordering compares these. */
  function Rank(t: JscTarget): (r: nat)
    ensures r <= 6
    ensures r == 0 <==> t == Es3
    ensures r == 6 <==> t == Es2019
  {
    match t
    case Es3 => 0
    case Es5 => 1
    case Es2015 => 2
    case Es2016 => 3
    case Es2017 => 4
    case Es2018 => 5
    case Es2019 => 6
  }

  /** `a <= b` under the derived ordering. */
  predicate AtMost(a: JscTarget, b: JscTarget) {
    Rank(a) <= Rank(b)
  }

  /** Distinct targets have distinct ranks, so the ordering is total and antisymmetric. */
  lemma RankInjective(a: JscTarget, b: JscTarget)
    ensures Rank(a) == Rank(b) <==> a == b
  {
  }

  /** The target used when a configuration does not name one: the oldest milestone. */
  function DefaultTarget(): (t: JscTarget)
    ensures forall u :: AtMost(t, u)
  {
    Es3
  }

  /** Target merge: the override replaces the base only when it is newer, so the merged
      target is the least upper bound of the two. */
  function MergeTarget(base: JscTarget, from: JscTarget): (r: JscTarget)
    ensures r == base || r == from
    ensures AtMost(base, r) && AtMost(from, r)
  {
    if Rank(base) < Rank(from) then from else base
  }

  /** Merging a target with itself leaves it unchanged; merge is commutative and associative,
      and the default target is its identity. */
  lemma MergeTargetLaws(a: JscTarget, b: JscTarget, c: JscTarget)
    ensures MergeTarget(a, a) == a
    ensures MergeTarget(a, b) == MergeTarget(b, a)
    ensures MergeTarget(MergeTarget(a, b), c) == MergeTarget(a, MergeTarget(b, c))
    ensures MergeTarget(DefaultTarget(), a) == a && MergeTarget(a, DefaultTarget()) == a
  {
    RankInjective(a, b);
  }
}
