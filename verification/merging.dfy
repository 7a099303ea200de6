/** The `Merge` trait of native/src/config.rs: `base.merge(from)` applies the overrides of
    `from` to `base`, with one policy per field type. The in-place update is modelled as a
    function returning the updated base. */
module Merging {
  import opened Wrappers
  import opened Targets
  import opened Configs

  /** `Merge for Option<T>`: an absent override is a no-op, a present override is copied into
      an absent base, and two present values are merged by the inner policy. */
  function MergeOption<T>(base: Option<T>, from: Option<T>, inner: (T, T) -> T): (r: Option<T>)
    ensures from.None? ==> r == base
    ensures base.None? ==> r == from
    ensures r.None? <==> base.None? && from.None?
    ensures base.Some? && from.Some? ==> r == Some(inner(base.value, from.value))
  {
    match from
    case None => base
    case Some(f) =>
      match base
      case None => Some(f)
      case Some(b) => Some(inner(b, f))
  }

  /** The policy of `Syntax`, `GlobalPassOption`, `react::Options` and `ConstModulesConfig`:
      the override replaces the base outright. */
  function Replace<T>(base: T, from: T): T {
    from
  }

  /** Replacement keeps no trace of the base: it is idempotent, and of consecutive layers only
      the last one matters, however they are grouped. */
  lemma ReplaceLaws<T>(a: T, b: T, c: T)
    ensures Replace(a, a) == a
    ensures Replace(Replace(a, b), c) == Replace(b, c) == Replace(a, c)
    ensures Replace(Replace(a, b), c) == Replace(a, Replace(b, c))
  {
  }

  /** `Merge for bool`: a flag enabled in either layer stays enabled. */
  function MergeFlag(base: bool, from: bool): bool {
    base || from
  }

  /** Flag merge is idempotent, commutative and associative with `false` as identity, and no
      later layer can clear a flag an earlier one set. */
  lemma MergeFlagLaws(a: bool, b: bool, c: bool)
    ensures MergeFlag(a, a) == a
    ensures MergeFlag(a, b) == MergeFlag(b, a)
    ensures MergeFlag(MergeFlag(a, b), c) == MergeFlag(a, MergeFlag(b, c))
    ensures MergeFlag(a, false) == a && MergeFlag(false, a) == a
    ensures a ==> MergeFlag(a, b) && MergeFlag(b, a)
    ensures !MergeFlag(a, b) <==> !a && !b
  {
  }

  /** `Merge for Option<ModuleConfig>`: last writer wins, with no merging of the formats. */
  function MergeModule(base: Option<ModuleConfig>, from: Option<ModuleConfig>): (r: Option<ModuleConfig>)
    ensures from.Some? ==> r == from
    ensures from.None? ==> r == base
  {
    match from
    case Some(c) => Some(c)
    case None => base
  }

  function MergeOptimizer(base: OptimizerConfig, from: OptimizerConfig): (r: OptimizerConfig)
    ensures from.globals.Some? ==> r.globals == from.globals
    ensures from.globals.None? ==> r.globals == base.globals
  {
    OptimizerConfig(MergeOption(base.globals, from.globals, Replace))
  }

  /** `Merge for TransformConfig`. The JSX options are not optional in the source, so the
      override's are taken even when the override left them at their default. */
  function MergeTransform(base: TransformConfig, from: TransformConfig): (r: TransformConfig)
    ensures r.react == from.react
    ensures from.constModules.Some? ==> r.constModules == from.constModules
    ensures from.constModules.None? ==> r.constModules == base.constModules
    ensures from.optimizer.None? ==> r.optimizer == base.optimizer
    ensures base.optimizer.None? ==> r.optimizer == from.optimizer
    ensures base.optimizer.Some? && from.optimizer.Some? ==>
      r.optimizer == Some(MergeOptimizer(base.optimizer.value, from.optimizer.value))
  {
    TransformConfig(
      Replace(base.react, from.react),
      MergeOption(base.constModules, from.constModules, Replace),
      MergeOption(base.optimizer, from.optimizer, MergeOptimizer))
  }

  function MergeJsc(base: JscConfig, from: JscConfig): (r: JscConfig)
    ensures from.syntax.Some? ==> r.syntax == from.syntax
    ensures from.syntax.None? ==> r.syntax == base.syntax
    ensures from.transform.None? ==> r.transform == base.transform
    ensures base.transform.None? ==> r.transform == from.transform
    ensures base.transform.Some? && from.transform.Some? ==>
      r.transform == Some(MergeTransform(base.transform.value, from.transform.value))
    ensures r.externalHelpers <==> base.externalHelpers || from.externalHelpers
    ensures r.target == base.target || r.target == from.target
    ensures AtMost(base.target, r.target) && AtMost(from.target, r.target)
  {
    JscConfig(
      MergeOption(base.syntax, from.syntax, Replace),
      MergeOption(base.transform, from.transform, MergeTransform),
      MergeFlag(base.externalHelpers, from.externalHelpers),
      MergeTarget(base.target, from.target))
  }

  /** `Merge for Config`: `MergeConfig(base, from)` is `base` after `base.merge(&from)`. */
  function MergeConfig(base: Config, from: Config): (r: Config)
    // last writer wins for the module format and the parser syntax
    ensures from.moduleConfig.Some? ==> r.moduleConfig == from.moduleConfig
    ensures from.moduleConfig.None? ==> r.moduleConfig == base.moduleConfig
    ensures from.jsc.syntax.Some? ==> r.jsc.syntax == from.jsc.syntax
    ensures from.jsc.syntax.None? ==> r.jsc.syntax == base.jsc.syntax
    // transforms are merged field by field when both layers have one
    ensures from.jsc.transform.None? ==> r.jsc.transform == base.jsc.transform
    ensures base.jsc.transform.None? ==> r.jsc.transform == from.jsc.transform
    ensures base.jsc.transform.Some? && from.jsc.transform.Some? ==>
      r.jsc.transform == Some(MergeTransform(base.jsc.transform.value, from.jsc.transform.value))
    // enable flags are sticky
    ensures r.jsc.externalHelpers <==> base.jsc.externalHelpers || from.jsc.externalHelpers
    ensures r.minify == Some(true) <==> base.minify == Some(true) || from.minify == Some(true)
    ensures r.minify.None? <==> base.minify.None? && from.minify.None?
    // the target only ever widens, to one of the two requested
    ensures r.jsc.target == base.jsc.target || r.jsc.target == from.jsc.target
    ensures AtMost(base.jsc.target, r.jsc.target) && AtMost(from.jsc.target, r.jsc.target)
  {
    Config(
      MergeJsc(base.jsc, from.jsc),
      MergeModule(base.moduleConfig, from.moduleConfig),
      MergeOption(base.minify, from.minify, MergeFlag))
  }

  /** Merging an optional value with itself is the identity when the inner policy is. */
  lemma MergeOptionIdempotent<T>(o: Option<T>, inner: (T, T) -> T)
    requires forall x :: inner(x, x) == x
    ensures MergeOption(o, o, inner) == o
  {
  }

  /** Optional merge is associative when the inner policy is. */
  lemma MergeOptionAssociative<T>(a: Option<T>, b: Option<T>, c: Option<T>, inner: (T, T) -> T)
    requires forall x, y, z :: inner(inner(x, y), z) == inner(x, inner(y, z))
    ensures MergeOption(MergeOption(a, b, inner), c, inner) == MergeOption(a, MergeOption(b, c, inner), inner)
  {
  }

  /** Merging a configuration into itself yields it unchanged. */
  lemma MergeIdempotent(c: Config)
    ensures MergeConfig(c, c) == c
  {
    forall x: TransformConfig ensures MergeTransform(x, x) == x {
      forall y: OptimizerConfig ensures MergeOptimizer(y, y) == y {
        MergeOptionIdempotent(y.globals, Replace);
      }
      MergeOptionIdempotent(x.constModules, Replace);
      MergeOptionIdempotent(x.optimizer, MergeOptimizer);
    }
    MergeOptionIdempotent(c.jsc.syntax, Replace);
    MergeOptionIdempotent(c.jsc.transform, MergeTransform);
    MergeOptionIdempotent(c.minify, MergeFlag);
    MergeTargetLaws(c.jsc.target, c.jsc.target, c.jsc.target);
  }

  /** The default configuration is a two-sided identity: a missing layer changes nothing. */
  lemma DefaultIsIdentity(c: Config)
    ensures MergeConfig(DefaultConfig, c) == c
    ensures MergeConfig(c, DefaultConfig) == c
  {
    MergeTargetLaws(c.jsc.target, c.jsc.target, c.jsc.target);
  }

  /** Merging three layers does not depend on grouping, so a chain of layers has one meaning. */
  lemma MergeAssociative(a: Config, b: Config, c: Config)
    ensures MergeConfig(MergeConfig(a, b), c) == MergeConfig(a, MergeConfig(b, c))
  {
    forall x: OptimizerConfig, y: OptimizerConfig, z: OptimizerConfig
      ensures MergeOptimizer(MergeOptimizer(x, y), z) == MergeOptimizer(x, MergeOptimizer(y, z))
    {
      MergeOptionAssociative(x.globals, y.globals, z.globals, Replace);
    }
    forall x: TransformConfig, y: TransformConfig, z: TransformConfig
      ensures MergeTransform(MergeTransform(x, y), z) == MergeTransform(x, MergeTransform(y, z))
    {
      MergeOptionAssociative(x.constModules, y.constModules, z.constModules, Replace);
      MergeOptionAssociative(x.optimizer, y.optimizer, z.optimizer, MergeOptimizer);
    }
    MergeOptionAssociative(a.jsc.syntax, b.jsc.syntax, c.jsc.syntax, Replace);
    MergeOptionAssociative(a.jsc.transform, b.jsc.transform, c.jsc.transform, MergeTransform);
    MergeOptionAssociative(a.minify, b.minify, c.minify, MergeFlag);
    MergeTargetLaws(a.jsc.target, b.jsc.target, c.jsc.target);
  }

  /** Merge is order-sensitive: two layers naming different module formats disagree. */
  lemma MergeNotCommutative()
    ensures exists a: Config, b: Config :: MergeConfig(a, b) != MergeConfig(b, a)
  {
    var a := Config(DefaultJsc, Some(CommonJs(CommonJsConfig(false))), None);
    var b := Config(DefaultJsc, Some(Amd(CommonJsConfig(false))), None);
    assert MergeConfig(a, b).moduleConfig != MergeConfig(b, a).moduleConfig;
  }

  /** A present `minify` cannot be switched off by a later layer: OR applies inside the option. */
  lemma MinifyCannotBeDisabled(base: Config, from: Config)
    requires base.minify == Some(true) && from.minify == Some(false)
    ensures MergeConfig(base, from).minify == Some(true)
  {
  }
}
