/** `Options::build` pass assembly and `ModuleConfig::build` of native/src/config.rs: which
    passes the effective configuration includes and in what order. A pass that `Optional`
    switches off is left out of the list. */
module Pipeline {
  import opened Wrappers
  import opened Targets
  import opened Configs
  import opened Globals
  import opened PassOrder

  /** The downlevel milestones, newest first: es2018, es2017, es2016, es2015, es3. */
  const CompatMilestones: seq<JscTarget> := [Es2018, Es2017, Es2016, Es2015, Es3]

  /** Strictly newest first. */
  ghost predicate NewestFirst(ms: seq<JscTarget>) {
    forall i, j :: 0 <= i < j < |ms| ==> Rank(ms[j]) < Rank(ms[i])
  }

  /** Walk the milestones and keep each one the target is at or below. */
  function CompatPasses(target: JscTarget, ms: seq<JscTarget>): (r: seq<PassTag>)
    ensures |r| <= |ms|
    ensures forall i :: 0 <= i < |r| ==> r[i].Compat? && r[i].milestone in ms && AtMost(target, r[i].milestone)
    decreases |ms|
  {
    if |ms| == 0 then []
    else
      var rest := CompatPasses(target, ms[1..]);
      if AtMost(target, ms[0]) then [Compat(ms[0])] + rest else rest
  }

  /** The downlevel passes are exactly those of the milestones the target does not exceed. */
  lemma {:induction false} CompatPassesMembers(target: JscTarget, ms: seq<JscTarget>)
    ensures forall p :: p in CompatPasses(target, ms) <==> p.Compat? && p.milestone in ms && AtMost(target, p.milestone)
    decreases |ms|
  {
    if |ms| > 0 {
      CompatPassesMembers(target, ms[1..]);
      forall p ensures p in CompatPasses(target, ms) <==> p.Compat? && p.milestone in ms && AtMost(target, p.milestone) {
        assert p.Compat? && p.milestone in ms ==> p.milestone == ms[0] || p.milestone in ms[1..];
        assert ms == [ms[0]] + ms[1..];
      }
    }
  }

  /** Walking the milestones newest first yields the downlevel passes in canonical order. */
  lemma {:induction false} CompatPassesRun(target: JscTarget, ms: seq<JscTarget>, lo: nat)
    requires NewestFirst(ms)
    requires forall m :: m in ms ==> lo <= Stage(Compat(m))
    ensures Run(CompatPasses(target, ms), lo, 16)
    decreases |ms|
  {
    if |ms| > 0 {
      var tail := ms[1..];
      assert NewestFirst(tail) by {
        forall i, j | 0 <= i < j < |tail| ensures Rank(tail[j]) < Rank(tail[i]) {
          assert tail[i] == ms[i + 1] && tail[j] == ms[j + 1];
        }
      }
      if AtMost(target, ms[0]) {
        forall m | m in tail ensures Stage(Compat(ms[0])) + 1 <= Stage(Compat(m)) {
          var k :| 0 <= k < |tail| && tail[k] == m;
          assert ms[k + 1] == m;
        }
        CompatPassesRun(target, tail, Stage(Compat(ms[0])) + 1);
        assert CompatPasses(target, ms) == [Compat(ms[0])] + CompatPasses(target, tail);
        assert CompatPasses(target, ms)[1..] == CompatPasses(target, tail);
      } else {
        CompatPassesRun(target, tail, lo);
        assert CompatPasses(target, ms) == CompatPasses(target, tail);
      }
    }
  }

  /** The source's five milestones run newest first, so their passes sit in canonical order. */
  lemma CompatMilestonesRun(target: JscTarget)
    ensures Run(CompatPasses(target, CompatMilestones), 9, 16)
  {
    assert NewestFirst(CompatMilestones);
    assert forall m :: m in CompatMilestones ==> 9 <= Stage(Compat(m));
    CompatPassesRun(target, CompatMilestones, 9);
  }

  /** `ModuleConfig::build`: one wrapping pass per module format, a no-op without one. */
  function ModulePass(m: Option<ModuleConfig>): (p: PassTag)
    ensures p.IsModulePass() && Stage(p) == 18
    ensures p.ModuleNoop? <==> m.None?
  {
    match m
    case None => ModuleNoop
    case Some(CommonJs(c)) => CommonJsModule(c)
    case Some(Umd(c)) => UmdModule(c)
    case Some(Amd(c)) => AmdModule(c)
  }

  /** The module format a wrapping pass implements. */
  function FormatOf(p: PassTag): Option<ModuleConfig>
    requires p.IsModulePass()
  {
    match p
    case CommonJsModule(c) => Some(CommonJs(c))
    case UmdModule(c) => Some(Umd(c))
    case AmdModule(c) => Some(Amd(c))
    case _ => None
  }

  /** The selected wrapping pass implements exactly the configured format with its settings. */
  lemma ModulePassRoundTrip(m: Option<ModuleConfig>)
    ensures FormatOf(ModulePass(m)) == m
  {
  }

  /** Interop analysis is wanted when a format is configured and does not suppress interop. */
  function NeedsInteropAnalysis(m: Option<ModuleConfig>): (r: bool)
    ensures r <==> m.Some? && !m.value.config.noInterop
  {
    match m
    case Some(CommonJs(c)) => !c.noInterop
    case Some(Amd(c)) => !c.noInterop
    case Some(Umd(c)) => !c.noInterop
    case None => false
  }

  /** The parser syntax of the effective configuration, defaulted. */
  function SyntaxOf(cfg: Config): Syntax {
    cfg.jsc.syntax.GetOr(DefaultSyntax)
  }

  /** The transform settings of the effective configuration, defaulted. */
  function TransformOf(cfg: Config): TransformConfig {
    cfg.jsc.transform.GetOr(DefaultTransform)
  }

  /** The global-inlining options the builder uses: the optimizer's `globals`, or the derived
      default when the optimizer or its `globals` is absent. */
  function GlobalsOptionOf(cfg: Config): (g: GlobalPassOption)
    ensures TransformOf(cfg).optimizer.Some? && TransformOf(cfg).optimizer.value.globals.Some? ==>
      g == TransformOf(cfg).optimizer.value.globals.value
    ensures TransformOf(cfg).optimizer.None? || TransformOf(cfg).optimizer.value.globals.None? ==>
      g.vars == map[] && g.envs == {}
  {
    match TransformOf(cfg).optimizer
    case Some(o) => o.globals.GetOr(DefaultGlobalPassOption)
    case None => DefaultGlobalPassOption
  }

  /** JSX transform, then TypeScript stripping. */
  function SyntaxPasses(syntax: Syntax, react: ReactOptions): seq<PassTag> {
    Opt(syntax.jsx, React(react)) + Opt(syntax.typescript, StripTypeScript)
  }

  lemma SyntaxRun(syntax: Syntax, react: ReactOptions)
    ensures Run(SyntaxPasses(syntax, react), 0, 2)
  {
    OptRun(syntax.jsx, React(react), 0, 1);
    OptRun(syntax.typescript, StripTypeScript, 1, 2);
    RunAppend(Opt(syntax.jsx, React(react)), Opt(syntax.typescript, StripTypeScript), 0, 1, 2);
  }

  /** Scope resolution, then constant-module substitution, then global inlining. */
  function ResolutionPasses(transform: TransformConfig, globals: InlineTexts): seq<PassTag> {
    [Resolver] + (ConstModulesPass(transform) + [InlineGlobals(globals)])
  }

  /** Constant-module substitution, present when the transform configures constant modules. */
  function ConstModulesPass(transform: TransformConfig): seq<PassTag> {
    Opt(transform.constModules.Some?, ConstModules(transform.constModules.GetOr(DefaultConstModules).globals))
  }

  lemma ResolutionRun(transform: TransformConfig, globals: InlineTexts)
    ensures Run(ResolutionPasses(transform, globals), 2, 5)
  {
    var constModules := ConstModulesPass(transform);
    assert Run([Resolver], 2, 3) by { assert [Resolver][1..] == []; }
    OptRun(transform.constModules.Some?, ConstModules(transform.constModules.GetOr(DefaultConstModules).globals), 3, 4);
    assert Run([InlineGlobals(globals)], 4, 5) by { assert [InlineGlobals(globals)][1..] == []; }
    RunAppend(constModules, [InlineGlobals(globals)], 3, 4, 5);
    RunAppend([Resolver], constModules + [InlineGlobals(globals)], 2, 3, 5);
  }

  /** Decorators, class properties, export extensions, then the simplifier. */
  function ProposalPasses(syntax: Syntax, optimize: bool): seq<PassTag> {
    (Opt(syntax.decorators, Decorators) + Opt(syntax.classProps, ClassProperties)) +
      (Opt(syntax.exportDefaultFrom || syntax.exportNamespaceFrom, ExportExtensions) + Opt(optimize, Simplifier))
  }

  lemma ProposalRun(syntax: Syntax, optimize: bool)
    ensures Run(ProposalPasses(syntax, optimize), 5, 9)
  {
    var exports := syntax.exportDefaultFrom || syntax.exportNamespaceFrom;
    OptRun(syntax.decorators, Decorators, 5, 6);
    OptRun(syntax.classProps, ClassProperties, 6, 7);
    OptRun(exports, ExportExtensions, 7, 8);
    OptRun(optimize, Simplifier, 8, 9);
    RunAppend(Opt(syntax.decorators, Decorators), Opt(syntax.classProps, ClassProperties), 5, 6, 7);
    RunAppend(Opt(exports, ExportExtensions), Opt(optimize, Simplifier), 7, 8, 9);
    RunAppend(Opt(syntax.decorators, Decorators) + Opt(syntax.classProps, ClassProperties),
      Opt(exports, ExportExtensions) + Opt(optimize, Simplifier), 5, 7, 9);
  }

  /** The passes before downleveling: syntax stripping, scope resolution, substitutions and
      the proposal transforms. */
  function FrontPasses(cfg: Config, globals: InlineTexts): seq<PassTag> {
    SyntaxPasses(SyntaxOf(cfg), TransformOf(cfg).react) +
      (ResolutionPasses(TransformOf(cfg), globals) + ProposalPasses(SyntaxOf(cfg), TransformOf(cfg).optimizer.Some?))
  }

  lemma FrontRun(cfg: Config, globals: InlineTexts)
    ensures Run(FrontPasses(cfg, globals), 0, 9)
  {
    var stripped := SyntaxPasses(SyntaxOf(cfg), TransformOf(cfg).react);
    var resolved := ResolutionPasses(TransformOf(cfg), globals);
    var proposals := ProposalPasses(SyntaxOf(cfg), TransformOf(cfg).optimizer.Some?);
    SyntaxRun(SyntaxOf(cfg), TransformOf(cfg).react);
    ResolutionRun(TransformOf(cfg), globals);
    ProposalRun(SyntaxOf(cfg), TransformOf(cfg).optimizer.Some?);
    RunAppend(resolved, proposals, 2, 5, 9);
    RunAppend(stripped, resolved + proposals, 0, 2, 9);
  }

  /** The four passes that close every pipeline. */
  function ClosingPasses(m: Option<ModuleConfig>): seq<PassTag> {
    [InjectHelpers, ModulePass(m), Hygiene, Fixer]
  }

  lemma ClosingRun(m: Option<ModuleConfig>)
    ensures Run(ClosingPasses(m), 17, 21)
  {
    var ps := ClosingPasses(m);
    assert Run(ps[3..], 20, 21);
    assert Run(ps[2..], 19, 21) by { assert ps[2..][1..] == ps[3..]; }
    assert Run(ps[1..], 18, 21) by { assert ps[1..][1..] == ps[2..]; }
    assert ps[0..][1..] == ps[1..];
  }

  /** Everything before the closing passes: the front passes, downleveling newest first,
      and the interop analysis. */
  function OpeningPasses(cfg: Config, globals: InlineTexts): seq<PassTag> {
    FrontPasses(cfg, globals) +
      (CompatPasses(cfg.jsc.target, CompatMilestones) + Opt(NeedsInteropAnalysis(cfg.moduleConfig), ImportAnalyzer))
  }

  /** The opening passes run in canonical order within stages 0 to 16. */
  lemma OpeningRun(cfg: Config, globals: InlineTexts)
    ensures Run(OpeningPasses(cfg, globals), 0, 17)
  {
    var front := FrontPasses(cfg, globals);
    var compat := CompatPasses(cfg.jsc.target, CompatMilestones);
    var interop := Opt(NeedsInteropAnalysis(cfg.moduleConfig), ImportAnalyzer);
    FrontRun(cfg, globals);
    CompatMilestonesRun(cfg.jsc.target);
    OptRun(NeedsInteropAnalysis(cfg.moduleConfig), ImportAnalyzer, 16, 17);
    RunAppend(compat, interop, 9, 16, 17);
    RunAppend(front, compat + interop, 0, 9, 17);
  }

  /** The pass chain of `Options::build` for the effective configuration `cfg`, with the
      parsed global substitutions `globals`. */
  function PassList(cfg: Config, globals: InlineTexts): seq<PassTag> {
    OpeningPasses(cfg, globals) + ClosingPasses(cfg.moduleConfig)
  }

  /** Every pass list runs in canonical order over all stages. */
  lemma PassListRun(cfg: Config, globals: InlineTexts)
    ensures Run(PassList(cfg, globals), 0, 21)
  {
    OpeningRun(cfg, globals);
    ClosingRun(cfg.moduleConfig);
    RunAppend(OpeningPasses(cfg, globals), ClosingPasses(cfg.moduleConfig), 0, 17, 21);
  }
}
