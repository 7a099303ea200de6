/** Properties of the pass list: fixed shape and order, and exactly when each conditional
    pass is included. */
module PipelineLaws {
  import opened Wrappers
  import opened Targets
  import opened Configs
  import opened Globals
  import opened PassOrder
  import opened Pipeline

  /** Whatever the configuration, the passes are in canonical order: every stage at most once,
      and each pass after every pass of an earlier stage. */
  lemma PipelineOrdered(cfg: Config, globals: InlineTexts)
    ensures Ordered(PassList(cfg, globals))
  {
    PassListRun(cfg, globals);
    RunIsOrdered(PassList(cfg, globals), 0, 21);
  }

  /** Any passes followed by the closing passes end with them. */
  lemma EndsWithClosing(opening: seq<PassTag>, m: Option<ModuleConfig>)
    ensures var ps := opening + ClosingPasses(m);
      && |ps| >= 4
      && ps[|ps| - 1] == Fixer && ps[|ps| - 2] == Hygiene
      && ps[|ps| - 3] == ModulePass(m) && ps[|ps| - 4] == InjectHelpers
      && forall p :: p in opening ==> p in ps
  {
  }

  /** Whatever the configuration, `fixer` is last, `hygiene` immediately precedes it, the module
      pass and helper injection come just before. */
  lemma PipelineEnds(cfg: Config, globals: InlineTexts)
    ensures |PassList(cfg, globals)| >= 6
    ensures PassList(cfg, globals)[|PassList(cfg, globals)| - 1] == Fixer
    ensures PassList(cfg, globals)[|PassList(cfg, globals)| - 2] == Hygiene
    ensures PassList(cfg, globals)[|PassList(cfg, globals)| - 3] == ModulePass(cfg.moduleConfig)
    ensures PassList(cfg, globals)[|PassList(cfg, globals)| - 4] == InjectHelpers
  {
    EndsWithClosing(OpeningPasses(cfg, globals), cfg.moduleConfig);
  }

  /** Which passes `Options::build` selects, pass by pass: the reference the assembled list is
      checked against. */
  ghost predicate Selected(cfg: Config, globals: InlineTexts, q: PassTag) {
    var syntax := SyntaxOf(cfg);
    var transform := TransformOf(cfg);
    match q
    case React(r) => syntax.jsx && r == transform.react
    case StripTypeScript => syntax.typescript
    case Resolver => true
    case ConstModules(g) => transform.constModules.Some? && g == transform.constModules.value.globals
    case InlineGlobals(t) => t == globals
    case Decorators => syntax.decorators
    case ClassProperties => syntax.classProps
    case ExportExtensions => syntax.exportDefaultFrom || syntax.exportNamespaceFrom
    case Simplifier => transform.optimizer.Some?
    case Compat(m) => m != Es5 && m != Es2019 && AtMost(cfg.jsc.target, m)
    case ImportAnalyzer => NeedsInteropAnalysis(cfg.moduleConfig)
    case InjectHelpers => true
    case Hygiene => true
    case Fixer => true
    case _ => q == ModulePass(cfg.moduleConfig)
  }

  lemma SyntaxMembers(syntax: Syntax, react: ReactOptions, q: PassTag)
    ensures q in SyntaxPasses(syntax, react) <==>
      (syntax.jsx && q == React(react)) || (syntax.typescript && q == StripTypeScript)
  {
    OptMembers(syntax.jsx, React(react));
    OptMembers(syntax.typescript, StripTypeScript);
  }

  lemma ResolutionMembers(transform: TransformConfig, globals: InlineTexts, q: PassTag)
    ensures q in ResolutionPasses(transform, globals) <==>
      || q == Resolver
      || (transform.constModules.Some? && q == ConstModules(transform.constModules.value.globals))
      || q == InlineGlobals(globals)
  {
    OptMembers(transform.constModules.Some?, ConstModules(transform.constModules.GetOr(DefaultConstModules).globals));
  }

  lemma ProposalMembers(syntax: Syntax, optimize: bool, q: PassTag)
    ensures q in ProposalPasses(syntax, optimize) <==>
      || (syntax.decorators && q == Decorators)
      || (syntax.classProps && q == ClassProperties)
      || ((syntax.exportDefaultFrom || syntax.exportNamespaceFrom) && q == ExportExtensions)
      || (optimize && q == Simplifier)
  {
    OptMembers(syntax.decorators, Decorators);
    OptMembers(syntax.classProps, ClassProperties);
    OptMembers(syntax.exportDefaultFrom || syntax.exportNamespaceFrom, ExportExtensions);
    OptMembers(optimize, Simplifier);
  }

  /** Every target but es5 and the newest has a downlevel milestone: es5 has no pass of its
      own. */
  lemma MilestonesOfSource(m: JscTarget)
    ensures m in CompatMilestones <==> m != Es5 && m != Es2019
  {
    match m
    case Es3 => assert CompatMilestones[4] == m;
    case Es5 => assert m !in CompatMilestones;
    case Es2015 => assert CompatMilestones[3] == m;
    case Es2016 => assert CompatMilestones[2] == m;
    case Es2017 => assert CompatMilestones[1] == m;
    case Es2018 => assert CompatMilestones[0] == m;
    case Es2019 => assert m !in CompatMilestones;
  }

  /** The closing passes are always the same four. */
  lemma ClosingMembers(m: Option<ModuleConfig>, q: PassTag)
    ensures q in ClosingPasses(m) <==> q == InjectHelpers || q == ModulePass(m) || q == Hygiene || q == Fixer
  {
  }

  /** The assembled list holds what its pieces hold. */
  lemma PassListPieces(cfg: Config, globals: InlineTexts, q: PassTag)
    ensures q in PassList(cfg, globals) <==>
      || q in SyntaxPasses(SyntaxOf(cfg), TransformOf(cfg).react)
      || q in ResolutionPasses(TransformOf(cfg), globals)
      || q in ProposalPasses(SyntaxOf(cfg), TransformOf(cfg).optimizer.Some?)
      || q in CompatPasses(cfg.jsc.target, CompatMilestones)
      || (NeedsInteropAnalysis(cfg.moduleConfig) && q == ImportAnalyzer)
      || q in ClosingPasses(cfg.moduleConfig)
  {
    OptMembers(NeedsInteropAnalysis(cfg.moduleConfig), ImportAnalyzer);
  }

  /** A pass is in the assembled list exactly when the configuration selects it. */
  lemma PassListSelects(cfg: Config, globals: InlineTexts, q: PassTag)
    ensures q in PassList(cfg, globals) <==> Selected(cfg, globals, q)
  {
    PassListPieces(cfg, globals, q);
    SyntaxMembers(SyntaxOf(cfg), TransformOf(cfg).react, q);
    ResolutionMembers(TransformOf(cfg), globals, q);
    ProposalMembers(SyntaxOf(cfg), TransformOf(cfg).optimizer.Some?, q);
    ClosingMembers(cfg.moduleConfig, q);
    CompatPassesMembers(cfg.jsc.target, CompatMilestones);
    PieceSelect(cfg, globals, q);
  }

  /** The pieces' own inclusion rules, taken together: what the assembled list holds, piece by
      piece, before it is regrouped pass by pass as `Selected`. */
  ghost predicate PieceSelected(cfg: Config, globals: InlineTexts, q: PassTag) {
    var syntax := SyntaxOf(cfg);
    var transform := TransformOf(cfg);
    || (syntax.jsx && q == React(transform.react)) || (syntax.typescript && q == StripTypeScript)
    || q == Resolver
    || (transform.constModules.Some? && q == ConstModules(transform.constModules.value.globals))
    || q == InlineGlobals(globals)
    || (syntax.decorators && q == Decorators)
    || (syntax.classProps && q == ClassProperties)
    || ((syntax.exportDefaultFrom || syntax.exportNamespaceFrom) && q == ExportExtensions)
    || (transform.optimizer.Some? && q == Simplifier)
    || (q.Compat? && q.milestone in CompatMilestones && AtMost(cfg.jsc.target, q.milestone))
    || (NeedsInteropAnalysis(cfg.moduleConfig) && q == ImportAnalyzer)
    || q == InjectHelpers || q == ModulePass(cfg.moduleConfig) || q == Hygiene || q == Fixer
  }

  /** Regrouping the pieces' rules pass by pass gives `Selected`. */
  lemma PieceSelect(cfg: Config, globals: InlineTexts, q: PassTag)
    ensures PieceSelected(cfg, globals, q) <==> Selected(cfg, globals, q)
  {
    if q.Compat? {
      MilestonesOfSource(q.milestone);
    }
  }

  /** The downlevel pass for milestone `m` runs exactly when the source lists `m` and the
      target is at or below it. */
  lemma CompatSelected(cfg: Config, globals: InlineTexts, m: JscTarget)
    ensures Compat(m) in PassList(cfg, globals) <==> m in CompatMilestones && AtMost(cfg.jsc.target, m)
  {
    MilestonesOfSource(m);
    PassListSelects(cfg, globals, Compat(m));
  }

  /** Downleveling is cumulative: a pass a newer target needs is needed by every older one. */
  lemma CompatCumulative(cfg: Config, older: Config, globals: InlineTexts, olderGlobals: InlineTexts, m: JscTarget)
    requires AtMost(older.jsc.target, cfg.jsc.target)
    requires Compat(m) in PassList(cfg, globals)
    ensures Compat(m) in PassList(older, olderGlobals)
  {
    CompatSelected(cfg, globals, m);
    CompatSelected(older, olderGlobals, m);
  }

  /** The default target, es3, runs every downlevel pass. */
  lemma Es3DownlevelsFully(cfg: Config, globals: InlineTexts, m: JscTarget)
    requires cfg.jsc.target == Es3 && m in CompatMilestones
    ensures Compat(m) in PassList(cfg, globals)
  {
    CompatSelected(cfg, globals, m);
  }

  /** es5 runs the es2015-and-newer passes but not the es3 pass. */
  lemma Es5SkipsEs3(cfg: Config, globals: InlineTexts)
    requires cfg.jsc.target == Es5
    ensures Compat(Es3) !in PassList(cfg, globals)
    ensures Compat(Es2015) in PassList(cfg, globals) && Compat(Es2018) in PassList(cfg, globals)
  {
    CompatSelected(cfg, globals, Es3);
    CompatSelected(cfg, globals, Es2015);
    CompatSelected(cfg, globals, Es2018);
  }

  /** The newest target needs no downleveling. */
  lemma NewestTargetDownlevelsNothing(cfg: Config, globals: InlineTexts, m: JscTarget)
    requires cfg.jsc.target == Es2019
    ensures Compat(m) !in PassList(cfg, globals)
  {
    CompatSelected(cfg, globals, m);
  }

  /** Without a module format the module pass is a no-op and no interop analysis runs. */
  lemma NoFormatNoInterop(cfg: Config, globals: InlineTexts)
    requires cfg.moduleConfig.None?
    ensures ModuleNoop in PassList(cfg, globals)
    ensures ImportAnalyzer !in PassList(cfg, globals)
  {
    PassListSelects(cfg, globals, ModuleNoop);
    PassListSelects(cfg, globals, ImportAnalyzer);
  }

  /** With a format configured, its pass runs, and interop analysis runs unless `noInterop`. */
  lemma FormatSelectsInterop(cfg: Config, globals: InlineTexts)
    requires cfg.moduleConfig.Some?
    ensures FormatOf(ModulePass(cfg.moduleConfig)) == cfg.moduleConfig && ModulePass(cfg.moduleConfig) in PassList(cfg, globals)
    ensures ImportAnalyzer in PassList(cfg, globals) <==> !cfg.moduleConfig.value.config.noInterop
  {
    ModulePassRoundTrip(cfg.moduleConfig);
    PassListSelects(cfg, globals, ModulePass(cfg.moduleConfig));
    PassListSelects(cfg, globals, ImportAnalyzer);
  }

  /** The resolver and the global-inlining pass run whatever the configuration. */
  lemma AlwaysSelected(cfg: Config, globals: InlineTexts)
    ensures Resolver in PassList(cfg, globals) && InlineGlobals(globals) in PassList(cfg, globals)
  {
    PassListSelects(cfg, globals, Resolver);
    PassListSelects(cfg, globals, InlineGlobals(globals));
  }

  /** The syntax transforms run exactly when the parser syntax enables them. */
  lemma SyntaxSelectsPasses(cfg: Config, globals: InlineTexts)
    ensures StripTypeScript in PassList(cfg, globals) <==> SyntaxOf(cfg).typescript
    ensures React(TransformOf(cfg).react) in PassList(cfg, globals) <==> SyntaxOf(cfg).jsx
  {
    PassListSelects(cfg, globals, StripTypeScript);
    PassListSelects(cfg, globals, React(TransformOf(cfg).react));
  }

  /** The proposal transforms run exactly when the parser syntax enables them, and the
      simplifier exactly when an optimizer is configured. */
  lemma ProposalsSelectPasses(cfg: Config, globals: InlineTexts)
    ensures Decorators in PassList(cfg, globals) <==> SyntaxOf(cfg).decorators
    ensures ClassProperties in PassList(cfg, globals) <==> SyntaxOf(cfg).classProps
    ensures ExportExtensions in PassList(cfg, globals) <==>
      SyntaxOf(cfg).exportDefaultFrom || SyntaxOf(cfg).exportNamespaceFrom
    ensures Simplifier in PassList(cfg, globals) <==> TransformOf(cfg).optimizer.Some?
  {
    PassListSelects(cfg, globals, Decorators);
    PassListSelects(cfg, globals, ClassProperties);
    PassListSelects(cfg, globals, ExportExtensions);
    PassListSelects(cfg, globals, Simplifier);
  }

  /** Constant-module substitution runs exactly when constant modules are configured, with
      their globals. */
  lemma ConstModulesSelected(cfg: Config, globals: InlineTexts)
    requires TransformOf(cfg).constModules.Some?
    ensures ConstModules(TransformOf(cfg).constModules.value.globals) in PassList(cfg, globals)
  {
    PassListSelects(cfg, globals, ConstModules(TransformOf(cfg).constModules.value.globals));
  }

  /** Without constant modules no substitution pass runs. */
  lemma NoConstModules(cfg: Config, globals: InlineTexts, g: map<string, map<string, string>>)
    requires TransformOf(cfg).constModules.None?
    ensures ConstModules(g) !in PassList(cfg, globals)
  {
    PassListSelects(cfg, globals, ConstModules(g));
  }
}
