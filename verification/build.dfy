/** `Options::build` of native/src/config.rs: the effective configuration, the built pass
    list and the pipeline flags. */
module Builder {
  import opened Wrappers
  import opened Configs
  import opened Merging
  import opened Globals
  import opened PassOrder
  import opened Pipeline
  import opened PipelineLaws

  /** `sourceMaps`: off when absent, the flag when a flag, and on for any path. */
  function SourceMapsEnabled(s: Option<SourceMapsConfig>): (on: bool)
    ensures s.None? ==> !on
    ensures s.Some? && s.value.Bool? ==> on == s.value.enabled
    ensures s.Some? && s.value.Str? ==> on
  {
    match s
    case None => false
    case Some(Bool(v)) => v
    case Some(Str(_)) => true
  }

  /** The configuration a build uses: the file configuration (or the default) with the
      invocation's embedded fragment merged over it. */
  function EffectiveConfig(opts: Options, file: Option<Config>): (cfg: Config)
    ensures opts.config.None? ==> cfg == file.GetOr(DefaultConfig)
    ensures file.None? ==> cfg == opts.config.GetOr(DefaultConfig)
    ensures opts.config.Some? ==> cfg == MergeConfig(file.GetOr(DefaultConfig), opts.config.value)
    ensures opts.config.Some? && opts.config.value.moduleConfig.Some? ==>
      cfg.moduleConfig == opts.config.value.moduleConfig
  {
    var base := file.GetOr(DefaultConfig);
    match opts.config
    case None => base
    case Some(c) =>
      DefaultIsIdentity(c);
      MergeConfig(base, c)
  }

  /** The terminal artifact: the pass list, the parser syntax and the pipeline flags. */
  datatype BuiltConfig = BuiltConfig(
    passes: seq<PassTag>,
    syntax: Syntax,
    minify: bool,
    externalHelpers: bool,
    sourceMaps: bool)

  /** The global substitutions the effective configuration asks for, quoted (with the
      corrected quoting) and parsed. */
  function ParsedGlobals(cfg: Config, env: map<string, string>, accepts: string -> bool)
    : Result<InlineTexts, ConfigError>
  {
    ParseGlobals(InlineTextsCorrected(GlobalsOptionOf(cfg), env), accepts)
  }

  /** When every environment value the build inlines is plain, the corrected quoting parses
      exactly what the source's quoting parses, so the build succeeds or fails as the source's. */
  lemma ParsedGlobalsAgreeOnPlainEnv(cfg: Config, env: map<string, string>, accepts: string -> bool)
    requires forall k :: k in env && k in GlobalsOptionOf(cfg).envs ==> Plain(env[k])
    ensures ParsedGlobals(cfg, env, accepts) == ParseGlobals(InlineTextsOf(GlobalsOptionOf(cfg), env), accepts)
  {
    CorrectedAgreesOnPlainEnv(GlobalsOptionOf(cfg), env);
  }

  /** `Options::build` for the file configuration `file`, the process environment `env` and a
      parser that reads `accepts`-ed texts as one expression. A global text the parser rejects
      aborts the build. */
  function Build(opts: Options, file: Option<Config>, env: map<string, string>, accepts: string -> bool)
    : (r: Result<BuiltConfig, ConfigError>)
    ensures r.Failure? <==> ParsedGlobals(EffectiveConfig(opts, file), env, accepts).Failure?
    // a failed build reports the parse step's error: every rejected name with its text
    ensures r.Failure? ==> r.error == ParsedGlobals(EffectiveConfig(opts, file), env, accepts).error
    // minification and helper imports are on when either layer turns them on
    ensures r.Success? ==> (r.value.minify <==>
      (file.Some? && file.value.minify == Some(true)) || (opts.config.Some? && opts.config.value.minify == Some(true)))
    ensures r.Success? ==> (r.value.externalHelpers <==>
      (file.Some? && file.value.jsc.externalHelpers) || (opts.config.Some? && opts.config.value.jsc.externalHelpers))
    // the invocation's parser syntax wins over the file's, and the default fills in
    ensures r.Success? && opts.config.Some? && opts.config.value.jsc.syntax.Some? ==>
      r.value.syntax == opts.config.value.jsc.syntax.value
    ensures r.Success? && (opts.config.None? || opts.config.value.jsc.syntax.None?) && file.Some? && file.value.jsc.syntax.Some? ==>
      r.value.syntax == file.value.jsc.syntax.value
    ensures r.Success? && (opts.config.None? || opts.config.value.jsc.syntax.None?) && (file.None? || file.value.jsc.syntax.None?) ==>
      r.value.syntax == DefaultSyntax
    // source maps: on for a path, the flag for a flag, off when absent
    ensures r.Success? ==> (r.value.sourceMaps <==>
      opts.sourceMaps.Some? && (opts.sourceMaps.value.Str? || opts.sourceMaps.value.enabled))
  {
    var cfg := EffectiveConfig(opts, file);
    match ParsedGlobals(cfg, env, accepts)
    case Failure(e) => Failure(e)
    case Success(globals) =>
      Success(BuiltConfig(
        PassList(cfg, globals),
        SyntaxOf(cfg),
        cfg.minify.GetOr(false),
        cfg.jsc.externalHelpers,
        SourceMapsEnabled(opts.sourceMaps)))
  }

  /** A successful build orders its passes canonically and ends with `hygiene` then `fixer`. */
  lemma BuildShape(opts: Options, file: Option<Config>, env: map<string, string>, accepts: string -> bool)
    requires Build(opts, file, env, accepts).Success?
    ensures var ps := Build(opts, file, env, accepts).value.passes;
      && |ps| >= 6 && Ordered(ps)
      && ps[|ps| - 1] == Fixer && ps[|ps| - 2] == Hygiene
  {
    var cfg := EffectiveConfig(opts, file);
    var globals := ParsedGlobals(cfg, env, accepts).value;
    PipelineOrdered(cfg, globals);
    PipelineEnds(cfg, globals);
  }

  /** Without an optimizer (or without its `globals`) nothing is inlined, so the build cannot
      fail on a global, whatever the environment and the parser. */
  lemma BuildWithoutGlobalsSucceeds(opts: Options, file: Option<Config>, env: map<string, string>, accepts: string -> bool)
    requires GlobalsOptionOf(EffectiveConfig(opts, file)) == DefaultGlobalPassOption
    ensures Build(opts, file, env, accepts).Success?
  {
    DerivedDefaultInlinesNothing(env);
  }

  /** A successful build holds exactly the passes the effective configuration selects. */
  lemma BuildSelects(opts: Options, file: Option<Config>, env: map<string, string>, accepts: string -> bool, q: PassTag)
    requires Build(opts, file, env, accepts).Success?
    ensures q in Build(opts, file, env, accepts).value.passes <==>
      Selected(EffectiveConfig(opts, file), ParsedGlobals(EffectiveConfig(opts, file), env, accepts).value, q)
  {
    var cfg := EffectiveConfig(opts, file);
    PassListSelects(cfg, ParsedGlobals(cfg, env, accepts).value, q);
  }
}
