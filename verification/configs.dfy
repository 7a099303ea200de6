/** The configuration records of native/src/config.rs: the layered `Config` fragment, the
    invocation `Options` fields the pipeline builder reads, and their `Default` values. */
module Configs {
  import opened Wrappers
  import opened Targets

  /** The parser features `Options::build` asks the parser crate's `Syntax` about. The crate's
      own ECMAScript/TypeScript variants are not part of this model; only these answers are. */
  datatype Syntax = Syntax(
    typescript: bool,
    jsx: bool,
    decorators: bool,
    classProps: bool,
    exportDefaultFrom: bool,
    exportNamespaceFrom: bool)

  /** The default syntax: plain ECMAScript with no proposal enabled. */
  const DefaultSyntax: Syntax := Syntax(false, false, false, false, false, false)

  /** JSX transform options. Never inspected by this core: carried to the JSX pass and
      replaced wholesale on merge. */
  datatype ReactOptions = ReactOptions(settings: map<string, string>)

  const DefaultReact: ReactOptions := ReactOptions(map[])

  /** Constant-module substitution: module name to export name to literal text. */
  datatype ConstModulesConfig = ConstModulesConfig(globals: map<string, map<string, string>>)

  const DefaultConstModules: ConstModulesConfig := ConstModulesConfig(map[])

  /** Global inlining: identifier to literal text, and the environment variable names whose
      values are inlined as string literals. */
  datatype GlobalPassOption = GlobalPassOption(vars: map<string, string>, envs: set<string>)

  /** `default_envs`: the names a `globals` object gets when it omits `envs`. */
  const DefaultEnvs: set<string> := {"NODE_ENV", "SWC_ENV"}

  /** The derived `Default` of `GlobalPassOption`: no variables and NO environment names
      (the serde default above applies only to a `globals` object read from a document). */
  const DefaultGlobalPassOption: GlobalPassOption := GlobalPassOption(map[], {})

  datatype OptimizerConfig = OptimizerConfig(globals: Option<GlobalPassOption>)

  datatype TransformConfig = TransformConfig(
    react: ReactOptions,
    constModules: Option<ConstModulesConfig>,
    optimizer: Option<OptimizerConfig>)

  const DefaultTransform: TransformConfig := TransformConfig(DefaultReact, None, None)

  /** The common-js settings; the AMD and UMD settings wrap one of these. Only the interop
      flag is read by this core. */
  datatype CommonJsConfig = CommonJsConfig(noInterop: bool)

  /** The module output format, each carrying its settings. */
  datatype ModuleConfig =
    | CommonJs(config: CommonJsConfig)
    | Umd(config: CommonJsConfig)
    | Amd(config: CommonJsConfig)

  datatype JscConfig = JscConfig(
    syntax: Option<Syntax>,
    transform: Option<TransformConfig>,
    externalHelpers: bool,
    target: JscTarget)

  const DefaultJsc: JscConfig := JscConfig(None, None, false, DefaultTarget())

  /** One configuration layer (a `.swcrc` file or the fragment embedded in the invocation). */
  datatype Config = Config(jsc: JscConfig, moduleConfig: Option<ModuleConfig>, minify: Option<bool>)

  const DefaultConfig: Config := Config(DefaultJsc, None, None)

  /** `sourceMaps`: a flag or a path. */
  datatype SourceMapsConfig = Bool(enabled: bool) | Str(path: string)

  /** The invocation options read by `Options::build`: the embedded configuration fragment
      and the source-map policy. */
  datatype Options = Options(config: Option<Config>, sourceMaps: Option<SourceMapsConfig>)
}
