# Configuration core of the node-swc native binding, in Dafny

This project models the configuration layer of the node-swc native module
(`native/src/config.rs`). That layer turns layered configuration into a
compiler pipeline:

- a `.swcrc` file configuration and the fragment embedded in the invocation options are
  combined by the `Merge` trait, with one policy per field type;
- `Options::build` reads the effective configuration and decides which transformation
  passes run and in what order: the JSX transform, TypeScript stripping, the resolver,
  constant-module substitution, global inlining, proposal transforms, the simplifier, the
  downlevel (compat) passes, interop analysis, helper injection, the module-format pass,
  hygiene and the fixer;
- `GlobalPassOption::build` picks the environment variables named by `envs`, quotes their
  values as string literals and parses every global text as an expression;
- `ModuleConfig::build` selects the module-format pass;
- `default_env_name` chooses the environment name.

The model follows the Rust source. The one exception is the quoting of environment values inside
the build, which uses the corrected quoting described under "## Findings".

- Each in-place `merge` becomes a function that returns the updated base.
- A pass becomes a tag (`PassOrder.PassTag`). A pass that `Optional` switches off is left out
  of the list.
- The process environment is an explicit map.
- The parser is an explicit predicate `accepts` on texts. A panic on a text it rejects becomes
  a `Failure` listing the offending entries.

Modules:

- `Wrappers` holds `Option` and `Result`.
- `Targets` holds `JscTarget`, its derived order and the target merge.
- `Configs` holds the configuration records and their defaults.
- `Merging` holds the `Merge` impls and the merge laws.
- `Globals` holds the default environment name, string-literal quoting and its decoder,
  environment filtering and the parse step.
- `PassOrder` holds the pass tags and their canonical stages.
- `Pipeline` assembles the pass list.
- `PipelineLaws` states the order of the pass list and exactly which passes it holds.
- `Builder` holds the effective configuration and `Options::build`.

The central results are these:

- The pass list is always in canonical order and ends with the module pass, `hygiene` and
  `fixer`.
- A pass is in the list exactly when an independent, pass-by-pass selection predicate
  (`PipelineLaws.Selected`) says the configuration selects it.
- Downleveling is cumulative in the target.
- Merging has the default configuration as a two-sided identity. It is associative and
  idempotent, but not commutative.
- The corrected quoting of environment values round-trips through a decoder of single-quoted
  string literals as section 12.8.4 of ECMA-262 (2021 edition) defines them. Under that
  grammar, as since the 2019 edition, U+2028 and U+2029 may stand unescaped; LF and CR may not.

Some behaviours of the code are easy to misread, and the model follows the code in each:

- With no optimizer, or an optimizer without `globals`, the derived `Default` of
  `GlobalPassOption` applies. That default has an EMPTY `envs` set. The `NODE_ENV`/`SWC_ENV`
  default applies only to a `globals` object read from a document (`default_envs`). So
  without `globals` no environment variable is inlined
  (`Globals.DerivedDefaultInlinesNothing`).
- The parsed global uses the LAST module item (`module.body.pop()`). Nothing checks that
  there is exactly one statement. That choice is part of the parser predicate here.
- Source maps given as a path are simply "on" (`SourceMapsConfig::Str(_) => true`).
- es5 has no downlevel pass of its own. Target es5 runs the es2015–es2018 passes and not the
  es3 pass.

## Model

| member | source | states |
|---|---|---|
| Targets.Rank | native/src/config.rs:273-289 | the derived order follows declaration order: es3 is the unique least target and es2019 the unique greatest |
| Targets.DefaultTarget | native/src/config.rs:291-295 | the default target es3 is at or below every target |
| Targets.MergeTarget | native/src/config.rs:471-477 | the merged target is one of the two inputs and at or above both (least upper bound) |
| Targets.MergeTargetLaws | native/src/config.rs:471-477 | target merge is idempotent, commutative and associative, with the default target as two-sided identity |
| Merging.MergeOption | native/src/config.rs:438-452 | an absent override leaves the base; an absent base takes the override; both present merge by the inner policy; absent only when both are |
| Merging.MergeOptionIdempotent | native/src/config.rs:438-452 | optional merge with itself is the identity when the inner policy is |
| Merging.MergeOptionAssociative | native/src/config.rs:438-452 | optional merge is associative when the inner policy is |
| Merging.ReplaceLaws | native/src/config.rs:494-498 | replacement (the policy of `Syntax`, and of `GlobalPassOption`, `react::Options` and `ConstModulesConfig` at lines 514-530) is idempotent and keeps only the last layer, however grouped |
| Merging.MergeFlagLaws | native/src/config.rs:488-492 | flag merge is an OR: idempotent, commutative, associative, `false` is the identity, a set flag is never cleared, and the result is off only when both are |
| Merging.MergeModule | native/src/config.rs:479-486 | module format: a present override replaces, an absent one keeps the base |
| Merging.MergeOptimizer | native/src/config.rs:508-518 | optimizer `globals`: a present override replaces the base's wholesale |
| Merging.MergeTransform | native/src/config.rs:500-512 | react options are always the override's; const modules are last-writer-wins; a one-sided optimizer is kept or copied, and two optimizers are merged by the optimizer merge |
| Merging.MergeJsc | native/src/config.rs:462-469 | syntax last-writer-wins; transform kept or copied when a side is absent and merged by the transform merge when both are present; external helpers OR; target the maximum |
| Merging.MergeConfig | native/src/config.rs:454-469 | module and syntax last-writer-wins; a one-sided `transform` is kept or copied and two are merged field by field by the transform merge; external helpers and `minify` sticky; target is one input and at or above both |
| Merging.MergeIdempotent | native/src/config.rs:454-530 | merging a configuration into itself leaves it unchanged |
| Merging.DefaultIsIdentity | native/src/config.rs:454-530 | the default configuration is a left and right identity of merge |
| Merging.MergeAssociative | native/src/config.rs:454-530 | merging three layers does not depend on grouping |
| Merging.MergeNotCommutative | native/src/config.rs:479-486 | some two configurations merge differently in the two orders |
| Merging.MinifyCannotBeDisabled | native/src/config.rs:488-492 | `minify: true` in the base survives an override of `minify: false` |
| Globals.DefaultEnvName | native/src/config.rs:421-431 | `SWC_ENV` if set, else `NODE_ENV` if set, else "development" |
| Globals.QuoteAsWritten | native/src/config.rs:373-374 | the source's quoting is the value itself between two single quotes |
| Globals.QuoteAsWrittenFaithfulIff | native/src/config.rs:373-374 | the source's quoting denotes the value exactly when the value has no quote, backslash, LF or CR |
| Globals.QuoteAsWrittenBreaksOnQuote | native/src/config.rs:373-374 | the value `a'b` quoted as written is not a string literal |
| Globals.EscapeRoundTrip | native/src/config.rs:373-374 | decoding the escaped value gives back the value |
| Globals.QuoteEnvValue | native/src/config.rs:373-374 | the corrected quoting is a literal whose value is the environment value |
| Globals.QuoteAgreesOnPlain | native/src/config.rs:373-374 | the corrected quoting equals the source's on every value the source handles |
| Globals.InlineTextsOf | native/src/config.rs:413-417 | the variables pass through; exactly the environment variables named in `envs` are inlined, each as its value in single quotes, which denotes the value exactly when the value is plain |
| Globals.InlineTextsCorrected | native/src/config.rs:413-417 | with the corrected quoting, the same entries are inlined, each as a literal denoting its value |
| Globals.CorrectedAgreesOnPlainEnv | native/src/config.rs:413-417 | when every named environment value is plain, the corrected texts are exactly the source's |
| Globals.ParseGlobals | native/src/config.rs:378-408 | parsing succeeds iff every text is accepted, returns the texts on success, and on failure lists exactly the rejected entries, each with its own text |
| Globals.EnvEntriesNeverRejected | native/src/config.rs:372-408 | with a parser that accepts string literals and plain environment values, only variable texts can abort configuration |
| Globals.CorrectedEnvEntriesNeverRejected | native/src/config.rs:372-408 | with the corrected quoting and a parser that accepts string literals, only variable texts can abort configuration, whatever the environment values |
| Globals.QuotedEnvValueAborts | native/src/config.rs:372-400 | as written, `NODE_ENV=a'b` makes a parser that reads only string literals reject the text, so configuration aborts; the corrected texts parse |
| Globals.DefaultEnvNameIsInlined | native/src/config.rs:349-361 | with the default `envs` and a plain value, the variable supplying the default environment name is inlined as a literal denoting that name |
| Globals.DerivedDefaultInlinesNothing | native/src/config.rs:347-354 | the derived default options inline nothing |
| Globals.PlainEnvValueInlined | native/src/config.rs:413-417 | a named environment variable with a plain value is inlined as the value in single quotes |
| PassOrder.Stage | native/src/config.rs:144-172 | every pass has a stage from 0 to 20 in the chain's order |
| PassOrder.RunIsOrdered | native/src/config.rs:144-172 | a run through increasing stages is in canonical order with all stages in range |
| PassOrder.RunAppend | native/src/config.rs:144-172 | consecutive runs over adjacent stage ranges form one run |
| PassOrder.OptMembers | native/src/config.rs:147-148 | a switchable pass (`Optional::new`) holds its pass exactly when enabled and nothing else |
| PassOrder.OptRun | native/src/config.rs:147-148 | a switchable pass, enabled or not, runs in canonical order within any stage range holding its stage |
| Pipeline.CompatPasses | native/src/config.rs:159-163 | no more downlevel passes than listed milestones, each the pass of a listed milestone the target is at or below |
| Pipeline.CompatPassesMembers | native/src/config.rs:159-163 | the downlevel passes are exactly those of listed milestones the target does not exceed |
| Pipeline.CompatPassesRun | native/src/config.rs:159-163 | walking milestones newest first yields the downlevel passes in canonical order |
| Pipeline.ModulePass | native/src/config.rs:309-318 | the module pass is a no-op exactly when no format is configured |
| Pipeline.ModulePassRoundTrip | native/src/config.rs:309-318 | the selected module pass implements exactly the configured format and its settings |
| Pipeline.NeedsInteropAnalysis | native/src/config.rs:137-142 | interop analysis is needed iff a format is configured and `noInterop` is off |
| Pipeline.GlobalsOptionOf | native/src/config.rs:127-135 | the optimizer's `globals` when an optimizer with globals is configured; otherwise no variables and no environment names |
| Pipeline.FrontRun | native/src/config.rs:147-158 | the passes before downleveling run in canonical order within stages 0–8 |
| Pipeline.OpeningRun | native/src/config.rs:147-167 | the passes before helper injection run in canonical order within stages 0–16 |
| Pipeline.ClosingRun | native/src/config.rs:168-171 | helper injection, module pass, hygiene and fixer run in that order |
| Pipeline.PassListRun | native/src/config.rs:144-172 | the whole chain runs in canonical order |
| PipelineLaws.PipelineOrdered | native/src/config.rs:144-172 | for every configuration the pass list is in canonical order, each stage at most once |
| PipelineLaws.PipelineEnds | native/src/config.rs:168-171 | the list ends with helper injection, the module pass, hygiene and fixer |
| PipelineLaws.PassListSelects | native/src/config.rs:144-172 | a pass is in the list exactly when the selection predicate selects it |
| PipelineLaws.MilestonesOfSource | native/src/config.rs:159-163 | every target except es5 and es2019 has a downlevel pass |
| PipelineLaws.CompatSelected | native/src/config.rs:159-163 | the pass for milestone m runs iff m is listed and the target is at or below m |
| PipelineLaws.CompatCumulative | native/src/config.rs:159-163 | a downlevel pass run for a target is run for every older target |
| PipelineLaws.Es3DownlevelsFully | native/src/config.rs:159-163 | the default target es3 runs all five downlevel passes |
| PipelineLaws.Es5SkipsEs3 | native/src/config.rs:159-163 | target es5 runs the es2015 and es2018 passes but not the es3 pass |
| PipelineLaws.NewestTargetDownlevelsNothing | native/src/config.rs:159-163 | target es2019 runs no downlevel pass |
| PipelineLaws.NoFormatNoInterop | native/src/config.rs:137-142 | without a format the module pass is the no-op and no interop analysis runs |
| PipelineLaws.FormatSelectsInterop | native/src/config.rs:137-142 | with a format its pass runs, and interop analysis runs iff `noInterop` is off |
| PipelineLaws.AlwaysSelected | native/src/config.rs:149-151 | the resolver and the global-inlining pass always run |
| PipelineLaws.SyntaxSelectsPasses | native/src/config.rs:147-148 | the JSX transform runs iff `jsx`, TypeScript stripping iff `typescript` |
| PipelineLaws.ProposalsSelectPasses | native/src/config.rs:152-158 | decorators, class properties and export extensions run iff the syntax enables them; the simplifier iff an optimizer is configured |
| PipelineLaws.ConstModulesSelected | native/src/config.rs:118-125 | with constant modules configured, their substitution pass runs with their globals |
| PipelineLaws.NoConstModules | native/src/config.rs:118-125 | without constant modules no substitution pass runs |
| Builder.EffectiveConfig | native/src/config.rs:102-106 | with an invocation fragment it is merged over the file configuration (or the default); without one the file configuration (or the default) is used; without a file the fragment is; the fragment's module format wins |
| Builder.SourceMapsEnabled | native/src/config.rs:179-187 | source maps are off when absent, follow a flag, and are on for any path |
| Builder.ParsedGlobalsAgreeOnPlainEnv | native/src/config.rs:127-135 | when every inlined environment value is plain, the build's parse step gives exactly the source's result |
| Builder.Build | native/src/config.rs:102-189 | fails iff a global text is rejected, and then reports the parse step's error (every rejected name with its text); `minify` and external helpers are on iff either layer turns them on; syntax is the invocation's, else the file's, else the default; source maps are on for a path or a true flag |
| Builder.BuildShape | native/src/config.rs:144-172 | a built pass list is in canonical order and ends with hygiene then fixer |
| Builder.BuildSelects | native/src/config.rs:144-172 | a built pass list holds a pass exactly when the effective configuration and the parsed globals select it |
| Builder.BuildWithoutGlobalsSucceeds | native/src/config.rs:127-135 | without optimizer globals the build cannot fail |

## Left out

- Deserialization and `deny_unknown_fields`: the records are given, not parsed from JSON.
- `default_cwd`, `default_swcrc` and the invocation fields `Options::build` does not read:
  `cwd`, `caller`, `filename`, `config_file`, `root`, `root_mode`, `swcrc`, `swcrc_roots`,
  `env_name`, `input_source_map`, `source_file_name` and `source_root`. `env_name`'s default
  is `Globals.DefaultEnvName`.
- The process environment is a map of strings, so a variable whose name or value is not valid
  Unicode cannot be expressed. In the source, `env::vars()` (config.rs:416) panics on such a
  variable on EVERY `Options::build`, even with empty `envs` and on the default path. Only
  `env::var` in `default_env_name` treats such a value as unset. That panic is not modelled.
- The ECMAScript parser is a predicate on texts. The parsed expressions stand as their texts.
- Globals.ParseGlobals: the source panics at the first rejected text, in hash-map order, and
  names only that one. The model's failure names every rejected entry, because hash-map
  iteration order is not modelled.
- The internals of every pass: the passes are tags, and their effect on a program is not
  modelled.
- The AMD and UMD settings beyond their common-js `noInterop` flag, and the source map handle
  passed to the UMD pass.
- The parser crate's `Syntax` enum: it is reduced to the six feature answers the builder asks.
- The contents of `react::Options` and of constant-module globals: they are carried as
  opaque maps.
- Builder.Build: it parses environment values with the corrected quoting
  (`Globals.InlineTextsCorrected`), not the source's unescaped `'…'`. For a value holding a
  quote, backslash, CR or LF the source's text either aborts configuration
  (`Globals.QuotedEnvValueAborts`) or is read as different code, for example `x'+f()+'`
  is inlined as an expression that calls `f`. The model's build instead inlines the value as a literal.
  `Builder.ParsedGlobalsAgreeOnPlainEnv` shows the two agree whenever every inlined value is
  plain.
- The compiler handle, the error emitter and the source-file registration in `mk_map`.

## Findings

| source | as written | input that shows it | evidently intended | confidence | as-written member | corrected member |
|---|---|---|---|---|---|---|
| native/src/config.rs:373-374 | an environment value is wrapped in single quotes with no escaping (`format!("'{}'", v)`) | `NODE_ENV` set to `a'b`: the text `'a'b'` is not a string literal, so configuration aborts; `x'+f()+'` is inlined as an expression that calls `f`; a value with a backslash is silently changed | the inlined literal denotes the environment value, so quotes, backslashes, LF and CR are escaped | not executed | Globals.QuoteAsWrittenBreaksOnQuote | Globals.QuoteEnvValue |

`Globals.QuoteAsWrittenFaithfulIff` characterises the values the source quotes correctly.
`Globals.InlineTextsOf` models the source's texts, and `Globals.QuotedEnvValueAborts` shows
the failing input end to end. `Globals.InlineTextsCorrected` uses the corrected
`Globals.QuoteEnvValue`, and `Builder.Build` uses it. `Globals.QuoteAgreesOnPlain` and
`Globals.CorrectedAgreesOnPlainEnv` show the two quotings agree on every plain value.
