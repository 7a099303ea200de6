/** The global-inlining options of native/src/config.rs: the default environment name,
    the quoting of environment values, the filtering of environment variables by `envs`,
    and the parse step that turns every text into an expression (`GlobalPassOption::build`).
    The process environment is an explicit map; the parser is an explicit predicate. */
module Globals {
  import opened Wrappers
  import opened Configs

  /** `default_env_name`: `SWC_ENV` if set, else `NODE_ENV` if set, else "development". */
  function DefaultEnvName(env: map<string, string>): (name: string)
    ensures "SWC_ENV" in env ==> name == env["SWC_ENV"]
    ensures "SWC_ENV" !in env && "NODE_ENV" in env ==> name == env["NODE_ENV"]
    ensures "SWC_ENV" !in env && "NODE_ENV" !in env ==> name == "development"
  {
    if "SWC_ENV" in env then env["SWC_ENV"]
    else if "NODE_ENV" in env then env["NODE_ENV"]
    else "development"
  }

  // ---------------------------------------------------------------------------------------
  // Single-quoted ECMAScript string literals, as section 12.8.4 of ECMA-262 (2021 edition)
  // defines them. Since the 2019 edition U+2028 and U+2029 may stand unescaped in a string
  // literal; LF and CR are the only line terminators that may not.
  // ---------------------------------------------------------------------------------------

  /** The value of a SingleEscapeCharacter after a backslash. */
  function EscapedChar(c: char): Option<char> {
    match c
    case '\'' => Some('\'')
    case '"' => Some('"')
    case '\\' => Some('\\')
    case 'b' => Some('\U{8}')
    case 'f' => Some('\U{C}')
    case 'n' => Some('\n')
    case 'r' => Some('\r')
    case 't' => Some('\t')
    case 'v' => Some('\U{B}')
    case _ => None
  }

  /** A character that may stand for itself between single quotes: anything but the quote, the
      backslash, LF and CR (U+2028 and U+2029 included, per the 2019 and later editions). */
  predicate PlainChar(c: char) {
    c != '\'' && c != '\\' && c != '\n' && c != '\r'
  }

  /** Every character of `s` stands for itself between single quotes. */
  predicate Plain(s: string) {
    forall i :: 0 <= i < |s| ==> PlainChar(s[i])
  }

  /** The value denoted by the text between the quotes of a single-quoted literal, or None when
      the text is not such a body (a bare quote, LF or CR, or an escape outside the
      single-character escapes). */
  function DecodeBody(s: string): (r: Option<string>)
    decreases |s|
  {
    if |s| == 0 then Some("")
    else if s[0] == '\\' then
      if |s| == 1 then None
      else
        match EscapedChar(s[1])
        case None => None
        case Some(c) =>
          match DecodeBody(s[2..])
          case None => None
          case Some(rest) => Some([c] + rest)
    else if !PlainChar(s[0]) then None
    else
      match DecodeBody(s[1..])
      case None => None
      case Some(rest) => Some([s[0]] + rest)
  }

  /** The string value of `s` when `s` is one single-quoted string literal using only the
      single-character escapes; None otherwise, including for valid literals with hexadecimal
      or Unicode escapes, non-escape characters after a backslash, or line continuations. */
  function LiteralValue(s: string): Option<string> {
    if |s| >= 2 && s[0] == '\'' && s[|s| - 1] == '\'' then DecodeBody(s[1..|s| - 1]) else None
  }

  /** Decoding never lengthens, and keeps the length only when nothing was escaped. */
  lemma {:induction false} DecodeBodyLength(s: string)
    requires DecodeBody(s).Some?
    ensures |DecodeBody(s).value| <= |s|
    ensures |DecodeBody(s).value| == |s| ==> Plain(s)
    decreases |s|
  {
    if |s| == 0 {
    } else if s[0] == '\\' {
      DecodeBodyLength(s[2..]);
    } else {
      DecodeBodyLength(s[1..]);
    }
  }

  /** A plain body denotes itself. */
  lemma {:induction false} PlainDecodesToItself(s: string)
    requires Plain(s)
    ensures DecodeBody(s) == Some(s)
    decreases |s|
  {
    if |s| > 0 {
      PlainDecodesToItself(s[1..]);
      assert [s[0]] + s[1..] == s;
    }
  }

  /** The quoting of `mk_map` as written: the value wrapped in single quotes, unescaped. */
  function QuoteAsWritten(v: string): (q: string)
    ensures |q| == |v| + 2 && q[0] == '\'' && q[|q| - 1] == '\''
    ensures q[1..|q| - 1] == v
  {
    "'" + v + "'"
  }

  /** The as-written quoting yields a literal whose value is the environment value exactly
      when the value contains no quote, backslash, LF or CR. */
  lemma QuoteAsWrittenFaithfulIff(v: string)
    ensures LiteralValue(QuoteAsWritten(v)) == Some(v) <==> Plain(v)
  {
    var q := QuoteAsWritten(v);
    assert q[1..|q| - 1] == v;
    if Plain(v) {
      PlainDecodesToItself(v);
    } else if DecodeBody(v).Some? {
      DecodeBodyLength(v);
    }
  }

  /** `QuoteAsWrittenFaithfulIff`, for every value at once. */
  lemma QuoteAsWrittenFaithfulAll()
    ensures forall v :: LiteralValue(QuoteAsWritten(v)) == Some(v) <==> Plain(v)
  {
    forall v ensures LiteralValue(QuoteAsWritten(v)) == Some(v) <==> Plain(v) {
      QuoteAsWrittenFaithfulIff(v);
    }
  }

  /** An environment value containing a quote is not turned into a string literal. */
  lemma QuoteAsWrittenBreaksOnQuote()
    ensures LiteralValue(QuoteAsWritten("a'b")) == None
  {
    var q := QuoteAsWritten("a'b");
    assert q[1..|q| - 1] == "a'b";
    assert DecodeBody("'b") == None;
  }

  /** The escape of one character inside a single-quoted literal. */
  function EscapeChar(c: char): (e: string)
    ensures 1 <= |e| <= 2
  {
    if c == '\'' then "\\'"
    else if c == '\\' then "\\\\"
    else if c == '\n' then "\\n"
    else if c == '\r' then "\\r"
    else [c]
  }

  function Escape(v: string): string
    decreases |v|
  {
    if |v| == 0 then "" else EscapeChar(v[0]) + Escape(v[1..])
  }

  /** A plain value needs no escape. */
  lemma {:induction false} PlainEscapesToItself(v: string)
    requires Plain(v)
    ensures Escape(v) == v
    decreases |v|
  {
    if |v| > 0 {
      PlainEscapesToItself(v[1..]);
      assert [v[0]] + v[1..] == v;
    }
  }

  /** Decoding undoes escaping. */
  lemma {:induction false} EscapeRoundTrip(v: string)
    ensures DecodeBody(Escape(v)) == Some(v)
    decreases |v|
  {
    if |v| > 0 {
      var c := v[0];
      var e := Escape(v);
      EscapeRoundTrip(v[1..]);
      if PlainChar(c) {
        assert e[0] == c && e[1..] == Escape(v[1..]);
      } else {
        assert e[0] == '\\' && e[2..] == Escape(v[1..]);
      }
      assert [c] + v[1..] == v;
    }
  }

  /** The quoting of an environment value as a string literal, with the escapes the value
      needs so that the literal denotes the value itself. */
  function QuoteEnvValue(v: string): (q: string)
    ensures LiteralValue(q) == Some(v)
  {
    var q := "'" + Escape(v) + "'";
    assert q[1..|q| - 1] == Escape(v);
    EscapeRoundTrip(v);
    q
  }

  // ---------------------------------------------------------------------------------------
  // GlobalPassOption::build
  // ---------------------------------------------------------------------------------------

  /** The texts handed to the parser: the variables' literal texts as given, and the quoted
      values of the environment variables named in `envs`. */
  datatype InlineTexts = InlineTexts(globals: map<string, string>, envs: map<string, string>)

  /** The texts `GlobalPassOption::build` parses, for the environment `env`, as the source
      writes them: every named environment value wrapped in single quotes, unescaped. */
  function InlineTextsOf(opts: GlobalPassOption, env: map<string, string>): (r: InlineTexts)
    ensures r.globals == opts.vars
    ensures r.envs.Keys == env.Keys * opts.envs
    ensures forall k :: k in r.envs ==> r.envs[k] == QuoteAsWritten(env[k])
    ensures forall k :: k in r.envs ==> (LiteralValue(r.envs[k]) == Some(env[k]) <==> Plain(env[k]))
  {
    QuoteAsWrittenFaithfulAll();
    InlineTexts(opts.vars, map k | k in env && k in opts.envs :: QuoteAsWritten(env[k]))
  }

  /** The same texts with the corrected quoting: every inlined environment text is a literal
      denoting the environment value. */
  function InlineTextsCorrected(opts: GlobalPassOption, env: map<string, string>): (r: InlineTexts)
    ensures r.globals == opts.vars
    ensures r.envs.Keys == env.Keys * opts.envs
    ensures forall k :: k in r.envs ==> LiteralValue(r.envs[k]) == Some(env[k])
  {
    InlineTexts(opts.vars, map k | k in env && k in opts.envs :: QuoteEnvValue(env[k]))
  }

  /** Where every named environment value is plain, the corrected texts are the source's. */
  lemma CorrectedAgreesOnPlainEnv(opts: GlobalPassOption, env: map<string, string>)
    requires forall k :: k in env && k in opts.envs ==> Plain(env[k])
    ensures InlineTextsCorrected(opts, env) == InlineTextsOf(opts, env)
  {
    var a := InlineTextsCorrected(opts, env).envs;
    var b := InlineTextsOf(opts, env).envs;
    forall k | k in a ensures a[k] == b[k] {
      assert a[k] == QuoteEnvValue(env[k]);
      assert b[k] == QuoteAsWritten(env[k]);
      QuoteAgreesOnPlain(env[k]);
    }
    assert a == b;
  }

  /** A literal text that does not parse as an expression statement aborts configuration; the
      error lists every offending name with its text. */
  datatype ConfigError = InvalidGlobals(vars: map<string, string>, envs: map<string, string>)

  /** The entries of `m` that the parser rejects. */
  function Rejected(m: map<string, string>, accepts: string -> bool): (bad: map<string, string>)
    ensures forall k :: k in bad <==> k in m && !accepts(m[k])
    ensures forall k :: k in bad ==> bad[k] == m[k]
  {
    map k | k in m && !accepts(m[k]) :: m[k]
  }

  /** Parse every text: `accepts(t)` says the parser reads `t` as a module whose last item is an
      expression statement. The parsed expressions are opaque and stand as their texts. */
  function ParseGlobals(t: InlineTexts, accepts: string -> bool): (r: Result<InlineTexts, ConfigError>)
    ensures r.Success? <==>
      (forall k :: k in t.globals ==> accepts(t.globals[k])) &&
      (forall k :: k in t.envs ==> accepts(t.envs[k]))
    ensures r.Success? ==> r.value == t
    ensures r.Failure? ==>
      (forall k :: k in r.error.vars <==> k in t.globals && !accepts(t.globals[k])) &&
      (forall k :: k in r.error.envs <==> k in t.envs && !accepts(t.envs[k]))
    // the error carries each rejected entry's own text
    ensures r.Failure? ==>
      (forall k :: k in r.error.vars ==> r.error.vars[k] == t.globals[k]) &&
      (forall k :: k in r.error.envs ==> r.error.envs[k] == t.envs[k])
  {
    var badVars := Rejected(t.globals, accepts);
    var badEnvs := Rejected(t.envs, accepts);
    if badVars == map[] && badEnvs == map[] then Success(t)
    else
      assert badVars != map[] ==> exists k :: k in badVars;
      assert badEnvs != map[] ==> exists k :: k in badEnvs;
      Failure(InvalidGlobals(badVars, badEnvs))
  }

  /** A parser that accepts every single-quoted string literal never rejects an environment
      entry whose value is plain: then only the variables' own texts can abort configuration. */
  lemma EnvEntriesNeverRejected(opts: GlobalPassOption, env: map<string, string>, accepts: string -> bool)
    requires forall s :: LiteralValue(s).Some? ==> accepts(s)
    requires forall k :: k in env && k in opts.envs ==> Plain(env[k])
    ensures var r := ParseGlobals(InlineTextsOf(opts, env), accepts);
      r.Failure? ==> r.error.envs == map[] && r.error.vars != map[]
  {
    var t := InlineTextsOf(opts, env);
    var r := ParseGlobals(t, accepts);
    if r.Failure? {
      assert forall k :: k in t.envs ==> LiteralValue(t.envs[k]).Some?;
      assert forall k :: k !in r.error.envs;
      assert exists k :: k in t.globals && !accepts(t.globals[k]);
      var k :| k in t.globals && !accepts(t.globals[k]);
      assert k in r.error.vars;
    }
  }

  /** With the corrected quoting no environment entry is ever rejected by such a parser,
      whatever its value. */
  lemma CorrectedEnvEntriesNeverRejected(opts: GlobalPassOption, env: map<string, string>, accepts: string -> bool)
    requires forall s :: LiteralValue(s).Some? ==> accepts(s)
    ensures var r := ParseGlobals(InlineTextsCorrected(opts, env), accepts);
      r.Failure? ==> r.error.envs == map[] && r.error.vars != map[]
  {
    var t := InlineTextsCorrected(opts, env);
    var r := ParseGlobals(t, accepts);
    if r.Failure? {
      assert forall k :: k !in r.error.envs;
      assert exists k :: k in t.globals && !accepts(t.globals[k]);
      var k :| k in t.globals && !accepts(t.globals[k]);
      assert k in r.error.vars;
    }
  }

  /** As written, an environment value holding a quote aborts configuration under a parser
      that reads only single string literals: `NODE_ENV=a'b` yields the text `'a'b'`. */
  lemma QuotedEnvValueAborts(accepts: string -> bool)
    requires forall s :: accepts(s) <==> LiteralValue(s).Some?
    ensures ParseGlobals(InlineTextsOf(GlobalPassOption(map[], {"NODE_ENV"}), map["NODE_ENV" := "a'b"]), accepts).Failure?
    ensures ParseGlobals(InlineTextsCorrected(GlobalPassOption(map[], {"NODE_ENV"}), map["NODE_ENV" := "a'b"]), accepts).Success?
  {
    var opts := GlobalPassOption(map[], {"NODE_ENV"});
    var env := map["NODE_ENV" := "a'b"];
    var t := InlineTextsOf(opts, env);
    assert "NODE_ENV" in t.envs;
    QuoteAsWrittenBreaksOnQuote();
  }

  /** With the default `envs`, the inlined value of the variable that supplies the default
      environment name is that name. */
  lemma DefaultEnvNameIsInlined(vars: map<string, string>, env: map<string, string>)
    requires "SWC_ENV" in env || "NODE_ENV" in env
    requires Plain(DefaultEnvName(env))
    ensures var t := InlineTextsOf(GlobalPassOption(vars, DefaultEnvs), env);
      var key := if "SWC_ENV" in env then "SWC_ENV" else "NODE_ENV";
      key in t.envs && LiteralValue(t.envs[key]) == Some(DefaultEnvName(env))
  {
  }

  /** The derived default options (used when no optimizer or no `globals` is configured)
      inline no environment variable at all, and no identifier. */
  lemma DerivedDefaultInlinesNothing(env: map<string, string>)
    ensures InlineTextsOf(DefaultGlobalPassOption, env) == InlineTexts(map[], map[])
    ensures InlineTextsCorrected(DefaultGlobalPassOption, env) == InlineTexts(map[], map[])
  {
  }

  /** The corrected quoting agrees with the source's on every value the source quotes
      correctly, so it changes nothing for them. */
  lemma QuoteAgreesOnPlain(v: string)
    requires Plain(v)
    ensures QuoteEnvValue(v) == QuoteAsWritten(v)
  {
    PlainEscapesToItself(v);
  }

  /** An environment variable named in `envs`, such as `NODE_ENV=production`, is inlined as the
      quoted text of its value, 'production'. */
  lemma PlainEnvValueInlined(name: string, v: string)
    requires Plain(v)
    ensures InlineTextsOf(GlobalPassOption(map[], {name}), map[name := v]).envs
      == map[name := "'" + v + "'"]
  {
    QuoteAgreesOnPlain(v);
  }
}
