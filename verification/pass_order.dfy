/** The pass tags standing for the transformation passes of native/src/config.rs, their
    canonical order in the source's pass chain, and runs of passes in that order. */
module PassOrder {
  import opened Targets
  import opened Configs
  import opened Globals

  datatype PassTag =
    | React(options: ReactOptions)
    | StripTypeScript
    | Resolver
    | ConstModules(globals: map<string, map<string, string>>)
    | InlineGlobals(texts: InlineTexts)
    | Decorators
    | ClassProperties
    | ExportExtensions
    | Simplifier
    | Compat(milestone: JscTarget)
    | ImportAnalyzer
    | InjectHelpers
    | ModuleNoop
    | CommonJsModule(cjs: CommonJsConfig)
    | UmdModule(umd: CommonJsConfig)
    | AmdModule(amd: CommonJsConfig)
    | Hygiene
    | Fixer
  {
    /** One of the module-wrapping passes. */
    predicate IsModulePass() {
      ModuleNoop? || CommonJsModule? || UmdModule? || AmdModule?
    }
  }

  /** The position of a pass in the canonical order of the source's pass chain. The downlevel
      passes sit newest first, between the simplifier and the interop analysis. */
  function Stage(p: PassTag): (s: nat)
    ensures s <= 20
  {
    match p
    case React(_) => 0
    case StripTypeScript => 1
    case Resolver => 2
    case ConstModules(_) => 3
    case InlineGlobals(_) => 4
    case Decorators => 5
    case ClassProperties => 6
    case ExportExtensions => 7
    case Simplifier => 8
    case Compat(m) => 15 - Rank(m)
    case ImportAnalyzer => 16
    case InjectHelpers => 17
    case ModuleNoop => 18
    case CommonJsModule(_) => 18
    case UmdModule(_) => 18
    case AmdModule(_) => 18
    case Hygiene => 19
    case Fixer => 20
  }

  /** Passes appear in canonical order, each stage at most once. */
  ghost predicate Ordered(ps: seq<PassTag>) {
    forall i, j :: 0 <= i < j < |ps| ==> Stage(ps[i]) < Stage(ps[j])
  }

  /** `ps` runs through strictly increasing stages, all within [lo, hi). */
  ghost predicate Run(ps: seq<PassTag>, lo: nat, hi: nat)
    decreases |ps|
  {
    |ps| == 0 || (lo <= Stage(ps[0]) < hi && Run(ps[1..], Stage(ps[0]) + 1, hi))
  }

  /** A run stays a run within any wider stage range. */
  lemma {:induction false} RunWiden(ps: seq<PassTag>, lo: nat, hi: nat, lo': nat, hi': nat)
    requires lo' <= lo && hi <= hi'
    requires Run(ps, lo, hi)
    ensures Run(ps, lo', hi')
    decreases |ps|
  {
    if |ps| > 0 {
      RunWiden(ps[1..], Stage(ps[0]) + 1, hi, Stage(ps[0]) + 1, hi');
    }
  }

  /** Two runs whose stage ranges follow one another form one run. */
  lemma {:induction false} RunAppend(a: seq<PassTag>, b: seq<PassTag>, lo: nat, mid: nat, hi: nat)
    requires lo <= mid <= hi
    requires Run(a, lo, mid) && Run(b, mid, hi)
    ensures Run(a + b, lo, hi)
    decreases |a|
  {
    if |a| == 0 {
      assert a + b == b;
      RunWiden(b, mid, hi, lo, hi);
    } else {
      assert (a + b)[0] == a[0] && (a + b)[1..] == a[1..] + b;
      RunAppend(a[1..], b, Stage(a[0]) + 1, mid, hi);
    }
  }

  /** A run is in canonical order. */
  lemma {:induction false} RunIsOrdered(ps: seq<PassTag>, lo: nat, hi: nat)
    requires Run(ps, lo, hi)
    ensures Ordered(ps)
    ensures forall i :: 0 <= i < |ps| ==> lo <= Stage(ps[i]) < hi
    decreases |ps|
  {
    if |ps| > 0 {
      var tail := ps[1..];
      RunIsOrdered(tail, Stage(ps[0]) + 1, hi);
      forall i, j | 0 <= i < j < |ps| ensures Stage(ps[i]) < Stage(ps[j]) {
        assert ps[j] == tail[j - 1];
        if i > 0 {
          assert ps[i] == tail[i - 1];
        }
      }
      forall i | 0 <= i < |ps| ensures lo <= Stage(ps[i]) < hi {
        if i > 0 {
          assert ps[i] == tail[i - 1];
        }
      }
    }
  }

  /** `Optional::new(pass, enabled)`: the pass when enabled, nothing otherwise. */
  function Opt(enabled: bool, p: PassTag): seq<PassTag> {
    if enabled then [p] else []
  }

  /** A switchable pass holds its pass exactly when enabled, and nothing else. */
  lemma OptMembers(enabled: bool, p: PassTag)
    ensures forall q :: q in Opt(enabled, p) <==> enabled && q == p
  {
  }

  /** A switchable pass runs within any stage range holding its own stage. */
  lemma OptRun(enabled: bool, p: PassTag, lo: nat, hi: nat)
    requires lo <= Stage(p) < hi
    ensures Run(Opt(enabled, p), lo, hi)
  {
    if enabled {
      assert Opt(enabled, p)[1..] == [];
    }
  }
}
