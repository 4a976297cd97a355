/** validateUserContainerRuntimeConfig: the accept/reject gate applied to a
    ContainerRuntimeConfig's options before anything is rendered. */
module Validation {
  import opened Model

  /** The configured bounds: smallest accepted pids limit, smallest accepted log
      size in bytes, and the recognised log levels. */
  datatype Policy = Policy(minPidsLimit: int, minLogSizeBytes: nat, logLevels: set<string>)

  /** The bounds this model uses. The thresholds are chosen inside the intervals that
      the test literals leave open (see `FitsFixtures`); the levels are CRI-O's. */
  const DefaultPolicy := Policy(20, 8192, {"error", "fatal", "panic", "warn", "info", "debug"})

  /** The policies the option-test literals and the sync fixtures' options admit:
      pids 10 rejected and 2048 accepted, sizes 3000 rejected and 9000 (the sync
      fixture's "9k") accepted, level "debug" accepted and "invalid" rejected. */
  predicate FitsFixtures(p: Policy) {
    10 < p.minPidsLimit <= 2048 &&
    3000 < p.minLogSizeBytes <= 9000 &&
    "debug" in p.logLevels && "invalid" !in p.logLevels
  }

  datatype Rule = LogLevelRule | PidsLimitRule | LogSizeRule

  /** The order in which the rules are checked. */
  function Rank(rule: Rule): nat {
    match rule
    case LogLevelRule => 0
    case PidsLimitRule => 1
    case LogSizeRule => 2
  }

  /** A set field that is out of its domain. Unset fields break no rule. */
  predicate Breaks(p: Policy, spec: RuntimeSpec, rule: Rule) {
    match rule
    case LogLevelRule => spec.logLevel != "" && spec.logLevel !in p.logLevels
    case PidsLimitRule => spec.pidsLimit != 0 && spec.pidsLimit < p.minPidsLimit
    case LogSizeRule => spec.logSizeMax != 0 && spec.logSizeMax < p.minLogSizeBytes
  }

  /** The first rule the options break, if any. */
  function FirstViolation(p: Policy, spec: RuntimeSpec): (r: Option<Rule>)
    ensures r == None <==> forall rule :: !Breaks(p, spec, rule)
    ensures r.Some? ==>
      Breaks(p, spec, r.value) &&
      (forall rule :: Rank(rule) < Rank(r.value) ==> !Breaks(p, spec, rule))
  {
    if Breaks(p, spec, LogLevelRule) then Some(LogLevelRule)
    else if Breaks(p, spec, PidsLimitRule) then Some(PidsLimitRule)
    else if Breaks(p, spec, LogSizeRule) then Some(LogSizeRule)
    else None
  }

  /** The message a rejected sync records in the status condition. */
  function Describe(rule: Rule): string {
    match rule
    case LogLevelRule => "invalid LogLevel"
    case PidsLimitRule => "invalid PidsLimit"
    case LogSizeRule => "invalid LogSizeMax"
  }

  function PidsOnly(n: int): RuntimeSpec { RuntimeSpec("", 0, 0, n) }
  function LogSizeOnly(n: nat): RuntimeSpec { RuntimeSpec("", n, 0, 0) }
  function LogLevelOnly(level: string): RuntimeSpec { RuntimeSpec(level, 0, 0, 0) }

  predicate Accepts(p: Policy, spec: RuntimeSpec) { FirstViolation(p, spec) == None }

  /** The outcomes the option tests and the sync fixtures rely on. */
  predicate FixtureVerdicts(p: Policy) {
    FirstViolation(p, PidsOnly(10)) == Some(PidsLimitRule) &&
    FirstViolation(p, LogSizeOnly(3000)) == Some(LogSizeRule) &&
    FirstViolation(p, LogLevelOnly("invalid")) == Some(LogLevelRule) &&
    Accepts(p, PidsOnly(2048)) &&
    Accepts(p, LogSizeOnly(10000)) &&
    Accepts(p, LogLevelOnly("debug")) &&
    Accepts(p, RuntimeSpec("debug", 9000, 3000000000, 0))
  }

  /** The test literals pin the policy down exactly to `FitsFixtures`: a policy
      produces every fixture outcome if and only if it fits. */
  lemma FixturesPinPolicy(p: Policy)
    ensures FixtureVerdicts(p) <==> FitsFixtures(p)
  {
    if FixtureVerdicts(p) {
      assert !Breaks(p, LogLevelOnly("debug"), LogLevelRule);
      assert !Breaks(p, RuntimeSpec("debug", 9000, 3000000000, 0), LogSizeRule);
      assert !Breaks(p, PidsOnly(2048), PidsLimitRule);
    }
  }

  lemma DefaultPolicyFitsFixtures()
    ensures FitsFixtures(DefaultPolicy)
  {
  }

  /** A configuration that sets nothing is never rejected. */
  lemma UnsetOptionsAccepted(p: Policy, overlaySize: nat)
    ensures Accepts(p, RuntimeSpec("", 0, overlaySize, 0))
  {
  }

  /** Raising a set pids limit or log size never turns acceptance into rejection. */
  lemma AcceptanceIsMonotone(p: Policy, spec: RuntimeSpec, pids: int, size: nat)
    requires Accepts(p, spec)
    requires spec.pidsLimit != 0 ==> pids >= spec.pidsLimit
    requires spec.pidsLimit == 0 ==> pids == 0
    requires spec.logSizeMax != 0 ==> size >= spec.logSizeMax
    requires spec.logSizeMax == 0 ==> size == 0
    ensures Accepts(p, spec.(pidsLimit := pids, logSizeMax := size))
  {
    assert !Breaks(p, spec, PidsLimitRule) && !Breaks(p, spec, LogSizeRule) && !Breaks(p, spec, LogLevelRule);
  }
}
