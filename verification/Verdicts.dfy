/** Plugin verdicts and manifests: internal/dataplane/pipeline/verdict.go. */
module Verdicts {
  import opened Options
  import opened Json
  import opened JsonPatch

  /** The five decisions, and any other string a plugin may send. */
  datatype Decision = Allow | Deny | Mutate | Annotate | Defer | Unknown(text: string)

  datatype Verdict = Verdict(
    decision: Decision,
    reason: string,
    confidence: real,
    patch: Patch,
    annotations: map<string, Json>,
    inputRequests: string,
    pluginState: string)

  const ALLOW := Verdict(Allow, "", 0.0, Absent, map[], "", "")

  datatype EffectClass = Read | Write | Destructive

  datatype FailureMode = FailOpen | FailClosed | FailUnspecified

  datatype Rollout = Unset | Shadow | Canary | Enforce

  datatype Manifest = Manifest(
    id: string,
    name: string,
    rollout: Rollout,
    canaryPercent: int,
    budgetMs: int,
    writes: seq<string>,
    failurePolicy: map<EffectClass, FailureMode>)

  /** A verdict the engine may act on. */
  predicate Valid(v: Verdict, m: Manifest) {
    && !v.decision.Unknown?
    && 0.0 <= v.confidence <= 1.0
    && (match v.decision
        case Mutate => !v.patch.Absent? && m.writes != []
        case Defer => v.inputRequests != ""
        case _ => v.patch.Absent?)
  }
}
