/**
 * The scam-scan response arrives under either of two field-naming conventions:
 * `risk_level`/`signals` (current) and `risk`/`risk_signals` (legacy). Every
 * component that renders a scan reads it through these fallbacks.
 */
module ScanFields {
  import opened Json

  /** `d.risk_level || d.risk`: the reported level, which may still be falsy. */
  function ReportedRisk(d: Value): (r: Value)
    requires !Nullish(d)
    ensures Truthy(Prop(d, "risk_level")) ==> r == Prop(d, "risk_level")
    ensures !Truthy(Prop(d, "risk_level")) ==> r == Prop(d, "risk")
  {
    Or(Prop(d, "risk_level"), Prop(d, "risk"))
  }

  /** `d.risk_level || d.risk || 'UNKNOWN'`: never falsy, and the newer name wins. */
  function RiskLevel(d: Value): (r: Value)
    requires !Nullish(d)
    ensures Truthy(r)
    ensures Truthy(Prop(d, "risk_level")) ==> r == Prop(d, "risk_level")
    ensures !Truthy(Prop(d, "risk_level")) && Truthy(Prop(d, "risk")) ==> r == Prop(d, "risk")
    ensures !Truthy(Prop(d, "risk_level")) && !Truthy(Prop(d, "risk")) ==> r == Str("UNKNOWN")
  {
    Or(ReportedRisk(d), Str("UNKNOWN"))
  }

  /** `d.signals || d.risk_signals || []`: never falsy, and the newer name wins. */
  function Signals(d: Value): (r: Value)
    requires !Nullish(d)
    ensures Truthy(r)
    ensures Truthy(Prop(d, "signals")) ==> r == Prop(d, "signals")
    ensures !Truthy(Prop(d, "signals")) && Truthy(Prop(d, "risk_signals")) ==> r == Prop(d, "risk_signals")
    ensures !Truthy(Prop(d, "signals")) && !Truthy(Prop(d, "risk_signals")) ==> r == Arr([])
  {
    Or(Or(Prop(d, "signals"), Prop(d, "risk_signals")), Arr([]))
  }

  /** `d.risk_score !== undefined`: a score key that is present, even as `null`, counts. */
  predicate HasScore(d: Value)
    requires !Nullish(d)
  {
    !Prop(d, "risk_score").Undefined?
  }

  /** A response written only with the legacy names is read in full. */
  lemma LegacyNamesAreRead(level: Value, signals: seq<Value>)
    requires Truthy(level)
    ensures var d := Obj(map["risk" := level, "risk_signals" := Arr(signals)]);
            RiskLevel(d) == level && Signals(d) == Arr(signals)
  {
  }

  /** A response carrying neither convention still normalises, to `UNKNOWN` and no signals. */
  lemma EmptyResponseNormalises(d: Value)
    requires d.Obj? && "risk_level" !in d.props && "risk" !in d.props
    requires "signals" !in d.props && "risk_signals" !in d.props
    ensures RiskLevel(d) == Str("UNKNOWN") && Signals(d) == Arr([]) && ToStr(RiskLevel(d)) == "UNKNOWN"
  {
  }
}
