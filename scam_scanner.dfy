/**
 * The scam-scanner section: a text field, a scan request to the scanner
 * service, and the rendered verdict with its risk badge.
 *
 * `scan` awaits its request, so it is split at the `await`: `Scan` is the
 * part before it and `Finish` the continuation. Enter and the example
 * buttons are not disabled while loading, so a second scan can start before
 * the first finishes; `Finish` therefore does not assume a scan is pending.
 */
module ScamScanner {
  import opened Common
  import opened Text
  import opened Json
  import opened ScanFields

  const Unreachable := "Could not reach Chetana. Service may be running privately."

  // ---------------------------------------------------------------- risk badge

  datatype Colour = Red | Amber | Green | Muted

  /** `colors[level] || muted`: the object is indexed by the level's string form. */
  function BadgeColour(level: Value): Colour {
    var key := ToStr(level);
    if key == "HIGH" then Red
    else if key == "MEDIUM" then Amber
    else if key == "LOW" then Green
    else Muted
  }

  /** `level || 'UNKNOWN'`. */
  function BadgeLabel(level: Value): Value {
    Or(level, Str("UNKNOWN"))
  }

  /** The three known levels get three different colours; every other level is muted. */
  lemma BadgeColours(level: Value)
    ensures BadgeColour(Str("HIGH")) == Red && BadgeColour(Str("MEDIUM")) == Amber && BadgeColour(Str("LOW")) == Green
    ensures BadgeColour(level) == Muted <==> ToStr(level) != "HIGH" && ToStr(level) != "MEDIUM" && ToStr(level) != "LOW"
    ensures BadgeColour(level) == Red <==> ToStr(level) == "HIGH"
  {
  }

  /** The label is never blank: the level when it is truthy, `UNKNOWN` when it is absent or falsy. */
  lemma BadgeLabels(level: Value)
    ensures Truthy(BadgeLabel(level))
    ensures Truthy(level) ==> BadgeLabel(level) == level
    ensures Nullish(level) ==> BadgeLabel(level) == Str("UNKNOWN")
  {
  }

  // ---------------------------------------------------------------- result view

  /** What the result panel shows. */
  datatype ResultView = ResultView(
    colour: Colour,
    badge: Value,
    score: Option<Value>,
    signals: seq<Value>,
    recommendation: Option<Value>)

  /** Nothing (the result is falsy), the panel, or a render that throws (a signal list with no `map`). */
  datatype Rendered = Hidden | Panel(view: ResultView) | Broken

  /** The result panel for a stored `result`. */
  function Render(result: Value): (r: Rendered)
    ensures r.Hidden? <==> !Truthy(result)
  {
    if !Truthy(result) then Hidden
    else
      var level := ReportedRisk(result);
      var signals := Signals(result);
      if HasItems(signals) && !signals.Arr? then Broken
      else Panel(ResultView(
        BadgeColour(level),
        BadgeLabel(level),
        if HasScore(result) then Some(Prop(result, "risk_score")) else None,
        if HasItems(signals) then signals.items else [],
        if Truthy(Prop(result, "recommendation")) then Some(Prop(result, "recommendation")) else None))
  }

  /**
   * The panel reads the level under either name (the newer winning), shows a score only when the key
   * is present, lists the signals under either name, and shows the recommendation only when present.
   */
  lemma RenderReadsBothConventions(result: Value)
    requires Truthy(result) && Render(result).Panel?
    ensures var v := Render(result).view;
            var level := if Truthy(Prop(result, "risk_level")) then Prop(result, "risk_level") else Prop(result, "risk");
            v.colour == BadgeColour(level) && v.badge == BadgeLabel(level)
            && (v.score.Some? <==> !Prop(result, "risk_score").Undefined?)
            && (Truthy(Prop(result, "signals")) && Prop(result, "signals").Arr? ==> v.signals == Prop(result, "signals").items)
            && (!Truthy(Prop(result, "signals")) && Prop(result, "risk_signals").Arr? ==> v.signals == Prop(result, "risk_signals").items)
            && (v.recommendation.Some? <==> Truthy(Prop(result, "recommendation")))
  {
  }

  /** A response in the legacy naming renders exactly like the same response in the current naming. */
  lemma LegacyRendersLikeCurrent(level: Value, signals: seq<Value>)
    requires Truthy(level)
    ensures Render(Obj(map["risk" := level, "risk_signals" := Arr(signals)]))
            == Render(Obj(map["risk_level" := level, "signals" := Arr(signals)]))
  {
    var legacy := Obj(map["risk" := level, "risk_signals" := Arr(signals)]);
    var current := Obj(map["risk_level" := level, "signals" := Arr(signals)]);
    assert ReportedRisk(legacy) == level && ReportedRisk(current) == level;
    assert Signals(legacy) == Arr(signals) && Signals(current) == Arr(signals);
  }

  // ---------------------------------------------------------------- scanner state

  /** `message || input`: an explicit non-empty message wins over the text field. */
  function ScanText(message: Option<string>, input: string): (r: string)
    ensures r == input || (message.Some? && r == message.value)
    ensures r == [] <==> (message.None? || message.value == []) && input == []
  {
    if message.Some? && message.value != [] then message.value else input
  }

  class Scanner {
    var input: string
    var result: Value
    var loading: bool
    var error: Option<string>

    constructor ()
      ensures input == [] && result == Null && !loading && error.None?
    {
      input := [];
      result := Null;
      loading := false;
      error := None;
    }

    method Edit(text: string)
      modifies this
      ensures input == text && result == old(result) && loading == old(loading) && error == old(error)
    {
      input := text;
    }

    /**
     * `scan(message)` up to its `await`. Blank text changes nothing; otherwise the panel is cleared,
     * loading starts, and the text is returned as the message to post.
     */
    method Scan(message: Option<string>) returns (sent: Option<string>)
      modifies this
      ensures input == old(input)
      ensures Trim(ScanText(message, old(input))) == [] ==>
                sent.None? && result == old(result) && loading == old(loading) && error == old(error)
      ensures Trim(ScanText(message, old(input))) != [] ==>
                sent == Some(ScanText(message, old(input))) && result == Null && loading && error.None?
    {
      var text := ScanText(message, input);
      if Trim(text) == [] {
        sent := None;
      } else {
        loading, error, result := true, None, Null;
        sent := Some(text);
      }
    }

    /**
     * The continuation once a scan request settles: whatever body `res.json()` reads becomes the result
     * (error statuses included); if the request or the read throws, the fixed error is shown and the
     * result is left as it is. Loading ends either way.
     */
    method Finish(r: Response)
      modifies this
      ensures input == old(input) && !loading
      ensures ReadJson(r).Some? ==> result == ReadJson(r).value && error == old(error)
      ensures ReadJson(r).None? ==> result == old(result) && error == Some(Unreachable)
    {
      var data := ReadJson(r);
      if data.Some? {
        result := data.value;
      } else {
        error := Some(Unreachable);
      }
      loading := false;
    }

    /**
     * An example button: the example is put in the field and scanned. The scan reads the field as it
     * was when the button was rendered, which only matters for an empty example.
     */
    method Example(msg: string) returns (sent: Option<string>)
      modifies this
      ensures input == msg
      ensures msg != [] && Trim(msg) != [] ==> sent == Some(msg) && result == Null && loading && error.None?
      ensures Trim(ScanText(Some(msg), old(input))) == [] ==>
                sent.None? && result == old(result) && loading == old(loading) && error == old(error)
    {
      sent := Scan(Some(msg));
      input := msg;
    }
  }
}
