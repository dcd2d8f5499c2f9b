/**
 * The cognitive-weight sliders: a private copy of the configured weights,
 * one slider per weight, and a reset back to the configuration.
 */
module CognitiveWeights {
  import opened SiteData

  datatype Colour = Amber | Green | Muted

  /** `COGNITIVE_WEIGHTS.map(w => ({ ...w }))`: a fresh copy of every entry. */
  function Initial(configured: seq<Weight>): seq<Weight> {
    seq(|configured|, i requires 0 <= i < |configured| => configured[i])
  }

  /** `handleChange(index, value)`: entry `index` with its value replaced. */
  function Changed(weights: seq<Weight>, index: nat, value: Hundredths): (r: seq<Weight>)
    requires index < |weights|
    ensures |r| == |weights|
    ensures r[index].key == weights[index].key && r[index].title == weights[index].title
    ensures r[index].value == value
    ensures forall j :: 0 <= j < |r| && j != index ==> r[j] == weights[j]
  {
    weights[index := weights[index].(value := value)]
  }

  /** `handleReset`. */
  function Reset(configured: seq<Weight>): seq<Weight> {
    Initial(configured)
  }

  /** The bar's colour: amber above 0.7, green above 0.4, muted otherwise. */
  function BarColour(value: Hundredths): Colour {
    if value > 70 then Amber else if value > 40 then Green else Muted
  }

  /** A slider movement the page can produce: one of the rendered rows and a slider position. */
  datatype Move = Move(index: nat, value: Hundredths)

  /** The weights after a series of slider movements. */
  function Moved(weights: seq<Weight>, moves: seq<Move>): (r: seq<Weight>)
    requires forall m :: m in moves ==> m.index < |weights|
    ensures |r| == |weights|
  {
    if moves == [] then weights
    else
      var last := moves[|moves| - 1];
      Changed(Moved(weights, moves[..|moves| - 1]), last.index, last.value)
  }

  /** The initial state and the state after a reset are the configuration, entry for entry. */
  lemma InitialIsConfiguration(configured: seq<Weight>)
    ensures Initial(configured) == configured
    ensures Reset(configured) == configured
  {
  }

  /** Sliders only change values: the rows, their keys and their titles stay as they were. */
  lemma {:induction false} MovedKeepsRows(weights: seq<Weight>, moves: seq<Move>)
    requires forall m :: m in moves ==> m.index < |weights|
    ensures var r := Moved(weights, moves);
            forall j :: 0 <= j < |r| ==> r[j].key == weights[j].key && r[j].title == weights[j].title
  {
    if moves != [] {
      MovedKeepsRows(weights, moves[..|moves| - 1]);
    }
  }

  /** Each row shows the last value its own slider produced, or the original one if it never moved. */
  lemma {:induction false} MovedShowsLastMove(weights: seq<Weight>, moves: seq<Move>, j: nat)
    requires forall m :: m in moves ==> m.index < |weights|
    requires j < |weights|
    ensures Moved(weights, moves)[j].value == LastValue(weights[j].value, moves, j)
  {
    if moves != [] {
      MovedShowsLastMove(weights, moves[..|moves| - 1], j);
    }
  }

  /** The value of the last move of row `j`, or `original` when row `j` never moved. */
  function LastValue(original: Hundredths, moves: seq<Move>, j: nat): Hundredths {
    if moves == [] then original
    else if moves[|moves| - 1].index == j then moves[|moves| - 1].value
    else LastValue(original, moves[..|moves| - 1], j)
  }

  /** Moving two different sliders gives the same weights in either order. */
  lemma ChangesCommute(weights: seq<Weight>, i: nat, u: Hundredths, j: nat, v: Hundredths)
    requires i < |weights| && j < |weights| && i != j
    ensures Changed(Changed(weights, i, u), j, v) == Changed(Changed(weights, j, v), i, u)
  {
  }

  /** The colour bands: the three colours partition [0, 1] at 0.4 and 0.7, and a larger value never
      gets a lower band. */
  lemma BarBands(value: Hundredths, larger: Hundredths)
    requires value <= larger
    ensures BarColour(value) == Amber <==> value > 70
    ensures BarColour(value) == Green <==> 40 < value <= 70
    ensures BarColour(value) == Muted <==> value <= 40
    ensures BarColour(value) == Amber ==> BarColour(larger) == Amber
    ensures BarColour(value) == Green ==> BarColour(larger) != Muted
  {
  }
}
