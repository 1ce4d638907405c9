/** The evaluation bar beside the board (src/components/board/evaluationBar.tsx): the bar
    keeps the last value computed from a deep enough evaluation, splits its width between
    two boxes according to the board's orientation, and shows the label in one of them. */
module EvaluationBar {
  import opened Common

  /** What `getEvaluationBarValue` returns: White's share of the bar, in percent, and the
      text of the label. */
  datatype BarValue = BarValue(whiteBarPercentage: real, text: string)

  /** The first engine line of an evaluation, as far as the bar looks at it. */
  datatype EngineLine = EngineLine(depth: int)
  datatype PositionLines = PositionLines(lines: seq<EngineLine>)

  /** The current position's evaluation, when there is one. */
  datatype CurrentPosition = CurrentPosition(eval: Option<PositionLines>)

  /** The guard of the effect: an evaluation exists, it has a first line, and that line
      was searched to depth 6 or more. */
  predicate DeepEnough(position: CurrentPosition) {
    position.eval.Some? && |position.eval.value.lines| > 0 && position.eval.value.lines[0].depth >= 6
  }

  class EvalBar {
    var whiteBarPercentage: real
    var text: string

    /** The bar starts balanced, labelled "0.0". */
    constructor ()
      ensures whiteBarPercentage == 50.0 && text == "0.0"
    {
      whiteBarPercentage, text := 50.0, "0.0";
    }

    /** The effect on a new position: `computed` is `getEvaluationBarValue(position.eval)`;
        it replaces the bar's value only when the evaluation is deep enough. */
    method OnPositionChange(position: CurrentPosition, computed: BarValue)
      modifies this
      ensures DeepEnough(position) ==> whiteBarPercentage == computed.whiteBarPercentage && text == computed.text
      ensures !DeepEnough(position) ==> whiteBarPercentage == old(whiteBarPercentage) && text == old(text)
    {
      var bestLine := if position.eval.Some? && |position.eval.value.lines| > 0
                      then Some(position.eval.value.lines[0]) else None;
      if position.eval.None? || bestLine.None? || bestLine.value.depth < 6 {
        return;
      }
      whiteBarPercentage, text := computed.whiteBarPercentage, computed.text;
    }
  }

  /** `boardOrientation === c` for an orientation that may be undefined. */
  predicate Oriented(orientation: Option<Color>, c: Color) {
    orientation.Some? && orientation.value == c
  }

  /** The side a box of the bar stands for: with White at the bottom the left (first) box
      is Black's share and the right box White's; with any other orientation it is the
      other way round. */
  function LeftSide(orientation: Option<Color>): Color {
    if Oriented(orientation, White) then Black else White
  }

  /** The widths of the left and right boxes, in percent. */
  function BoxWidths(orientation: Option<Color>, p: real): (w: (real, real))
    ensures w.0 + w.1 == 100.0
    ensures Oriented(orientation, White) ==> w.0 == 100.0 - p && w.1 == p
    ensures !Oriented(orientation, White) ==> w.0 == p && w.1 == 100.0 - p
    ensures (if LeftSide(orientation) == White then w.0 else w.1) == p
  {
    if Oriented(orientation, White) then (100.0 - p, p) else (p, 100.0 - p)
  }

  /** Whether the label is shown in the left and in the right box: for a known
      orientation in exactly one of them, the box of the side the value favours (White
      from 50 % up); for an undefined orientation in neither. */
  function LabelSlots(orientation: Option<Color>, p: real): (s: (bool, bool))
    ensures orientation.Some? ==> s.0 != s.1
    ensures orientation.None? ==> !s.0 && !s.1
    ensures s.0 ==> LeftSide(orientation) == (if p >= 50.0 then White else Black)
    ensures s.1 ==> Opponent(LeftSide(orientation)) == (if p >= 50.0 then White else Black)
  {
    ((p < 50.0 && Oriented(orientation, White)) || (p >= 50.0 && Oriented(orientation, Black)),
     (p >= 50.0 && Oriented(orientation, White)) || (p < 50.0 && Oriented(orientation, Black)))
  }
}
