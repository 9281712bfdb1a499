/**
 * The live preview of `updatePreview`: position size, profit and loss, and
 * return on margin for a Long or Short trade, over exact reals.
 */
module Calculator {
  import opened Wrappers
  import opened NumberParser

  datatype Direction = Long | Short

  /**
   * One figure as the preview shows it: a sign prefix, the number, and a unit
   * suffix. The two-decimal rounding of the display is not modelled.
   */
  datatype Figure = Figure(sign: string, value: real, unit: string)

  /** The preview box: hidden, or shown with the text and CSS class of each figure. */
  datatype Preview =
    | Hidden
    | Shown(pnl: Figure, pnlClass: string, roi: Figure, roiClass: string, size: Figure, sizeClass: string)

  const ValueClass := "preview-value"
  const ProfitClass := "preview-value profit"
  const LossClass := "preview-value loss"

  /**
   * The preview for parsed entry, exit and margin: hidden unless all three are
   * positive numbers, otherwise size = margin x leverage, PnL = relative price
   * move x size, ROI = PnL / margin x 100, and profit styling when PnL >= 0.
   */
  function Compute(entry: Option<real>, exit: Option<real>, margin: Option<real>,
                   leverage: int, direction: Direction): (v: Preview)
    ensures v.Shown? <==> IsPositive(entry) && IsPositive(exit) && IsPositive(margin)
  {
    if IsFalsy(entry) || IsFalsy(exit) || IsFalsy(margin)
       || entry.value <= 0.0 || exit.value <= 0.0 || margin.value <= 0.0
    then Hidden
    else
      var e, x, mg := entry.value, exit.value, margin.value;
      var size := mg * leverage as real;
      var pnl := if direction == Long then ((x - e) / e) * size else ((e - x) / e) * size;
      var roi := (pnl / mg) * 100.0;
      var isProfit := pnl >= 0.0;
      var sign := if isProfit then "+" else "";
      var cls := if isProfit then "profit" else "loss";
      Shown(Figure(sign, pnl, " USDT"), ValueClass + " " + cls,
            Figure(sign, roi, "%"), ValueClass + " " + cls,
            Figure("", size, " USDT"), ValueClass)
  }

  /** `updatePreview`: the preview for the raw text of the three price fields. */
  function UpdatePreview(entryText: string, exitText: string, marginText: string,
                         leverage: int, direction: Direction): (v: Preview)
    ensures v.Hidden? <==>
      !IsPositive(ParseNum(entryText)) || !IsPositive(ParseNum(exitText)) || !IsPositive(ParseNum(marginText))
  {
    Compute(ParseNum(entryText), ParseNum(exitText), ParseNum(marginText), leverage, direction)
  }

  /**
   * For positive inputs the figures are: size = margin x leverage,
   * PnL = (exit - entry) / entry x size for Long and its negation for Short,
   * and ROI = price move x leverage x 100, which does not involve the margin.
   */
  lemma ShownFigures(e: real, x: real, mg: real, leverage: int, direction: Direction)
    requires e > 0.0 && x > 0.0 && mg > 0.0
    ensures var v := Compute(Some(e), Some(x), Some(mg), leverage, direction);
      var move := if direction == Long then (x - e) / e else (e - x) / e;
      v.Shown? && v.size.value == mg * leverage as real
      && v.pnl.value == move * mg * leverage as real
      && v.roi.value == move * leverage as real * 100.0
      && v.roi.value * mg == v.pnl.value * 100.0
  {
    var move := if direction == Long then (x - e) / e else (e - x) / e;
    var size := mg * leverage as real;
    var pnl := move * size;
    assert pnl / mg == move * leverage as real by {
      assert pnl == (move * leverage as real) * mg;
    }
  }

  /** The ROI is the same for every margin: it depends on the price move and leverage only. */
  lemma RoiIndependentOfMargin(e: real, x: real, m1: real, m2: real, leverage: int, direction: Direction)
    requires e > 0.0 && x > 0.0 && m1 > 0.0 && m2 > 0.0
    ensures Compute(Some(e), Some(x), Some(m1), leverage, direction).roi.value
         == Compute(Some(e), Some(x), Some(m2), leverage, direction).roi.value
  {
    ShownFigures(e, x, m1, leverage, direction);
    ShownFigures(e, x, m2, leverage, direction);
  }

  /** Short is the mirror of Long: the same size, and exactly negated PnL and ROI. */
  lemma ShortMirrorsLong(e: real, x: real, mg: real, leverage: int)
    requires e > 0.0 && x > 0.0 && mg > 0.0
    ensures var long := Compute(Some(e), Some(x), Some(mg), leverage, Long);
      var short := Compute(Some(e), Some(x), Some(mg), leverage, Short);
      short.size == long.size && short.pnl.value == -long.pnl.value && short.roi.value == -long.roi.value
  {
    ShownFigures(e, x, mg, leverage, Long);
    ShownFigures(e, x, mg, leverage, Short);
    assert (e - x) / e == -((x - e) / e);
  }

  /**
   * Styling: a PnL >= 0 shows "+" and the profit class on both PnL and ROI,
   * a loss shows no sign and the loss class; the ROI has the same sign as the
   * PnL; the size never carries a sign or a profit/loss class.
   */
  lemma ProfitStyling(e: real, x: real, mg: real, leverage: int, direction: Direction)
    requires e > 0.0 && x > 0.0 && mg > 0.0
    ensures var v := Compute(Some(e), Some(x), Some(mg), leverage, direction);
      && (v.pnl.value >= 0.0 ==> v.pnl.sign == "+" && v.pnlClass == ProfitClass)
      && (v.pnl.value < 0.0 ==> v.pnl.sign == "" && v.pnlClass == LossClass)
      && v.roi.sign == v.pnl.sign && v.roiClass == v.pnlClass
      && (v.roi.value >= 0.0 <==> v.pnl.value >= 0.0)
      && v.size.sign == "" && v.sizeClass == ValueClass
  {
    ShownFigures(e, x, mg, leverage, direction);
  }

  /** With a positive leverage the trade shows a profit exactly when the price moved its way (or not at all). */
  lemma ProfitIffFavourableMove(e: real, x: real, mg: real, leverage: int, direction: Direction)
    requires e > 0.0 && x > 0.0 && mg > 0.0 && leverage > 0
    ensures Compute(Some(e), Some(x), Some(mg), leverage, direction).pnl.sign == "+"
        <==> (if direction == Long then x >= e else x <= e)
  {
    ShownFigures(e, x, mg, leverage, direction);
    var move := if direction == Long then (x - e) / e else (e - x) / e;
    var k := mg * leverage as real;
    assert k > 0.0;
    assert move * mg * leverage as real == move * k;
    assert move >= 0.0 <==> (if direction == Long then x >= e else x <= e);
    assert move * k >= 0.0 <==> move >= 0.0;
  }

  /** Entry 100, exit 110, margin 10, leverage 5: size 50, PnL +5 and ROI +50 % Long, -5 and -50 % Short. */
  lemma WorkedExample()
    ensures var long := Compute(Some(100.0), Some(110.0), Some(10.0), 5, Long);
      long.size.value == 50.0 && long.pnl == Figure("+", 5.0, " USDT") && long.roi == Figure("+", 50.0, "%")
      && long.pnlClass == ProfitClass
    ensures var short := Compute(Some(100.0), Some(110.0), Some(10.0), 5, Short);
      short.size.value == 50.0 && short.pnl == Figure("", -5.0, " USDT") && short.roi == Figure("", -50.0, "%")
      && short.pnlClass == LossClass
  {
  }

  /** A zero in any of the three price fields hides the preview, for both directions. */
  lemma ZeroHides(direction: Direction, leverage: int)
    ensures UpdatePreview("0", "110", "10", leverage, direction).Hidden?
    ensures UpdatePreview("100", "0", "10", leverage, direction).Hidden?
    ensures UpdatePreview("100", "110", "0", leverage, direction).Hidden?
  {
    ParseNumInteger("0");
    assert DigitsValue("0") == 0 by { assert "0"[..0] == ""; }
  }
}
