/** Turning fetched list items into chart points: coercion of the raw
    measures, the filter that drops items without two numbers, and the map
    that attaches coordinates, a label and the quadrant colours. */
module ChartData {
  import opened JsValues
  import Quadrants

  /** One list item as fetched: its id, optional title and the two raw measures. */
  datatype Item = Item(Id: int, Title: Option<string>, Resolvability: Raw, Opportunity: Raw)

  /** One point of the scatter chart. */
  datatype ChartPoint = ChartPoint(
    x: real,
    y: real,
    labelText: string,
    backgroundColor: Quadrants.Rgba,
    borderColor: Quadrants.Rgba)

  /** JavaScript's `parseFloat`, left uninterpreted: the model holds for every
      choice of it. */
  type ParseFloat = string -> JsNumber

  /** The number JavaScript computes for a value that is not null, undefined
      or "": `parseFloat` for a string, `Number` (the identity) for a number. */
  function Coerce(value: Raw, parseFloat: ParseFloat): JsNumber
    requires value.Str? || value.Num?
  {
    if value.Str? then parseFloat(value.s) else value.n
  }

  predicate IsBlank(value: Raw)
  {
    value.Undefined? || value.Null? || value == Str("")
  }

  /** Coercion of a raw value to an optional number: blank values and values
      that coerce to NaN give no number; what is returned is never NaN. */
  function ParseNumber(value: Raw, parseFloat: ParseFloat): (r: Option<real>)
    ensures IsBlank(value) ==> r.None?
    ensures r.Some? <==> !IsBlank(value) && Coerce(value, parseFloat) != NaN
    ensures r.Some? ==> Coerce(value, parseFloat) == Finite(r.value)
  {
    match value
    case Undefined => None
    case Null => None
    case Str(s) =>
      if s == "" then None
      else (match parseFloat(s) case NaN => None case Finite(v) => Some(v))
    case Num(n) => (match n case NaN => None case Finite(v) => Some(v))
  }

  /** An item appears on the chart when both measures coerce to numbers. */
  predicate Plottable(item: Item, parseFloat: ParseFloat)
  {
    ParseNumber(item.Resolvability, parseFloat).Some?
    && ParseNumber(item.Opportunity, parseFloat).Some?
  }

  /** The point label: the title when it is truthy, otherwise "Item <Id>". */
  function PointLabel(item: Item): (text: string)
    ensures TruthyText(item.Title) ==> text == item.Title.value
    ensures !TruthyText(item.Title) ==> |text| > 5 && text[..5] == "Item " && text[5..] == IntToDecimal(item.Id)
  {
    if TruthyText(item.Title) then item.Title.value else "Item " + IntToDecimal(item.Id)
  }

  /** Untitled items with different ids get different labels. */
  lemma UntitledLabelsDistinct(a: Item, b: Item)
    requires !TruthyText(a.Title) && !TruthyText(b.Title)
    requires a.Id != b.Id
    ensures PointLabel(a) != PointLabel(b)
  {
    if PointLabel(a) == PointLabel(b) {
      assert PointLabel(a)[5..] == PointLabel(b)[5..];
      IntToDecimalInjective(a.Id, b.Id);
    }
  }

  /** The map step: coordinates, label and colours of a plottable item. */
  function PointOf(item: Item, parseFloat: ParseFloat): (p: ChartPoint)
    requires Plottable(item, parseFloat)
  {
    var x := ParseNumber(item.Resolvability, parseFloat).value;
    var y := ParseNumber(item.Opportunity, parseFloat).value;
    var colors := Quadrants.QuadrantColor(x, y);
    ChartPoint(x, y, PointLabel(item), colors.bg, colors.border)
  }

  /** Every field of a point is derived from its item. */
  lemma PointFieldsFromItem(item: Item, parseFloat: ParseFloat)
    requires Plottable(item, parseFloat)
    ensures var p := PointOf(item, parseFloat);
      && Coerce(item.Resolvability, parseFloat) == Finite(p.x)
      && Coerce(item.Opportunity, parseFloat) == Finite(p.y)
      && p.backgroundColor == Quadrants.QuadrantColor(p.x, p.y).bg
      && p.borderColor == Quadrants.QuadrantColor(p.x, p.y).border
      && Quadrants.SameRgb(p.backgroundColor, p.borderColor)
      && (TruthyText(item.Title) ==> p.labelText == item.Title.value)
      && (!TruthyText(item.Title) ==> p.labelText == "Item " + IntToDecimal(item.Id))
  {
  }

  /** The filter step, keeping the items in their original order. */
  function KeepPlottable(items: seq<Item>, parseFloat: ParseFloat): (kept: seq<Item>)
    ensures |kept| <= |items|
    ensures forall k :: 0 <= k < |kept| ==> Plottable(kept[k], parseFloat)
    decreases |items|
  {
    if |items| == 0 then []
    else
      var last := items[|items| - 1];
      KeepPlottable(items[..|items| - 1], parseFloat) + (if Plottable(last, parseFloat) then [last] else [])
  }

  /** The chart's point set: filter, then map. */
  function PrepareChartData(items: seq<Item>, parseFloat: ParseFloat): (points: seq<ChartPoint>)
    ensures |points| <= |items|
  {
    var kept := KeepPlottable(items, parseFloat);
    seq(|kept|, k requires 0 <= k < |kept| => PointOf(kept[k], parseFloat))
  }

  predicate StrictlyIncreasing(idx: seq<nat>)
  {
    forall i, j :: 0 <= i < j < |idx| ==> idx[i] < idx[j]
  }

  /** Positions of the plottable items, in increasing order: an independent
      description of which items the chart keeps. */
  function PlottedIndices(items: seq<Item>, parseFloat: ParseFloat): (idx: seq<nat>)
    ensures StrictlyIncreasing(idx)
    ensures forall k :: 0 <= k < |idx| ==> idx[k] < |items|
    ensures forall j :: 0 <= j < |items| ==> (j in idx <==> Plottable(items[j], parseFloat))
    decreases |items|
  {
    if |items| == 0 then []
    else
      var n := |items| - 1;
      var front := PlottedIndices(items[..n], parseFloat);
      assert forall j :: 0 <= j < n ==> items[..n][j] == items[j];
      front + (if Plottable(items[n], parseFloat) then [n] else [])
  }

  /** The filter keeps exactly the items at the plotted positions, in order. */
  lemma {:induction false} KeptItemsAtPlottedIndices(items: seq<Item>, parseFloat: ParseFloat)
    ensures var kept := KeepPlottable(items, parseFloat);
      var idx := PlottedIndices(items, parseFloat);
      && |kept| == |idx|
      && forall k :: 0 <= k < |idx| ==> kept[k] == items[idx[k]]
    decreases |items|
  {
    if |items| > 0 {
      var n := |items| - 1;
      KeptItemsAtPlottedIndices(items[..n], parseFloat);
      var front := PlottedIndices(items[..n], parseFloat);
      forall k | 0 <= k < |front|
        ensures items[..n][front[k]] == items[front[k]]
      {
      }
    }
  }

  /** The point set is the plottable items, in order, each mapped to its point:
      the k-th point comes from the k-th plottable item. */
  lemma ChartDataIsOrderedSubsequence(items: seq<Item>, parseFloat: ParseFloat)
    ensures var points := PrepareChartData(items, parseFloat);
      var idx := PlottedIndices(items, parseFloat);
      && |points| == |idx|
      && forall k :: 0 <= k < |idx| ==> points[k] == PointOf(items[idx[k]], parseFloat)
  {
    KeptItemsAtPlottedIndices(items, parseFloat);
  }

  /** Every plottable item has its point in the set, and every point comes
      from a plottable item. */
  lemma ChartDataSoundAndComplete(items: seq<Item>, parseFloat: ParseFloat)
    ensures forall j :: 0 <= j < |items| && Plottable(items[j], parseFloat) ==>
              PointOf(items[j], parseFloat) in PrepareChartData(items, parseFloat)
    ensures forall p :: p in PrepareChartData(items, parseFloat) ==>
              exists j :: 0 <= j < |items| && Plottable(items[j], parseFloat) && p == PointOf(items[j], parseFloat)
  {
    ChartDataIsOrderedSubsequence(items, parseFloat);
  }

  /** The point set is non-empty exactly when some item is plottable. */
  lemma ChartNonEmptyIffSomePlottable(items: seq<Item>, parseFloat: ParseFloat)
    ensures |PrepareChartData(items, parseFloat)| > 0
        <==> exists j :: 0 <= j < |items| && Plottable(items[j], parseFloat)
  {
    ChartDataIsOrderedSubsequence(items, parseFloat);
    var idx := PlottedIndices(items, parseFloat);
    if |idx| > 0 {
      assert idx[0] in idx && Plottable(items[idx[0]], parseFloat);
    }
    if exists j :: 0 <= j < |items| && Plottable(items[j], parseFloat) {
      var j :| 0 <= j < |items| && Plottable(items[j], parseFloat);
      assert j in idx;
    }
  }

  /** One item in each quadrant gives four points with four different colours. */
  lemma OnePointPerQuadrant(parseFloat: ParseFloat)
    ensures var items := [
        Item(1, None, Num(Finite(10.0)), Num(Finite(10.0))),
        Item(2, None, Num(Finite(10.0)), Num(Finite(40.0))),
        Item(3, None, Num(Finite(40.0)), Num(Finite(10.0))),
        Item(4, None, Num(Finite(40.0)), Num(Finite(40.0)))];
      var points := PrepareChartData(items, parseFloat);
      && |points| == 4
      && forall i, j :: 0 <= i < j < 4 ==> points[i].backgroundColor != points[j].backgroundColor
  {
    var items := [
        Item(1, None, Num(Finite(10.0)), Num(Finite(10.0))),
        Item(2, None, Num(Finite(10.0)), Num(Finite(40.0))),
        Item(3, None, Num(Finite(40.0)), Num(Finite(10.0))),
        Item(4, None, Num(Finite(40.0)), Num(Finite(40.0)))];
    assert KeepPlottable(items[..1], parseFloat) == items[..1] by {
      assert items[..1][..0] == [];
    }
    assert KeepPlottable(items[..2], parseFloat) == items[..2] by {
      assert items[..2][..1] == items[..1];
    }
    assert KeepPlottable(items[..3], parseFloat) == items[..3] by {
      assert items[..3][..2] == items[..2];
    }
    assert KeepPlottable(items, parseFloat) == items by {
      assert items[..3] + [items[3]] == items;
    }
  }
}
