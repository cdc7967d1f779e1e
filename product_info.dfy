/** The figures of the production-chain report: one line per direct
    material (cost each, quantity required after material efficiency, line
    total) and the summary of the root item (cost per batch, batch quantity,
    revenue, profit and margin). The cost of a node, `Cost()`, is defined
    elsewhere and already includes the node's `Quantity`; it enters here as
    a value supplied by the caller. */
module ProductInfo {
  import opened Numeric
  import opened Model

  /** The unrounded quantity of a material one production run of its parent
      draws: the material's quantity scaled by the parent's batch size and
      reduced by the parent's material efficiency. */
  function IdealQuantity(quantity: int, parentBatchSize: int, parentME: real): real
    requires parentME != -1.0
  {
    (quantity * parentBatchSize) as real / (1.0 + parentME)
  }

  /** The "Qty Req" column: the quantity after material efficiency, rounded
      to a whole number with ties away from zero. */
  function QtyAfterME(quantity: int, parentBatchSize: int, parentME: real): (qty: int)
    requires parentME != -1.0
    ensures IsRoundedHalfAway(IdealQuantity(quantity, parentBatchSize, parentME), qty)
  {
    RoundHalfAway(IdealQuantity(quantity, parentBatchSize, parentME))
  }

  /** Without material efficiency and with single-unit batches the quantity
      required is the material's own quantity. */
  lemma QtyWithoutEfficiency(quantity: int)
    ensures QtyAfterME(quantity, 1, 0.0) == quantity
  {
    assert IdealQuantity(quantity, 1, 0.0) == quantity as real;
    RoundingKeepsWholeNumbers(quantity);
  }

  /** A higher material efficiency of the parent never raises the quantity
      required of a material. */
  lemma QtyNonIncreasingInEfficiency(quantity: int, parentBatchSize: int, me1: real, me2: real)
    requires quantity >= 0 && parentBatchSize >= 0
    requires -1.0 < me1 <= me2
    ensures QtyAfterME(quantity, parentBatchSize, me2) <= QtyAfterME(quantity, parentBatchSize, me1)
  {
    var n := (quantity * parentBatchSize) as real;
    assert n >= 0.0 by {
      assert quantity * parentBatchSize >= 0;
    }
    DivisionIsAntitone(n, 1.0 + me1, 1.0 + me2);
    RoundingIsMonotone(IdealQuantity(quantity, parentBatchSize, me2), IdealQuantity(quantity, parentBatchSize, me1));
  }

  /** Dividing a non-negative amount by a larger positive divisor never
      gives more. */
  lemma DivisionIsAntitone(n: real, c1: real, c2: real)
    requires n >= 0.0 && 0.0 < c1 <= c2
    ensures n / c2 <= n / c1
  {
    var a, b := n / c2, n / c1;
    assert a * c2 == n && b * c1 == n;
  }

  /** 100 units per run, batches of 10 and 10% efficiency: 1000 / 1.1 is
      909.09..., which rounds to 909. */
  lemma QtyExampleWithEfficiency()
    ensures QtyAfterME(100, 10, 0.1) == 909
  {
    assert IdealQuantity(100, 10, 0.1) == 1000.0 / 1.1;
    RoundingIsUnique(1000.0 / 1.1, 909);
  }

  /** An exact half rounds up: one unit at 100% efficiency is half a unit,
      and one unit is required. */
  lemma QtyExampleTie()
    ensures QtyAfterME(1, 1, 1.0) == 1
  {
    assert IdealQuantity(1, 1, 1.0) == 0.5;
    RoundingIsUnique(0.5, 1);
  }

  /** One printed material line. */
  datatype Line = Line(number: int, manufactured: bool, costEach: real, quantity: int, costTotal: real)

  /** `line` is what the report shows for material `m` under line number
      `number`, given its parent's batch size and material efficiency. */
  ghost predicate IsLineOf(line: Line, m: Product, number: int, parentBatchSize: int, parentME: real, costEach: real)
    reads m
    ensures IsLineOf(line, m, number, parentBatchSize, parentME, costEach) ==>
      && parentME != -1.0
      && IsRoundedHalfAway(IdealQuantity(m.quantity, parentBatchSize, parentME), line.quantity)
      && line.costTotal == costEach * line.quantity as real
  {
    && parentME != -1.0
    && line.number == number
    && (line.manufactured <==> m.kind == Manufacture)
    && line.costEach == costEach
    && line.quantity == QtyAfterME(m.quantity, parentBatchSize, parentME)
    && line.costTotal == costEach * line.quantity as real
  }

  /** The line-number counter shared by every line of one report. */
  class LineCounter {
    var value: int

    constructor ()
      ensures value == 0
    {
      value := 0;
    }
  }

  /** One material line: advances the shared counter by one and numbers the
      line with the new value. The loop after the unconditional return in
      `printChildProductInfo` is unreachable, so a material's own materials
      are not listed. */
  method PrintChildProductInfo(p: Product, parentBatchSize: int, parentME: real, counter: LineCounter, costEach: real)
    returns (line: Line)
    requires parentME != -1.0
    modifies counter
    ensures counter.value == old(counter.value) + 1
    ensures IsLineOf(line, p, counter.value, parentBatchSize, parentME, costEach)
  {
    counter.value := counter.value + 1;
    var qty := QtyAfterME(p.quantity, parentBatchSize, parentME);
    var total := costEach * qty as real;
    line := Line(counter.value, p.kind == Manufacture, costEach, qty, total);
  }

  /** The material lines of the report for `p`: one per direct material, in
      order, numbered from 1; afterwards the counter has counted every
      direct material once. */
  method MaterialLines(p: Product, cost: Product -> real) returns (lines: seq<Line>, count: int)
    requires |p.materials| > 0 ==> p.materialEfficiency != -1.0
    ensures count == |p.materials| && |lines| == |p.materials|
    ensures forall i :: 0 <= i < |lines| ==>
      IsLineOf(lines[i], p.materials[i], i + 1, p.batchSize, p.materialEfficiency, cost(p.materials[i]))
  {
    var counter := new LineCounter();
    var materials := p.materials;
    lines := [];
    for k := 0 to |materials|
      invariant counter.value == k == |lines|
      invariant forall i :: 0 <= i < k ==>
        IsLineOf(lines[i], materials[i], i + 1, p.batchSize, p.materialEfficiency, cost(materials[i]))
    {
      var line := PrintChildProductInfo(materials[k], p.batchSize, p.materialEfficiency, counter, cost(materials[k]));
      lines := lines + [line];
    }
    count := counter.value;
  }

  /** The unit label of the report's column heading and summary. */
  function UnitLabel(batchQuantity: int): (heading: string)
    ensures heading == "unit" <==> batchQuantity <= 1
    ensures batchQuantity > 1 ==>
      && |heading| > 6
      && heading[|heading| - 6..] == " units"
      && heading[0] != '0'
      && AllDigits(heading[..|heading| - 6])
      && DigitsValue(heading[..|heading| - 6]) == batchQuantity
  {
    if batchQuantity > 1 then
      var digits := NatToString(batchQuantity);
      DigitsValueOfNatToString(batchQuantity);
      assert (digits + " units")[..|digits|] == digits;
      digits + " units"
    else "unit"
  }

  /** The summary of the root item of a report. */
  datatype Summary = Summary(
    costPerBatch: real,
    batchQuantity: int,
    revenue: real,
    profit: real,
    margin: real,
    unitLabel: string)

  /** The margin in percent of a profit on a revenue; zero when there is no
      revenue. */
  function MarginPercent(profit: real, revenue: real): (margin: real)
    ensures revenue == 0.0 ==> margin == 0.0
    ensures revenue != 0.0 ==> margin * revenue == 100.0 * profit
  {
    if revenue != 0.0 then
      var q := profit / revenue;
      assert q * revenue == profit;
      q * 100.0
    else 0.0
  }

  /** The margin is zero exactly when there is no revenue or the revenue
      only covers the cost. */
  lemma MarginZeroAtBreakEven(revenue: real, costPerBatch: real)
    ensures MarginPercent(revenue - costPerBatch, revenue) == 0.0 <==> revenue == 0.0 || revenue == costPerBatch
  {
    var m := MarginPercent(revenue - costPerBatch, revenue);
    if revenue != 0.0 && m == 0.0 {
      assert 100.0 * (revenue - costPerBatch) == 0.0;
    }
  }

  /** With positive revenue and a cost that is not negative, the margin is
      at most 100%, and reaches it only when the batch costs nothing. */
  lemma MarginAtMostHundred(revenue: real, costPerBatch: real)
    requires revenue > 0.0 && costPerBatch >= 0.0
    ensures MarginPercent(revenue - costPerBatch, revenue) <= 100.0
    ensures MarginPercent(revenue - costPerBatch, revenue) == 100.0 <==> costPerBatch == 0.0
  {
    var m := MarginPercent(revenue - costPerBatch, revenue);
    assert m * revenue == 100.0 * (revenue - costPerBatch);
    assert (m - 100.0) * revenue == -100.0 * costPerBatch;
    SignOfProduct(m - 100.0, revenue);
  }

  lemma SignOfProduct(x: real, y: real)
    requires y > 0.0
    ensures x * y < 0.0 <==> x < 0.0
    ensures x * y == 0.0 <==> x == 0.0
  {
  }

  /** Scaling a cost up by a batch size and back down gives the cost. */
  lemma ScalingByBatchCancels(cost: real, batchSize: int)
    requires batchSize != 0
    ensures cost * batchSize as real / batchSize as real == cost
  {
  }

  /** The summary's cost per batch, divided by the batch size, gives back
      the node's `Cost()` value. */
  lemma SummaryCostRecoversNodeCost(p: Product, cost: real)
    requires p.batchSize != 0
    ensures Summarize(p, cost).costPerBatch / p.batchSize as real == cost
  {
    ScalingByBatchCancels(cost, p.batchSize);
  }

  /** The summary of `p` whose `Cost()` value is `cost`. */
  function Summarize(p: Product, cost: real): (s: Summary)
    reads p
    ensures s.batchQuantity == p.quantity * p.batchSize
    ensures s.costPerBatch == cost * p.batchSize as real
    ensures s.revenue == p.marketPrice * s.batchQuantity as real
    ensures s.costPerBatch + s.profit == s.revenue
    ensures s.margin == MarginPercent(s.revenue - s.costPerBatch, s.revenue)
    ensures s.unitLabel == UnitLabel(s.batchQuantity)
  {
    var batchSize := p.batchSize as real;
    var costEach := cost * batchSize;
    var batchQuantity := p.quantity * p.batchSize;
    var sellEach := p.marketPrice * batchQuantity as real;
    var profitEach := sellEach - costEach;
    var marginEach := MarginPercent(profitEach, sellEach);
    Summary(costEach, batchQuantity, sellEach, profitEach, marginEach, UnitLabel(batchQuantity))
  }
}
