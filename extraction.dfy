/**
 * The extraction half of `rebuildCache`: from the forecast blocks of the
 * fetched page to a list of forecast records, all or nothing.
 *
 * A block stands for one inner table of the page; its rows are the table's
 * `tr` elements in document order, each given by the texts of its `td`
 * cells and by the row's own text.  The spec functions `ValuesOf` and
 * `Extract` say what a run produces; `ExtractForecasts` is the loop of
 * `rebuildCache` in main.go, with its two error flags, proved to produce exactly that.
 */
module Extraction {
  import opened Wrappers
  import opened Strconv

  /** One `tr`: the texts of its `td` cells, and its whole text. */
  datatype Row = Row(cells: seq<string>, text: string)

  /** One matched inner table, as its rows. */
  type Block = seq<Row>

  /** `forecastValue`: one pollen type and its count. */
  datatype ForecastValue = ForecastValue(name: string, value: int)

  /** `forecast`: one area's report. */
  datatype Forecast = Forecast(cityName: string, forecastText: string, values: seq<ForecastValue>)

  /**
   * The errors a rebuild or a read reports.  One type serves both, as
   * `fetchCache` and `rebuildCache` in main.go both return a plain `error`.
   */
  datatype Error =
    | FetchError(cause: string)      // the page could not be fetched
    | ParseError(valueText: string)  // a value cell that is neither "-" nor an integer
    | CacheEmpty                     // a read before any successful rebuild

  /** The marker the page uses for a value that is not reported. */
  const Placeholder: string := "-"

  /** A row the value loop looks at: exactly two cells. */
  predicate IsMeasurementRow(row: Row) { |row.cells| == 2 }

  /**
   * The value of a value cell: the placeholder means 0 and no parse is tried;
   * any other text must be what `Atoi` accepts, or the error names the text.
   */
  function ParseValue(text: string): (r: Result<int, Error>)
    ensures text == Placeholder ==> r == Success(0)
    ensures text != Placeholder ==>
      (r.Success? <==> IsDecimal(text) && InInt64(DecimalValue(text)))
    ensures text != Placeholder && r.Success? ==> r.value == DecimalValue(text)
    ensures r.Failure? ==> r.error == ParseError(text)
  {
    AtoiSpec(text);
    if text == Placeholder then Success(0)
    else match Atoi(text)
      case Some(v) => Success(v)
      case None => Failure(ParseError(text))
  }

  /** What one row contributes: nothing, a value, or the error that ends the rebuild. */
  datatype RowOutcome = Skipped | Measured(measured: ForecastValue) | Malformed(error: Error)

  /** One iteration of the row loop: rows without exactly two cells are skipped. */
  function ClassifyRow(row: Row): (o: RowOutcome)
    ensures o.Skipped? <==> !IsMeasurementRow(row)
    ensures o.Measured? ==>
      o.measured.name == row.cells[0] && ParseValue(row.cells[1]) == Success(o.measured.value)
    ensures o.Malformed? ==> ParseValue(row.cells[1]) == Failure(o.error)
    ensures IsMeasurementRow(row) && row.cells[1] == Placeholder ==>
      o == Measured(ForecastValue(row.cells[0], 0))
  {
    if !IsMeasurementRow(row) then Skipped
    else match ParseValue(row.cells[1])
      case Success(v) => Measured(ForecastValue(row.cells[0], v))
      case Failure(e) => Malformed(e)
  }

  /** The rows with exactly two cells, in order (order: `MeasurementRowsAppend`). */
  function MeasurementRows(rows: seq<Row>): (m: seq<Row>)
    ensures forall k :: 0 <= k < |m| ==> IsMeasurementRow(m[k])
    ensures forall i :: 0 <= i < |rows| && IsMeasurementRow(rows[i]) ==> rows[i] in m
    ensures forall r :: r in m ==> r in rows
    decreases |rows|
  {
    if rows == [] then []
    else
      var m := MeasurementRows(rows[..|rows| - 1]);
      if IsMeasurementRow(rows[|rows| - 1]) then m + [rows[|rows| - 1]] else m
  }

  /** Filtering distributes over concatenation, so the kept rows keep their relative order. */
  lemma {:induction false} MeasurementRowsAppend(a: seq<Row>, b: seq<Row>)
    ensures MeasurementRows(a + b) == MeasurementRows(a) + MeasurementRows(b)
    decreases |b|
  {
    if b == [] {
      assert a + b == a;
    } else {
      var c := a + b;
      assert c[..|c| - 1] == a + b[..|b| - 1];
      assert c[|c| - 1] == b[|b| - 1];
      MeasurementRowsAppend(a, b[..|b| - 1]);
    }
  }

  /** The values of one block: the rows folded in order; the first malformed row decides the error. */
  function ValuesOf(rows: seq<Row>): (r: Result<seq<ForecastValue>, Error>)
    decreases |rows|
  {
    if rows == [] then Success([])
    else
      var prior := ValuesOf(rows[..|rows| - 1]);
      if prior.Failure? then prior
      else match ClassifyRow(rows[|rows| - 1])
        case Skipped => prior
        case Measured(v) => Success(prior.value + [v])
        case Malformed(e) => Failure(e)
  }

  /** The text of the first row, or "" for a block without rows. */
  function CityName(block: Block): (name: string)
  {
    if block == [] then "" else block[0].text
  }

  /** The text of the last row, or "" for a block without rows. */
  function ForecastText(block: Block): (text: string)
  {
    if block == [] then "" else block[|block| - 1].text
  }

  /** The record one block yields, or the error of its first malformed row. */
  function ForecastOf(block: Block): (r: Result<Forecast, Error>)
  {
    match ValuesOf(block)
    case Success(vs) => Success(Forecast(CityName(block), ForecastText(block), vs))
    case Failure(e) => Failure(e)
  }

  /** The records of all blocks, in order; the first failing block decides the error. */
  function Extract(blocks: seq<Block>): (r: Result<seq<Forecast>, Error>)
    decreases |blocks|
  {
    if blocks == [] then Success([])
    else
      var prior := Extract(blocks[..|blocks| - 1]);
      if prior.Failure? then prior
      else match ForecastOf(blocks[|blocks| - 1])
        case Success(f) => Success(prior.value + [f])
        case Failure(e) => Failure(e)
  }

  /**
   * The loop of `rebuildCache` over the matched tables and, inside it, over
   * each table's rows.  `outerErr` and `err` are `rebuildCache`'s flags: once
   * set, the remaining iterations do nothing.  As in main.go, a row whose value
   * fails to parse is still appended (with 0) before the block is dropped.
   */
  method ExtractForecasts(blocks: seq<Block>) returns (r: Result<seq<Forecast>, Error>)
    ensures r == Extract(blocks)
  {
    var forecasts: seq<Forecast> := [];
    var outerErr: Option<Error> := None;
    var i := 0;
    while i < |blocks|
      invariant 0 <= i <= |blocks|
      invariant outerErr.None? ==> Extract(blocks[..i]) == Success(forecasts)
      invariant outerErr.Some? ==> Extract(blocks[..i]) == Failure(outerErr.value)
    {
      if outerErr.None? {
        var block := blocks[i];
        var cityName := if |block| == 0 then "" else block[0].text;
        var forecastText := if |block| == 0 then "" else block[|block| - 1].text;
        var values: seq<ForecastValue> := [];
        var err: Option<Error> := None;
        var j := 0;
        while j < |block|
          invariant 0 <= j <= |block|
          invariant err.None? ==> ValuesOf(block[..j]) == Success(values)
          invariant err.Some? ==> ValuesOf(block[..j]) == Failure(err.value)
        {
          var row := block[j];
          if err.None? && |row.cells| == 2 {
            var strValue := row.cells[1];
            var value := 0;
            if strValue != "-" {
              var parsed := Atoi(strValue);
              if parsed.None? {
                err := Some(ParseError(strValue));
              } else {
                value := parsed.value;
              }
            }
            values := values + [ForecastValue(row.cells[0], value)];
          }
          assert block[..j + 1][..j] == block[..j];
          j := j + 1;
        }
        assert block[..j] == block;
        if err.Some? {
          outerErr := err;
        } else {
          forecasts := forecasts + [Forecast(cityName, forecastText, values)];
        }
      }
      assert blocks[..i + 1][..i] == blocks[..i];
      i := i + 1;
    }
    assert blocks[..i] == blocks;
    if outerErr.Some? {
      r := Failure(outerErr.value);
    } else {
      r := Success(forecasts);
    }
  }

  /**
   * A block's values exist exactly when every two-cell row's value cell
   * parses; they are then one per two-cell row, in row order, each named by
   * the row's first cell and valued by its second.
   */
  lemma {:induction false} ValuesOfSpec(rows: seq<Row>)
    ensures ValuesOf(rows).Success? <==>
      forall i :: 0 <= i < |rows| && IsMeasurementRow(rows[i]) ==> ParseValue(rows[i].cells[1]).Success?
    ensures ValuesOf(rows).Success? ==>
      |ValuesOf(rows).value| == |MeasurementRows(rows)| &&
      forall k :: 0 <= k < |MeasurementRows(rows)| ==>
        ClassifyRow(MeasurementRows(rows)[k]) == Measured(ValuesOf(rows).value[k])
    decreases |rows|
  {
    if rows != [] {
      var init := rows[..|rows| - 1];
      var last := rows[|rows| - 1];
      ValuesOfSpec(init);
      assert forall i :: 0 <= i < |init| ==> init[i] == rows[i];
    }
  }

  /** A failing block fails on its first two-cell row whose value cell does not parse. */
  lemma {:induction false} ValuesOfFailure(rows: seq<Row>)
    requires ValuesOf(rows).Failure?
    ensures exists i :: (0 <= i < |rows| && IsMeasurementRow(rows[i]) &&
      ParseValue(rows[i].cells[1]) == Failure(ValuesOf(rows).error) &&
      forall j :: 0 <= j < i && IsMeasurementRow(rows[j]) ==> ParseValue(rows[j].cells[1]).Success?)
    decreases |rows|
  {
    var init := rows[..|rows| - 1];
    assert forall i :: 0 <= i < |init| ==> init[i] == rows[i];
    if ValuesOf(init).Failure? {
      ValuesOfFailure(init);
      var i :| 0 <= i < |init| && IsMeasurementRow(init[i]) &&
        ParseValue(init[i].cells[1]) == Failure(ValuesOf(init).error) &&
        forall j :: 0 <= j < i && IsMeasurementRow(init[j]) ==> ParseValue(init[j].cells[1]).Success?;
      assert rows[i] == init[i];
    } else {
      ValuesOfSpec(init);
      var i := |rows| - 1;
      assert IsMeasurementRow(rows[i]) && ParseValue(rows[i].cells[1]) == Failure(ValuesOf(rows).error);
    }
  }

  /**
   * A rebuild's extraction succeeds exactly when every block's values do;
   * it then yields one record per block, in block order, with the first
   * row's text as city name, the last row's text as forecast text (both ""
   * for a block without rows) and the block's values.
   */
  lemma {:induction false} ExtractSpec(blocks: seq<Block>)
    ensures Extract(blocks).Success? <==>
      forall i :: 0 <= i < |blocks| ==> ValuesOf(blocks[i]).Success?
    ensures Extract(blocks).Success? ==>
      var fs := Extract(blocks).value;
      |fs| == |blocks| &&
      forall i :: 0 <= i < |blocks| ==>
        fs[i].cityName == (if blocks[i] == [] then "" else blocks[i][0].text) &&
        fs[i].forecastText == (if blocks[i] == [] then "" else blocks[i][|blocks[i]| - 1].text) &&
        fs[i].values == ValuesOf(blocks[i]).value
    decreases |blocks|
  {
    if blocks != [] {
      var init := blocks[..|blocks| - 1];
      ExtractSpec(init);
      assert forall i :: 0 <= i < |init| ==> init[i] == blocks[i];
    }
  }

  /** A failing extraction fails with the error of its first failing block. */
  lemma {:induction false} ExtractFailure(blocks: seq<Block>)
    requires Extract(blocks).Failure?
    ensures exists i :: (0 <= i < |blocks| && ValuesOf(blocks[i]) == Failure(Extract(blocks).error) &&
      forall j :: 0 <= j < i ==> ValuesOf(blocks[j]).Success?)
    decreases |blocks|
  {
    var init := blocks[..|blocks| - 1];
    assert forall i :: 0 <= i < |init| ==> init[i] == blocks[i];
    if Extract(init).Failure? {
      ExtractFailure(init);
      var i :| 0 <= i < |init| && ValuesOf(init[i]) == Failure(Extract(init).error) &&
        forall j :: 0 <= j < i ==> ValuesOf(init[j]).Success?;
      assert blocks[i] == init[i];
    } else {
      ExtractSpec(init);
      assert ValuesOf(blocks[|blocks| - 1]) == Failure(Extract(blocks).error);
    }
  }

  /**
   * One two-cell row anywhere whose value is neither "-" nor an integer in
   * range makes the whole extraction fail, naming the first such text.
   */
  lemma MalformedValueFailsAll(blocks: seq<Block>, b: nat, k: nat)
    requires b < |blocks| && k < |blocks[b]|
    requires IsMeasurementRow(blocks[b][k])
    requires blocks[b][k].cells[1] != Placeholder
    requires !(IsDecimal(blocks[b][k].cells[1]) && InInt64(DecimalValue(blocks[b][k].cells[1])))
    ensures Extract(blocks).Failure? && Extract(blocks).error.ParseError?
  {
    ValuesOfSpec(blocks[b]);
    ExtractSpec(blocks);
    ExtractFailure(blocks);
    var i :| 0 <= i < |blocks| && ValuesOf(blocks[i]) == Failure(Extract(blocks).error);
    ValuesOfFailure(blocks[i]);
  }

  /** A table titled "Aarhus" with a two-cell row per pollen type, one of them unreported. */
  function AarhusBlock(): Block
  {
    [ Row([], "Aarhus"),
      Row(["Birk", "12"], "Birk12"),
      Row(["El", "-"], "El-"),
      Row(["Græs", "1"], "Græs1"),
      Row([], "Lav risiko") ]
  }

  /** The same table with a value that is neither "-" nor a number. */
  function BrokenBlock(): Block
  {
    [ Row([], "Aarhus"), Row(["Birk", "abc"], "Birkabc"), Row([], "Ukendt") ]
  }

  /** The record the Aarhus table yields: header and footer texts, one value per two-cell row. */
  lemma AarhusExtracted()
    ensures Extract([AarhusBlock()]) == Success([
      Forecast("Aarhus", "Lav risiko",
        [ForecastValue("Birk", 12), ForecastValue("El", 0), ForecastValue("Græs", 1)])])
  {
    AtoiSpec("12");
    AtoiSpec("1");
    assert "12"[..1] == "1";
    var b := AarhusBlock();
    assert ClassifyRow(b[0]) == Skipped && ClassifyRow(b[4]) == Skipped;
    assert ClassifyRow(b[1]) == Measured(ForecastValue("Birk", 12));
    assert ClassifyRow(b[2]) == Measured(ForecastValue("El", 0));
    assert ClassifyRow(b[3]) == Measured(ForecastValue("Græs", 1));
    var v0: seq<ForecastValue> := [];
    var v1 := v0 + [ForecastValue("Birk", 12)];
    var v2 := v1 + [ForecastValue("El", 0)];
    var v3 := v2 + [ForecastValue("Græs", 1)];
    assert b[..1][..0] == [];
    assert ValuesOf(b[..1]) == Success(v0);
    assert b[..2][..1] == b[..1];
    assert ValuesOf(b[..2]) == Success(v1);
    assert b[..3][..2] == b[..2];
    assert ValuesOf(b[..3]) == Success(v2);
    assert b[..4][..3] == b[..3];
    assert ValuesOf(b[..4]) == Success(v3);
    assert b[..5][..4] == b[..4];
    assert b[..5] == b;
    assert ValuesOf(b) == Success(v3);
    assert v3 == [ForecastValue("Birk", 12), ForecastValue("El", 0), ForecastValue("Græs", 1)];
    var none: seq<Block> := [];
    assert [b][..0] == none;
    var f := Forecast("Aarhus", "Lav risiko", v3);
    assert ForecastOf(b) == Success(f);
    var fs: seq<Forecast> := [];
    assert Extract([b]) == Success(fs + [f]);
    assert fs + [f] == [f];
  }

  /** The broken table makes extraction fail on its value text, whatever precedes it. */
  lemma BrokenRejected(before: seq<Block>)
    ensures Extract(before + [BrokenBlock()]).Failure?
    ensures Extract(before + [BrokenBlock()]).error.ParseError?
  {
    var blocks := before + [BrokenBlock()];
    var bad := BrokenBlock()[1].cells[1];
    assert bad == "abc";
    assert !IsDecimal(bad) by { assert !IsDigit(bad[0]); }
    MalformedValueFailsAll(blocks, |before|, 1);
  }
}
