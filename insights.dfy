/** The Insights page of one brand: the table of per-manager sales rows, the grand-total
    row above them, how each cell is printed and coloured, which sheet's rows are on show,
    and which sheet request the filters produce. */
module Insights {
  import opened Wrappers
  import opened Numbers

  /** One row of a sheet: a regional manager and six figures (JavaScript numbers). */
  datatype SalesData = SalesData(
    RM: string,
    NoOfTGTDr: real,
    NoOfCRMDr: real,
    OverallSecL: real,
    CRMDrSecL: real,
    PD: real,
    MTDSales: real)

  /** The column names, `keyof SalesData`. */
  datatype SalesDataKey = RM | NoOfTGTDr | NoOfCRMDr | OverallSecL | CRMDrSecL | PD | MTDSales

  /** Every column but the manager's name holds a number. */
  predicate IsNumeric(key: SalesDataKey) {
    key != RM
  }

  /** The columns shown, and totalled, to one decimal place. */
  predicate IsOneDecimal(key: SalesDataKey) {
    key == OverallSecL || key == CRMDrSecL || key == MTDSales
  }

  function Measure(row: SalesData, key: SalesDataKey): (r: real)
    requires IsNumeric(key)
  {
    match key
    case NoOfTGTDr => row.NoOfTGTDr
    case NoOfCRMDr => row.NoOfCRMDr
    case OverallSecL => row.OverallSecL
    case CRMDrSecL => row.CRMDrSecL
    case PD => row.PD
    case MTDSales => row.MTDSales
  }

  // ---------------------------------------------------------------------------
  // Column sums

  /** `data.reduce((sum, item) => sum + item[key], acc)`: a fold from the left. */
  function Reduce(data: seq<SalesData>, key: SalesDataKey, acc: real): (r: real)
    requires IsNumeric(key)
  {
    if data == [] then acc else Reduce(data[1..], key, acc + Measure(data[0], key))
  }

  /** The sum of a column, the reference every fold is measured against. */
  function Sum(data: seq<SalesData>, key: SalesDataKey): (r: real)
    requires IsNumeric(key)
  {
    if data == [] then 0.0 else Measure(data[0], key) + Sum(data[1..], key)
  }

  /** The fold started at `acc` is `acc` plus the column sum. */
  lemma {:induction false} ReduceIsSum(data: seq<SalesData>, key: SalesDataKey, acc: real)
    requires IsNumeric(key)
    ensures Reduce(data, key, acc) == acc + Sum(data, key)
  {
    if data != [] {
      ReduceIsSum(data[1..], key, acc + Measure(data[0], key));
    }
  }

  /** A column sum splits over concatenated row sequences. */
  lemma {:induction false} SumConcat(a: seq<SalesData>, b: seq<SalesData>, key: SalesDataKey)
    requires IsNumeric(key)
    ensures Sum(a + b, key) == Sum(a, key) + Sum(b, key)
  {
    if a == [] {
      assert a + b == b;
    } else {
      assert (a + b)[1..] == a[1..] + b;
      SumConcat(a[1..], b, key);
    }
  }

  /** Taking one row out of the middle takes its figure out of the sum. */
  lemma SumWithout(b: seq<SalesData>, i: nat, key: SalesDataKey)
    requires IsNumeric(key) && i < |b|
    ensures Sum(b, key) == Measure(b[i], key) + Sum(b[..i] + b[i + 1..], key)
  {
    assert b == b[..i] + ([b[i]] + b[i + 1..]);
    SumConcat(b[..i], [b[i]] + b[i + 1..], key);
    SumConcat(b[..i], b[i + 1..], key);
    assert ([b[i]] + b[i + 1..])[1..] == b[i + 1..];
  }

  lemma MultisetWithout(a: seq<SalesData>, b: seq<SalesData>, i: nat)
    requires multiset(a) == multiset(b) && a != [] && i < |b| && b[i] == a[0]
    ensures multiset(a[1..]) == multiset(b[..i] + b[i + 1..])
  {
    assert b == b[..i] + [b[i]] + b[i + 1..];
    assert a == [a[0]] + a[1..];
    assert multiset(a[1..]) == multiset(a) - multiset([a[0]]);
    assert multiset(b[..i] + b[i + 1..]) == multiset(b) - multiset([b[i]]);
  }

  /** A column sum does not depend on the order of the rows. */
  lemma {:induction false} SumPermutation(a: seq<SalesData>, b: seq<SalesData>, key: SalesDataKey)
    requires IsNumeric(key)
    requires multiset(a) == multiset(b)
    ensures Sum(a, key) == Sum(b, key)
    decreases |a|
  {
    if a == [] {
      assert |b| == |multiset(b)| == 0;
    } else {
      assert a[0] in multiset(b);
      var i :| 0 <= i < |b| && b[i] == a[0];
      MultisetWithout(a, b, i);
      SumPermutation(a[1..], b[..i] + b[i + 1..], key);
      SumWithout(b, i, key);
    }
  }

  /** Every row's figure in `key` has at most one decimal. */
  predicate AllTenths(data: seq<SalesData>, key: SalesDataKey)
    requires IsNumeric(key)
  {
    forall i :: 0 <= i < |data| ==> HasDecimals(Measure(data[i], key), 1)
  }

  lemma {:induction false} SumOfTenths(data: seq<SalesData>, key: SalesDataKey)
    requires IsNumeric(key) && AllTenths(data, key)
    ensures HasDecimals(Sum(data, key), 1)
  {
    if data == [] {
      assert Scale(0.0, 1) == 0.0;
    } else {
      assert AllTenths(data[1..], key) by {
        forall i | 0 <= i < |data| - 1 ensures HasDecimals(Measure(data[1..][i], key), 1) {
          assert data[1..][i] == data[i + 1];
        }
      }
      SumOfTenths(data[1..], key);
      assert HasDecimals(Measure(data[0], key), 1);
      HasDecimalsAdd(Measure(data[0], key), Sum(data[1..], key), 1);
    }
  }

  // ---------------------------------------------------------------------------
  // The grand-total row

  const GrandTotalLabel := "Grand Total"

  /** What the grand-total row holds in a numeric column: the column sum, rounded
      to one decimal (as `Number(sum.toFixed(1))`) in the one-decimal columns. */
  function TotalOf(data: seq<SalesData>, key: SalesDataKey): (r: real)
    requires IsNumeric(key)
  {
    if IsOneDecimal(key) then RoundToTenth(Sum(data, key)) else Sum(data, key)
  }

  /** `calculateGrandTotal`: the row labelled "Grand Total" whose every figure is its
      column's sum, the three one-decimal columns rounded to one decimal. */
  function CalculateGrandTotal(data: seq<SalesData>): (r: SalesData)
    ensures r.RM == GrandTotalLabel
    ensures forall key :: IsNumeric(key) ==> Measure(r, key) == TotalOf(data, key)
  {
    ReduceIsSum(data, NoOfTGTDr, 0.0);
    ReduceIsSum(data, NoOfCRMDr, 0.0);
    ReduceIsSum(data, OverallSecL, 0.0);
    ReduceIsSum(data, CRMDrSecL, 0.0);
    ReduceIsSum(data, PD, 0.0);
    ReduceIsSum(data, MTDSales, 0.0);
    SalesData(
      "Grand Total",
      Reduce(data, NoOfTGTDr, 0.0),
      Reduce(data, NoOfCRMDr, 0.0),
      RoundToTenth(Reduce(data, OverallSecL, 0.0)),
      RoundToTenth(Reduce(data, CRMDrSecL, 0.0)),
      Reduce(data, PD, 0.0),
      RoundToTenth(Reduce(data, MTDSales, 0.0)))
  }

  /** No rows give the zero row: every fold starts from 0. */
  lemma GrandTotalOfNoRows()
    ensures CalculateGrandTotal([]) == SalesData("Grand Total", 0.0, 0.0, 0.0, 0.0, 0.0, 0.0)
  {
    assert HasDecimals(0.0, 1) by {
      assert Scale(0.0, 1) == 0.0;
    }
    RoundToExact(0.0, 1);
  }

  /** Any reordering of the rows gives the same grand total. */
  lemma GrandTotalPermutation(a: seq<SalesData>, b: seq<SalesData>)
    requires multiset(a) == multiset(b)
    ensures CalculateGrandTotal(a) == CalculateGrandTotal(b)
  {
    var ta, tb := CalculateGrandTotal(a), CalculateGrandTotal(b);
    forall key | IsNumeric(key) ensures Measure(ta, key) == Measure(tb, key) {
      SumPermutation(a, b, key);
    }
    assert Measure(ta, NoOfTGTDr) == Measure(tb, NoOfTGTDr);
    assert Measure(ta, NoOfCRMDr) == Measure(tb, NoOfCRMDr);
    assert Measure(ta, OverallSecL) == Measure(tb, OverallSecL);
    assert Measure(ta, CRMDrSecL) == Measure(tb, CRMDrSecL);
    assert Measure(ta, PD) == Measure(tb, PD);
    assert Measure(ta, MTDSales) == Measure(tb, MTDSales);
  }

  /** Over two row sequences put together, an unrounded total is the sum of the two
      totals, and a one-decimal total is the rounding of the two exact column sums added. */
  lemma GrandTotalConcat(a: seq<SalesData>, b: seq<SalesData>, key: SalesDataKey)
    requires IsNumeric(key)
    ensures Measure(CalculateGrandTotal(a + b), key)
            == if IsOneDecimal(key) then RoundToTenth(Sum(a, key) + Sum(b, key))
               else Measure(CalculateGrandTotal(a), key) + Measure(CalculateGrandTotal(b), key)
  {
    var t, ta, tb := CalculateGrandTotal(a + b), CalculateGrandTotal(a), CalculateGrandTotal(b);
    assert Measure(t, key) == TotalOf(a + b, key);
    assert Measure(ta, key) == TotalOf(a, key);
    assert Measure(tb, key) == TotalOf(b, key);
    SumConcat(a, b, key);
  }

  /** A one-decimal total is within 0.05 of the exact column sum, has at most one
      decimal itself, and equals the exact sum when every row has at most one decimal. */
  lemma OneDecimalTotal(data: seq<SalesData>, key: SalesDataKey)
    requires IsOneDecimal(key)
    ensures -0.05 <= Measure(CalculateGrandTotal(data), key) - Sum(data, key) <= 0.05
    ensures HasDecimals(Measure(CalculateGrandTotal(data), key), 1)
    ensures AllTenths(data, key) ==> Measure(CalculateGrandTotal(data), key) == Sum(data, key)
  {
    RoundToHasDecimals(Sum(data, key), 1);
    if AllTenths(data, key) {
      SumOfTenths(data, key);
      RoundToExact(Sum(data, key), 1);
    }
  }

  /** `grandTotal`: shown only above a non-empty table. */
  function GrandTotalRow(tableData: seq<SalesData>): (r: Option<SalesData>)
    ensures r.Some? <==> |tableData| > 0
    ensures r.Some? ==> r.value == CalculateGrandTotal(tableData)
  {
    if |tableData| > 0 then Some(CalculateGrandTotal(tableData)) else None
  }

  // ---------------------------------------------------------------------------
  // Cell text and colour

  /** A cell value, `number | string`. */
  datatype CellValue = Num(x: real) | Str(s: string)

  /** `formatValue`: one-decimal text (`toFixed(1)`) for numbers in the one-decimal
      columns, plain `toString` text for everything else. */
  function FormatValue(value: CellValue, key: SalesDataKey): (r: string)
    ensures value.Str? ==> r == value.s
    ensures value.Num? && IsOneDecimal(key) ==>
              ParseDecimal(r) == Some(RoundToTenth(value.x)) && PointIndex(r) == |r| - 2
    ensures value.Num? && !IsOneDecimal(key) && HasDecimals(value.x, MaxFractionDigits) ==>
              ParseDecimal(r) == Some(value.x)
  {
    match value
    case Str(s) => s
    case Num(x) =>
      if IsOneDecimal(key) then
        FixedTextShape(x, 1);
        RoundToTenthText(x);
        FixedText(x, 1)
      else
        NumberTextValue(x, MaxFractionDigits);
        NumberText(x)
  }

  /** Whole numbers: "4.0" in a one-decimal column, "4" in any other. */
  lemma FormatWholeNumber(i: int, key: SalesDataKey)
    ensures FormatValue(Num(i as real), key) == if IsOneDecimal(key) then IntText(i) + ".0" else IntText(i)
  {
    if IsOneDecimal(key) {
      FixedOneOfInteger(i);
    } else {
      NumberTextOfInteger(i);
    }
  }

  /** A one-decimal total prints as text that reads back as exactly that total. */
  lemma FormatGrandTotal(data: seq<SalesData>, key: SalesDataKey)
    requires IsOneDecimal(key)
    ensures var t := Measure(CalculateGrandTotal(data), key);
            ParseDecimal(FormatValue(Num(t), key)) == Some(t)
  {
    var t := Measure(CalculateGrandTotal(data), key);
    OneDecimalTotal(data, key);
    RoundToExact(t, 1);
  }

  const RedCell := "text-red-600 bg-red-50"
  const GreenCell := "text-green-600 bg-green-50"

  /** `getCellColor`: red for a negative MTD Sales figure, green for one above 1, and
      no class otherwise, with 0 and 1 themselves unstyled. */
  function GetCellColor(value: real, key: SalesDataKey): (r: string)
    ensures r == RedCell <==> key == MTDSales && value < 0.0
    ensures r == GreenCell <==> key == MTDSales && value > 1.0
    ensures r == "" <==> key != MTDSales || (0.0 <= value <= 1.0)
  {
    if key == MTDSales && value < 0.0 then RedCell
    else if key == MTDSales && value > 1.0 then GreenCell
    else ""
  }

  // ---------------------------------------------------------------------------
  // Worked examples

  /** Two sample rows: 171 + 134 target doctors is 305, printed "305". */
  lemma SampleTotals()
    ensures var t := CalculateGrandTotal(SampleRows());
            t.NoOfTGTDr == 305.0 && FormatValue(Num(t.NoOfTGTDr), NoOfTGTDr) == "305"
  {
    var data := SampleRows();
    var t := CalculateGrandTotal(data);
    assert t.NoOfTGTDr == 305.0 by {
      assert Measure(t, NoOfTGTDr) == TotalOf(data, NoOfTGTDr);
      assert Sum(data[1..], NoOfTGTDr) == 134.0;
      assert Sum(data, NoOfTGTDr) == 305.0;
    }
    FormatWholeNumber(305, NoOfTGTDr);
    TextOf305();
  }

  lemma TextOf305()
    ensures IntText(305) == "305"
  {
    assert NatText(3) == "3";
    assert NatText(30) == "30";
  }

  /** In the same rows MTD Sales 0.2 and 1.4 total 1.6, printed "1.6". */
  lemma SampleMtdSales()
    ensures var t := CalculateGrandTotal(SampleRows());
            t.MTDSales == 1.6 && FormatValue(Num(t.MTDSales), MTDSales) == "1.6"
  {
    var data := SampleRows();
    var t := CalculateGrandTotal(data);
    assert t.MTDSales == 1.6 by {
      assert Measure(t, MTDSales) == TotalOf(data, MTDSales);
      assert Sum(data[1..], MTDSales) == 1.4;
      assert Sum(data, MTDSales) == 1.6;
      assert HasDecimals(1.6, 1) by {
        assert Scale(1.6, 1) == 16.0;
      }
      RoundToExact(1.6, 1);
    }
    assert FixedText(1.6, 1) == "1.6" by {
      assert ScaledMagnitude(1.6, 1) == 16 by {
        assert Scale(1.6, 1) == 16.0;
      }
    }
  }

  function SampleRows(): (r: seq<SalesData>) {
    [SalesData("Puneet Agarwal", 171.0, 8.0, 2.4, 0.7, 9091.0, 0.2),
     SalesData("Anil Kumar Bind", 134.0, 28.0, 4.0, 2.8, 9998.0, 1.4)]
  }

  /** CRM Dr Sec figures 0.7, 2.8 and 0.6 total 4.1 and print as "4.1". */
  lemma SampleOneDecimalText()
    ensures FormatValue(Num(CalculateGrandTotal(SampleCrmRows()).CRMDrSecL), CRMDrSecL) == "4.1"
  {
    var data := SampleCrmRows();
    var t := CalculateGrandTotal(data);
    assert t.CRMDrSecL == 4.1 by {
      assert Measure(t, CRMDrSecL) == TotalOf(data, CRMDrSecL);
      assert Sum(data[2..], CRMDrSecL) == 0.6;
      assert Sum(data[1..], CRMDrSecL) == 3.4;
      assert Sum(data, CRMDrSecL) == 4.1;
      assert HasDecimals(4.1, 1) by {
        assert Scale(4.1, 1) == 41.0;
      }
      RoundToExact(4.1, 1);
    }
    assert FixedText(4.1, 1) == "4.1" by {
      assert ScaledMagnitude(4.1, 1) == 41 by {
        assert Scale(4.1, 1) == 41.0;
      }
    }
  }

  function SampleCrmRows(): (r: seq<SalesData>) {
    [SalesData("a", 0.0, 0.0, 0.0, 0.7, 0.0, 0.0),
     SalesData("b", 0.0, 0.0, 0.0, 2.8, 0.0, 0.0),
     SalesData("c", 0.0, 0.0, 0.0, 0.6, 0.0, 0.0)]
  }

  // ---------------------------------------------------------------------------
  // Sheets and the selection

  datatype ManagerType = RBM | ZBM | ABM

  datatype Timeframe = LatestData | Monthly

  /** One uploaded sheet as the page keeps it. */
  datatype DataEntry = DataEntry(
    id: string,
    date: string,
    sheetData: seq<SalesData>,
    brandId: string,
    brandName: string,
    managerType: ManagerType,
    month: string,
    week: string,
    year: string)

  /** The index of the first sheet with `id`, or `|sheets|` when none has it. */
  function FirstWithId(sheets: seq<DataEntry>, id: string): (i: nat)
    ensures i <= |sheets|
    ensures i < |sheets| ==> sheets[i].id == id
    ensures forall j :: 0 <= j < i ==> sheets[j].id != id
  {
    if sheets == [] then 0
    else if sheets[0].id == id then 0
    else 1 + FirstWithId(sheets[1..], id)
  }

  /** `availableSheets.find((s) => s.id === id)`. */
  function FindSheet(sheets: seq<DataEntry>, id: string): (r: Option<DataEntry>)
    ensures r.None? <==> forall j :: 0 <= j < |sheets| ==> sheets[j].id != id
    ensures r.Some? ==> r.value.id == id && r.value in sheets
    ensures r.Some? ==> r.value == sheets[FirstWithId(sheets, id)]
  {
    var i := FirstWithId(sheets, id);
    if i < |sheets| then Some(sheets[i]) else None
  }

  /** The week argument of the filtered request: left out exactly for "All". */
  function WeekArgument(selectedWeek: string): (r: Option<string>)
    ensures r.None? <==> selectedWeek == "All"
    ensures r.Some? ==> r.value == selectedWeek
  {
    if selectedWeek != "All" then Some(selectedWeek) else None
  }

  /** The request the second fetch effect sends. */
  datatype SheetRequest =
    | GetSheets(managerType: ManagerType, brandId: string)
    | GetFilteredSheets(managerType: ManagerType, year: string, month: string, brandId: string,
                        week: Option<string>)

  /** Monthly filters ask for the filtered sheets of 2025, anything else for all of the brand's sheets. */
  function SheetRequestFor(managerType: ManagerType, timeframe: Timeframe, selectedMonth: string,
                           selectedWeek: string, brandId: string): (r: SheetRequest)
    ensures r.GetFilteredSheets? <==> timeframe == Monthly
    ensures r.managerType == managerType && r.brandId == brandId
    ensures r.GetFilteredSheets? ==>
              r.year == "2025" && r.month == selectedMonth && r.week == WeekArgument(selectedWeek)
  {
    if timeframe == Monthly then
      GetFilteredSheets(managerType, "2025", selectedMonth, brandId, WeekArgument(selectedWeek))
    else
      GetSheets(managerType, brandId)
  }

  /** The `week` query parameter `getFilteredSheets` adds: only a non-empty week other than "All". */
  function WeekParameter(week: Option<string>): (r: Option<string>)
    ensures r.Some? <==> week.Some? && week.value != "" && week.value != "All"
    ensures r.Some? ==> r == week
  {
    if week.Some? && week.value != "" && week.value != "All" then week else None
  }

  /** End to end: a monthly request carries a week parameter exactly when the selected
      week is neither "All" nor empty, and then it is the selected week. */
  lemma WeekParameterOfSelection(managerType: ManagerType, month: string, selectedWeek: string, brandId: string)
    ensures var r := SheetRequestFor(managerType, Monthly, month, selectedWeek, brandId);
            WeekParameter(r.week) == if selectedWeek == "All" || selectedWeek == "" then None else Some(selectedWeek)
  {
  }

  /** The page state behind the table: the sheets on offer, the selected one and the rows on show. */
  class SheetView {
    var availableSheets: seq<DataEntry>
    var selectedDataId: Option<string>
    var tableData: seq<SalesData>

    constructor ()
      ensures availableSheets == [] && selectedDataId == None && tableData == []
    {
      availableSheets := [];
      selectedDataId := None;
      tableData := [];
    }

    /** The rows on show are those of the first sheet with the selected id, and no rows
        are on show when nothing is selected. */
    predicate ShowsSelection()
      reads this
    {
      match selectedDataId
      case None => tableData == []
      case Some(id) => FindSheet(availableSheets, id).Some? && tableData == FindSheet(availableSheets, id).value.sheetData
    }

    /** `handleSelectSheet`: show the rows of the first sheet with `sheetId`; nothing changes when none has it. */
    method SelectSheet(sheetId: string)
      modifies this
      ensures availableSheets == old(availableSheets) && selectedDataId == old(selectedDataId)
      ensures tableData == match FindSheet(old(availableSheets), sheetId)
                           case Some(sheet) => sheet.sheetData
                           case None => old(tableData)
    {
      var sheet := FindSheet(availableSheets, sheetId);
      if sheet.Some? {
        tableData := sheet.value.sheetData;
      }
    }

    /** A click on a sheet button: select its id, then show its rows. */
    method ClickSheet(sheetId: string)
      modifies this
      ensures availableSheets == old(availableSheets) && selectedDataId == Some(sheetId)
      ensures tableData == match FindSheet(old(availableSheets), sheetId)
                           case Some(sheet) => sheet.sheetData
                           case None => old(tableData)
      ensures FindSheet(availableSheets, sheetId).Some? ==> ShowsSelection()
    {
      selectedDataId := Some(sheetId);
      SelectSheet(sheetId);
    }

    /** The first fetch effect: replace the sheets on offer, leave the selection and rows alone. */
    method ReceiveManagerSheets(sheets: seq<DataEntry>)
      modifies this
      ensures availableSheets == sheets
      ensures selectedDataId == old(selectedDataId) && tableData == old(tableData)
    {
      availableSheets := sheets;
    }

    /** The second fetch effect: replace the sheets on offer and select the first one,
        or clear the selection and the rows when there is none. */
    method ReceiveFilteredSheets(sheets: seq<DataEntry>)
      modifies this
      ensures availableSheets == sheets
      ensures |sheets| > 0 ==> selectedDataId == Some(sheets[0].id) && tableData == sheets[0].sheetData
      ensures |sheets| == 0 ==> selectedDataId == None && tableData == []
      ensures ShowsSelection()
    {
      availableSheets := sheets;
      if |sheets| > 0 {
        selectedDataId := Some(sheets[0].id);
        tableData := sheets[0].sheetData;
      } else {
        selectedDataId := None;
        tableData := [];
      }
    }

    /** The grand-total row above the current table. */
    function GrandTotal(): (r: Option<SalesData>)
      reads this
      ensures r.Some? <==> |tableData| > 0
      ensures r.Some? ==> r.value == CalculateGrandTotal(tableData)
      ensures r.Some? ==> r.value.RM == GrandTotalLabel
    {
      GrandTotalRow(tableData)
    }
  }
}
