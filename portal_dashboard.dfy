/** app/portal/dashboard/page.tsx: the customer report's CSV table and text, and the latest
    month's pie chart data. */
module PortalDashboard {
  import opened Wrappers
  import opened Seqs
  import opened Strings

  datatype MonthlyData = MonthlyData(
    month: string,
    totalPlasticT: real,
    lightOilT: real,
    heavyOilT: real,
    residueT: real,
    co2SavingsKg: real,
    recycleRate: real)

  datatype YearlyTotals = YearlyTotals(totalProcessedT: real, co2SavingsKg: real, avgRecycleRate: real)

  datatype CustomerData = CustomerData(
    customerId: string,
    customerName: string,
    monthlyData: seq<MonthlyData>,
    yearlyTotals: YearlyTotals)

  const Columns: nat := 7

  const Header: seq<string> := ["月", "投入量(t)", "軽質油(t)", "重質油(t)", "残渣(t)", "CO₂削減量(kg)", "リサイクル率(%)"]

  /** The cells of one month; `num` stands for JavaScript's number-to-text conversion that
      `join` applies and `fixed1` for `toFixed(1)`. */
  function ReportRow(m: MonthlyData, num: real -> string, fixed1: real -> string): (row: seq<string>)
    ensures |row| == Columns && row[0] == m.month && row[6] == fixed1(m.recycleRate)
  {
    [m.month, num(m.totalPlasticT), num(m.lightOilT), num(m.heavyOilT), num(m.residueT),
     num(m.co2SavingsKg), fixed1(m.recycleRate)]
  }

  function RowFor(num: real -> string, fixed1: real -> string): MonthlyData -> seq<string>
  {
    (m: MonthlyData) => ReportRow(m, num, fixed1)
  }

  /** `csvData`: the header, then one row per month in month order, all rows of 7 cells. */
  function ReportTable(d: CustomerData, num: real -> string, fixed1: real -> string): (table: seq<seq<string>>)
    ensures |table| == 1 + |d.monthlyData|
    ensures table[0] == Header
    ensures forall i :: 0 <= i < |d.monthlyData| ==> table[i + 1] == ReportRow(d.monthlyData[i], num, fixed1)
    ensures forall i :: 0 <= i < |table| ==> |table[i]| == Columns
  {
    [Header] + Map(d.monthlyData, RowFor(num, fixed1))
  }

  function JoinCells(row: seq<string>): string
  {
    Join(row, ",")
  }

  function CellsJoined(): seq<string> -> string
  {
    (row: seq<string>) => JoinCells(row)
  }

  /** `csvData.map(row => row.join(',')).join('\n')`. */
  function ReportCsv(table: seq<seq<string>>): string
  {
    Join(Map(table, CellsJoined()), "\n")
  }

  function SplitCells(): string -> seq<string>
  {
    (line: string) => Split(line, ',')
  }

  /** Reading the text back: lines on `'\n'`, cells on `','`. */
  function ParseCsv(csv: string): seq<seq<string>>
  {
    Map(Split(csv, '\n'), SplitCells())
  }

  /** A cell a reader can split off unambiguously. */
  predicate PlainCell(cell: string)
  {
    ',' !in cell && '\n' !in cell
  }

  /** With no comma or newline in any cell and no empty row, the report text has exactly one
      line per row and splits back into the table: cells are joined with `','`, rows with
      `'\n'`, and nothing is added after the last row. */
  lemma {:induction false} CsvRoundTrip(table: seq<seq<string>>)
    requires |table| > 0
    requires forall i :: 0 <= i < |table| ==> |table[i]| > 0
    requires forall i, j :: 0 <= i < |table| && 0 <= j < |table[i]| ==> PlainCell(table[i][j])
    ensures Split(ReportCsv(table), '\n') == Map(table, CellsJoined())
    ensures ParseCsv(ReportCsv(table)) == table
  {
    var lines := Map(table, CellsJoined());
    forall k | 0 <= k < |lines| ensures '\n' !in lines[k] {
      JoinAvoids(table[k], ",", '\n');
    }
    SplitJoin(lines, '\n');
    assert ReportCsv(table) == Join(lines, ['\n']);
    var back := ParseCsv(ReportCsv(table));
    assert |back| == |table|;
    forall k | 0 <= k < |table| ensures back[k] == table[k] {
      SplitJoin(table[k], ',');
      assert Join(table[k], ",") == Join(table[k], [',']);
    }
  }

  /** The header's cells are plain. */
  lemma HeaderIsPlain()
    ensures forall j :: 0 <= j < |Header| ==> PlainCell(Header[j])
  {
  }

  /** The report table meets the round-trip conditions when the month names and the number
      texts hold no comma or newline. */
  lemma {:induction false} ReportTableRoundTrips(d: CustomerData, num: real -> string, fixed1: real -> string)
    requires forall x :: PlainCell(num(x)) && PlainCell(fixed1(x))
    requires forall i :: 0 <= i < |d.monthlyData| ==> PlainCell(d.monthlyData[i].month)
    ensures ParseCsv(ReportCsv(ReportTable(d, num, fixed1))) == ReportTable(d, num, fixed1)
    ensures |Split(ReportCsv(ReportTable(d, num, fixed1)), '\n')| == 1 + |d.monthlyData|
  {
    var table := ReportTable(d, num, fixed1);
    HeaderIsPlain();
    forall i, j | 0 <= i < |table| && 0 <= j < |table[i]| ensures PlainCell(table[i][j]) {
      if i > 0 {
        assert table[i] == ReportRow(d.monthlyData[i - 1], num, fixed1);
      }
    }
    CsvRoundTrip(table);
  }

  /** The file `downloadReport` offers. */
  datatype Download = Download(filename: string, content: string)

  /** `downloadReport`: nothing without customer data; otherwise the report text under the name
      `cfp_report_<customer>_<year>.csv`, `yearText` being the current year as text. */
  function DownloadReport(customerData: Option<CustomerData>, num: real -> string, fixed1: real -> string,
                          yearText: string): (r: Option<Download>)
    ensures r.None? <==> customerData.None?
    ensures r.Some? ==> r.value.content == ReportCsv(ReportTable(customerData.value, num, fixed1))
    ensures r.Some? ==> r.value.filename == "cfp_report_" + customerData.value.customerId + "_" + yearText + ".csv"
  {
    match customerData
    case None => None
    case Some(d) =>
      Some(Download("cfp_report_" + d.customerId + "_" + yearText + ".csv", ReportCsv(ReportTable(d, num, fixed1))))
  }

  /** `monthlyData[monthlyData.length - 1]`: the page reads its fields, so it needs a month. */
  function LatestMonth(d: CustomerData): (m: MonthlyData)
    requires |d.monthlyData| > 0
    ensures m == d.monthlyData[|d.monthlyData| - 1]
  {
    d.monthlyData[|d.monthlyData| - 1]
  }

  datatype Slice = Slice(name: string, value: real)

  /** `pieData`: the three products of the latest month. */
  function PieData(d: CustomerData): (pie: seq<Slice>)
    requires |d.monthlyData| > 0
    ensures |pie| == 3
    ensures pie[0] == Slice("軽質油", LatestMonth(d).lightOilT)
    ensures pie[1] == Slice("重質油", LatestMonth(d).heavyOilT)
    ensures pie[2] == Slice("残渣", LatestMonth(d).residueT)
  {
    var latest := LatestMonth(d);
    [Slice("軽質油", latest.lightOilT), Slice("重質油", latest.heavyOilT), Slice("残渣", latest.residueT)]
  }

  function SliceText(num: real -> string): Slice -> string
  {
    (s: Slice) => num(s.value)
  }

  /** The pie chart shows what the report's last line says: its three slices carry the light
      oil, heavy oil and residue cells of the latest month's row, in that order. */
  lemma PieShowsLastReportRow(d: CustomerData, num: real -> string, fixed1: real -> string)
    requires |d.monthlyData| > 0
    ensures var table := ReportTable(d, num, fixed1);
      table[|d.monthlyData|][2..5] == Map(PieData(d), SliceText(num))
  {
    var n := |d.monthlyData|;
    var table := ReportTable(d, num, fixed1);
    assert table[(n - 1) + 1] == ReportRow(d.monthlyData[n - 1], num, fixed1);
  }

  /** A month appended to the data becomes the month the chart shows. */
  lemma LatestIsAppended(d: CustomerData, m: MonthlyData)
    ensures LatestMonth(d.(monthlyData := d.monthlyData + [m])) == m
  {
  }
}
