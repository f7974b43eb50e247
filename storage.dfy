/** What the save functions write: the JSON log that grows by one record per
    save, and the rows appended to the four CSV files. A file is a value: its
    prior content for JSON, whether it exists and its rows for CSV. */
module Storage {
  import opened Api
  import opened CategoryNames
  import opened Statistics

  // ---------------------------------------------------------------------------
  // JSON logs (save_to_json, save_sorter_rank_to_json)
  // ---------------------------------------------------------------------------

  /** A JSON log before a save: missing, not loadable, a list, or another
      JSON value. */
  datatype JsonFile<T> = Absent | Unreadable | List(items: seq<T>) | Single(item: T)

  /** The entries a save keeps from the prior file. */
  function Kept<T>(f: JsonFile<T>): seq<T> {
    match f
    case List(xs) => xs
    case Single(x) => [x]
    case _ => []
  }

  /** The list a save writes back. */
  function AppendToJsonArray<T>(prior: JsonFile<T>, d: T): (r: seq<T>)
    ensures |r| >= 1 && r[|r| - 1] == d
    ensures prior.List? ==> r == prior.items + [d]
    ensures prior.Single? ==> r == [prior.item, d]
    ensures prior.Absent? || prior.Unreadable? ==> r == [d]
  {
    match prior
    case List(xs) => xs + [d]
    case Single(x) => [x] + [d]
    case _ => [d]
  }

  /** The file after saving each of `ds` in turn. */
  function SaveAll<T>(f: JsonFile<T>, ds: seq<T>): JsonFile<T>
    decreases |ds|
  {
    if ds == [] then f else SaveAll(List(AppendToJsonArray(f, ds[0])), ds[1..])
  }

  /** A run of saves leaves a list of what a readable file held followed by
      every saved record in order: nothing is lost or reordered once the file
      is a list. */
  lemma {:induction false} SavesAccumulate<T>(f: JsonFile<T>, ds: seq<T>)
    requires ds != []
    ensures SaveAll(f, ds) == List(Kept(f) + ds)
    decreases |ds|
  {
    var g := List(AppendToJsonArray(f, ds[0]));
    assert Kept(g) == Kept(f) + [ds[0]];
    if |ds| == 1 {
      assert ds == [ds[0]];
      assert SaveAll(g, ds[1..]) == g;
    } else {
      SavesAccumulate(g, ds[1..]);
      assert Kept(f) + [ds[0]] + ds[1..] == Kept(f) + ds;
    }
  }

  // ---------------------------------------------------------------------------
  // CSV files
  // ---------------------------------------------------------------------------

  /** A CSV file of the data directory: missing, or present with its rows
      (a missing file has no rows). */
  datatype CsvFile = Missing | Present(rows: seq<Row>)

  /** Opening for append and writing `rows`, with `header` first if the file
      did not exist. */
  function Appended(f: CsvFile, header: Row, rows: seq<Row>): (g: CsvFile)
    ensures g.Present?
    ensures f.Present? ==> g.rows == f.rows + rows
    ensures f.Missing? ==> g.rows == [header] + rows
  {
    match f
    case Missing => Present([header] + rows)
    case Present(earlier) => Present(earlier + rows)
  }

  /** Writing rows in several appends gives the file one write would: the
      header goes in once, before the first rows. */
  lemma AppendedInSteps(f: CsvFile, header: Row, rows: seq<Row>, more: seq<Row>)
    ensures Appended(Appended(f, header, rows), header, more) == Appended(f, header, rows + more)
  {
  }

  /** A header row: one text cell per column name. */
  function Texts(ss: seq<string>): Row {
    seq(|ss|, i requires 0 <= i < |ss| => Text(ss[i]))
  }

  // ---------------------------------------------------------------------------
  // Ranking CSV files (save_sorter_rank_to_csv)
  // ---------------------------------------------------------------------------

  const RankDetailHeader: Row := Texts([
    "采集时间", "周期开始时间", "周期结束时间", "API状态码", "API消息",
    "分拣员姓名", "排名", "完成件数", "响应状态", "备注"])

  const RankSummaryHeader: Row := Texts([
    "采集时间", "周期开始时间", "周期结束时间",
    "分拣员总数", "总完成件数", "平均完成件数", "响应状态"])

  /** The reply holds a sorter list: `code == 0` and `data` is a list. */
  predicate Listed(reply: RankReply) {
    reply.code == Some(0) && reply.sorters.Some?
  }

  /** The first five cells of every detail row. */
  function RankRowStart(rec: RankRecord): Row {
    var reply := RankReplyOf(rec);
    [Text(rec.timestamp), Text(rec.request.cycleStart), Text(rec.request.cycleEnd),
     NumOrBlank(reply.code), TextOrBlank(reply.msg)]
  }

  function SorterRow(rec: RankRecord, s: Sorter): Row {
    RankRowStart(rec) +
    [TextOrBlank(s.sorterName), NumOrBlank(s.rank), NumOrBlank(s.statisticResults),
     Text(rec.Status().Text()), Blank]
  }

  function SorterRows(rec: RankRecord, sorters: seq<Sorter>): (rows: seq<Row>)
    ensures |rows| == |sorters|
    ensures forall i :: 0 <= i < |sorters| ==> rows[i] == SorterRow(rec, sorters[i])
    decreases |sorters|
  {
    if sorters == [] then [] else [SorterRow(rec, sorters[0])] + SorterRows(rec, sorters[1..])
  }

  /** One more sorter adds its row at the end. */
  lemma SorterRowsAppend(rec: RankRecord, sorters: seq<Sorter>, s: Sorter)
    ensures SorterRows(rec, sorters + [s]) == SorterRows(rec, sorters) + [SorterRow(rec, s)]
  {
  }

  function RankErrorRow(rec: RankRecord): Row {
    RankRowStart(rec) + [Blank, Blank, Blank, Text(rec.Status().Text()), Text(rec.ErrorText())]
  }

  /** The detail rows of one save. Every row has the ten header columns and
      starts with the record's time and window; a listed reply gives one row
      per sorter in list order carrying that sorter's cells, anything else one
      row with blank sorter cells and the record's error text. */
  function RankDetailRows(rec: RankRecord): (rows: seq<Row>)
    ensures forall i :: 0 <= i < |rows| ==>
      |rows[i]| == |RankDetailHeader| &&
      rows[i][..3] == [Text(rec.timestamp), Text(rec.request.cycleStart), Text(rec.request.cycleEnd)]
    ensures var reply := RankReplyOf(rec);
      Listed(reply) ==>
        && |rows| == |reply.sorters.value|
        && forall i :: 0 <= i < |rows| ==>
             var s := reply.sorters.value[i];
             |rows[i]| == 10 &&
             rows[i][5..] == [TextOrBlank(s.sorterName), NumOrBlank(s.rank), NumOrBlank(s.statisticResults),
                              Text(rec.Status().Text()), Blank]
    ensures !Listed(RankReplyOf(rec)) ==>
      |rows| == 1 && |rows[0]| == 10 &&
      rows[0][5..] == [Blank, Blank, Blank, Text(rec.Status().Text()), Text(rec.ErrorText())]
  {
    var reply := RankReplyOf(rec);
    if Listed(reply) then SorterRows(rec, reply.sorters.value) else [RankErrorRow(rec)]
  }

  /** `sum(item.get('statistic_results', 0) for item in sorters)`. */
  function SumResults(sorters: seq<Sorter>): int
    decreases |sorters|
  {
    if sorters == [] then 0 else CountOr0(sorters[0].statisticResults) + SumResults(sorters[1..])
  }

  /** The sorter count and completed total of the summary row: those of the
      list when the reply lists sorters, 0 and 0 otherwise. */
  function RankTotals(rec: RankRecord): (int, int) {
    var reply := RankReplyOf(rec);
    if Listed(reply) then (|reply.sorters.value|, SumResults(reply.sorters.value)) else (0, 0)
  }

  function RankSummaryRow(rec: RankRecord): (row: Row)
    ensures |row| == |RankSummaryHeader|
    ensures row[..3] == [Text(rec.timestamp), Text(rec.request.cycleStart), Text(rec.request.cycleEnd)]
    ensures row[6] == Text(rec.Status().Text())
  {
    var (count, total) := RankTotals(rec);
    [Text(rec.timestamp), Text(rec.request.cycleStart), Text(rec.request.cycleEnd),
     Num(count), Num(total), Mean(total, count), Text(rec.Status().Text())]
  }

  /** The sum of column `col` over `rows`, blanks counting as 0. */
  function ColumnSum(rows: seq<Row>, col: nat): int
    decreases |rows|
  {
    if rows == [] then 0
    else (if col < |rows[0]| then CellNumber(rows[0][col]) else 0) + ColumnSum(rows[1..], col)
  }

  lemma {:induction false} SorterRowsSum(rec: RankRecord, sorters: seq<Sorter>)
    ensures ColumnSum(SorterRows(rec, sorters), 7) == SumResults(sorters)
    decreases |sorters|
  {
    if sorters != [] {
      var rows := SorterRows(rec, sorters);
      assert rows[1..] == SorterRows(rec, sorters[1..]);
      assert rows[0][7] == NumOrBlank(sorters[0].statisticResults);
      SorterRowsSum(rec, sorters[1..]);
    }
  }

  /** The summary row agrees with the detail rows written beside it: its total
      is the sum of their completed-count column, and, when the reply lists
      sorters, its count is their number. */
  lemma SummaryMatchesDetail(rec: RankRecord)
    ensures RankSummaryRow(rec)[4] == Num(ColumnSum(RankDetailRows(rec), 7))
    ensures Listed(RankReplyOf(rec)) ==> RankSummaryRow(rec)[3] == Num(|RankDetailRows(rec)|)
    ensures !Listed(RankReplyOf(rec)) ==> RankSummaryRow(rec)[3] == Num(0) && RankSummaryRow(rec)[4] == Num(0)
  {
    var reply := RankReplyOf(rec);
    if Listed(reply) {
      SorterRowsSum(rec, reply.sorters.value);
    }
  }

  // ---------------------------------------------------------------------------
  // Progress CSV files (save_to_csv)
  // ---------------------------------------------------------------------------

  const RawHeader: Row := Texts(["采集时间", "目标日期", "API状态码", "API消息", "响应状态", "原始数据", "备注"])

  /** The raw row, written for every record; `dumps` is the JSON
      serialisation of the reply. A failed record has blank code and message
      cells, the serialisation of `{}` and its error text. */
  function RawRow(rec: ProgressRecord, dumps: ProgressReply -> string): (row: Row)
    ensures |row| == |RawHeader|
    ensures row[..2] == [Text(rec.timestamp), Text(rec.request)]
    ensures row[4] == Text(rec.Status().Text()) && row[6] == Text(rec.ErrorText())
    ensures rec.Status() == Failed ==>
      row[2] == Blank && row[3] == Blank && row[5] == Text(dumps(EmptyProgressReply))
    ensures rec.Status() == Success ==>
      row[2] == NumOrBlank(rec.body.data.code) && row[3] == TextOrBlank(rec.body.data.msg) &&
      row[5] == Text(dumps(rec.body.data)) && row[6] == Blank
  {
    var reply := ProgressReplyOf(rec);
    [Text(rec.timestamp), Text(rec.request), NumOrBlank(reply.code), TextOrBlank(reply.msg),
     Text(rec.Status().Text()), Text(dumps(reply)), Text(rec.ErrorText())]
  }

  /** The summary file is touched only for a successful record whose reply
      has `code == 0`. */
  predicate SummaryGate(rec: ProgressRecord) {
    rec.Status() == Success && ProgressReplyOf(rec).code == Some(0)
  }

  function CategoryHeaders(names: seq<string>): (r: Row)
    ensures |r| == 3 * |names|
    decreases |names|
  {
    if names == [] then []
    else [Text(KeyText(names[0], Unfinished)), Text(KeyText(names[0], Finished)), Text(KeyText(names[0], OutOfStock))]
         + CategoryHeaders(names[1..])
  }

  function CategoryCells(s: Stats, names: seq<string>): (r: Row)
    ensures |r| == 3 * |names|
    decreases |names|
  {
    if names == [] then []
    else [Num(Lookup(s, names[0], Unfinished)), Num(Lookup(s, names[0], Finished)), Num(Lookup(s, names[0], OutOfStock))]
         + CategoryCells(s, names[1..])
  }

  function MeasureIndex(m: Measure): nat {
    match m
    case Unfinished => 0
    case Finished => 1
    case OutOfStock => 2
  }

  /** Column `3k + j` of the category part holds measure `j` of category `k`
      under the header of that statistic key. */
  lemma {:induction false} CategoryColumnsAligned(s: Stats, names: seq<string>, k: nat, m: Measure)
    requires k < |names|
    ensures CategoryHeaders(names)[3 * k + MeasureIndex(m)] == Text(KeyText(names[k], m))
    ensures CategoryCells(s, names)[3 * k + MeasureIndex(m)] == Num(Lookup(s, names[k], m))
    decreases k
  {
    if k > 0 {
      CategoryColumnsAligned(s, names[1..], k - 1, m);
      assert names[1..][k - 1] == names[k];
    }
  }

  const SummaryLeadHeaders := [
    "采集时间", "目标日期",
    "总任务数", "已完成任务数", "缺货任务数", "未完成任务数",
    "计重任务数", "商品种类数", "不计重任务数", "商户数"]

  const SummaryTailHeaders := ["总重量(kg)", "平均重量(kg)", "API响应时间(ms)", "数据完整性"]

  const SummaryStatsHeader: Row :=
    Texts(SummaryLeadHeaders) + CategoryHeaders(ColumnNames) + Texts(SummaryTailHeaders)

  /** Where the category columns start. */
  const CategoryOffset := |SummaryLeadHeaders|

  /** The statistics row of a successful reply with a dictionary `data`: the
      56 header columns, namely the record's time and target date, the eight
      totals in header order, the three cells of each of the fourteen
      categories, and the four trailing statistics. */
  function StatsRow(rec: ProgressRecord, s: Stats): (row: Row)
    ensures |row| == |SummaryStatsHeader| == 56
    ensures row[..CategoryOffset] == [Text(rec.timestamp), Text(rec.request),
      Num(s.totalTasks), Num(s.completedTasks), Num(s.shortageTasks), Num(s.uncompletedTasks),
      Num(s.weightTasks), Num(s.productTypes), Num(s.noWeightTasks), Num(s.merchantCount)]
    ensures row[52..] == [Num(s.totalWeight), Num(s.avgWeight), Num(s.responseTime), Text(s.dataIntegrity)]
  {
    [Text(rec.timestamp), Text(rec.request),
     Num(s.totalTasks), Num(s.completedTasks), Num(s.shortageTasks), Num(s.uncompletedTasks),
     Num(s.weightTasks), Num(s.productTypes), Num(s.noWeightTasks), Num(s.merchantCount)]
    + CategoryCells(s, ColumnNames)
    + [Num(s.totalWeight), Num(s.avgWeight), Num(s.responseTime), Text(s.dataIntegrity)]
  }

  /** Every category cell of the statistics row sits under the header naming
      its key and holds that key's value (0 when the key is absent). */
  lemma StatsRowAligned(rec: ProgressRecord, s: Stats, k: nat, m: Measure)
    requires k < |ColumnNames|
    ensures var col := CategoryOffset + 3 * k + MeasureIndex(m);
      SummaryStatsHeader[col] == Text(KeyText(ColumnNames[k], m)) &&
      StatsRow(rec, s)[col] == Num(Lookup(s, ColumnNames[k], m))
  {
    CategoryColumnsAligned(s, ColumnNames, k, m);
  }

  /** The row written when `data` is falsy or not a dictionary. */
  function EmptyStatsRow(rec: ProgressRecord): (row: Row)
    ensures |row| == |SummaryStatsHeader|
    ensures row[..2] == [Text(rec.timestamp), Text(rec.request)]
    ensures forall j :: 2 <= j < |row| ==> row[j] == Blank
  {
    [Text(rec.timestamp), Text(rec.request)] + seq(|SummaryStatsHeader| - 2, _ => Blank)
  }

  /** The rows appended to the summary statistics file by lines 441-515 as
      written: the empty-row branch reads `summary_headers`, which is bound
      only when the header was written in the same call, so when the file
      already existed it raises, the handler at line 521 catches it, and no
      row is written. */
  function SummaryRowsAsWritten(existed: bool, rec: ProgressRecord, s: Stats): (rows: seq<Row>)
    ensures !SummaryGate(rec) ==> rows == []
    ensures SummaryGate(rec) && !existed ==>
      rows == [SummaryStatsHeader, if ProgressReplyOf(rec).data.Dict? then StatsRow(rec, s) else EmptyStatsRow(rec)]
    ensures SummaryGate(rec) && existed && ProgressReplyOf(rec).data.Dict? ==> rows == [StatsRow(rec, s)]
    ensures existed && !ProgressReplyOf(rec).data.Dict? ==> rows == []
  {
    if !SummaryGate(rec) then []
    else
      (if existed then [] else [SummaryStatsHeader]) +
      (if ProgressReplyOf(rec).data.Dict? then [StatsRow(rec, s)]
       else if existed then [] else [EmptyStatsRow(rec)])
  }

  /** The rows the summary file was evidently meant to receive: the empty
      row is written whether or not the file existed. */
  function SummaryRows(rec: ProgressRecord, s: Stats): (rows: seq<Row>)
    ensures SummaryGate(rec) ==> |rows| == 1 && |rows[0]| == |SummaryStatsHeader|
    ensures !SummaryGate(rec) ==> rows == []
  {
    if !SummaryGate(rec) then []
    else if ProgressReplyOf(rec).data.Dict? then [StatsRow(rec, s)]
    else [EmptyStatsRow(rec)]
  }

  /** The summary file after one save: untouched unless the gate passes, and
      then one row as long as the header, after the header if the file is new. */
  function SummaryFileAfter(f: CsvFile, rec: ProgressRecord, s: Stats): (g: CsvFile)
    ensures !SummaryGate(rec) ==> g == f
    ensures SummaryGate(rec) ==> g == Appended(f, SummaryStatsHeader, SummaryRows(rec, s))
  {
    if SummaryGate(rec) then Appended(f, SummaryStatsHeader, SummaryRows(rec, s)) else f
  }

  /** A successful reply with `code == 0` and `data: null`, saved when the
      summary file already exists: as written nothing is appended, while the
      intended behaviour appends one blank-padded row. */
  lemma EmptyRowLostWhenFileExists(timestamp: string, target: string)
    ensures var rec := Record(timestamp, target, Payload(ProgressReply(Some(0), None, Falsy)));
      && SummaryRowsAsWritten(true, rec, DefaultStats) == []
      && SummaryRows(rec, DefaultStats) == [EmptyStatsRow(rec)]
  {
  }

  /** Where the file is new, or `data` is a dictionary, the rows as written
      are the intended rows (after the header for a new file). */
  lemma SummaryRowsAgreeOtherwise(existed: bool, rec: ProgressRecord, s: Stats)
    requires !existed || ProgressReplyOf(rec).data.Dict?
    ensures SummaryGate(rec) ==>
      SummaryRowsAsWritten(existed, rec, s) == (if existed then [] else [SummaryStatsHeader]) + SummaryRows(rec, s)
    ensures !SummaryGate(rec) ==> SummaryRowsAsWritten(existed, rec, s) == []
  {
  }

  // ---------------------------------------------------------------------------
  // The writes, step by step
  // ---------------------------------------------------------------------------

  /** The summary-file part of `save_to_csv`: past the gate, the statistics
      row of a dictionary `data` (parsed by the collector's loop) or the
      blank-padded row, after the header when the file is new. */
  method WriteSummaryStats(f: CsvFile, rec: ProgressRecord) returns (g: CsvFile)
    ensures g == SummaryFileAfter(f, rec, ReplyStatistics(ProgressReplyOf(rec)))
  {
    g := f;
    var apiData := ProgressReplyOf(rec);
    if rec.Status() == Success && apiData.code == Some(0) {
      var row;
      if apiData.data.Dict? {
        var stats := ParseStatistics(apiData);
        row := StatsRow(rec, stats);
      } else {
        row := EmptyStatsRow(rec);
      }
      g := Appended(f, SummaryStatsHeader, [row]);
    }
  }

  /** The detail-file part of `save_sorter_rank_to_csv`: the header when the
      file is new, then one row per listed sorter, written one at a time, or
      the single error row. */
  method WriteRankDetail(f: CsvFile, rec: RankRecord) returns (g: CsvFile)
    ensures g == Appended(f, RankDetailHeader, RankDetailRows(rec))
  {
    g := Appended(f, RankDetailHeader, []);
    var apiData := RankReplyOf(rec);
    if apiData.code == Some(0) && apiData.sorters.Some? {
      var sorters := apiData.sorters.value;
      var i := 0;
      while i < |sorters|
        invariant 0 <= i <= |sorters|
        invariant g == Appended(f, RankDetailHeader, SorterRows(rec, sorters[..i]))
      {
        AppendedInSteps(f, RankDetailHeader, SorterRows(rec, sorters[..i]), [SorterRow(rec, sorters[i])]);
        g := Appended(g, RankDetailHeader, [SorterRow(rec, sorters[i])]);
        assert sorters[..i + 1] == sorters[..i] + [sorters[i]];
        SorterRowsAppend(rec, sorters[..i], sorters[i]);
        i := i + 1;
      }
      assert sorters[..i] == sorters;
    } else {
      AppendedInSteps(f, RankDetailHeader, [], [RankErrorRow(rec)]);
      g := Appended(g, RankDetailHeader, [RankErrorRow(rec)]);
      assert [] + [RankErrorRow(rec)] == RankDetailRows(rec);
    }
  }
}
