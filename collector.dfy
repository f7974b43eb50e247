/** The `DataCollector` object: its retry setting and the files of its data
    directory, which its save methods update in place, and `collect_once`,
    one round of fetching and saving both kinds of data. */
module Collector {
  import opened Api
  import opened TargetDate
  import opened Retry
  import opened Statistics
  import opened Storage

  /** An element of a JSON log: a record saved by the collector, or any other
      JSON value found in the file. */
  datatype LogEntry = ProgressEntry(progress: ProgressRecord) | RankEntry(rank: RankRecord) | OtherJson(text: string)

  /** The `status` of one collection round. */
  datatype Overall = AllSucceeded | PartialSuccess {
    function Text(): string {
      match this
      case AllSucceeded => "success"
      case PartialSuccess => "partial_success"
    }
  }

  /** A round succeeds only when both fetches did. */
  function OverallStatus(progress: Status, ranking: Status): (o: Overall)
    ensures o == AllSucceeded <==> progress == Success && ranking == Success
    ensures o.Text() == "success" <==> progress == Success && ranking == Success
  {
    if progress == Success && ranking == Success then AllSucceeded else PartialSuccess
  }

  /** The dictionary `collect_once` returns. */
  datatype CollectResult = CollectResult(
    sortingProgress: ProgressRecord,
    sorterRanking: RankRecord,
    status: Overall,
    timestamp: string)

  class DataCollector {
    /** `config['retry']['max_attempts']`. */
    const maxAttempts: int

    /** `sorting_progress_{date}.json`, by the `date_str` of the save. */
    var progressLogs: map<string, JsonFile<LogEntry>>
    /** `sorter_rank.json`. */
    var rankLog: JsonFile<LogEntry>
    /** `raw_data.csv`. */
    var rawCsv: CsvFile
    /** `summary_stats.csv`. */
    var summaryCsv: CsvFile
    /** `sorter_rank_detail.csv`. */
    var rankDetailCsv: CsvFile
    /** `sorter_rank_summary.csv`. */
    var rankSummaryCsv: CsvFile

    constructor (maxAttempts: int, progressLogs: map<string, JsonFile<LogEntry>>, rankLog: JsonFile<LogEntry>,
                 rawCsv: CsvFile, summaryCsv: CsvFile, rankDetailCsv: CsvFile, rankSummaryCsv: CsvFile)
      ensures this.maxAttempts == maxAttempts
      ensures this.progressLogs == progressLogs && this.rankLog == rankLog
      ensures this.rawCsv == rawCsv && this.summaryCsv == summaryCsv
      ensures this.rankDetailCsv == rankDetailCsv && this.rankSummaryCsv == rankSummaryCsv
    {
      this.maxAttempts := maxAttempts;
      this.progressLogs := progressLogs;
      this.rankLog := rankLog;
      this.rawCsv := rawCsv;
      this.summaryCsv := summaryCsv;
      this.rankDetailCsv := rankDetailCsv;
      this.rankSummaryCsv := rankSummaryCsv;
    }

    /** The progress log of one date as a save finds it. */
    function ProgressLog(dateStr: string): JsonFile<LogEntry>
      reads this
    {
      if dateStr in progressLogs then progressLogs[dateStr] else Absent
    }

    // -------------------------------------------------------------------------
    // Fetching
    // -------------------------------------------------------------------------

    /** `fetch_data`: the attempt loop for the given target date, or for
        `get_target_date()` when none is given. */
    method FetchData(targetDate: Option<string>, hour: int, today: int, fmt: int -> string,
                     outcomes: seq<Attempt<ProgressReply>>, timestamp: string)
      returns (r: Option<ProgressRecord>, attempts: nat, sleeps: nat)
      requires maxAttempts <= |outcomes|
      ensures var run := Run(outcomes, maxAttempts);
        attempts == run.attempts && sleeps == run.sleeps &&
        r == (if run.outcome.Some? then Some(Record(timestamp, ProgressTarget(targetDate, hour, today, fmt), run.outcome.value))
              else None)
    {
      var target := ProgressTarget(targetDate, hour, today, fmt);
      r, attempts, sleeps := FetchWithRetry(target, outcomes, maxAttempts, timestamp);
    }

    /** `fetch_sorter_rank_data`: the attempt loop for the given window, or
        for the defaulted one when a bound is missing. */
    method FetchSorterRankData(cycleStart: Option<string>, cycleEnd: Option<string>, hour: int, today: int,
                               fmt: int -> string, outcomes: seq<Attempt<RankReply>>, timestamp: string)
      returns (r: Option<RankRecord>, attempts: nat, sleeps: nat)
      requires maxAttempts <= |outcomes|
      ensures var run := Run(outcomes, maxAttempts);
        attempts == run.attempts && sleeps == run.sleeps &&
        r == (if run.outcome.Some? then Some(Record(timestamp, RankWindow(cycleStart, cycleEnd, hour, today, fmt), run.outcome.value))
              else None)
    {
      var window := RankWindow(cycleStart, cycleEnd, hour, today, fmt);
      r, attempts, sleeps := FetchWithRetry(window, outcomes, maxAttempts, timestamp);
    }

    // -------------------------------------------------------------------------
    // Saving
    // -------------------------------------------------------------------------

    /** `save_to_json`: the date's log becomes a list ending in the record. */
    method SaveToJson(rec: ProgressRecord, dateStr: string)
      modifies this`progressLogs
      ensures progressLogs == old(progressLogs)[dateStr := List(AppendToJsonArray(old(ProgressLog(dateStr)), ProgressEntry(rec)))]
    {
      var existingData := AppendToJsonArray(ProgressLog(dateStr), ProgressEntry(rec));
      progressLogs := progressLogs[dateStr := List(existingData)];
    }

    /** `save_sorter_rank_to_json`: the ranking log becomes a list ending in
        the record. */
    method SaveSorterRankToJson(rec: RankRecord)
      modifies this`rankLog
      ensures rankLog == List(AppendToJsonArray(old(rankLog), RankEntry(rec)))
    {
      var existingData := AppendToJsonArray(rankLog, RankEntry(rec));
      rankLog := List(existingData);
    }

    /** `save_to_csv`: always one raw row; the statistics file only past the
        gate (with the empty-row branch as evidently intended). */
    method SaveToCsv(rec: ProgressRecord, dumps: ProgressReply -> string)
      modifies this`rawCsv, this`summaryCsv
      ensures rawCsv == Appended(old(rawCsv), RawHeader, [RawRow(rec, dumps)])
      ensures summaryCsv == SummaryFileAfter(old(summaryCsv), rec, ReplyStatistics(ProgressReplyOf(rec)))
    {
      rawCsv := Appended(rawCsv, RawHeader, [RawRow(rec, dumps)]);
      summaryCsv := WriteSummaryStats(summaryCsv, rec);
    }

    /** `save_sorter_rank_to_csv`: the detail rows one by one, then the
        summary row, each file getting its header when new. */
    method SaveSorterRankToCsv(rec: RankRecord)
      modifies this`rankDetailCsv, this`rankSummaryCsv
      ensures rankDetailCsv == Appended(old(rankDetailCsv), RankDetailHeader, RankDetailRows(rec))
      ensures rankSummaryCsv == Appended(old(rankSummaryCsv), RankSummaryHeader, [RankSummaryRow(rec)])
    {
      rankDetailCsv := WriteRankDetail(rankDetailCsv, rec);
      rankSummaryCsv := Appended(rankSummaryCsv, RankSummaryHeader, [RankSummaryRow(rec)]);
    }

    // -------------------------------------------------------------------------
    // One collection round
    // -------------------------------------------------------------------------

    /** `collect_once`: fetch and save the progress data (logged under the
        compact date of the moment it is saved), fetch and save the ranking,
        and report success only when both fetches succeeded. The round reads
        the clock three times: `progressHour`/`progressDay` when `fetch_data`
        picks its target date, `saveDay` for `date_str`, and
        `rankHour`/`rankDay` when `fetch_sorter_rank_data` picks its window.
        The stamps are the record and result times. */
    method CollectOnce(progressHour: int, progressDay: int, saveDay: int, rankHour: int, rankDay: int,
                       fmt: int -> string, compact: int -> string,
                       dumps: ProgressReply -> string,
                       progressOutcomes: seq<Attempt<ProgressReply>>, rankOutcomes: seq<Attempt<RankReply>>,
                       progressStamp: string, rankStamp: string, resultStamp: string)
      returns (result: CollectResult)
      requires 1 <= maxAttempts <= |progressOutcomes| && maxAttempts <= |rankOutcomes|
      modifies this
      ensures Run(progressOutcomes, maxAttempts).outcome.Some? && Run(rankOutcomes, maxAttempts).outcome.Some?
      ensures result.sortingProgress ==
        Record(progressStamp, ProgressTarget(None, progressHour, progressDay, fmt), Run(progressOutcomes, maxAttempts).outcome.value)
      ensures result.sorterRanking ==
        Record(rankStamp, RankWindow(None, None, rankHour, rankDay, fmt), Run(rankOutcomes, maxAttempts).outcome.value)
      ensures result.status == OverallStatus(result.sortingProgress.Status(), result.sorterRanking.Status())
      ensures result.timestamp == resultStamp
      ensures progressLogs == old(progressLogs)[compact(saveDay) :=
        List(AppendToJsonArray(old(ProgressLog(compact(saveDay))), ProgressEntry(result.sortingProgress)))]
      ensures rawCsv == Appended(old(rawCsv), RawHeader, [RawRow(result.sortingProgress, dumps)])
      ensures summaryCsv ==
        SummaryFileAfter(old(summaryCsv), result.sortingProgress, ReplyStatistics(ProgressReplyOf(result.sortingProgress)))
      ensures rankLog == List(AppendToJsonArray(old(rankLog), RankEntry(result.sorterRanking)))
      ensures rankDetailCsv == Appended(old(rankDetailCsv), RankDetailHeader, RankDetailRows(result.sorterRanking))
      ensures rankSummaryCsv == Appended(old(rankSummaryCsv), RankSummaryHeader, [RankSummaryRow(result.sorterRanking)])
    {
      RunShape(progressOutcomes, maxAttempts);
      RunShape(rankOutcomes, maxAttempts);
      var data, _, _ := FetchData(None, progressHour, progressDay, fmt, progressOutcomes, progressStamp);
      var dateStr := compact(saveDay);
      SaveToJson(data.value, dateStr);
      SaveToCsv(data.value, dumps);
      var sorterRankData, _, _ := FetchSorterRankData(None, None, rankHour, rankDay, fmt, rankOutcomes, rankStamp);
      SaveSorterRankToJson(sorterRankData.value);
      SaveSorterRankToCsv(sorterRankData.value);
      var overallStatus := OverallStatus(data.value.Status(), sorterRankData.value.Status());
      result := CollectResult(data.value, sorterRankData.value, overallStatus, resultStamp);
    }
  }
}
