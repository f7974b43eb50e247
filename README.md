# Sorting-progress collector, modelled in Dafny

The collector in `data_collector.py` polls a warehouse web API on a schedule. Each round
(`collect_once`) does the following:

- It asks for the sorting progress of a target date. From 18:00 on, the target is the next day.
- It appends the record to a per-day JSON log and writes two CSV files:
  - a raw row for every fetch;
  - a statistics row built by `parse_statistics` from the reply's `category_schedule`,
    `sort_data` and `total_schedule`.
- It asks for the sorter ranking of the 05:00–09:00 window of the target date, and saves it
  the same way to a JSON log, a detail CSV and a summary CSV. The clock is read again for
  this window, so after a slow progress fetch the two dates can differ.
- It reports `success` only when both fetches succeeded.

Each fetch makes up to `max_attempts` requests:

- a request error is retried after a sleep;
- a JSON decoding error gives up at once;
- both failures produce a `failed` record.

The model is laid out as follows:

- **Api.** The replies, records and CSV cells, as datatypes.
- **CategoryNames.** The ID-to-name table, the name an entry is filed under, and the flat
  statistic keys `<name>_未完成` / `_已完成` / `_缺货`.
- **Statistics.** `parse_statistics`. The function `ReplyStatistics` states the result
  declaratively, and the method `ParseStatistics` is the entry-by-entry loop, proved to
  compute it.
- **TargetDate.** `get_target_date` and the defaulted ranking window.
- **Retry.** The attempt loop: the function `Run` and the method `FetchWithRetry`.
- **Storage.** The JSON append rule and the rows each CSV file receives.
- **Collector.** The class `DataCollector`. Its fields are the files of the data directory,
  which its save methods update in place. `CollectOnce` is one round.

Inputs from the environment are parameters:

- **Clock.** Each reading is an `hour` and a day number, and renderers `fmt` (`YYYY-MM-DD`)
  and `compact` (`YYYYMMDD`) print day numbers. A round reads the clock three times: when
  `fetch_data` picks its target date, when `collect_once` computes `date_str`, and when
  `fetch_sorter_rank_data` picks its window. Each reading is its own parameter.
- **Server.** One `Attempt` outcome per possible request.
- **Timestamps.** Strings supplied by the caller.
- **JSON serialisation.** The parameter `dumps`.

## Model

| member | source | states |
|---|---|---|
| Statistics.ParseStatistics | data_collector.py:524-624 | The loop over `category_schedule` (per-key writes, running totals), the `sort_data` copy and the positive-`total_count` override compute exactly `ReplyStatistics` of the reply. |
| Statistics.TotalsAreSums | data_collector.py:548-588 | Without a positive server total, each of the four totals is the sum over all entries of its count, a missing count being 0. |
| Statistics.OverrideReplacesTotals | data_collector.py:598-612 | A positive `total_schedule.total_count` sets the four totals to the server's values whatever the entries hold, and changes no other statistic. |
| Statistics.UntouchedFields | data_collector.py:526-616 | A missing or falsy `data` leaves the defaults (a truthy non-dictionary `data` is modelled this way too; see Left out). No reply sets `total_weight`, `avg_weight`, `response_time` or `data_integrity`, so the average-weight guard never fires. |
| Statistics.SumOfAppend | data_collector.py:584-588 | Adding one entry adds its count to the running total. |
| Statistics.SumsIgnoreNames | data_collector.py:584-588 | Totals do not depend on the names or IDs of the entries: every entry is counted, including entries filed under the same name. |
| Statistics.PerCategoryAppend | data_collector.py:579-582 | One more entry overwrites the three keys of its resolved name and leaves every other category's keys unchanged. |
| Statistics.PerCategoryIsLastEntry | data_collector.py:579-582 | The keys of a name hold the counts of the last entry filed under it. |
| Statistics.PerCategoryKeys | data_collector.py:579-582 | A name has keys exactly when some entry resolves to it. |
| CategoryNames.ResolveName | data_collector.py:557-577 | An entry's own non-empty name other than `其他` is used. Otherwise the table entry for its ID is used, and an unknown or absent ID gives `其他`. The result is never empty. |
| CategoryNames.TableNamesHaveColumns | data_collector.py:561-575 | Every name in the ID table, and `其他`, has columns in the summary statistics header. |
| CategoryNames.UnnamedEntriesHaveColumns | data_collector.py:557-577 | An entry without a usable name always lands in a category that has summary columns. |
| CategoryNames.KeyTextInjective | data_collector.py:579-582 | Different (name, measure) pairs give different keys. Per-category writes collide only for the same category and measure. |
| CategoryNames.KeyTextNotFixed | data_collector.py:526-539 | No per-category key coincides with one of the twelve fixed statistic keys. |
| TargetDate.TargetDay | data_collector.py:104-113 | The target day is the current day plus the offset, or one day more, and it is one day more exactly when the hour is 18 or later. |
| TargetDate.TargetDayIsSixHoursAhead | data_collector.py:104-116 | With the 18:00 cutoff, the target day is the date six hours from now, plus the offset. |
| TargetDate.TargetDayMonotone | data_collector.py:104-116 | As the clock advances, the target day never moves back. It is the current day plus the offset, or one day more. |
| TargetDate.TargetDateText | data_collector.py:104-116 | The target date text is the rendered target day followed by ` 00:00:00`. |
| TargetDate.RankWindow | data_collector.py:172-186 | Two given bounds are kept unchanged. |
| TargetDate.RankWindowMatchesTargetDate | data_collector.py:172-186 | When either bound is missing, the window is 05:00–09:00 of the date `get_target_date()` names at the same moment. |
| Retry.FetchWithRetry | data_collector.py:129-165 | The attempt loop returns the record, request count and sleep count given by `Run` over the outcomes. |
| Retry.RunShape | data_collector.py:129-165 | With `max_attempts >= 1`, a record is returned after 1 to `max_attempts` requests, with one sleep between consecutive requests and none after the last. With `max_attempts <= 0` nothing is requested and nothing is returned. |
| Retry.FirstDecisiveAttempt | data_collector.py:129-165 | The first outcome that is not a request error decides after `k+1` requests and `k` sleeps. A reply gives success with that reply; a decoding error gives failure with `JSON解析失败: ` and the message. |
| Retry.AllRequestErrors | data_collector.py:146-157 | If every attempt is a request error, the record carries the last error, after `max_attempts` requests and one sleep fewer. |
| Retry.SucceedsIff | data_collector.py:129-165 | A fetch succeeds exactly when a reply comes, within `max_attempts`, before any decoding error, and the record then holds that reply. |
| Retry.SkipRequestErrors | data_collector.py:146-151 | Request errors before the last attempt are retried without effect on the outcome. |
| Storage.AppendToJsonArray | data_collector.py:380-390 | The saved list ends with the new record. It is preceded by the prior list, by a prior single value, or by nothing when the file is missing or unreadable. |
| Storage.SavesAccumulate | data_collector.py:371-393 | A run of saves leaves the readable prior content followed by every record in order. |
| Storage.Appended | data_collector.py:415-423 | Appending to a CSV file writes the header only when the file did not exist, and keeps earlier rows. |
| Storage.AppendedInSteps | data_collector.py:288-330 | Writing rows one `writerow` at a time gives the file one write of all of them would, with a single header. |
| Storage.SorterRowsAppend | data_collector.py:301-315 | The per-sorter rows of a longer list extend those of its prefix. |
| Storage.RankDetailRows | data_collector.py:299-330 | Every detail row has ten columns and starts with the record's time and window. A listed reply gives one row per sorter, in order, with that sorter's name, rank and count. Anything else gives one row with blank sorter cells and the error text. |
| Storage.WriteRankDetail | data_collector.py:288-330 | The per-sorter `writerow` loop leaves the detail file as `RankDetailRows` appended after the header-if-new. |
| Storage.RankSummaryRow | data_collector.py:344-362 | The summary row has seven columns, with the record's time, window and status. |
| Storage.SummaryMatchesDetail | data_collector.py:344-352 | The summary total is the sum of the detail rows' completed-count column. The sorter count is the number of detail rows for a listed reply, and 0 and 0 otherwise. |
| Storage.RawRow | data_collector.py:427-438 | Every record gets a raw row. Time, target, status and error come from the record. A failed record has blank code and message and the serialisation of `{}`. |
| Storage.StatsRow | data_collector.py:478-511 | The statistics row has the 56 header columns: time, target, the eight totals in header order, the category cells and the four trailing statistics. |
| Storage.CategoryColumnsAligned | data_collector.py:452-507 | Category column `3k+j` is headed by the key of measure `j` of category `k` and holds that key's value (0 if absent). |
| Storage.StatsRowAligned | data_collector.py:447-511 | In the whole summary row, every category cell sits under the header naming its statistic key. |
| Storage.EmptyStatsRow | data_collector.py:512-515 | The fallback row is time and target followed by blanks, as long as the header. |
| Storage.SummaryRows | data_collector.py:441-515 | The summary file gets one header-length row only past the gate (`success` and `code == 0`): the statistics row for a dictionary `data`, otherwise the blank-padded row. |
| Storage.SummaryRowsAsWritten | data_collector.py:441-515 | The rows lines 441-515 append as written: nothing outside the gate; the header and one row for a new file; the statistics row for an existing file and a dictionary `data`; and nothing for an existing file and any other `data`. |
| Storage.SummaryFileAfter | data_collector.py:441-515 | With the empty-row branch corrected (see Findings): outside the gate the summary file is untouched, and past it the intended summary rows are appended after the header-if-new. |
| Storage.WriteSummaryStats | data_collector.py:441-515 | With the empty-row branch corrected (see Findings): the summary-file part of `save_to_csv` leaves the file as `SummaryFileAfter` with the reply's statistics. |
| Storage.SummaryRowsAgreeOtherwise | data_collector.py:447-515 | Where the summary file is new, or `data` is a dictionary, the code as written appends the intended rows. |
| Collector.OverallStatus | data_collector.py:700 | The round's status is `success` exactly when both fetches succeeded, and `partial_success` otherwise. |
| Collector.DataCollector.FetchData | data_collector.py:118-165 | Fetches for the given target date, or `get_target_date()` when none is given, with the attempt loop's result. |
| Collector.DataCollector.FetchSorterRankData | data_collector.py:167-241 | Fetches for the given window, or the defaulted one, with the attempt loop's result. |
| Collector.DataCollector.SaveToJson | data_collector.py:371-395 | Only the log of `date_str` changes, and it becomes the append-rule list ending in the record. |
| Collector.DataCollector.SaveSorterRankToJson | data_collector.py:243-267 | Only the ranking log changes, and it ends with the record. |
| Collector.DataCollector.SaveToCsv | data_collector.py:397-523 | Only the raw and summary files change: one raw row, plus the summary rows past the gate. |
| Collector.DataCollector.SaveSorterRankToCsv | data_collector.py:269-369 | Only the two ranking files change: the detail rows, and one summary row. |
| Collector.DataCollector.CollectOnce | data_collector.py:626-714 | One round fetches the progress for the target date of the first clock reading, logs it under the compact date of the second, fetches the ranking for the window of the third, saves each to its JSON log and CSV files, and returns both records with the overall status. Six files change, as stated. |

## Left out

- **HTTP, the session, the sleep, the schedule loop, logging, configuration loading and the
  menu** (`main`) are not modelled. Request outcomes are a parameter and sleeps are counted.
- **Reading JSON files.** A JSON log is modelled by what loading it gives: missing,
  unreadable, a list, or another value.
- **Formatting.** `json.dumps`, `strftime` and ISO timestamps are parameters. `dumps` sees
  only the modelled keys of a reply (`code`, `msg` and `data`), so the model gives the raw
  cell of line 435 the same text for replies that differ only in other keys, in which falsy
  `data` they carry (absent, `null`, `0`, empty), or in which non-dictionary `data`, where
  `json.dumps` would not. For example `{}` and `{"data": null}` get the same cell.
- **Floating point.** The `平均完成件数` cell is the pair (total, count), written 0 when the
  count is 0, and `round(..., 2)` is not modelled. The completion rate and average shown in
  `collect_once`'s log lines are left out.
- **The statistics pass and the top-three sort** that `collect_once` performs only for
  logging are left out.
- **Malformed replies.** The model covers replies that are JSON objects whose counts are
  integers or absent. A count that is `null` or not a number can raise. A `sort_data` or
  `total_schedule` that is not an object can raise as well. Either way, the
  `data_integrity` error text set by the handler at lines 620-622 is not modelled.
- Statistics.ReplyStatistics: a `data` value that is truthy but not a dictionary is treated
  as holding none of the keys, so it gives the defaults. In the code such a value can raise
  instead, and the handler at lines 620-622 then sets `data_integrity` to the error text:
  a number or boolean raises at line 547 on `'category_schedule' in data`; a string can
  match that test, or the `'sort_data'` test, as a substring and raise on the lookup that
  follows; a list holding `'category_schedule'` or `'sort_data'` raises on the lookup at
  line 547 or line 592.
- Retry.FetchWithRetry: requires at least `max_attempts` outcomes, one per request the loop
  may make.
- Retry.FetchWithRetry: a body that fails to decode is assumed to reach the
  `json.JSONDecodeError` handler (lines 158 and 233): no retry, and the `JSON解析失败: `
  prefix. With requests 2.27 or later, `response.json()` raises
  `requests.exceptions.JSONDecodeError`, which is also a `RequestException`, so the first
  handler (lines 147 and 221) catches it. The error is then retried like a request error and
  recorded without the prefix. The model does not capture that behaviour.
- Collector.DataCollector.CollectOnce: the three clock readings of a round are independent
  parameters. The model does not relate them, for example that they are non-decreasing.
- Collector.DataCollector.CollectOnce: requires `max_attempts >= 1`. With fewer attempts the
  fetch returns `None` and `collect_once` fails at line 640 on `data['status']`.
- Collector.DataCollector.SaveToCsv: uses the corrected empty-row branch. The as-written
  branch is modelled by Storage.SummaryRowsAsWritten (see Findings).
- **Directory creation** (`os.makedirs`) and the CSV encoding (`utf-8-sig`) are not modelled.

## Findings

| source | as written | input that shows it | evidently intended | confidence | as-written member | corrected member |
|---|---|---|---|---|---|---|
| data_collector.py:514 | The empty row's length uses `summary_headers`, which is bound only when the header was written in the same call. When `summary_stats.csv` already exists, this raises `UnboundLocalError`, the handler at line 521 catches it, and no row is appended. | A successful record with `code == 0` and `data: null`, saved when the summary file already exists. | Append the time and target followed by 54 blanks whether or not the file existed. | not executed | Storage.EmptyRowLostWhenFileExists | Storage.SummaryRows |
