/** The values the sorting-progress collector exchanges with the warehouse web API
    and writes to its flat files: the decoded JSON replies (only the keys the
    collector reads), the attempt outcomes of one HTTP request, the records that
    the fetch functions return, and the cells of a CSV row. */
module Api {

  datatype Option<+T> = None | Some(value: T)

  /** `d.get(key, 0)` for an integer field that is None when the key is absent. */
  function CountOr0(o: Option<int>): int {
    if o.Some? then o.value else 0
  }

  // ---------------------------------------------------------------------------
  // Reply of /weight/weight_collect/weight_info/get (sorting progress)
  // ---------------------------------------------------------------------------

  /** One element of `category_schedule`. */
  datatype CategoryEntry = CategoryEntry(
    id: Option<string>,
    name: Option<string>,
    totalCount: Option<int>,
    finishedCount: Option<int>,
    unfinishedCount: Option<int>,
    outOfStockCount: Option<int>)

  /** The `total_schedule` object: the server's own totals. */
  datatype TotalSchedule = TotalSchedule(
    totalCount: Option<int>,
    finishedCount: Option<int>,
    unfinishedCount: Option<int>,
    outOfStockCount: Option<int>)

  /** The `sort_data` object. */
  datatype SortData = SortData(
    addressCount: Option<int>,
    skuCount: Option<int>,
    unweightCount: Option<int>,
    weightCount: Option<int>)

  /** A non-empty `data` dictionary; `categorySchedule` is None when that key is
      absent or its value is not a list. */
  datatype ProgressData = ProgressData(
    categorySchedule: Option<seq<CategoryEntry>>,
    sortData: Option<SortData>,
    totalSchedule: Option<TotalSchedule>)

  /** The value under the reply's `data` key, as seen by the truthiness and
      `isinstance(..., dict)` tests: Falsy covers an absent key, null, 0, "",
      [] and {}. */
  datatype DataField = Falsy | NotDict | Dict(fields: ProgressData)

  datatype ProgressReply = ProgressReply(code: Option<int>, msg: Option<string>, data: DataField)

  /** `{}`: what `data.get('data', {})` yields for a failed record. */
  const EmptyProgressReply := ProgressReply(None, None, Falsy)

  // ---------------------------------------------------------------------------
  // Reply of /weight/weight_collect/sorter/rank (sorter ranking)
  // ---------------------------------------------------------------------------

  datatype Sorter = Sorter(sorterName: Option<string>, rank: Option<int>, statisticResults: Option<int>)

  /** `sorters` is None when the reply's `data` key is absent or not a list. */
  datatype RankReply = RankReply(code: Option<int>, msg: Option<string>, sorters: Option<seq<Sorter>>)

  const EmptyRankReply := RankReply(None, None, None)

  // ---------------------------------------------------------------------------
  // Requests, attempts and records
  // ---------------------------------------------------------------------------

  /** What one HTTP attempt produced: a decoded reply, a request exception
      (connection, timeout, HTTP status) or a JSON decoding error. */
  datatype Attempt<D> = Ok(data: D) | ReqErr(message: string) | DecodeErr(message: string)

  /** The record's `data` key on success, its `error` key on failure. */
  datatype Body<D> = Payload(data: D) | Error(message: string)

  datatype Status = Success | Failed {
    function Text(): string {
      match this
      case Success => "success"
      case Failed => "failed"
    }
  }

  /** The ranking window `cycle_start_time` .. `cycle_end_time`. */
  datatype Window = Window(cycleStart: string, cycleEnd: string)

  /** The dictionary a fetch function returns; `request` is the target date of a
      progress fetch or the window of a ranking fetch. */
  datatype Record<Q, D> = Record(timestamp: string, request: Q, body: Body<D>) {
    /** The record's `status` key: 'success' exactly when it carries data. */
    function Status(): Status {
      if body.Payload? then Success else Failed
    }

    /** `data.get('error', '')`. */
    function ErrorText(): string {
      if body.Error? then body.message else ""
    }
  }

  type ProgressRecord = Record<string, ProgressReply>
  type RankRecord = Record<Window, RankReply>

  /** `data.get('data', {})` of a progress record. */
  function ProgressReplyOf(rec: ProgressRecord): ProgressReply {
    if rec.body.Payload? then rec.body.data else EmptyProgressReply
  }

  /** `data.get('data', {})` of a ranking record. */
  function RankReplyOf(rec: RankRecord): RankReply {
    if rec.body.Payload? then rec.body.data else EmptyRankReply
  }

  // ---------------------------------------------------------------------------
  // CSV cells
  // ---------------------------------------------------------------------------

  /** A written CSV cell: text, an integer, or the two-decimal rounded mean
      `total / count` (written 0 when `count` is 0). */
  datatype Cell = Text(s: string) | Num(n: int) | Mean(total: int, count: int)

  type Row = seq<Cell>

  const Blank := Text("")

  /** `d.get(key, '')` for a text field. */
  function TextOrBlank(o: Option<string>): Cell {
    if o.Some? then Text(o.value) else Blank
  }

  /** `d.get(key, '')` for an integer field. */
  function NumOrBlank(o: Option<int>): Cell {
    if o.Some? then Num(o.value) else Blank
  }

  /** The numeric value of a cell when summed, a blank counting as 0. */
  function CellNumber(c: Cell): int {
    if c.Num? then c.n else 0
  }
}
