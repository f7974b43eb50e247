/** `DataCollector.parse_statistics`: folding a sorting-progress reply into the
    statistics dictionary. `Statistics` states the result declaratively (sums
    over the category entries, the last entry per resolved name, the server's
    totals when it gives a positive total); `ParseStatistics` is the
    entry-by-entry loop of the collector, proved to compute it. */
module Statistics {
  import opened Api
  import opened CategoryNames

  /** The three per-category keys of one category name. */
  datatype CategoryCounts = CategoryCounts(unfinished: int, finished: int, outOfStock: int)

  /** The statistics dictionary. The per-category keys `<name>_<measure>` are
      kept as `perCategory[name]` (see CategoryNames.KeyTextInjective). */
  datatype Stats = Stats(
    totalTasks: int,
    completedTasks: int,
    shortageTasks: int,
    uncompletedTasks: int,
    weightTasks: int,
    productTypes: int,
    noWeightTasks: int,
    merchantCount: int,
    totalWeight: int,
    avgWeight: int,
    responseTime: int,
    dataIntegrity: string,
    perCategory: map<string, CategoryCounts>)

  const Intact := "完整"

  const DefaultStats := Stats(0, 0, 0, 0, 0, 0, 0, 0, 0, 0, 0, Intact, map[])

  /** `stats.get('<name>_<measure>', 0)`. */
  function Lookup(s: Stats, name: string, m: Measure): int {
    if name in s.perCategory then
      var k := s.perCategory[name];
      match m
      case Unfinished => k.unfinished
      case Finished => k.finished
      case OutOfStock => k.outOfStock
    else 0
  }

  // ---------------------------------------------------------------------------
  // Sums over the category entries
  // ---------------------------------------------------------------------------

  /** The four counts of an entry that are summed into running totals. */
  datatype Tally = TotalCount | FinishedCount | UnfinishedCount | OutOfStockCount

  function TallyOf(c: CategoryEntry, t: Tally): int {
    match t
    case TotalCount => CountOr0(c.totalCount)
    case FinishedCount => CountOr0(c.finishedCount)
    case UnfinishedCount => CountOr0(c.unfinishedCount)
    case OutOfStockCount => CountOr0(c.outOfStockCount)
  }

  function SumOf(cs: seq<CategoryEntry>, t: Tally): int
    decreases |cs|
  {
    if cs == [] then 0 else TallyOf(cs[0], t) + SumOf(cs[1..], t)
  }

  lemma {:induction false} SumOfAppend(cs: seq<CategoryEntry>, c: CategoryEntry, t: Tally)
    ensures SumOf(cs + [c], t) == SumOf(cs, t) + TallyOf(c, t)
    decreases |cs|
  {
    if cs == [] {
      assert [] + [c] == [c];
    } else {
      assert (cs + [c])[1..] == cs[1..] + [c];
      SumOfAppend(cs[1..], c, t);
    }
  }

  /** Totals count every entry, whatever name it is filed under: entries that
      differ only in `id` and `name` have the same sums. */
  lemma {:induction false} SumsIgnoreNames(cs: seq<CategoryEntry>, ds: seq<CategoryEntry>, t: Tally)
    requires |cs| == |ds|
    requires forall i :: 0 <= i < |cs| ==> ds[i] == cs[i].(id := ds[i].id, name := ds[i].name)
    ensures SumOf(cs, t) == SumOf(ds, t)
    decreases |cs|
  {
    if cs != [] {
      assert ds[0] == cs[0].(id := ds[0].id, name := ds[0].name);
      SumsIgnoreNames(cs[1..], ds[1..], t);
    }
  }

  // ---------------------------------------------------------------------------
  // Per-category keys: the last entry filed under a name wins
  // ---------------------------------------------------------------------------

  function CountsOf(c: CategoryEntry): CategoryCounts {
    CategoryCounts(CountOr0(c.unfinishedCount), CountOr0(c.finishedCount), CountOr0(c.outOfStockCount))
  }

  function Names(cs: seq<CategoryEntry>): set<string> {
    set i | 0 <= i < |cs| :: ResolveName(cs[i])
  }

  /** The position of the last entry filed under `n`. */
  function LastIndexOf(cs: seq<CategoryEntry>, n: string): (k: nat)
    requires n in Names(cs)
    ensures k < |cs| && ResolveName(cs[k]) == n
    ensures forall j :: k < j < |cs| ==> ResolveName(cs[j]) != n
    decreases |cs|
  {
    var last := |cs| - 1;
    if ResolveName(cs[last]) == n then last
    else
      assert n in Names(cs[..last]) by {
        var i :| 0 <= i < |cs| && ResolveName(cs[i]) == n;
        assert cs[..last][i] == cs[i];
      }
      LastIndexOf(cs[..last], n)
  }

  /** The per-category part of the statistics after all entries. */
  function PerCategory(cs: seq<CategoryEntry>): map<string, CategoryCounts> {
    map n | n in Names(cs) :: CountsOf(cs[LastIndexOf(cs, n)])
  }

  lemma PerCategoryEmpty()
    ensures PerCategory([]) == map[]
  {
  }

  /** One more entry overwrites the three keys of its resolved name and leaves
      every other key as it was: the keyed writes of the loop body. */
  lemma PerCategoryAppend(cs: seq<CategoryEntry>, c: CategoryEntry)
    ensures PerCategory(cs + [c]) == PerCategory(cs)[ResolveName(c) := CountsOf(c)]
  {
    var xs := cs + [c];
    assert xs[..|cs|] == cs;
    assert xs[|cs|] == c;
    forall n
      ensures n in Names(xs) <==> n in Names(cs) || n == ResolveName(c)
    {
      if n in Names(xs) {
        var i :| 0 <= i < |xs| && ResolveName(xs[i]) == n;
        if i < |cs| {
          assert xs[i] == cs[i];
        }
      }
      if n in Names(cs) {
        var i :| 0 <= i < |cs| && ResolveName(cs[i]) == n;
        assert xs[i] == cs[i];
      }
    }
    var lhs := PerCategory(xs);
    var rhs := PerCategory(cs)[ResolveName(c) := CountsOf(c)];
    assert lhs.Keys == rhs.Keys;
    forall n | n in lhs
      ensures lhs[n] == rhs[n]
    {
      if n != ResolveName(c) {
        assert LastIndexOf(xs, n) == LastIndexOf(cs, n);
      }
    }
  }

  /** Exactly the resolved names get keys, and each name's counts are those of
      the last entry filed under it: an earlier entry with the same name is
      overwritten. */
  lemma PerCategoryIsLastEntry(cs: seq<CategoryEntry>, k: nat)
    requires k < |cs|
    requires forall j :: k < j < |cs| ==> ResolveName(cs[j]) != ResolveName(cs[k])
    ensures ResolveName(cs[k]) in PerCategory(cs)
    ensures PerCategory(cs)[ResolveName(cs[k])] == CountsOf(cs[k])
  {
  }

  lemma PerCategoryKeys(cs: seq<CategoryEntry>, n: string)
    ensures n in PerCategory(cs) <==> exists i :: 0 <= i < |cs| && ResolveName(cs[i]) == n
  {
  }

  // ---------------------------------------------------------------------------
  // The statistics of a reply
  // ---------------------------------------------------------------------------

  function CategoriesOf(d: ProgressData): seq<CategoryEntry> {
    if d.categorySchedule.Some? then d.categorySchedule.value else []
  }

  /** Defaults with the category sums and keys written in. */
  function FromCategories(cs: seq<CategoryEntry>): Stats {
    DefaultStats.(
      totalTasks := SumOf(cs, TotalCount),
      completedTasks := SumOf(cs, FinishedCount),
      uncompletedTasks := SumOf(cs, UnfinishedCount),
      shortageTasks := SumOf(cs, OutOfStockCount),
      perCategory := PerCategory(cs))
  }

  function WithSortData(s: Stats, sd: Option<SortData>): Stats {
    if sd.Some? then
      s.(merchantCount := CountOr0(sd.value.addressCount),
         productTypes := CountOr0(sd.value.skuCount),
         noWeightTasks := CountOr0(sd.value.unweightCount),
         weightTasks := CountOr0(sd.value.weightCount))
    else s
  }

  /** The server's totals are used when `total_schedule` is present with a
      positive `total_count`. */
  predicate Overrides(ts: Option<TotalSchedule>) {
    ts.Some? && CountOr0(ts.value.totalCount) > 0
  }

  function WithOverride(s: Stats, ts: Option<TotalSchedule>): Stats {
    if Overrides(ts) then
      s.(totalTasks := CountOr0(ts.value.totalCount),
         completedTasks := CountOr0(ts.value.finishedCount),
         uncompletedTasks := CountOr0(ts.value.unfinishedCount),
         shortageTasks := CountOr0(ts.value.outOfStockCount))
    else s
  }

  /** The statistics of a reply. A `data` value that is falsy or not a
      dictionary leaves the defaults. The weight average is never assigned:
      its guard needs a positive `total_weight`, which nothing sets. */
  function ReplyStatistics(reply: ProgressReply): Stats {
    match reply.data
    case Dict(d) => WithOverride(WithSortData(FromCategories(CategoriesOf(d)), d.sortData), d.totalSchedule)
    case _ => DefaultStats
  }

  /** The collector's loop: per entry, write its three keys and add its four
      counts to the running totals; then copy `sort_data` and apply the
      server's totals. */
  method ParseStatistics(apiData: ProgressReply) returns (stats: Stats)
    ensures stats == ReplyStatistics(apiData)
  {
    stats := DefaultStats;
    if apiData.data.Dict? {
      var data := apiData.data.fields;
      if data.categorySchedule.Some? {
        var categoryData := data.categorySchedule.value;
        PerCategoryEmpty();
        var i := 0;
        while i < |categoryData|
          invariant 0 <= i <= |categoryData|
          invariant stats == FromCategories(categoryData[..i])
        {
          var category := categoryData[i];
          var categoryName := ResolveName(category);
          stats := stats.(perCategory := stats.perCategory[categoryName := CountsOf(category)]);
          stats := stats.(
            totalTasks := stats.totalTasks + CountOr0(category.totalCount),
            completedTasks := stats.completedTasks + CountOr0(category.finishedCount),
            uncompletedTasks := stats.uncompletedTasks + CountOr0(category.unfinishedCount),
            shortageTasks := stats.shortageTasks + CountOr0(category.outOfStockCount));
          assert categoryData[..i + 1] == categoryData[..i] + [category];
          PerCategoryAppend(categoryData[..i], category);
          SumOfAppend(categoryData[..i], category, TotalCount);
          SumOfAppend(categoryData[..i], category, FinishedCount);
          SumOfAppend(categoryData[..i], category, UnfinishedCount);
          SumOfAppend(categoryData[..i], category, OutOfStockCount);
          i := i + 1;
        }
        assert categoryData[..i] == categoryData;
      } else {
        PerCategoryEmpty();
      }
      if data.sortData.Some? {
        var sortData := data.sortData.value;
        stats := stats.(
          merchantCount := CountOr0(sortData.addressCount),
          productTypes := CountOr0(sortData.skuCount),
          noWeightTasks := CountOr0(sortData.unweightCount),
          weightTasks := CountOr0(sortData.weightCount));
      }
      if data.totalSchedule.Some? {
        var totalSchedule := data.totalSchedule.value;
        var apiTotal := CountOr0(totalSchedule.totalCount);
        if apiTotal > 0 {
          stats := stats.(
            totalTasks := apiTotal,
            completedTasks := CountOr0(totalSchedule.finishedCount),
            uncompletedTasks := CountOr0(totalSchedule.unfinishedCount),
            shortageTasks := CountOr0(totalSchedule.outOfStockCount));
        }
      }
    }
  }

  // ---------------------------------------------------------------------------
  // Properties of the statistics
  // ---------------------------------------------------------------------------

  /** Without a positive server total, each running total is the sum over the
      entries of its count, a missing count being 0. */
  lemma TotalsAreSums(reply: ProgressReply)
    requires reply.data.Dict? && !Overrides(reply.data.fields.totalSchedule)
    ensures var s := ReplyStatistics(reply); var cs := CategoriesOf(reply.data.fields);
      s.totalTasks == SumOf(cs, TotalCount) &&
      s.completedTasks == SumOf(cs, FinishedCount) &&
      s.uncompletedTasks == SumOf(cs, UnfinishedCount) &&
      s.shortageTasks == SumOf(cs, OutOfStockCount)
  {
  }

  /** A positive server total replaces the four totals whatever the entries
      hold, and changes nothing else. */
  lemma OverrideReplacesTotals(reply: ProgressReply)
    requires reply.data.Dict? && Overrides(reply.data.fields.totalSchedule)
    ensures var s := ReplyStatistics(reply); var ts := reply.data.fields.totalSchedule.value;
      s.totalTasks == CountOr0(ts.totalCount) &&
      s.completedTasks == CountOr0(ts.finishedCount) &&
      s.uncompletedTasks == CountOr0(ts.unfinishedCount) &&
      s.shortageTasks == CountOr0(ts.outOfStockCount)
    ensures var s := ReplyStatistics(reply);
      var t := ReplyStatistics(reply.(data := Dict(reply.data.fields.(totalSchedule := None))));
      s.(totalTasks := 0, completedTasks := 0, uncompletedTasks := 0, shortageTasks := 0) ==
      t.(totalTasks := 0, completedTasks := 0, uncompletedTasks := 0, shortageTasks := 0)
  {
  }

  /** A reply whose `data` is missing, falsy or not a dictionary yields the
      defaults; and no reply ever sets the weight fields, the response time or
      the integrity marker. */
  lemma UntouchedFields(reply: ProgressReply)
    ensures !reply.data.Dict? ==> ReplyStatistics(reply) == DefaultStats
    ensures var s := ReplyStatistics(reply);
      s.totalWeight == 0 && s.avgWeight == 0 && s.responseTime == 0 && s.dataIntegrity == Intact
  {
  }
}
