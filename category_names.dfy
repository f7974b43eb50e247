/** Category names in the sorting-progress statistics: the fixed ID-to-name
    table used when the reply gives no usable name, the order in which the
    summary CSV lists the categories, and the flat statistic keys
    `<name>_未完成`, `<name>_已完成`, `<name>_缺货`. */
module CategoryNames {
  import opened Api

  /** The catch-all category. */
  const Other := "其他"

  /** Category ID to name, used when an entry has no usable `name`. */
  const NameTable: map<string, string> := map[
    "A627108" := "新鲜蔬菜",
    "A627109" := "新鲜肉类",
    "A627111" := "鲜活水产",
    "A627113" := "时令果蔬",
    "A627110" := "鲜活禽类",
    "A627118" := "休闲食品",
    "A627112" := "速冻速食",
    "A627115" := "南北干货",
    "A627119" := "厨房酱料",
    "A627114" := "乳品烘焙",
    "A629184" := "厨房用品",
    "A627117" := "米面粮油",
    "A627116" := "腊味熟食"
  ]

  /** The categories that have columns in the summary statistics CSV, in
      column order. */
  const ColumnNames: seq<string> := [
    "新鲜蔬菜", "新鲜肉类", "鲜活水产", "时令果蔬", "鲜活禽类", "休闲食品", "速冻速食",
    "南北干货", "厨房酱料", "乳品烘焙", "厨房用品", "米面粮油", "腊味熟食", Other
  ]

  /** The name a category entry is filed under: its own `name` unless that is
      absent, empty or the catch-all, and then the table entry for its `id`,
      an unknown or absent ID giving the catch-all. */
  function ResolveName(c: CategoryEntry): (n: string)
    ensures n != ""
    ensures c.name.Some? && c.name.value != "" && c.name.value != Other ==> n == c.name.value
    ensures !(c.name.Some? && c.name.value != "" && c.name.value != Other) ==>
              (c.id.Some? && c.id.value in NameTable ==> n == NameTable[c.id.value]) &&
              (!(c.id.Some? && c.id.value in NameTable) ==> n == Other)
  {
    var given := if c.name.Some? then c.name.value else Other;
    if given != "" && given != Other then given
    else
      var id := if c.id.Some? then c.id.value else "";
      if id in NameTable then NameTable[id] else Other
  }

  /** Every name the table can produce has its columns in the summary CSV. */
  lemma TableNamesHaveColumns()
    ensures forall id :: id in NameTable ==> NameTable[id] in ColumnNames
    ensures Other in ColumnNames
  {
  }

  /** An entry without a usable name always resolves to a name that has
      summary columns. */
  lemma UnnamedEntriesHaveColumns(c: CategoryEntry)
    requires !(c.name.Some? && c.name.value != "" && c.name.value != Other)
    ensures ResolveName(c) in ColumnNames
  {
  }

  // ---------------------------------------------------------------------------
  // Flat statistic keys
  // ---------------------------------------------------------------------------

  /** The three per-category counts. */
  datatype Measure = Unfinished | Finished | OutOfStock

  function Suffix(m: Measure): string {
    match m
    case Unfinished => "_未完成"
    case Finished => "_已完成"
    case OutOfStock => "_缺货"
  }

  /** The statistics dictionary key of one per-category count. */
  function KeyText(name: string, m: Measure): string {
    name + Suffix(m)
  }

  /** The statistics keys that are not per-category keys. */
  const FixedKeys: set<string> := {
    "total_tasks", "completed_tasks", "shortage_tasks", "uncompleted_tasks",
    "weight_tasks", "product_types", "no_weight_tasks", "merchant_count",
    "total_weight", "avg_weight", "response_time", "data_integrity"
  }

  /** Distinct (name, measure) pairs give distinct keys, so the statistics can
      be kept keyed by category name without two writes clobbering each other
      unless they concern the same category and measure. */
  lemma KeyTextInjective(n1: string, m1: Measure, n2: string, m2: Measure)
    requires KeyText(n1, m1) == KeyText(n2, m2)
    ensures n1 == n2 && m1 == m2
  {
    var k := KeyText(n1, m1);
    assert KeyText(n1, m1)[|k| - 1] == Suffix(m1)[|Suffix(m1)| - 1];
    assert KeyText(n2, m2)[|k| - 1] == Suffix(m2)[|Suffix(m2)| - 1];
    assert (m1 == OutOfStock) == (m2 == OutOfStock);
    assert |Suffix(m1)| == |Suffix(m2)|;
    assert n1 == k[..|n1|] == n2;
    assert Suffix(m1) == k[|n1|..] == Suffix(m2);
    assert Suffix(m1)[1] == Suffix(m2)[1];
  }

  /** No per-category key coincides with one of the fixed keys. */
  lemma KeyTextNotFixed(n: string, m: Measure)
    ensures KeyText(n, m) !in FixedKeys
  {
    var k := KeyText(n, m);
    assert k[|k| - 1] == Suffix(m)[|Suffix(m)| - 1];
    assert k[|k| - 1] == '成' || k[|k| - 1] == '货';
  }
}
