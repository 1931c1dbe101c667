/** Token usage: the listing in groups and the summary over it. */
module Usage {
  import opened Values
  import opened Text

  /** A row of the daily table; `day` counts days. */
  datatype Row = Row(
    tenant: string, day: int, model: string, agent: string,
    inputTokens: int, outputTokens: int, requests: int, cost: Option<int>)

  datatype Bucket = Bucket(
    tenant: string, day: Option<int>, model: string, agent: string,
    inputTokens: int, outputTokens: int, requests: int, cost: Option<int>)

  datatype Summary = Summary(inputTokens: int, outputTokens: int, requests: int, cost: Option<int>)

  datatype Group = ByModel | ByAgent | ByDay | NoGroup

  datatype GroupKey = Name(name: string) | Day(day: int)

  /** `group_by` as the query gives it: an empty or unknown name means grouping by model. */
  function GroupOf(groupBy: string): Group {
    var name := Lower(groupBy);
    if name == "agent" then ByAgent else if name == "day" then ByDay else if name == "none" then NoGroup else ByModel
  }

  function KeyOf(row: Row, group: Group): GroupKey {
    match group
    case ByAgent => Name(row.agent)
    case ByDay => Day(row.day)
    case _ => Name(row.model)
  }

  // ----- nullable sums

  function Present(values: seq<Option<int>>): seq<int> {
    if values == [] then []
    else
      var last := values[|values| - 1];
      Present(values[..|values| - 1]) + (if last.Some? then [last.value] else [])
  }

  function Sum(values: seq<int>): int {
    if values == [] then 0 else Sum(values[..|values| - 1]) + values[|values| - 1]
  }

  /** `_sum_nullable`, and SQL's SUM: null exactly if there is nothing but nulls. */
  function SumNullable(values: seq<Option<int>>): Option<int> {
    var filtered := Present(values);
    if filtered == [] then None else Some(Sum(filtered))
  }

  function OrZero(value: Option<int>): int {
    if value.Some? then value.value else 0
  }

  lemma {:induction false} NullableIs(values: seq<Option<int>>)
    ensures Sum(Present(values)) == Total(values, OrZero)
    ensures Present(values) != [] <==> AnyOf(values, IsSome)
  {
    if values != [] {
      var front, last := values[..|values| - 1], values[|values| - 1];
      NullableIs(front);
      AnyOfSplit(values, IsSome);
      if last.Some? {
        assert (Present(front) + [last.value])[..|Present(front)|] == Present(front);
      } else {
        assert Present(values) == Present(front);
      }
    }
  }

  predicate IsSome(value: Option<int>) {
    value.Some?
  }

  // ----- totals of a column

  function Total<T>(items: seq<T>, column: T -> int): int {
    if items == [] then 0 else Total(items[..|items| - 1], column) + column(items[|items| - 1])
  }

  function Column<T, U>(items: seq<T>, column: T -> U): seq<U> {
    seq(|items|, i requires 0 <= i < |items| => column(items[i]))
  }

  lemma {:induction false} TotalOfColumn<T>(items: seq<T>, column: T -> Option<int>, number: T -> int)
    requires forall item :: item in items ==> number(item) == OrZero(column(item))
    ensures Total(Column(items, column), OrZero) == Total(items, number)
  {
    if items != [] {
      var n := |items| - 1;
      assert Column(items, column)[..n] == Column(items[..n], column);
      TotalOfColumn(items[..n], column, number);
    }
  }

  /** The rows of one group. */
  function WithKey(rows: seq<Row>, group: Group, key: GroupKey): seq<Row> {
    if rows == [] then []
    else
      var last := rows[|rows| - 1];
      WithKey(rows[..|rows| - 1], group, key) + (if KeyOf(last, group) == key then [last] else [])
  }

  /** What the database returns for GROUP BY: every key that occurs, once, in any order. */
  ghost predicate IsGrouping(rows: seq<Row>, group: Group, keys: seq<GroupKey>) {
    && NoDuplicates(keys)
    && (forall row :: row in rows ==> KeyOf(row, group) in keys)
    && (forall key :: key in keys ==> exists i :: 0 <= i < |rows| && KeyOf(rows[i], group) == key)
  }

  /** The total of a column over the groups, group by group. */
  ghost function GroupTotal(rows: seq<Row>, group: Group, keys: seq<GroupKey>, column: Row -> int): int {
    if keys == [] then 0
    else GroupTotal(rows, group, keys[..|keys| - 1], column) + Total(WithKey(rows, group, keys[|keys| - 1]), column)
  }

  lemma TotalOneMore<T>(items: seq<T>, item: T, column: T -> int)
    ensures Total(items + [item], column) == Total(items, column) + column(item)
  {
    assert (items + [item])[..|items|] == items;
  }

  lemma WithKeyOneMore(rows: seq<Row>, row: Row, group: Group, key: GroupKey, column: Row -> int)
    ensures Total(WithKey(rows + [row], group, key), column) ==
            Total(WithKey(rows, group, key), column) + (if KeyOf(row, group) == key then column(row) else 0)
  {
    assert (rows + [row])[..|rows|] == rows;
    if KeyOf(row, group) == key {
      TotalOneMore(WithKey(rows, group, key), row, column);
    } else {
      assert WithKey(rows + [row], group, key) == WithKey(rows, group, key);
    }
  }

  lemma KeyInFront(keys: seq<GroupKey>, key: GroupKey)
    requires keys != [] && NoDuplicates(keys)
    ensures key in keys <==> key in keys[..|keys| - 1] || key == keys[|keys| - 1]
    ensures key == keys[|keys| - 1] ==> key !in keys[..|keys| - 1]
  {
    assert keys == keys[..|keys| - 1] + [keys[|keys| - 1]];
  }

  lemma {:induction false} GroupTotalOneMore(
    rows: seq<Row>, row: Row, group: Group, keys: seq<GroupKey>, column: Row -> int)
    requires NoDuplicates(keys)
    ensures GroupTotal(rows + [row], group, keys, column) ==
            GroupTotal(rows, group, keys, column) + (if KeyOf(row, group) in keys then column(row) else 0)
  {
    if keys != [] {
      var n := |keys| - 1;
      GroupTotalOneMore(rows, row, group, keys[..n], column);
      WithKeyOneMore(rows, row, group, keys[n], column);
      KeyInFront(keys, KeyOf(row, group));
    }
  }

  lemma {:induction false} NoRowsNoTotal(group: Group, keys: seq<GroupKey>, column: Row -> int)
    ensures GroupTotal([], group, keys, column) == 0
  {
    if keys != [] {
      NoRowsNoTotal(group, keys[..|keys| - 1], column);
    }
  }

  /** Grouping loses nothing and counts nothing twice. */
  lemma {:induction false} GroupsAddUp(rows: seq<Row>, group: Group, keys: seq<GroupKey>, column: Row -> int)
    requires NoDuplicates(keys) && forall row :: row in rows ==> KeyOf(row, group) in keys
    ensures GroupTotal(rows, group, keys, column) == Total(rows, column)
  {
    if rows == [] {
      NoRowsNoTotal(group, keys, column);
    } else {
      var front, last := rows[..|rows| - 1], rows[|rows| - 1];
      assert rows == front + [last];
      GroupsAddUp(front, group, keys, column);
      GroupTotalOneMore(front, last, group, keys, column);
    }
  }

  // ----- the listing

  function RowBucket(row: Row): Bucket {
    Bucket(row.tenant, Some(row.day), row.model, row.agent, row.inputTokens, row.outputTokens, row.requests, row.cost)
  }

  /** The aggregate row of one group. */
  function GroupBucket(rows: seq<Row>, group: Group, key: GroupKey, tenant: string): Bucket {
    var own := WithKey(rows, group, key);
    Bucket(
      tenant,
      if group.ByDay? && key.Day? then Some(key.day) else None,
      if group.ByModel? && key.Name? then key.name else "",
      if group.ByAgent? && key.Name? then key.name else "",
      Total(own, (r: Row) => r.inputTokens), Total(own, (r: Row) => r.outputTokens), Total(own, (r: Row) => r.requests),
      SumNullable(Column(own, (r: Row) => r.cost)))
  }

  ghost function Items(rows: seq<Row>, group: Group, keys: seq<GroupKey>, tenant: string): seq<Bucket> {
    if group == NoGroup then Column(rows, RowBucket)
    else seq(|keys|, i requires 0 <= i < |keys| => GroupBucket(rows, group, keys[i], tenant))
  }

  function Summarise(items: seq<Bucket>): Summary {
    Summary(
      Total(items, (b: Bucket) => b.inputTokens), Total(items, (b: Bucket) => b.outputTokens),
      Total(items, (b: Bucket) => b.requests), SumNullable(Column(items, (b: Bucket) => b.cost)))
  }

  /** The rows that the query selects. */
  function Selected(table: seq<Row>, tenant: string, start: int, end: int): seq<Row> {
    if table == [] then []
    else
      var last := table[|table| - 1];
      Selected(table[..|table| - 1], tenant, start, end) +
      (if last.tenant == tenant && start <= last.day <= end then [last] else [])
  }

  /** `get_usage` for a window of days; `keys` are the groups in the order in which the database returns them. */
  method GetUsage(table: seq<Row>, tenant: string, start: int, end: int, groupBy: string, keys: seq<GroupKey>)
    returns (items: seq<Bucket>, summary: Summary)
    requires GroupOf(groupBy) != NoGroup ==> IsGrouping(Selected(table, tenant, start, end), GroupOf(groupBy), keys)
    ensures items == Items(Selected(table, tenant, start, end), GroupOf(groupBy), keys, tenant)
    ensures summary == RowSummary(Selected(table, tenant, start, end))
  {
    var rows, group := Selected(table, tenant, start, end), GroupOf(groupBy);
    if group == NoGroup {
      items := Column(rows, RowBucket);
    } else {
      items := [];
      for i := 0 to |keys|
        invariant items == Items(rows, group, keys[..i], tenant)
      {
        items := items + [GroupBucket(rows, group, keys[i], tenant)];
      }
      assert keys[..|keys|] == keys;
    }
    SummaryIgnoresGrouping(rows, group, keys, tenant);
    summary := Summarise(items);
  }

  // ----- conservation

  ghost predicate AnyCost(rows: seq<Row>) {
    exists i :: 0 <= i < |rows| && rows[i].cost.Some?
  }

  /** The summary read off the rows themselves. */
  ghost function RowSummary(rows: seq<Row>): Summary {
    Summary(
      Total(rows, (r: Row) => r.inputTokens),
      Total(rows, (r: Row) => r.outputTokens),
      Total(rows, (r: Row) => r.requests),
      if AnyCost(rows) then Some(Total(rows, (r: Row) => OrZero(r.cost))) else None)
  }

  /** A column of the buckets that sums a column of the rows has the same total. */
  lemma {:induction false} BucketTotal(
    rows: seq<Row>, group: Group, keys: seq<GroupKey>, tenant: string, column: Row -> int, bucketColumn: Bucket -> int)
    requires group != NoGroup
    requires forall key ::
               bucketColumn(GroupBucket(rows, group, key, tenant)) == Total(WithKey(rows, group, key), column)
    ensures Total(Items(rows, group, keys, tenant), bucketColumn) == GroupTotal(rows, group, keys, column)
  {
    if keys != [] {
      var n := |keys| - 1;
      BucketTotal(rows, group, keys[..n], tenant, column, bucketColumn);
      ItemsUnfold(rows, group, keys, tenant);
      TotalOneMore(Items(rows, group, keys[..n], tenant), GroupBucket(rows, group, keys[n], tenant), bucketColumn);
    }
  }

  lemma ItemsUnfold(rows: seq<Row>, group: Group, keys: seq<GroupKey>, tenant: string)
    requires group != NoGroup && keys != []
    ensures var n := |keys| - 1;
            Items(rows, group, keys, tenant) == Items(rows, group, keys[..n], tenant) +
              [GroupBucket(rows, group, keys[n], tenant)]
  {}

  lemma {:induction false} RowTotal(rows: seq<Row>, column: Row -> int, bucketColumn: Bucket -> int)
    requires forall row :: bucketColumn(RowBucket(row)) == column(row)
    ensures Total(Column(rows, RowBucket), bucketColumn) == Total(rows, column)
  {
    if rows != [] {
      var n := |rows| - 1;
      RowTotal(rows[..n], column, bucketColumn);
      assert Column(rows, RowBucket)[..n] == Column(rows[..n], RowBucket);
    }
  }

  /** Totals of a column are the same in every listing. */
  lemma ListingTotal(
    rows: seq<Row>, group: Group, keys: seq<GroupKey>, tenant: string, column: Row -> int, bucketColumn: Bucket -> int)
    requires group != NoGroup ==> IsGrouping(rows, group, keys)
    requires forall row :: bucketColumn(RowBucket(row)) == column(row)
    requires forall key ::
               bucketColumn(GroupBucket(rows, group, key, tenant)) == Total(WithKey(rows, group, key), column)
    ensures Total(Items(rows, group, keys, tenant), bucketColumn) == Total(rows, column)
  {
    if group == NoGroup {
      RowTotal(rows, column, bucketColumn);
    } else {
      BucketTotal(rows, group, keys, tenant, column, bucketColumn);
      GroupsAddUp(rows, group, keys, column);
    }
  }

  /** A nullable sum over a column: null exactly if the column is, else the sum of what is there. */
  lemma ColumnSum<T>(items: seq<T>, column: T -> Option<int>, number: T -> int)
    requires forall item :: item in items ==> number(item) == OrZero(column(item))
    ensures SumNullable(Column(items, column)) ==
            if exists i :: 0 <= i < |items| && column(items[i]).Some? then Some(Total(items, number)) else None
  {
    var values := Column(items, column);
    NullableIs(values);
    TotalOfColumn(items, column, number);
    if i :| 0 <= i < |items| && column(items[i]).Some? {
      assert IsSome(values[i]);
    }
    if AnyOf(values, IsSome) {
      var i :| 0 <= i < |values| && IsSome(values[i]);
      assert column(items[i]).Some?;
    }
  }

  lemma {:induction false} KeyRows(rows: seq<Row>, group: Group, key: GroupKey)
    ensures forall i :: 0 <= i < |rows| && KeyOf(rows[i], group) == key ==> rows[i] in WithKey(rows, group, key)
    ensures forall row :: row in WithKey(rows, group, key) ==> row in rows
  {
    if rows != [] {
      KeyRows(rows[..|rows| - 1], group, key);
    }
  }

  lemma GroupCost(rows: seq<Row>, group: Group, key: GroupKey, tenant: string)
    ensures var own := WithKey(rows, group, key);
            GroupBucket(rows, group, key, tenant).cost ==
            if AnyCost(own) then Some(Total(own, (r: Row) => OrZero(r.cost))) else None
  {
    ColumnSum(WithKey(rows, group, key), (r: Row) => r.cost, (r: Row) => OrZero(r.cost));
  }

  lemma {:induction false} NoCostNoTotal(rows: seq<Row>)
    requires !AnyCost(rows)
    ensures Total(rows, (r: Row) => OrZero(r.cost)) == 0
  {
    if rows != [] {
      var n := |rows| - 1;
      assert rows[n].cost.None?;
      forall i | 0 <= i < n ensures rows[..n][i].cost.None? {
        assert rows[i].cost.None?;
      }
      NoCostNoTotal(rows[..n]);
    }
  }

  lemma CostOrZero(rows: seq<Row>, group: Group, key: GroupKey, tenant: string)
    ensures OrZero(GroupBucket(rows, group, key, tenant).cost) ==
            Total(WithKey(rows, group, key), (r: Row) => OrZero(r.cost))
  {
    GroupCost(rows, group, key, tenant);
    if !AnyCost(WithKey(rows, group, key)) {
      NoCostNoTotal(WithKey(rows, group, key));
    }
  }

  ghost predicate AnyBucketCost(items: seq<Bucket>) {
    exists i :: 0 <= i < |items| && items[i].cost.Some?
  }

  lemma CostOfRowShows(rows: seq<Row>, group: Group, keys: seq<GroupKey>, tenant: string, i: nat)
    requires group != NoGroup && IsGrouping(rows, group, keys) && i < |rows| && rows[i].cost.Some?
    ensures AnyBucketCost(Items(rows, group, keys, tenant))
  {
    var key := KeyOf(rows[i], group);
    assert rows[i] in rows;
    var k :| 0 <= k < |keys| && keys[k] == key;
    KeyRows(rows, group, key);
    GroupCost(rows, group, key, tenant);
    assert Items(rows, group, keys, tenant)[k].cost.Some?;
  }

  lemma CostOfGroupIsSome(rows: seq<Row>, group: Group, key: GroupKey, tenant: string)
    requires GroupBucket(rows, group, key, tenant).cost.Some?
    ensures AnyCost(rows)
  {
    GroupCost(rows, group, key, tenant);
    KeyRows(rows, group, key);
    var own := WithKey(rows, group, key);
    var j :| 0 <= j < |own| && own[j].cost.Some?;
    assert own[j] in rows;
  }

  lemma RowCosts(rows: seq<Row>)
    ensures AnyBucketCost(Column(rows, RowBucket)) <==> AnyCost(rows)
  {
    var items := Column(rows, RowBucket);
    forall i | 0 <= i < |rows| ensures items[i].cost == rows[i].cost {
      assert items[i] == RowBucket(rows[i]);
    }
    if i :| 0 <= i < |rows| && rows[i].cost.Some? {
      assert items[i].cost.Some?;
    }
  }

  /** Some bucket has a cost exactly if some row has one. */
  lemma SomeCost(rows: seq<Row>, group: Group, keys: seq<GroupKey>, tenant: string)
    requires group != NoGroup ==> IsGrouping(rows, group, keys)
    ensures AnyBucketCost(Items(rows, group, keys, tenant)) <==> AnyCost(rows)
  {
    if group == NoGroup {
      RowCosts(rows);
    } else {
      if i :| 0 <= i < |rows| && rows[i].cost.Some? {
        CostOfRowShows(rows, group, keys, tenant, i);
      }
      if k :| 0 <= k < |keys| && Items(rows, group, keys, tenant)[k].cost.Some? {
        CostOfGroupIsSome(rows, group, keys[k], tenant);
      }
    }
  }

  lemma CostConserved(rows: seq<Row>, group: Group, keys: seq<GroupKey>, tenant: string)
    requires group != NoGroup ==> IsGrouping(rows, group, keys)
    ensures SumNullable(Column(Items(rows, group, keys, tenant), (b: Bucket) => b.cost)) ==
            if AnyCost(rows) then Some(Total(rows, (r: Row) => OrZero(r.cost))) else None
  {
    var items := Items(rows, group, keys, tenant);
    forall key
      ensures OrZero(GroupBucket(rows, group, key, tenant).cost) ==
              Total(WithKey(rows, group, key), (r: Row) => OrZero(r.cost))
    {
      CostOrZero(rows, group, key, tenant);
    }
    ColumnSum(items, (b: Bucket) => b.cost, (b: Bucket) => OrZero(b.cost));
    SomeCost(rows, group, keys, tenant);
    ListingTotal(rows, group, keys, tenant, (r: Row) => OrZero(r.cost), (b: Bucket) => OrZero(b.cost));
  }

  /** However the rows are grouped, the summary over the listing is the summary over the rows: tokens, requests
      and cost are the same for every grouping and for none, and the cost is null exactly if every row's is. */
  lemma SummaryIgnoresGrouping(rows: seq<Row>, group: Group, keys: seq<GroupKey>, tenant: string)
    requires group != NoGroup ==> IsGrouping(rows, group, keys)
    ensures Summarise(Items(rows, group, keys, tenant)) == RowSummary(rows)
  {
    ListingTotal(rows, group, keys, tenant, (r: Row) => r.inputTokens, (b: Bucket) => b.inputTokens);
    ListingTotal(rows, group, keys, tenant, (r: Row) => r.outputTokens, (b: Bucket) => b.outputTokens);
    ListingTotal(rows, group, keys, tenant, (r: Row) => r.requests, (b: Bucket) => b.requests);
    CostConserved(rows, group, keys, tenant);
  }

  /** Usage of other tenants, or of days outside the window, never shows. */
  lemma {:induction false} ForeignRowsDoNotCount(
    before: seq<Row>, foreign: Row, after: seq<Row>, tenant: string, start: int, end: int)
    requires foreign.tenant != tenant || foreign.day < start || foreign.day > end
    ensures Selected(before + [foreign] + after, tenant, start, end) == Selected(before + after, tenant, start, end)
  {
    var all, rest := before + [foreign] + after, before + after;
    if after == [] {
      assert all[..|all| - 1] == before && rest == before;
    } else {
      var n := |after| - 1;
      assert all[..|all| - 1] == before + [foreign] + after[..n] && rest[..|rest| - 1] == before + after[..n];
      ForeignRowsDoNotCount(before, foreign, after[..n], tenant, start, end);
    }
  }
}
