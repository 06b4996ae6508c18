/** Sums over rows, whole and by group: what SUM and SUM ... GROUP BY compute. */
module Tally {

  datatype Item<T> = Item(group: T, value: int)

  function Sum<T>(items: seq<Item<T>>): int {
    if items == [] then 0 else Sum(items[..|items| - 1]) + items[|items| - 1].value
  }

  /** The sum of one group. */
  function In<T(==)>(items: seq<Item<T>>, group: T): int {
    if items == [] then 0
    else
      var last := items[|items| - 1];
      In(items[..|items| - 1], group) + if last.group == group then last.value else 0
  }

  /** The sum over a list of groups. */
  function Over<T(==)>(items: seq<Item<T>>, groups: seq<T>): int {
    if groups == [] then 0 else Over(items, groups[..|groups| - 1]) + In(items, groups[|groups| - 1])
  }

  /** Changing one row changes the sum by the difference of its values. */
  lemma {:induction false} SumExceptAt<T>(xs: seq<Item<T>>, ys: seq<Item<T>>, j: nat)
    requires |xs| == |ys| && forall i :: 0 <= i < |xs| && i != j ==> xs[i].value == ys[i].value
    ensures Sum(ys) == Sum(xs) + if j < |xs| then ys[j].value - xs[j].value else 0
  {
    if xs != [] {
      SumExceptAt(xs[..|xs| - 1], ys[..|ys| - 1], j);
    }
  }

  lemma {:induction false} InExceptAt<T>(xs: seq<Item<T>>, ys: seq<Item<T>>, group: T, j: nat)
    requires |xs| == |ys|
    requires forall i :: 0 <= i < |xs| ==> xs[i].group == ys[i].group && (i != j ==> xs[i].value == ys[i].value)
    ensures In(ys, group) == In(xs, group) + if j < |xs| && xs[j].group == group then ys[j].value - xs[j].value else 0
  {
    if xs != [] {
      InExceptAt(xs[..|xs| - 1], ys[..|ys| - 1], group, j);
    }
  }

  lemma AfterPush<T>(items: seq<Item<T>>, x: Item<T>, group: T)
    ensures Sum(items + [x]) == Sum(items) + x.value
    ensures In(items + [x], group) == In(items, group) + if x.group == group then x.value else 0
  {
  }

  lemma {:induction false} InBounds<T>(items: seq<Item<T>>, group: T)
    requires forall i :: 0 <= i < |items| ==> items[i].value >= 0
    ensures In(items, group) >= 0
    ensures forall i :: 0 <= i < |items| && items[i].group == group ==> items[i].value <= In(items, group)
  {
    if items != [] {
      InBounds(items[..|items| - 1], group);
    }
  }

  lemma {:induction false} InAbsentGroup<T>(items: seq<Item<T>>, group: T)
    requires forall i :: 0 <= i < |items| && items[i].group == group ==> items[i].value == 0
    ensures In(items, group) == 0
  {
    if items != [] {
      InAbsentGroup(items[..|items| - 1], group);
    }
  }

  /** A group whose only row that matters is row p. */
  lemma InSingle<T>(items: seq<Item<T>>, group: T, p: nat)
    requires p < |items| && items[p].group == group
    requires forall i :: 0 <= i < |items| && i != p && items[i].group == group ==> items[i].value == 0
    ensures In(items, group) == items[p].value
  {
    var without := items[p := Item(group, 0)];
    InAbsentGroup(without, group);
    InExceptAt(without, items, group, p);
  }

  /** Picking one group row by row. */
  lemma {:induction false} SumOfGroup<S, T>(picked: seq<Item<S>>, items: seq<Item<T>>, group: T)
    requires |picked| == |items|
    requires forall i :: 0 <= i < |items| ==> picked[i].value == if items[i].group == group then items[i].value else 0
    ensures Sum(picked) == In(items, group)
  {
    if items != [] {
      SumOfGroup(picked[..|items| - 1], items[..|items| - 1], group);
    }
  }

  ghost predicate Distinct<T>(groups: seq<T>) {
    forall i, j :: 0 <= i < j < |groups| ==> groups[i] != groups[j]
  }

  lemma {:induction false} OverOneMoreItem<T>(items: seq<Item<T>>, groups: seq<T>)
    requires items != [] && Distinct(groups)
    ensures var last := items[|items| - 1];
            Over(items, groups) == Over(items[..|items| - 1], groups) + if last.group in groups then last.value else 0
  {
    if groups != [] {
      OverOneMoreItem(items, groups[..|groups| - 1]);
      assert groups == groups[..|groups| - 1] + [groups[|groups| - 1]];
    }
  }

  lemma {:induction false} OverNoItems<T>(groups: seq<T>)
    ensures Over<T>([], groups) == 0
  {
    if groups != [] {
      OverNoItems(groups[..|groups| - 1]);
    }
  }

  /** Groups that cover every row but zeros add up to the whole sum. */
  lemma {:induction false} GroupsAddUp<T>(items: seq<Item<T>>, groups: seq<T>)
    requires Distinct(groups) && forall i :: 0 <= i < |items| && items[i].value != 0 ==> items[i].group in groups
    ensures Over(items, groups) == Sum(items)
  {
    if items == [] {
      OverNoItems(groups);
    } else {
      OverOneMoreItem(items, groups);
      GroupsAddUp(items[..|items| - 1], groups);
    }
  }
}
