/**
 * The build-log timeline: the shipped items (the eight most recent, or all
 * of them) grouped under their dates, dates in order of first appearance.
 */
module BuildLog {
  import opened Common
  import opened SiteData

  /** How many items the collapsed log lists. */
  const RecentCount := 8

  /** `showAll ? items : items.slice(0, 8)`. */
  function ShownItems(all: seq<ShippedItem>, showAll: bool): seq<ShippedItem> {
    if showAll then all else all[..Min(RecentCount, |all|)]
  }

  /** The toggle is offered when there are more than eight items. */
  predicate ShowToggle(all: seq<ShippedItem>) {
    |all| > RecentCount
  }

  /**
   * The collapsed log is a prefix of the full one, at most eight long, and the toggle is offered exactly
   * when the two listings differ.
   */
  lemma ToggleChangesListing(all: seq<ShippedItem>)
    ensures ShownItems(all, true) == all
    ensures var recent := ShownItems(all, false);
            |recent| == Min(RecentCount, |all|) && recent <= all
    ensures ShowToggle(all) <==> ShownItems(all, false) != ShownItems(all, true)
  {
    if ShowToggle(all) {
      assert |ShownItems(all, false)| < |all|;
    }
  }

  // ---------------------------------------------------------------- grouping

  /** The items dated `date`, in their original order. */
  function OnDate(items: seq<ShippedItem>, date: string): (r: seq<ShippedItem>)
    ensures |r| <= |items|
    ensures forall k :: 0 <= k < |r| ==> r[k].date == date
  {
    if items == [] then []
    else
      var last := items[|items| - 1];
      OnDate(items[..|items| - 1], date) + (if last.date == date then [last] else [])
  }

  /** The distinct dates of `items`, each where it first occurs. */
  function Dates(items: seq<ShippedItem>): seq<string> {
    if items == [] then []
    else
      var prefix := Dates(items[..|items| - 1]);
      var last := items[|items| - 1];
      prefix + (if last.date in prefix then [] else [last.date])
  }

  /** No element of `s` occurs twice. */
  predicate Distinct<T(==)>(s: seq<T>) {
    forall i, j :: 0 <= i < j < |s| ==> s[i] != s[j]
  }

  /** The summed sizes of the groups of `dates`. */
  function TotalSize(items: seq<ShippedItem>, dates: seq<string>): nat {
    if dates == [] then 0
    else TotalSize(items, dates[..|dates| - 1]) + |OnDate(items, dates[|dates| - 1])|
  }

  /** How often `x` occurs in `s`. */
  function Occurrences<T(==)>(s: seq<T>, x: T): nat {
    if s == [] then 0
    else Occurrences(s[..|s| - 1], x) + (if s[|s| - 1] == x then 1 else 0)
  }

  /**
   * `items.reduce(...)` into `acc`, read back with `Object.entries`: `order` is the order the keys were
   * created in, and each key's list holds exactly that date's items, in order.
   */
  method GroupByDate(items: seq<ShippedItem>) returns (groups: map<string, seq<ShippedItem>>, order: seq<string>)
    ensures order == Dates(items)
    ensures forall d :: d in groups <==> d in order
    ensures forall d :: d in groups ==> groups[d] == OnDate(items, d)
  {
    groups := map[];
    order := [];
    for i := 0 to |items|
      invariant order == Dates(items[..i])
      invariant forall d :: d in groups <==> d in order
      invariant forall d :: d in groups ==> groups[d] == OnDate(items[..i], d)
    {
      var item := items[i];
      assert items[..i + 1][..i] == items[..i];
      if item.date !in groups {
        AbsentDateIsEmpty(items[..i], item.date);
        groups := groups[item.date := []];
        order := order + [item.date];
      }
      groups := groups[item.date := groups[item.date] + [item]];
    }
    assert items[..|items|] == items;
  }

  /** Each date heads exactly one group. */
  lemma {:induction false} DatesAreDistinct(items: seq<ShippedItem>)
    ensures Distinct(Dates(items))
  {
    if items != [] {
      DatesAreDistinct(items[..|items| - 1]);
    }
  }

  /** The dates heading the groups are exactly the dates of the items, and every item sits in its date's group. */
  lemma {:induction false} DatesAreItemDates(items: seq<ShippedItem>)
    ensures forall k :: 0 <= k < |items| ==> items[k].date in Dates(items) && items[k] in OnDate(items, items[k].date)
    ensures forall d :: d in Dates(items) ==> exists k :: 0 <= k < |items| && items[k].date == d
  {
    if items != [] {
      var prefix := items[..|items| - 1];
      DatesAreItemDates(prefix);
      forall k | 0 <= k < |items|
        ensures items[k].date in Dates(items) && items[k] in OnDate(items, items[k].date)
      {
        if k < |prefix| {
          assert prefix[k] == items[k];
        }
      }
      forall d | d in Dates(items)
        ensures exists k :: 0 <= k < |items| && items[k].date == d
      {
        if d in Dates(prefix) {
          var k :| 0 <= k < |prefix| && prefix[k].date == d;
          assert items[k].date == d;
        } else {
          assert items[|items| - 1].date == d;
        }
      }
    }
  }

  /** A date with no item has an empty group. */
  lemma {:induction false} AbsentDateIsEmpty(items: seq<ShippedItem>, date: string)
    requires date !in Dates(items)
    ensures OnDate(items, date) == []
  {
    if items != [] {
      var prefix := items[..|items| - 1];
      assert date !in Dates(prefix);
      AbsentDateIsEmpty(prefix, date);
    }
  }

  /** Grouping the items so far and then one more adds that item to its own date's group only. */
  lemma {:induction false} TotalSizeBump(items: seq<ShippedItem>, dates: seq<string>)
    requires items != []
    ensures TotalSize(items, dates)
            == TotalSize(items[..|items| - 1], dates) + Occurrences(dates, items[|items| - 1].date)
  {
    if dates != [] {
      TotalSizeBump(items, dates[..|dates| - 1]);
    }
  }

  lemma {:induction false} DistinctOccursOnce<T>(s: seq<T>, x: T)
    requires Distinct(s) && x in s
    ensures Occurrences(s, x) == 1
  {
    var prefix := s[..|s| - 1];
    assert Distinct(prefix);
    if s[|s| - 1] == x {
      OccursNowhere(prefix, x);
    } else {
      assert x in prefix;
      DistinctOccursOnce(prefix, x);
    }
  }

  lemma {:induction false} OccursNowhere<T>(s: seq<T>, x: T)
    requires x !in s
    ensures Occurrences(s, x) == 0
  {
    if s != [] {
      OccursNowhere(s[..|s| - 1], x);
    }
  }

  /** The groups together hold every shown item exactly once: their sizes add up to the item count. */
  lemma {:induction false} GroupsCoverItems(items: seq<ShippedItem>)
    ensures TotalSize(items, Dates(items)) == |items|
  {
    if items != [] {
      var prefix := items[..|items| - 1];
      var last := items[|items| - 1];
      GroupsCoverItems(prefix);
      DatesAreDistinct(prefix);
      TotalSizeBump(items, Dates(prefix));
      if last.date in Dates(prefix) {
        DistinctOccursOnce(Dates(prefix), last.date);
        assert Dates(items) == Dates(prefix);
      } else {
        OccursNowhere(Dates(prefix), last.date);
        AbsentDateIsEmpty(prefix, last.date);
        var ds := Dates(prefix) + [last.date];
        assert Dates(items) == ds;
        assert ds[..|ds| - 1] == Dates(prefix);
        assert OnDate(items, last.date) == [last];
      }
    }
  }

  /** Grouping keeps the timeline's order: the groups of a longer log extend those of its prefix. */
  lemma {:induction false} GroupingExtends(items: seq<ShippedItem>, more: seq<ShippedItem>, date: string)
    ensures OnDate(items + more, date) == OnDate(items, date) + OnDate(more, date)
    ensures Dates(items) <= Dates(items + more)
  {
    if more == [] {
      assert items + more == items;
    } else {
      var init := more[..|more| - 1];
      assert (items + more)[..|items + more| - 1] == items + init;
      GroupingExtends(items, init, date);
    }
  }
}
