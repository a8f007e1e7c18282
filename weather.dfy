/** The weather page's forecast: grouping the 3-hourly list into one entry per calendar day. */
module Weather {
  import opened Wrappers
  import opened Seqs

  /** One entry of the forecast list; `dt` is a Unix time in seconds. */
  datatype ForecastItem = ForecastItem(dt: int, temp: real, main: string, icon: string)

  /**
   * `dayOf` stands for `new Date(dt * 1000).toDateString()`: the calendar day of a timestamp,
   * as a key. The model takes it as a parameter and assumes nothing about it.
   */
  type DayOf = int -> string

  /** Item `i` is the first of the list on its calendar day. */
  predicate IsFirstOfDay(list: seq<ForecastItem>, i: int, dayOf: DayOf) {
    0 <= i < |list| && forall j :: 0 <= j < i ==> dayOf(list[j].dt) != dayOf(list[i].dt)
  }

  /** The calendar days the list covers. */
  function DaysSeen(list: seq<ForecastItem>, dayOf: DayOf): set<string> {
    set j | 0 <= j < |list| :: dayOf(list[j].dt)
  }

  /** The first item of each calendar day, in list order: what the grouping is meant to produce. */
  function FirstPerDay(list: seq<ForecastItem>, dayOf: DayOf): (r: seq<ForecastItem>)
    ensures |r| <= |list|
    decreases |list|
  {
    if list == [] then []
    else
      var n := |list| - 1;
      FirstPerDay(list[..n], dayOf) + (if IsFirstOfDay(list, n, dayOf) then [list[n]] else [])
  }

  /** Whether an item is the first of its day does not depend on what comes later. */
  lemma FirstOfDayInPrefix(list: seq<ForecastItem>, n: nat, i: int, dayOf: DayOf)
    requires 0 <= i < n <= |list|
    ensures IsFirstOfDay(list[..n], i, dayOf) <==> IsFirstOfDay(list, i, dayOf)
  {
    assert forall j :: 0 <= j <= i ==> list[..n][j] == list[j];
  }

  /** No two entries of the grouping share a calendar day, and they cover exactly the days of the list. */
  lemma {:induction false} FirstPerDayDays(list: seq<ForecastItem>, dayOf: DayOf)
    ensures var r := FirstPerDay(list, dayOf);
      forall a, b :: 0 <= a < b < |r| ==> dayOf(r[a].dt) != dayOf(r[b].dt)
    ensures var r := FirstPerDay(list, dayOf);
      forall d :: d in DaysSeen(list, dayOf) <==> exists k :: 0 <= k < |r| && dayOf(r[k].dt) == d
    decreases |list|
  {
    if list != [] {
      var n := |list| - 1;
      var p := list[..n];
      FirstPerDayDays(p, dayOf);
      var rp := FirstPerDay(p, dayOf);
      var r := FirstPerDay(list, dayOf);
      assert forall j :: 0 <= j < n ==> p[j] == list[j];
      assert DaysSeen(list, dayOf) == DaysSeen(p, dayOf) + {dayOf(list[n].dt)};
      if IsFirstOfDay(list, n, dayOf) {
        assert r == rp + [list[n]];
        assert dayOf(list[n].dt) !in DaysSeen(p, dayOf);
      } else {
        assert r == rp;
        var j :| 0 <= j < n && dayOf(list[j].dt) == dayOf(list[n].dt);
        assert dayOf(list[n].dt) in DaysSeen(p, dayOf);
      }
      forall d
        ensures d in DaysSeen(list, dayOf) <==> exists k :: 0 <= k < |r| && dayOf(r[k].dt) == d
      {
        if d in DaysSeen(p, dayOf) {
          var k :| 0 <= k < |rp| && dayOf(rp[k].dt) == d;
          assert r[k] == rp[k];
        } else if d == dayOf(list[n].dt) {
          assert forall j :: 0 <= j < n ==> dayOf(p[j].dt) in DaysSeen(p, dayOf);
          assert IsFirstOfDay(list, n, dayOf);
          assert r[|rp|] == list[n];
        }
        if exists k :: 0 <= k < |r| && dayOf(r[k].dt) == d {
          var k :| 0 <= k < |r| && dayOf(r[k].dt) == d;
          if k < |rp| {
            assert dayOf(rp[k].dt) == d;
          } else {
            assert r[k] == list[n];
          }
        }
      }
    }
  }

  /** Every item of `r` is the first item of `list` on its calendar day. */
  predicate AllFirstOfDay(list: seq<ForecastItem>, r: seq<ForecastItem>, dayOf: DayOf) {
    forall k :: 0 <= k < |r| ==> exists i :: 0 <= i < |list| && IsFirstOfDay(list, i, dayOf) && list[i] == r[k]
  }

  /** Every entry of the grouping is the first item of the list on its calendar day. */
  lemma {:induction false} FirstPerDayEntriesAreFirst(list: seq<ForecastItem>, dayOf: DayOf)
    ensures AllFirstOfDay(list, FirstPerDay(list, dayOf), dayOf)
    decreases |list|
  {
    if list != [] {
      var n := |list| - 1;
      var p := list[..n];
      FirstPerDayEntriesAreFirst(p, dayOf);
      var rp := FirstPerDay(p, dayOf);
      var r := FirstPerDay(list, dayOf);
      forall k | 0 <= k < |r|
        ensures exists i :: IsFirstOfDay(list, i, dayOf) && list[i] == r[k]
      {
        if k < |rp| {
          assert r[k] == rp[k];
          var i :| 0 <= i < |p| && IsFirstOfDay(p, i, dayOf) && p[i] == rp[k];
          FirstOfDayInPrefix(list, n, i, dayOf);
          assert IsFirstOfDay(list, i, dayOf) && list[i] == r[k];
        } else {
          assert IsFirstOfDay(list, n, dayOf) && list[n] == r[k];
        }
      }
    }
  }

  /** The grouping keeps list order and only drops items. */
  lemma {:induction false} FirstPerDayIsSubList(list: seq<ForecastItem>, dayOf: DayOf)
    ensures IsSubsequence(FirstPerDay(list, dayOf), list)
    decreases |list|
  {
    if list != [] {
      var n := |list| - 1;
      var p := list[..n];
      FirstPerDayIsSubList(p, dayOf);
      assert list == p + [list[n]];
      if IsFirstOfDay(list, n, dayOf) {
        SubsequenceAppend(FirstPerDay(p, dayOf), p, [list[n]], [list[n]]);
        SubsequenceOfItself([list[n]]);
      } else {
        SubsequenceAppend(FirstPerDay(p, dayOf), p, [], [list[n]]);
      }
    }
  }

  /** Sub-lists of two lists concatenate to a sub-list of the concatenation. */
  lemma {:induction false} SubsequenceAppend(a: seq<ForecastItem>, b: seq<ForecastItem>, c: seq<ForecastItem>, d: seq<ForecastItem>)
    requires IsSubsequence(a, b) && (c == [] || IsSubsequence(c, d))
    ensures IsSubsequence(a + c, b + d)
    decreases |b| + |d|
  {
    if a == [] {
      if c == [] {
        assert a + c == [];
      } else {
        assert a + c == c;
        PrefixExtends(c, b, d);
      }
    } else {
      assert b != [];
      assert (a + c)[0] == a[0] && (a + c)[1..] == a[1..] + c;
      assert (b + d)[0] == b[0] && (b + d)[1..] == b[1..] + d;
      if a[0] == b[0] {
        SubsequenceAppend(a[1..], b[1..], c, d);
      } else {
        SubsequenceAppend(a, b[1..], c, d);
      }
    }
  }

  /** Putting items in front of the longer list keeps the relation. */
  lemma {:induction false} PrefixExtends(c: seq<ForecastItem>, b: seq<ForecastItem>, d: seq<ForecastItem>)
    requires IsSubsequence(c, d)
    ensures IsSubsequence(c, b + d)
    decreases |b|
  {
    if b != [] {
      PrefixExtends(c, b[1..], d);
      assert (b + d)[1..] == b[1..] + d;
      SubsequenceOfTail(c, b + d);
    } else {
      assert b + d == d;
    }
  }

  const MaxDays := 7

  /** `.slice(0, 7)` */
  function Take(s: seq<ForecastItem>, n: nat): (r: seq<ForecastItem>)
    ensures |r| == if |s| < n then |s| else n
    ensures forall k :: 0 <= k < |r| ==> r[k] == s[k]
  {
    if |s| <= n then s else s[..n]
  }

  /**
   * `getDailyForecast`: walk the list, remember the first item of each day in a dictionary
   * (`keys` is the dictionary's insertion order, which `Object.values` follows), then keep at
   * most seven of them.
   */
  method DailyForecast(forecast: Option<seq<ForecastItem>>, dayOf: DayOf) returns (days: seq<ForecastItem>)
    ensures forecast.None? ==> days == []
    ensures forecast.Some? ==> days == Take(FirstPerDay(forecast.value, dayOf), MaxDays)
  {
    if forecast.None? {
      return [];
    }
    var list := forecast.value;
    var daily: map<string, ForecastItem> := map[];
    var keys: seq<string> := [];
    var i := 0;
    while i < |list|
      invariant 0 <= i <= |list|
      invariant |keys| == |FirstPerDay(list[..i], dayOf)|
      invariant forall k :: 0 <= k < |keys| ==>
        keys[k] in daily && daily[keys[k]] == FirstPerDay(list[..i], dayOf)[k]
      invariant daily.Keys == DaysSeen(list[..i], dayOf)
    {
      var item := list[i];
      var date := dayOf(item.dt);
      ghost var before := FirstPerDay(list[..i], dayOf);
      assert list[..i + 1][..i] == list[..i];
      assert forall j :: 0 <= j < i ==> list[..i + 1][j] == list[..i][j];
      assert DaysSeen(list[..i + 1], dayOf) == DaysSeen(list[..i], dayOf) + {date};
      if date !in daily {
        assert IsFirstOfDay(list[..i + 1], i, dayOf);
        assert FirstPerDay(list[..i + 1], dayOf) == before + [item];
        daily := daily[date := item];
        keys := keys + [date];
      } else {
        var j :| 0 <= j < i && dayOf(list[..i][j].dt) == date;
        assert !IsFirstOfDay(list[..i + 1], i, dayOf);
        assert FirstPerDay(list[..i + 1], dayOf) == before;
      }
      i := i + 1;
    }
    assert list[..i] == list;
    var values := seq(|keys|, k requires 0 <= k < |keys| => daily[keys[k]]);
    assert values == FirstPerDay(list, dayOf);
    days := Take(values, MaxDays);
  }

  /** The result has at most seven entries, each the first of its day, no two on the same day, in list order. */
  lemma DailyForecastShape(list: seq<ForecastItem>, dayOf: DayOf)
    ensures var r := Take(FirstPerDay(list, dayOf), MaxDays);
      && |r| <= MaxDays
      && (forall a, b :: 0 <= a < b < |r| ==> dayOf(r[a].dt) != dayOf(r[b].dt))
      && AllFirstOfDay(list, r, dayOf)
      && IsSubsequence(FirstPerDay(list, dayOf), list)
  {
    FirstPerDayDays(list, dayOf);
    FirstPerDayEntriesAreFirst(list, dayOf);
    FirstPerDayIsSubList(list, dayOf);
  }

  /** With at most seven days in the list, every day of the list gets an entry. */
  lemma DailyForecastCoversShortLists(list: seq<ForecastItem>, dayOf: DayOf)
    requires |DaysSeen(list, dayOf)| <= MaxDays
    ensures Take(FirstPerDay(list, dayOf), MaxDays) == FirstPerDay(list, dayOf)
  {
    var r := FirstPerDay(list, dayOf);
    FirstPerDayDays(list, dayOf);
    if |r| > MaxDays {
      var ds := set k | 0 <= k < |r| :: dayOf(r[k].dt);
      assert ds <= DaysSeen(list, dayOf);
      DistinctDaysCount(r, |r|, dayOf);
      SetSizeMonotone(ds, DaysSeen(list, dayOf));
      assert false;
    }
  }

  /** `n` items on pairwise different days cover `n` days. */
  lemma {:induction false} DistinctDaysCount(r: seq<ForecastItem>, n: nat, dayOf: DayOf)
    requires n <= |r|
    requires forall a, b :: 0 <= a < b < |r| ==> dayOf(r[a].dt) != dayOf(r[b].dt)
    ensures |set k | 0 <= k < n :: dayOf(r[k].dt)| == n
  {
    if n > 0 {
      DistinctDaysCount(r, n - 1, dayOf);
      var prev := set k | 0 <= k < n - 1 :: dayOf(r[k].dt);
      assert (set k | 0 <= k < n :: dayOf(r[k].dt)) == prev + {dayOf(r[n - 1].dt)};
      assert dayOf(r[n - 1].dt) !in prev;
    }
  }

  lemma SetSizeMonotone(a: set<string>, b: set<string>)
    requires a <= b
    ensures |a| <= |b|
  {
    assert b == a + (b - a);
  }
}
