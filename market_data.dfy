/** Preparation of the bar series: the pages fetched from the exchange are
    concatenated, duplicate timestamps are dropped (the first one wins), the bars
    are sorted by timestamp and only those inside the requested date range are
    kept. Fetching the pages is network I/O and is not part of this model. */
module MarketData {
  import opened Wrappers

  /** One OHLCV bar; `timestamp` is the bar's index (milliseconds since the epoch). */
  datatype Bar = Bar(timestamp: int, open: real, high: real, low: real, close: real, volume: real)

  /** No two bars share a timestamp. */
  ghost predicate UniqueTimestamps(s: seq<Bar>) {
    forall i, j :: 0 <= i < j < |s| ==> s[i].timestamp != s[j].timestamp
  }

  /** Timestamps increase strictly from left to right. */
  ghost predicate StrictlyAscending(s: seq<Bar>) {
    forall i, j :: 0 <= i < j < |s| ==> s[i].timestamp < s[j].timestamp
  }

  /** The first bar of `s`, in order, whose timestamp is `t`. */
  function FirstWithTimestamp(s: seq<Bar>, t: int): (r: Option<Bar>)
    ensures r.Some? ==> r.value.timestamp == t
    ensures r.Some? ==> exists i :: 0 <= i < |s| && s[i] == r.value &&
                                    forall j :: 0 <= j < i ==> s[j].timestamp != t
    ensures r.None? ==> forall i :: 0 <= i < |s| ==> s[i].timestamp != t
  {
    if s == [] then None
    else if s[0].timestamp == t then Some(s[0])
    else FirstWithTimestamp(s[1..], t)
  }

  /** The pages, one after the other (`pd.concat`). */
  function Concat(pages: seq<seq<Bar>>): (r: seq<Bar>)
    ensures forall b :: b in r <==> exists p :: p in pages && b in p
  {
    if pages == [] then [] else pages[0] + Concat(pages[1..])
  }

  /** Keeps the first bar of each timestamp not in `seen`
      (`~index.duplicated(keep='first')` when `seen` is empty). */
  function KeepFirst(s: seq<Bar>, seen: set<int>): (r: seq<Bar>)
    ensures forall i :: 0 <= i < |r| ==> r[i].timestamp !in seen
    ensures forall i :: 0 <= i < |r| ==> FirstWithTimestamp(s, r[i].timestamp) == Some(r[i])
    ensures UniqueTimestamps(r)
  {
    if s == [] then []
    else if s[0].timestamp in seen then KeepFirst(s[1..], seen)
    else [s[0]] + KeepFirst(s[1..], seen + {s[0].timestamp})
  }

  /** Deduplication loses no timestamp: every timestamp of the input not already
      seen has its bar in the output. */
  lemma {:induction false} KeepFirstComplete(s: seq<Bar>, seen: set<int>, b: Bar)
    requires b in s && b.timestamp !in seen
    ensures exists i :: 0 <= i < |KeepFirst(s, seen)| && KeepFirst(s, seen)[i].timestamp == b.timestamp
  {
    var r := KeepFirst(s, seen);
    if s[0].timestamp in seen {
      KeepFirstComplete(s[1..], seen, b);
    } else if b.timestamp == s[0].timestamp {
      assert r[0].timestamp == b.timestamp;
    } else {
      KeepFirstComplete(s[1..], seen + {s[0].timestamp}, b);
      var i :| 0 <= i < |KeepFirst(s[1..], seen + {s[0].timestamp})| &&
               KeepFirst(s[1..], seen + {s[0].timestamp})[i].timestamp == b.timestamp;
      assert r[i + 1].timestamp == b.timestamp;
    }
  }

  /** A bar below every bar of an ascending series can be put in front of it. */
  lemma AscendingCons(x: Bar, rest: seq<Bar>)
    requires StrictlyAscending(rest)
    requires forall y :: y in rest ==> x.timestamp < y.timestamp
    ensures StrictlyAscending([x] + rest)
  {
    var r := [x] + rest;
    forall i, j | 0 <= i < j < |r| ensures r[i].timestamp < r[j].timestamp {
      assert r[j] == rest[j - 1];
      if i == 0 {
        assert rest[j - 1] in rest;
      } else {
        assert r[i] == rest[i - 1];
      }
    }
  }

  /** The tail of an ascending series is ascending and lies above its head. */
  lemma AscendingTail(s: seq<Bar>)
    requires StrictlyAscending(s) && s != []
    ensures StrictlyAscending(s[1..])
    ensures forall y :: y in s[1..] ==> s[0].timestamp < y.timestamp
  {
    forall y | y in s[1..] ensures s[0].timestamp < y.timestamp {
      var k :| 0 <= k < |s[1..]| && s[1..][k] == y;
      assert s[k + 1] == y;
    }
  }

  /** Inserts `b` into a strictly ascending series that has no bar at `b`'s timestamp. */
  function Insert(b: Bar, s: seq<Bar>): (r: seq<Bar>)
    requires StrictlyAscending(s)
    requires forall i :: 0 <= i < |s| ==> s[i].timestamp != b.timestamp
    ensures |r| == |s| + 1
    ensures forall x :: x in r <==> x in s || x == b
    ensures StrictlyAscending(r)
  {
    if s == [] then [b]
    else if b.timestamp < s[0].timestamp then [b] + s
    else
      AscendingTail(s);
      var rest := Insert(b, s[1..]);
      AscendingCons(s[0], rest);
      [s[0]] + rest
  }

  /** Inserting adds exactly one occurrence of `b`. */
  lemma {:induction false} InsertCounts(b: Bar, s: seq<Bar>)
    requires StrictlyAscending(s)
    requires forall i :: 0 <= i < |s| ==> s[i].timestamp != b.timestamp
    ensures multiset(Insert(b, s)) == multiset(s) + multiset{b}
  {
    if s != [] && b.timestamp >= s[0].timestamp {
      InsertCounts(b, s[1..]);
      assert s == [s[0]] + s[1..];
    }
  }

  /** `sort_index`: once timestamps are unique the sorted order is determined,
      whatever algorithm pandas uses. */
  function SortByTimestamp(s: seq<Bar>): (r: seq<Bar>)
    requires UniqueTimestamps(s)
    ensures |r| == |s|
    ensures forall x :: x in r <==> x in s
    ensures StrictlyAscending(r)
  {
    if s == [] then []
    else
      var rest := SortByTimestamp(s[1..]);
      assert forall i :: 0 <= i < |rest| ==> rest[i].timestamp != s[0].timestamp by {
        forall i | 0 <= i < |rest| ensures rest[i].timestamp != s[0].timestamp {
          var x := rest[i];
          assert x in s[1..];
        }
      }
      Insert(s[0], rest)
  }

  /** Sorting is a permutation of its input. */
  lemma {:induction false} SortIsPermutation(s: seq<Bar>)
    requires UniqueTimestamps(s)
    ensures multiset(SortByTimestamp(s)) == multiset(s)
  {
    if s != [] {
      SortIsPermutation(s[1..]);
      var rest := SortByTimestamp(s[1..]);
      assert forall i :: 0 <= i < |rest| ==> rest[i].timestamp != s[0].timestamp by {
        forall i | 0 <= i < |rest| ensures rest[i].timestamp != s[0].timestamp {
          var x := rest[i];
          assert x in s[1..];
        }
      }
      InsertCounts(s[0], rest);
      assert s == [s[0]] + s[1..];
    }
  }

  /** The bars whose timestamp lies in the inclusive range [start, end], in order. */
  function InRange(s: seq<Bar>, start: int, end: int): (r: seq<Bar>)
    ensures forall i :: 0 <= i < |r| ==> start <= r[i].timestamp <= end
    ensures forall b :: b in r <==> b in s && start <= b.timestamp <= end
    ensures StrictlyAscending(s) ==> StrictlyAscending(r)
  {
    if s == [] then []
    else
      var rest := InRange(s[1..], start, end);
      if start <= s[0].timestamp <= end then
        assert StrictlyAscending(s) ==> StrictlyAscending([s[0]] + rest) by {
          if StrictlyAscending(s) {
            AscendingTail(s);
            AscendingCons(s[0], rest);
          }
        }
        [s[0]] + rest
      else rest
  }

  /** The combine, dedupe, sort and range-filter step of `fetch_historical_data`;
      no page at all gives the empty series. */
  function PrepareSeries(pages: seq<seq<Bar>>, start: int, end: int): (r: seq<Bar>)
    ensures pages == [] ==> r == []
    ensures StrictlyAscending(r)
    ensures forall i :: 0 <= i < |r| ==> start <= r[i].timestamp <= end
    ensures forall i :: 0 <= i < |r| ==> FirstWithTimestamp(Concat(pages), r[i].timestamp) == Some(r[i])
  {
    if pages == [] then []
    else
      var unique := KeepFirst(Concat(pages), {});
      var kept := InRange(SortByTimestamp(unique), start, end);
      assert forall i :: 0 <= i < |kept| ==> kept[i] in unique;
      kept
  }

  /** Every fetched timestamp inside the range survives preparation. */
  lemma PrepareSeriesComplete(pages: seq<seq<Bar>>, start: int, end: int, b: Bar)
    requires b in Concat(pages) && start <= b.timestamp <= end
    ensures exists i :: 0 <= i < |PrepareSeries(pages, start, end)| &&
                        PrepareSeries(pages, start, end)[i].timestamp == b.timestamp
  {
    assert pages != [];
    var unique := KeepFirst(Concat(pages), {});
    KeepFirstComplete(Concat(pages), {}, b);
    var j :| 0 <= j < |unique| && unique[j].timestamp == b.timestamp;
    var x := unique[j];
    var sorted := SortByTimestamp(unique);
    assert x in sorted;
    var kept := InRange(sorted, start, end);
    assert kept == PrepareSeries(pages, start, end);
    assert x in kept;
    var i :| 0 <= i < |kept| && kept[i] == x;
  }
}
