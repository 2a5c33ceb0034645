/** The per-host window of recent action metrics that the circuit breaker looks at. */
module MetricWindow {
  import Common

  const WINDOW_MS := 300000
  const WINDOW_SIZE := 200

  datatype Entry = Entry(ok: bool, duration: int, cdpError: bool, ts: int)

  /** One call: the host as given, the entry with its time stamp, and the second clock reading, for the cutoff. */
  datatype Record = Record(host: string, entry: Entry, now: int)

  type Windows = map<string, seq<Entry>>

  function WindowOf(w: Windows, key: string): seq<Entry> { if key in w then w[key] else [] }

  predicate Oversized(arr: seq<Entry>, cutoff: int) { |arr| > WINDOW_SIZE || (arr != [] && arr[0].ts < cutoff) }

  /** The shift loop. */
  function Trim(arr: seq<Entry>, cutoff: int): seq<Entry> {
    if Oversized(arr, cutoff) then Trim(arr[1..], cutoff) else arr
  }

  function After(log: seq<Record>): Windows {
    if log == [] then map[]
    else
      var before, r := After(log[..|log| - 1]), log[|log| - 1];
      before[Common.Lower(r.host) := Trim(WindowOf(before, Common.Lower(r.host)) + [r.entry], r.now - WINDOW_MS)]
  }

  // ---------- the full history ----------

  function History(log: seq<Record>, key: string): seq<Entry> {
    if log == [] then []
    else
      var r := log[|log| - 1];
      History(log[..|log| - 1], key) + (if Common.Lower(r.host) == key then [r.entry] else [])
  }

  /** When the host was last recorded. */
  function LastNow(log: seq<Record>, key: string): int {
    if log == [] then 0
    else if Common.Lower(log[|log| - 1].host) == key then log[|log| - 1].now
    else LastNow(log[..|log| - 1], key)
  }

  function Fresh(es: seq<Entry>, cutoff: int): seq<Entry> {
    if es == [] then [] else (if es[0].ts >= cutoff then [es[0]] else []) + Fresh(es[1..], cutoff)
  }

  function Last(es: seq<Entry>, n: nat): seq<Entry> { if |es| > n then es[|es| - n..] else es }

  predicate Ascending(es: seq<Entry>) { forall i, j :: 0 <= i < j < |es| ==> es[i].ts <= es[j].ts }

  /** The clock never runs backwards, within a call or from one call to the next. */
  predicate ClockAscends(log: seq<Record>) {
    && (forall i :: 0 <= i < |log| ==> log[i].entry.ts <= log[i].now)
    && (forall i, j :: 0 <= i < j < |log| ==> log[i].now <= log[j].entry.ts)
  }

  lemma {:induction false} FreshAppend(a: seq<Entry>, b: seq<Entry>, cutoff: int)
    ensures Fresh(a + b, cutoff) == Fresh(a, cutoff) + Fresh(b, cutoff)
  {
    if a == [] {
      assert a + b == b;
    } else {
      assert (a + b)[1..] == a[1..] + b && (a + b)[0] == a[0];
      FreshAppend(a[1..], b, cutoff);
      var first := if a[0].ts >= cutoff then [a[0]] else [];
      calc {
        Fresh(a + b, cutoff);
        first + Fresh(a[1..] + b, cutoff);
        first + (Fresh(a[1..], cutoff) + Fresh(b, cutoff));
        (first + Fresh(a[1..], cutoff)) + Fresh(b, cutoff);
      }
    }
  }

  lemma {:induction false} FreshAll(es: seq<Entry>, cutoff: int)
    ensures (forall e <- es :: e.ts >= cutoff) ==> Fresh(es, cutoff) == es
    ensures (forall e <- es :: e.ts < cutoff) <==> Fresh(es, cutoff) == []
    ensures |Fresh(es, cutoff)| <= |es|
  {
    if es != [] {
      FreshAll(es[1..], cutoff);
      assert es == [es[0]] + es[1..];
    }
  }

  /** On entries in time order the loop leaves the last 200 of the fresh ones. */
  lemma {:induction false} TrimIsLastFresh(arr: seq<Entry>, cutoff: int)
    requires Ascending(arr)
    ensures Trim(arr, cutoff) == Last(Fresh(arr, cutoff), WINDOW_SIZE)
  {
    if arr != [] {
      if Oversized(arr, cutoff) {
        TrimIsLastFresh(arr[1..], cutoff);
      }
      if arr[0].ts >= cutoff {
        FreshAll(arr, cutoff);
        FreshAll(arr[1..], cutoff);
      }
    }
  }

  /** What was dropped earlier would not be in the window now. */
  lemma DroppedStaysOut(p: seq<Entry>, w: seq<Entry>, e: Entry, cutoff: int)
    requires Ascending(p + w + [e])
    requires Fresh(p, cutoff) == [] || |w| >= WINDOW_SIZE
    ensures Last(Fresh(p + w + [e], cutoff), WINDOW_SIZE) == Last(Fresh(w + [e], cutoff), WINDOW_SIZE)
  {
    var all := p + w + [e];
    assert all == p + (w + [e]);
    FreshAppend(p, w + [e], cutoff);
    FreshAll(p, cutoff);
    if Fresh(p, cutoff) != [] {
      var x :| x in p && x.ts >= cutoff;
      var i :| 0 <= i < |p| && p[i] == x;
      assert all[i] == x;
      forall y | y in w + [e] ensures y.ts >= cutoff {
        var j :| 0 <= j < |w| + 1 && (w + [e])[j] == y;
        assert all[|p| + j] == y;
      }
      FreshAll(w + [e], cutoff);
    }
  }

  /** A window is an end of the history, and what precedes it is too old unless the window is full. */
  lemma WindowIsEnd(h: seq<Entry>, cutoff: int)
    requires Ascending(h)
    ensures var w := Last(Fresh(h, cutoff), WINDOW_SIZE);
            |w| <= |h| && w == h[|h| - |w|..] && (|w| == WINDOW_SIZE || Fresh(h[..|h| - |w|], cutoff) == [])
  {
    FreshIsEnd(h, cutoff);
  }

  lemma {:induction false} FreshIsEnd(h: seq<Entry>, cutoff: int)
    requires Ascending(h)
    ensures var f := Fresh(h, cutoff);
            |f| <= |h| && f == h[|h| - |f|..] && Fresh(h[..|h| - |f|], cutoff) == []
  {
    if h == [] {
    } else if h[0].ts >= cutoff {
      FreshAll(h, cutoff);
    } else {
      var rest := h[1..];
      FreshIsEnd(rest, cutoff);
      FreshSkips(h, |rest| - |Fresh(rest, cutoff)|, cutoff);
    }
  }

  lemma FreshSkips(h: seq<Entry>, k: nat, cutoff: int)
    requires h != [] && h[0].ts < cutoff && k < |h|
    ensures Fresh(h, cutoff) == Fresh(h[1..], cutoff) && Fresh(h[..k + 1], cutoff) == Fresh(h[1..][..k], cutoff)
    ensures h[k + 1..] == h[1..][k..]
  {
    assert h[..k + 1][1..] == h[1..][..k];
  }

  lemma {:induction false} OlderIsStaler(es: seq<Entry>, cutoff: int, later: int)
    requires Fresh(es, cutoff) == [] && cutoff <= later
    ensures Fresh(es, later) == []
  {
    FreshAll(es, cutoff);
    FreshAll(es, later);
  }

  lemma {:induction false} HistoryInOrder(log: seq<Record>, key: string)
    requires ClockAscends(log)
    ensures Ascending(History(log, key))
    ensures log != [] ==> forall e <- History(log, key) :: e.ts <= log[|log| - 1].now
  {
    if log != [] {
      var init, r := log[..|log| - 1], log[|log| - 1];
      HistoryInOrder(init, key);
      if init != [] {
        assert init[|init| - 1].now <= r.entry.ts <= r.now;
      }
    }
  }

  /** A host has a window exactly if it was ever recorded. */
  lemma {:induction false} RecordedIff(log: seq<Record>, key: string)
    ensures key in After(log) <==> exists r <- log :: Common.Lower(r.host) == key
    ensures key !in After(log) ==> History(log, key) == []
    ensures key in After(log) ==> exists r <- log :: LastNow(log, key) == r.now
  {
    if log != [] {
      var init, last := log[..|log| - 1], log[|log| - 1];
      RecordedIff(init, key);
      assert log == init + [last] && last in log;
    }
  }

  /** After any sequence of records a host's window is the last 200 of all its entries, ever, that were no older than
      five minutes when the host was last recorded. */
  lemma {:induction false} WindowRefinesHistory(log: seq<Record>, key: string)
    requires ClockAscends(log) && key in After(log)
    ensures After(log)[key] == Last(Fresh(History(log, key), LastNow(log, key) - WINDOW_MS), WINDOW_SIZE)
  {
    var init, r := log[..|log| - 1], log[|log| - 1];
    assert ClockAscends(init);
    if key in After(init) {
      WindowRefinesHistory(init, key);
    }
    if Common.Lower(r.host) == key {
      var before := CutoffBefore(log, key);
      HistoryInOrder(log, key);
      WindowOfRecorded(log, key, before);
    } else {
      WindowOfOther(log, key);
    }
  }

  lemma WindowOfOther(log: seq<Record>, key: string)
    requires log != [] && Common.Lower(log[|log| - 1].host) != key && key in After(log)
    ensures key in After(log[..|log| - 1]) && After(log)[key] == After(log[..|log| - 1])[key]
    ensures History(log, key) == History(log[..|log| - 1], key) && LastNow(log, key) == LastNow(log[..|log| - 1], key)
  {
  }

  lemma WindowOfRecorded(log: seq<Record>, key: string, before: int)
    requires log != [] && Common.Lower(log[|log| - 1].host) == key && before <= log[|log| - 1].now - WINDOW_MS
    requires Ascending(History(log, key))
    requires var init := log[..|log| - 1]; WindowOf(After(init), key) == Last(Fresh(History(init, key), before), WINDOW_SIZE)
    ensures key in After(log)
    ensures After(log)[key] == Last(Fresh(History(log, key), LastNow(log, key) - WINDOW_MS), WINDOW_SIZE)
  {
    RecordOf(log, key);
    var init, r := log[..|log| - 1], log[|log| - 1];
    WindowSteps(After(log)[key], WindowOf(After(init), key), History(init, key), History(log, key), r.entry,
                before, r.now - WINDOW_MS);
  }

  lemma WindowSteps(w: seq<Entry>, w0: seq<Entry>, h0: seq<Entry>, h: seq<Entry>, e: Entry, before: int, cutoff: int)
    requires w == Trim(w0 + [e], cutoff) && w0 == Last(Fresh(h0, before), WINDOW_SIZE)
    requires h == h0 + [e] && Ascending(h) && before <= cutoff
    ensures w == Last(Fresh(h, cutoff), WINDOW_SIZE)
  {
    WindowStep(h0, e, before, cutoff);
  }

  /** What the last record of a log does to its own host. */
  lemma RecordOf(log: seq<Record>, key: string)
    requires log != [] && Common.Lower(log[|log| - 1].host) == key
    ensures var init, r := log[..|log| - 1], log[|log| - 1];
            && key in After(log)
            && After(log)[key] == Trim(WindowOf(After(init), key) + [r.entry], r.now - WINDOW_MS)
            && History(log, key) == History(init, key) + [r.entry] && LastNow(log, key) == r.now
  {
  }

  /** The cutoff that produced the host's current window; for a new host any will do. */
  lemma CutoffBefore(log: seq<Record>, key: string) returns (before: int)
    requires ClockAscends(log) && log != []
    requires var init := log[..|log| - 1]; key in After(init) ==>
        After(init)[key] == Last(Fresh(History(init, key), LastNow(init, key) - WINDOW_MS), WINDOW_SIZE)
    ensures before <= log[|log| - 1].now - WINDOW_MS
    ensures var init := log[..|log| - 1];
            WindowOf(After(init), key) == Last(Fresh(History(init, key), before), WINDOW_SIZE)
  {
    var init, r := log[..|log| - 1], log[|log| - 1];
    assert ClockAscends(init);
    RecordedIff(init, key);
    before := r.now - WINDOW_MS;
    if key in After(init) {
      before := LastNow(init, key) - WINDOW_MS;
      var q :| q in init && LastNow(init, key) == q.now;
      var i :| 0 <= i < |init| && init[i] == q;
      assert log[i].now <= r.entry.ts <= r.now;
    }
  }

  /** One more entry: trimming the old window and trimming the whole history come to the same. */
  lemma WindowStep(h: seq<Entry>, e: Entry, before: int, cutoff: int)
    requires Ascending(h + [e]) && before <= cutoff
    ensures Trim(Last(Fresh(h, before), WINDOW_SIZE) + [e], cutoff) == Last(Fresh(h + [e], cutoff), WINDOW_SIZE)
  {
    HeadAscends(h, [e]);
    WindowIsEnd(h, before);
    var w := Last(Fresh(h, before), WINDOW_SIZE);
    var p := h[..|h| - |w|];
    assert h + [e] == p + w + [e];
    if Fresh(p, before) == [] {
      OlderIsStaler(p, before, cutoff);
    }
    StepParts(p, w, e, cutoff);
  }

  lemma StepParts(p: seq<Entry>, w: seq<Entry>, e: Entry, cutoff: int)
    requires Ascending(p + w + [e]) && (Fresh(p, cutoff) == [] || |w| >= WINDOW_SIZE)
    ensures Trim(w + [e], cutoff) == Last(Fresh(p + w + [e], cutoff), WINDOW_SIZE)
  {
    DroppedStaysOut(p, w, e, cutoff);
    assert p + w + [e] == p + (w + [e]);
    TailAscends(p, w + [e]);
    TrimIsLastFresh(w + [e], cutoff);
  }

  lemma HeadAscends(p: seq<Entry>, w: seq<Entry>)
    requires Ascending(p + w)
    ensures Ascending(p)
  {
    forall i, j | 0 <= i < j < |p| ensures p[i].ts <= p[j].ts {
      assert (p + w)[i].ts <= (p + w)[j].ts;
    }
  }

  lemma TailAscends(p: seq<Entry>, w: seq<Entry>)
    requires Ascending(p + w)
    ensures Ascending(w)
  {
    forall i, j | 0 <= i < j < |w| ensures w[i].ts <= w[j].ts {
      assert (p + w)[|p| + i].ts <= (p + w)[|p| + j].ts;
    }
  }

  /** The fresh entries are those with a time stamp from the cutoff on, as often as they occur. */
  lemma {:induction false} FreshIsRecent(es: seq<Entry>, cutoff: int, e: Entry)
    ensures multiset(Fresh(es, cutoff))[e] == if e.ts >= cutoff then multiset(es)[e] else 0
  {
    if es != [] {
      FreshIsRecent(es[1..], cutoff, e);
      assert es == [es[0]] + es[1..];
    }
  }

  /** A window holds the newest entries of its host: at most 200, none older than five minutes when the host was last
      recorded, and every entry of that age if they are no more than 200. */
  lemma WindowHolds(log: seq<Record>, key: string, e: Entry)
    requires ClockAscends(log) && key in After(log)
    ensures var w, h := After(log)[key], History(log, key);
      && |w| <= 200
      && (e in w ==> e in h && e.ts >= LastNow(log, key) - 300000)
      && (|w| < 200 && e in h && e.ts >= LastNow(log, key) - 300000 ==> e in w)
  {
    WindowRefinesHistory(log, key);
    FreshHas(History(log, key), LastNow(log, key) - WINDOW_MS, e);
    LastHas(Fresh(History(log, key), LastNow(log, key) - WINDOW_MS), e);
  }

  lemma FreshHas(es: seq<Entry>, cutoff: int, e: Entry)
    ensures e in Fresh(es, cutoff) <==> e in es && e.ts >= cutoff
  {
    FreshIsRecent(es, cutoff, e);
    assert e in Fresh(es, cutoff) <==> e in multiset(Fresh(es, cutoff));
    assert e in es <==> e in multiset(es);
  }

  lemma LastHas(es: seq<Entry>, e: Entry)
    ensures var w := Last(es, WINDOW_SIZE); |w| <= 200 && (e in w ==> e in es) && (|w| < 200 ==> w == es)
  {
  }

  class Metrics {
    var hostWindows: Windows
    ghost var log: seq<Record>

    ghost predicate Valid() reads this { hostWindows == After(log) }

    constructor ()
      ensures Valid() && log == []
    {
      hostWindows, log := map[], [];
    }

    method RecordAction(host: string, ok: bool, duration: int, cdpError: bool, stamped: int, now: int)
      requires Valid()
      modifies this
      ensures Valid() && log == old(log) + [Record(host, Entry(ok, duration, cdpError, stamped), now)]
    {
      var key := Common.Lower(host);
      ghost var r := Record(host, Entry(ok, duration, cdpError, stamped), now);
      var arr := if key in hostWindows then hostWindows[key] else [];
      arr := arr + [Entry(ok, duration, cdpError, stamped)];
      var cutoff := now - WINDOW_MS;
      while |arr| > WINDOW_SIZE || (|arr| > 0 && arr[0].ts < cutoff)
        invariant Trim(arr, cutoff) == Trim(WindowOf(hostWindows, key) + [r.entry], cutoff)
        decreases |arr|
      {
        arr := arr[1..];
      }
      hostWindows := hostWindows[key := arr];
      assert (log + [r])[..|log|] == log;
      log := log + [r];
    }
  }
}
