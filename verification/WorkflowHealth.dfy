/** The health of a workflow, computed from its run records. */
module WorkflowHealth {
  import opened Common

  datatype RunRecord = RunRecord(
    workflowId: string, workflowHash: Option<string>, startedAt: int, status: string,
    failingStep: Option<nat>, errorClass: Option<string>, fingerprint: Option<string>)

  datatype Dominant = Dominant(step: Option<nat>, errorClass: string, count: nat, firstSeenAt: int)
  datatype Flag = Broken | Degraded | Healthy
  datatype Health = Health(flag: Flag, consecutiveFailures: nat, successRate: real, dominant: Option<Dominant>)

  /** Thresholds that are not positive are replaced by a default when they are read. */
  type Threshold = n: nat | n > 0 witness 3

  predicate Succeeded(r: RunRecord) { r.status == "succeeded" }

  // ---------- newest first ----------

  function Insert(s: seq<RunRecord>, r: RunRecord): seq<RunRecord> {
    if s == [] || s[|s| - 1].startedAt <= r.startedAt then s + [r]
    else Insert(s[..|s| - 1], r) + [s[|s| - 1]]
  }

  /** The stable sort by start time. */
  function Sort(rs: seq<RunRecord>): seq<RunRecord> {
    if rs == [] then [] else Insert(Sort(rs[..|rs| - 1]), rs[|rs| - 1])
  }

  function Reverse(rs: seq<RunRecord>): (r: seq<RunRecord>)
    ensures |r| == |rs| && forall i :: 0 <= i < |r| ==> r[i] == rs[|rs| - 1 - i]
  {
    if rs == [] then [] else [rs[|rs| - 1]] + Reverse(rs[..|rs| - 1])
  }

  function NewestFirst(rs: seq<RunRecord>): seq<RunRecord> { Reverse(Sort(rs)) }

  predicate Ascending(rs: seq<RunRecord>) { forall i, j :: 0 <= i < j < |rs| ==> rs[i].startedAt <= rs[j].startedAt }
  predicate DistinctStarts(rs: seq<RunRecord>) { forall i, j :: 0 <= i < j < |rs| ==> rs[i].startedAt != rs[j].startedAt }

  lemma {:induction false} InsertAdds(s: seq<RunRecord>, r: RunRecord)
    ensures multiset(Insert(s, r)) == multiset(s) + multiset{r} && |Insert(s, r)| == |s| + 1
  {
    if s != [] && s[|s| - 1].startedAt > r.startedAt {
      InsertAdds(s[..|s| - 1], r);
      assert s == s[..|s| - 1] + [s[|s| - 1]];
    }
  }

  lemma {:induction false} InsertSorts(s: seq<RunRecord>, r: RunRecord)
    requires Ascending(s)
    ensures Ascending(Insert(s, r))
  {
    if s != [] && s[|s| - 1].startedAt > r.startedAt {
      var init, last := s[..|s| - 1], s[|s| - 1];
      InsertSorts(init, r);
      InsertAdds(init, r);
      AppendAscends(Insert(init, r), init, r, last);
    }
  }

  lemma AppendAscends(t: seq<RunRecord>, init: seq<RunRecord>, r: RunRecord, last: RunRecord)
    requires Ascending(t) && multiset(t) == multiset(init) + multiset{r}
    requires r.startedAt <= last.startedAt && forall x <- init :: x.startedAt <= last.startedAt
    ensures Ascending(t + [last])
  {
    forall i | 0 <= i < |t| ensures t[i].startedAt <= last.startedAt {
      assert t[i] in multiset(t);
      assert t[i] in init || t[i] == r;
    }
  }

  lemma {:induction false} SortSorts(rs: seq<RunRecord>)
    ensures Ascending(Sort(rs)) && multiset(Sort(rs)) == multiset(rs) && |Sort(rs)| == |rs|
  {
    if rs != [] {
      var init, last := rs[..|rs| - 1], rs[|rs| - 1];
      SortSorts(init);
      InsertSorts(Sort(init), last);
      InsertAdds(Sort(init), last);
      assert rs == init + [last];
    }
  }

  function StartedAt(rs: seq<RunRecord>, at: int): seq<RunRecord> {
    if rs == [] then []
    else StartedAt(rs[..|rs| - 1], at) + (if rs[|rs| - 1].startedAt == at then [rs[|rs| - 1]] else [])
  }

  lemma StartedAtAppend(s: seq<RunRecord>, r: RunRecord, at: int)
    ensures StartedAt(s + [r], at) == StartedAt(s, at) + (if r.startedAt == at then [r] else [])
  {
    assert (s + [r])[..|s|] == s;
  }

  lemma {:induction false} InsertIsStable(s: seq<RunRecord>, r: RunRecord, at: int)
    ensures StartedAt(Insert(s, r), at) == StartedAt(s, at) + (if r.startedAt == at then [r] else [])
  {
    if s == [] || s[|s| - 1].startedAt <= r.startedAt {
      StartedAtAppend(s, r, at);
    } else {
      var init, last := s[..|s| - 1], s[|s| - 1];
      InsertIsStable(init, r, at);
      StartedAtAppend(Insert(init, r), last, at);
      assert s == init + [last];
      StartedAtAppend(init, last, at);
    }
  }

  /** Runs with the same start time keep their order. */
  lemma {:induction false} SortIsStable(rs: seq<RunRecord>, at: int)
    ensures StartedAt(Sort(rs), at) == StartedAt(rs, at)
  {
    if rs != [] {
      SortIsStable(rs[..|rs| - 1], at);
      InsertIsStable(Sort(rs[..|rs| - 1]), rs[|rs| - 1], at);
    }
  }

  /** A record newer than (or as new as) all others becomes the first row. */
  lemma NewestComesFirst(rs: seq<RunRecord>, r: RunRecord)
    requires forall x <- rs :: x.startedAt <= r.startedAt
    ensures NewestFirst(rs + [r]) == [r] + NewestFirst(rs)
  {
    assert (rs + [r])[..|rs|] == rs;
    SortSorts(rs);
    var s := Sort(rs);
    if s != [] {
      assert s[|s| - 1] in multiset(s);
      assert s[|s| - 1] in multiset(rs);
    }
    assert Sort(rs + [r]) == s + [r];
    assert (s + [r])[..|s|] == s;
  }

  // ---------- the health of one workflow ----------

  /** The number of leading rows that did not succeed. */
  function FailureRun(rows: seq<RunRecord>): (n: nat)
    ensures n <= |rows|
  {
    if rows == [] || Succeeded(rows[0]) then 0 else 1 + FailureRun(rows[1..])
  }

  function FirstFingerprint(rows: seq<RunRecord>): Option<string> {
    if rows == [] then None
    else if rows[0].fingerprint.Some? then rows[0].fingerprint
    else FirstFingerprint(rows[1..])
  }

  function FingerprintRun(rows: seq<RunRecord>, fp: string): (n: nat)
    ensures n <= |rows|
  {
    if rows == [] || rows[0].fingerprint != Some(fp) then 0 else 1 + FingerprintRun(rows[1..], fp)
  }

  function Successes(rows: seq<RunRecord>): (n: nat)
    ensures n <= |rows|
  {
    if rows == [] then 0 else (if Succeeded(rows[0]) then 1 else 0) + Successes(rows[1..])
  }

  function EarliestStart(rows: seq<RunRecord>): int
    requires rows != []
  {
    if |rows| == 1 then rows[0].startedAt
    else
      var rest := EarliestStart(rows[1..]);
      if rows[0].startedAt <= rest then rows[0].startedAt else rest
  }

  function Recent(rows: seq<RunRecord>): seq<RunRecord> { if |rows| > 20 then rows[..20] else rows }

  function SuccessRate(rows: seq<RunRecord>): real {
    if Recent(rows) == [] then 1.0 else Successes(Recent(rows)) as real / |Recent(rows)| as real
  }

  function DominantOf(rows: seq<RunRecord>, brokenAfter: Threshold): Option<Dominant> {
    var failures := rows[..FailureRun(rows)];
    var leading := FirstFingerprint(failures);
    var same := if leading.Some? then FingerprintRun(failures, leading.value) else 0;
    if same < brokenAfter then None
    else
      Some(Dominant(rows[0].failingStep,
                    if rows[0].errorClass.Some? then rows[0].errorClass.value else "unknown",
                    same,
                    EarliestStart(rows[..same])))
  }

  function HealthOf(rows: seq<RunRecord>, brokenAfter: Threshold, degradedAfter: Threshold): Health {
    var failures := FailureRun(rows);
    var dominant := DominantOf(rows, brokenAfter);
    Health(if dominant.Some? then Broken else if failures >= degradedAfter then Degraded else Healthy,
           failures, SuccessRate(rows), dominant)
  }

  function ComputeHealth(rs: seq<RunRecord>, brokenAfter: Threshold, degradedAfter: Threshold): Health {
    HealthOf(NewestFirst(rs), brokenAfter, degradedAfter)
  }

  // ---------- order does not matter ----------

  lemma LatestIsLast(rs: seq<RunRecord>, x: RunRecord)
    requires rs != [] && Ascending(rs) && x in multiset(rs) && rs[|rs| - 1].startedAt <= x.startedAt
    requires DistinctStarts(rs)
    ensures x == rs[|rs| - 1]
  {
    assert x in rs;
  }

  lemma SameLast(a: seq<RunRecord>, b: seq<RunRecord>)
    requires a != [] && b != [] && multiset(a) == multiset(b)
    requires Ascending(a) && Ascending(b) && DistinctStarts(a) && DistinctStarts(b)
    ensures a[|a| - 1] == b[|b| - 1]
  {
    var x, y := a[|a| - 1], b[|b| - 1];
    assert x in multiset(a) && y in multiset(b);
    if x.startedAt <= y.startedAt {
      LatestIsLast(a, y);
    } else {
      LatestIsLast(b, x);
    }
  }

  lemma DropLast(rs: seq<RunRecord>)
    requires rs != [] && Ascending(rs) && DistinctStarts(rs)
    ensures multiset(rs[..|rs| - 1]) == multiset(rs) - multiset{rs[|rs| - 1]}
    ensures Ascending(rs[..|rs| - 1]) && DistinctStarts(rs[..|rs| - 1])
  {
    assert rs == rs[..|rs| - 1] + [rs[|rs| - 1]];
  }

  /** There is only one way to sort runs that start at different times. */
  lemma {:induction false} SortedIsUnique(a: seq<RunRecord>, b: seq<RunRecord>)
    requires Ascending(a) && Ascending(b) && DistinctStarts(a) && DistinctStarts(b) && multiset(a) == multiset(b)
    ensures a == b
    decreases |a|
  {
    SameLength(a, b);
    if a != [] {
      SameLast(a, b);
      DropLast(a);
      DropLast(b);
      SortedIsUnique(a[..|a| - 1], b[..|b| - 1]);
      SameEnds(a, b);
    }
  }

  lemma SameLength(a: seq<RunRecord>, b: seq<RunRecord>)
    requires multiset(a) == multiset(b)
    ensures |a| == |b|
  {
    assert |a| == |multiset(a)| && |b| == |multiset(b)|;
  }

  lemma SameEnds(a: seq<RunRecord>, b: seq<RunRecord>)
    requires a != [] && b != [] && a[..|a| - 1] == b[..|b| - 1] && a[|a| - 1] == b[|b| - 1]
    ensures a == b
  {
    assert a == a[..|a| - 1] + [a[|a| - 1]] && b == b[..|b| - 1] + [b[|b| - 1]];
  }

  lemma DistinctOneMore(init: seq<RunRecord>, last: RunRecord)
    ensures DistinctStarts(init + [last]) <==>
        DistinctStarts(init) && forall x :: x in multiset(init) ==> x.startedAt != last.startedAt
  {
    var rs := init + [last];
    if DistinctStarts(rs) {
      forall i, j | 0 <= i < j < |init| ensures init[i].startedAt != init[j].startedAt {
        assert rs[i].startedAt != rs[j].startedAt;
      }
      forall i | 0 <= i < |init| ensures init[i].startedAt != last.startedAt {
        assert rs[i].startedAt != rs[|init|].startedAt;
      }
    }
  }

  lemma {:induction false} DistinctAsMultiset(rs: seq<RunRecord>)
    ensures DistinctStarts(rs) <==>
        (forall x, y :: x in multiset(rs) && y in multiset(rs) && x != y ==> x.startedAt != y.startedAt)
        && (forall x :: multiset(rs)[x] <= 1)
  {
    if rs != [] {
      var init, last := rs[..|rs| - 1], rs[|rs| - 1];
      assert rs == init + [last];
      DistinctAsMultiset(init);
      assert multiset(rs) == multiset(init) + multiset{last};
      DistinctOneMore(init, last);
    }
  }

  lemma SortKeepsDistinct(rs: seq<RunRecord>)
    requires DistinctStarts(rs)
    ensures DistinctStarts(Sort(rs))
  {
    SortSorts(rs);
    DistinctAsMultiset(rs);
    DistinctAsMultiset(Sort(rs));
  }

  /** With distinct start times the health does not depend on the order of the records. */
  lemma OrderDoesNotMatter(a: seq<RunRecord>, b: seq<RunRecord>, brokenAfter: Threshold, degradedAfter: Threshold)
    requires multiset(a) == multiset(b) && DistinctStarts(a)
    ensures ComputeHealth(a, brokenAfter, degradedAfter) == ComputeHealth(b, brokenAfter, degradedAfter)
  {
    DistinctAsMultiset(a);
    DistinctAsMultiset(b);
    SortSorts(a);
    SortSorts(b);
    SortKeepsDistinct(a);
    SortKeepsDistinct(b);
    SortedIsUnique(Sort(a), Sort(b));
  }

  // ---------- what the flag means ----------

  /** The first n rows failed, all with this fingerprint. */
  predicate FailedAlike(rows: seq<RunRecord>, n: nat, fp: string)
  {
    n <= |rows| && forall i :: 0 <= i < n ==> !Succeeded(rows[i]) && rows[i].fingerprint == Some(fp)
  }

  lemma {:induction false} FailureRunIsMaximal(rows: seq<RunRecord>)
    ensures forall i :: 0 <= i < FailureRun(rows) ==> !Succeeded(rows[i])
    ensures FailureRun(rows) < |rows| ==> Succeeded(rows[FailureRun(rows)])
  {
    if rows != [] && !Succeeded(rows[0]) {
      FailureRunIsMaximal(rows[1..]);
      forall i | 0 <= i < FailureRun(rows) ensures !Succeeded(rows[i]) {
        if i > 0 {
          assert rows[i] == rows[1..][i - 1];
        }
      }
    }
  }

  lemma {:induction false} FingerprintRunIsMaximal(rows: seq<RunRecord>, fp: string)
    ensures forall i :: 0 <= i < FingerprintRun(rows, fp) ==> rows[i].fingerprint == Some(fp)
    ensures FingerprintRun(rows, fp) < |rows| ==> rows[FingerprintRun(rows, fp)].fingerprint != Some(fp)
  {
    if rows != [] && rows[0].fingerprint == Some(fp) {
      FingerprintRunIsMaximal(rows[1..], fp);
      forall i | 0 <= i < FingerprintRun(rows, fp) ensures rows[i].fingerprint == Some(fp) {
        if i > 0 {
          assert rows[i] == rows[1..][i - 1];
        }
      }
    }
  }

  lemma {:induction false} EarliestStartIsMinimum(rows: seq<RunRecord>)
    requires rows != []
    ensures forall r <- rows :: EarliestStart(rows) <= r.startedAt
    ensures exists r <- rows :: EarliestStart(rows) == r.startedAt
  {
    if |rows| > 1 {
      EarliestStartIsMinimum(rows[1..]);
      assert rows == [rows[0]] + rows[1..];
    } else {
      assert rows[0] in rows;
    }
  }

  lemma DominantIffFailedAlike(rows: seq<RunRecord>, brokenAfter: Threshold)
    ensures DominantOf(rows, brokenAfter).Some? <==> exists fp :: FailedAlike(rows, brokenAfter, fp)
  {
    FailureRunIsMaximal(rows);
    var failures := rows[..FailureRun(rows)];
    var leading := FirstFingerprint(failures);
    if leading.Some? && FingerprintRun(failures, leading.value) >= brokenAfter {
      FingerprintRunIsMaximal(failures, leading.value);
      assert FailedAlike(rows, brokenAfter, leading.value) by {
        forall i | 0 <= i < brokenAfter ensures !Succeeded(rows[i]) && rows[i].fingerprint == Some(leading.value) {
          assert failures[i] == rows[i];
        }
      }
    }
    if fp :| FailedAlike(rows, brokenAfter, fp) {
      FailedAlikeShows(rows, brokenAfter, fp);
    }
  }

  lemma FailedAlikeShows(rows: seq<RunRecord>, brokenAfter: Threshold, fp: string)
    requires FailedAlike(rows, brokenAfter, fp)
    ensures FirstFingerprint(rows[..FailureRun(rows)]) == Some(fp)
    ensures FingerprintRun(rows[..FailureRun(rows)], fp) >= brokenAfter
  {
    FailureRunIsMaximal(rows);
    var failures := rows[..FailureRun(rows)];
    assert |failures| >= brokenAfter;
    assert failures[0] == rows[0];
    FingerprintRunIsMaximal(failures, fp);
    assert forall i :: 0 <= i < |failures| ==> failures[i] == rows[i];
  }

  /** The flag is broken exactly if the newest runs, as many as the threshold asks, all failed with one fingerprint. */
  lemma BrokenIffNewestFailedAlike(rs: seq<RunRecord>, brokenAfter: Threshold, degradedAfter: Threshold)
    ensures ComputeHealth(rs, brokenAfter, degradedAfter).flag.Broken? <==>
        exists fp :: FailedAlike(NewestFirst(rs), brokenAfter, fp)
  {
    DominantIffFailedAlike(NewestFirst(rs), brokenAfter);
  }

  lemma RunOfDominant(rows: seq<RunRecord>, brokenAfter: Threshold)
    requires DominantOf(rows, brokenAfter).Some?
    ensures var d := DominantOf(rows, brokenAfter).value;
            && brokenAfter <= d.count <= |rows|
            && rows[0].fingerprint.Some?
            && FailedAlike(rows, d.count, rows[0].fingerprint.value)
            && !FailedAlike(rows, d.count + 1, rows[0].fingerprint.value)
            && d.firstSeenAt == EarliestStart(rows[..d.count])
  {
    FailureRunIsMaximal(rows);
    var failures := rows[..FailureRun(rows)];
    var fp := FirstFingerprint(failures).value;
    FingerprintRunIsMaximal(failures, fp);
    var same := FingerprintRun(failures, fp);
    assert forall i :: 0 <= i < |failures| ==> failures[i] == rows[i];
  }

  lemma EarliestOfDescending(rows: seq<RunRecord>)
    requires rows != [] && forall i, j :: 0 <= i < j < |rows| ==> rows[i].startedAt >= rows[j].startedAt
    ensures EarliestStart(rows) == rows[|rows| - 1].startedAt
  {
    EarliestStartIsMinimum(rows);
    var r :| r in rows && EarliestStart(rows) == r.startedAt;
    assert rows[|rows| - 1] in rows;
  }

  lemma FirstSeenIsEarliest(rows: seq<RunRecord>, brokenAfter: Threshold)
    requires Descending(rows) && DominantOf(rows, brokenAfter).Some?
    requires 0 < DominantOf(rows, brokenAfter).value.count <= |rows|
    ensures var d := DominantOf(rows, brokenAfter).value;
            d.firstSeenAt == rows[d.count - 1].startedAt && forall i :: 0 <= i < d.count ==> d.firstSeenAt <= rows[i].startedAt
  {
    EarliestOfDescending(rows[..DominantOf(rows, brokenAfter).value.count]);
  }

  /** The reported count is that of the longest such run of newest failures, first-seen is its earliest start, and
      step and class are those of the newest run. */
  lemma DominantIsLongestRun(rs: seq<RunRecord>, brokenAfter: Threshold, degradedAfter: Threshold)
    requires ComputeHealth(rs, brokenAfter, degradedAfter).flag.Broken?
    ensures var rows, h := NewestFirst(rs), ComputeHealth(rs, brokenAfter, degradedAfter);
            && h.dominant.Some?
            && var d := h.dominant.value;
            && brokenAfter <= d.count <= |rows|
            && rows[0].fingerprint.Some?
            && FailedAlike(rows, d.count, rows[0].fingerprint.value)
            && !FailedAlike(rows, d.count + 1, rows[0].fingerprint.value)
            && d.firstSeenAt == rows[d.count - 1].startedAt
            && (forall i :: 0 <= i < d.count ==> d.firstSeenAt <= rows[i].startedAt)
            && d.step == rows[0].failingStep
            && d.errorClass == (if rows[0].errorClass.Some? then rows[0].errorClass.value else "unknown")
  {
    var rows := NewestFirst(rs);
    RunOfDominant(rows, brokenAfter);
    NewestFirstIs(rs);
    FirstSeenIsEarliest(rows, brokenAfter);
  }

  // ---------- ties ----------

  /** How many runs started after this time. */
  function Later(rs: seq<RunRecord>, at: int): nat {
    if rs == [] then 0 else (if rs[0].startedAt > at then 1 else 0) + Later(rs[1..], at)
  }

  lemma {:induction false} LaterAppend(a: seq<RunRecord>, b: seq<RunRecord>, at: int)
    ensures Later(a + b, at) == Later(a, at) + Later(b, at)
  {
    if a == [] {
      assert a + b == b;
    } else {
      assert (a + b)[1..] == a[1..] + b && (a + b)[0] == a[0];
      LaterAppend(a[1..], b, at);
    }
  }

  /** A record can be moved to the end. */
  lemma MoveToEnd(rs: seq<RunRecord>, r: RunRecord) returns (init: seq<RunRecord>)
    requires r in rs
    ensures multiset(init + [r]) == multiset(rs) && |init| == |rs| - 1
    ensures forall at :: Later(init + [r], at) == Later(rs, at)
  {
    var i :| 0 <= i < |rs| && rs[i] == r;
    var p, q := rs[..i], rs[i + 1..];
    init := p + q;
    assert rs == p + ([r] + q);
    assert init + [r] == p + (q + [r]);
    forall at ensures Later(init + [r], at) == Later(rs, at) { LaterOfSwap(p, q, r, at); }
  }

  lemma LaterOfSwap(p: seq<RunRecord>, q: seq<RunRecord>, r: RunRecord, at: int)
    ensures Later(p + ([r] + q), at) == Later(p + (q + [r]), at)
  {
    LaterAppend(p, [r] + q, at);
    LaterAppend([r], q, at);
    LaterAppend(p, q + [r], at);
    LaterAppend(q, [r], at);
  }

  lemma {:induction false} LaterOfPermutation(a: seq<RunRecord>, b: seq<RunRecord>, at: int)
    requires multiset(a) == multiset(b)
    ensures Later(a, at) == Later(b, at)
    decreases |a|
  {
    SameLength(a, b);
    if a != [] {
      var init, last := a[..|a| - 1], a[|a| - 1];
      assert a == init + [last];
      assert last in multiset(b);
      var c := MoveToEnd(b, last);
      assert multiset(init) == multiset(a) - multiset{last} && multiset(c) == multiset(c + [last]) - multiset{last};
      LaterOfPermutation(init, c, at);
      LaterAppend(init, [last], at);
      LaterAppend(c, [last], at);
    }
  }

  lemma {:induction false} ReverseKeeps(rs: seq<RunRecord>)
    ensures multiset(Reverse(rs)) == multiset(rs)
  {
    if rs != [] {
      ReverseKeeps(rs[..|rs| - 1]);
      assert rs == rs[..|rs| - 1] + [rs[|rs| - 1]];
    }
  }

  predicate Descending(rows: seq<RunRecord>) { forall i, j :: 0 <= i < j < |rows| ==> rows[i].startedAt >= rows[j].startedAt }

  lemma NewestFirstIs(rs: seq<RunRecord>)
    ensures multiset(NewestFirst(rs)) == multiset(rs) && Descending(NewestFirst(rs))
  {
    SortSorts(rs);
    ReverseKeeps(Sort(rs));
  }

  lemma {:induction false} InsertSplits(s: seq<RunRecord>, r: RunRecord) returns (k: nat)
    ensures k <= |s| && Insert(s, r) == s[..k] + [r] + s[k..]
    ensures forall i :: k <= i < |s| ==> s[i].startedAt > r.startedAt
    ensures k > 0 ==> s[k - 1].startedAt <= r.startedAt
  {
    if s == [] || s[|s| - 1].startedAt <= r.startedAt {
      k := |s|;
    } else {
      var init, last := s[..|s| - 1], s[|s| - 1];
      k := InsertSplits(init, r);
      assert s[..k] == init[..k] && s[k..] == init[k..] + [last];
    }
  }

  lemma {:induction false} LaterOfAll(rs: seq<RunRecord>, at: int)
    ensures AllLaterThan(rs, at) ==> Later(rs, at) == |rs|
    ensures NoLaterThan(rs, at) ==> Later(rs, at) == 0
  {
    if rs != [] {
      assert forall i :: 0 <= i < |rs| - 1 ==> rs[1..][i] == rs[i + 1];
      LaterOfAll(rs[1..], at);
    }
  }

  /** Of the runs that started together the one recorded last comes first, right after those that started later. */
  lemma LastLeadsTies(rs: seq<RunRecord>, r: RunRecord)
    ensures var rows, n := NewestFirst(rs + [r]), Later(rs, r.startedAt);
            n < |rows| && rows[n] == r && forall i :: 0 <= i < n ==> rows[i].startedAt > r.startedAt
  {
    var p, q := SortPieces(rs, r);
    LaterOfPieces(p, q, r.startedAt);
    LaterOfPermutation(rs, p + q, r.startedAt);
    ReverseOfSplit(p, r, q);
  }

  predicate NoLaterThan(rs: seq<RunRecord>, at: int) { forall i :: 0 <= i < |rs| ==> rs[i].startedAt <= at }

  predicate AllLaterThan(rs: seq<RunRecord>, at: int) { forall i :: 0 <= i < |rs| ==> rs[i].startedAt > at }

  lemma SortPieces(rs: seq<RunRecord>, r: RunRecord) returns (p: seq<RunRecord>, q: seq<RunRecord>)
    ensures Sort(rs + [r]) == p + [r] + q && multiset(p + q) == multiset(rs)
    ensures NoLaterThan(p, r.startedAt) && AllLaterThan(q, r.startedAt)
  {
    SortAppend(rs, r);
    SortSorts(rs);
    p, q := InsertPieces(Sort(rs), r);
  }

  lemma SortAppend(rs: seq<RunRecord>, r: RunRecord)
    ensures Sort(rs + [r]) == Insert(Sort(rs), r)
  {
    assert (rs + [r])[..|rs|] == rs;
  }

  lemma InsertPieces(s: seq<RunRecord>, r: RunRecord) returns (p: seq<RunRecord>, q: seq<RunRecord>)
    requires Ascending(s)
    ensures s == p + q && Insert(s, r) == p + [r] + q
    ensures NoLaterThan(p, r.startedAt) && AllLaterThan(q, r.startedAt)
  {
    var k := InsertSplits(s, r);
    p, q := s[..k], s[k..];
    forall i | 0 <= i < |p| ensures p[i].startedAt <= r.startedAt { assert s[i].startedAt <= s[k - 1].startedAt; }
    forall i | 0 <= i < |q| ensures q[i].startedAt > r.startedAt { assert q[i] == s[k + i]; }
  }

  lemma LaterOfPieces(p: seq<RunRecord>, q: seq<RunRecord>, at: int)
    requires NoLaterThan(p, at) && AllLaterThan(q, at)
    ensures Later(p + q, at) == |q|
  {
    LaterOfAll(p, at);
    LaterOfAll(q, at);
    LaterAppend(p, q, at);
  }

  lemma ReverseOfSplit(p: seq<RunRecord>, r: RunRecord, q: seq<RunRecord>)
    requires AllLaterThan(q, r.startedAt)
    ensures var rows := Reverse(p + [r] + q);
            |q| < |rows| && rows[|q|] == r && forall i :: 0 <= i < |q| ==> rows[i].startedAt > r.startedAt
  {
    var s := p + [r] + q;
    assert s[|p|] == r && forall i :: 0 <= i < |q| ==> s[|p| + 1 + i] == q[i];
    assert forall i :: 0 <= i < |q| ==> Reverse(s)[i] == q[|q| - 1 - i];
  }

  lemma FailureRunAt(rows: seq<RunRecord>, n: nat)
    requires n < |rows| && forall i :: 0 <= i < n ==> !Succeeded(rows[i])
    ensures if Succeeded(rows[n]) then FailureRun(rows) == n else FailureRun(rows) > n
  {
    FailureRunIsMaximal(rows);
  }

  predicate NewestSuccess(rs: seq<RunRecord>, g: RunRecord) {
    g in rs && Succeeded(g) && forall h <- rs :: Succeeded(h) ==> h.startedAt <= g.startedAt
  }

  /** Some failure started together with the newest success. */
  ghost predicate Tied(rs: seq<RunRecord>) {
    exists g, x :: NewestSuccess(rs, g) && x in rs && !Succeeded(x) && x.startedAt == g.startedAt
  }

  /** Recorded last, the newest success ends the run of failures before its ties, and a tied failure adds to it. */
  lemma LastOfTies(rs: seq<RunRecord>, g: RunRecord, r: RunRecord) returns (order: seq<RunRecord>)
    requires NewestSuccess(rs, g) && r in rs && r.startedAt == g.startedAt
    ensures multiset(order) == multiset(rs)
    ensures var n := Later(rs, g.startedAt);
            if Succeeded(r) then FailureRun(NewestFirst(order)) == n else FailureRun(NewestFirst(order)) > n
  {
    var init := MoveToEnd(rs, r);
    order := init + [r];
    LaterAppend(init, [r], r.startedAt);
    LastLeadsTies(init, r);
    var rows, n := NewestFirst(order), Later(init, r.startedAt);
    NewestFirstIs(order);
    forall i | 0 <= i < n ensures !Succeeded(rows[i]) {
      assert rows[i] in multiset(rows) && rows[i] in multiset(rs);
    }
    FailureRunAt(rows, n);
  }

  lemma {:induction false} UntiedRun(rows: seq<RunRecord>, g: RunRecord)
    requires Descending(rows) && NewestSuccess(rows, g)
    requires forall x <- rows :: !Succeeded(x) ==> x.startedAt != g.startedAt
    ensures FailureRun(rows) == Later(rows, g.startedAt)
  {
    assert rows[0].startedAt >= g.startedAt by {
      var i :| 0 <= i < |rows| && rows[i] == g;
      assert i == 0 || rows[0].startedAt >= rows[i].startedAt;
    }
    assert rows[0] in rows;
    if rows[0].startedAt > g.startedAt {
      assert forall i :: 0 <= i < |rows| - 1 ==> rows[1..][i] == rows[i + 1];
      assert g in rows[1..] && forall x <- rows[1..] :: x in rows;
      UntiedRun(rows[1..], g);
    } else {
      LaterOfAll(rows, g.startedAt);
    }
  }

  lemma AllFailedRun(rows: seq<RunRecord>)
    requires forall x <- rows :: !Succeeded(x)
    ensures FailureRun(rows) == |rows|
  {
    FailureRunIsMaximal(rows);
    assert forall i :: 0 <= i < |rows| ==> rows[i] in rows;
  }

  lemma {:induction false} FindNewestSuccess(rs: seq<RunRecord>) returns (g: RunRecord)
    requires exists h <- rs :: Succeeded(h)
    ensures NewestSuccess(rs, g)
  {
    var init, last := rs[..|rs| - 1], rs[|rs| - 1];
    assert forall h :: h in rs <==> h in init || h == last by { assert rs == init + [last]; }
    if h :| h in init && Succeeded(h) {
      g := FindNewestSuccess(init);
      if Succeeded(last) && last.startedAt > g.startedAt {
        g := last;
      }
    } else {
      g := last;
    }
  }

  predicate Permutes(a: seq<RunRecord>, b: seq<RunRecord>) { multiset(a) == multiset(b) }

  lemma UntiedOrderDoesNotMatter(a: seq<RunRecord>, b: seq<RunRecord>)
    requires Permutes(a, b) && !Tied(a)
    ensures FailureRun(NewestFirst(a)) == FailureRun(NewestFirst(b))
  {
    SameRecords(a, b);
    NewestFirstIs(a);
    NewestFirstIs(b);
    SameRecords(a, NewestFirst(a));
    SameRecords(a, NewestFirst(b));
    if exists h <- a :: Succeeded(h) {
      var g := FindNewestSuccess(a);
      UntiedRun(NewestFirst(a), g);
      UntiedRun(NewestFirst(b), g);
      LaterOfPermutation(NewestFirst(a), NewestFirst(b), g.startedAt);
    } else {
      AllFailedRun(NewestFirst(a));
      AllFailedRun(NewestFirst(b));
      SameLength(NewestFirst(a), NewestFirst(b));
    }
  }

  lemma SameRecords(a: seq<RunRecord>, b: seq<RunRecord>)
    requires multiset(a) == multiset(b)
    ensures forall x :: x in a <==> x in b
  {
    forall x ensures x in a <==> x in b {
      assert x in a <==> x in multiset(a);
      assert x in b <==> x in multiset(b);
    }
  }

  /** The count of consecutive failures is the same for every order of the records if and only if no failure started
      together with the newest success. */
  lemma FailuresIndependentIffUntied(rs: seq<RunRecord>, brokenAfter: Threshold, degradedAfter: Threshold)
    ensures (forall b :: Permutes(rs, b) ==>
               ComputeHealth(b, brokenAfter, degradedAfter).consecutiveFailures
               == ComputeHealth(rs, brokenAfter, degradedAfter).consecutiveFailures)
        <==> !Tied(rs)
  {
    if Tied(rs) {
      var g, x :| NewestSuccess(rs, g) && x in rs && !Succeeded(x) && x.startedAt == g.startedAt;
      var a := LastOfTies(rs, g, g);
      var b := LastOfTies(rs, g, x);
      assert Permutes(rs, a) && Permutes(rs, b);
      assert ComputeHealth(a, brokenAfter, degradedAfter).consecutiveFailures
          != ComputeHealth(b, brokenAfter, degradedAfter).consecutiveFailures;
    } else {
      forall b | Permutes(rs, b)
        ensures ComputeHealth(b, brokenAfter, degradedAfter).consecutiveFailures
             == ComputeHealth(rs, brokenAfter, degradedAfter).consecutiveFailures
      {
        UntiedOrderDoesNotMatter(rs, b);
      }
    }
  }

  /** Without a shared fingerprint, enough failures since the last success still degrade the flag. */
  lemma DegradedIff(rs: seq<RunRecord>, brokenAfter: Threshold, degradedAfter: Threshold)
    ensures var h, rows := ComputeHealth(rs, brokenAfter, degradedAfter), NewestFirst(rs);
            h.flag.Degraded? <==>
            && !h.flag.Broken? && degradedAfter <= |rows|
            && forall i :: 0 <= i < degradedAfter ==> !Succeeded(rows[i])
  {
    FailureRunIsMaximal(NewestFirst(rs));
  }

  /** A success newer than everything else resets the health, whatever came before. */
  lemma NewerSuccessResets(rs: seq<RunRecord>, r: RunRecord, brokenAfter: Threshold, degradedAfter: Threshold)
    requires Succeeded(r) && forall x <- rs :: x.startedAt <= r.startedAt
    ensures var h := ComputeHealth(rs + [r], brokenAfter, degradedAfter);
            h.flag.Healthy? && h.consecutiveFailures == 0 && h.dominant.None?
  {
    NewestComesFirst(rs, r);
  }

  /** A failure newer than everything else counts once more; a broken workflow stays broken only while its failures
      stay alike. */
  lemma NewerFailureCounts(rs: seq<RunRecord>, r: RunRecord, brokenAfter: Threshold, degradedAfter: Threshold)
    requires !Succeeded(r) && forall x <- rs :: x.startedAt <= r.startedAt
    ensures var h, h' := ComputeHealth(rs, brokenAfter, degradedAfter), ComputeHealth(rs + [r], brokenAfter, degradedAfter);
            && h'.consecutiveFailures == h.consecutiveFailures + 1
            && (h.flag.Broken? && r.fingerprint == NewestFirst(rs)[0].fingerprint ==>
                  h'.flag.Broken? && h'.dominant.value.count == h.dominant.value.count + 1)
  {
    NewestComesFirst(rs, r);
    var rows := NewestFirst(rs);
    assert ([r] + rows)[1..] == rows;
    if ComputeHealth(rs, brokenAfter, degradedAfter).flag.Broken? && r.fingerprint == rows[0].fingerprint {
      OneMoreAlike(rows, r, brokenAfter);
    }
  }

  lemma OneMoreAlike(rows: seq<RunRecord>, r: RunRecord, brokenAfter: Threshold)
    requires !Succeeded(r) && DominantOf(rows, brokenAfter).Some? && rows != [] && r.fingerprint == rows[0].fingerprint
    ensures DominantOf([r] + rows, brokenAfter).Some?
    ensures DominantOf([r] + rows, brokenAfter).value.count == DominantOf(rows, brokenAfter).value.count + 1
  {
    RunOfDominant(rows, brokenAfter);
    var more, n := [r] + rows, FailureRun(rows);
    assert more[1..] == rows;
    assert FailureRun(more) == n + 1;
    assert more[..n + 1][1..] == rows[..n] && more[..n + 1][0] == r && rows[..n][0] == rows[0];
  }

  lemma {:induction false} AllSucceeded(rows: seq<RunRecord>)
    ensures Successes(rows) == |rows| <==> forall r <- rows :: Succeeded(r)
  {
    if rows != [] {
      AllSucceeded(rows[1..]);
      assert rows == [rows[0]] + rows[1..];
    }
  }

  /** The rate is over the newest 20 runs at most; it is 1 exactly if none of them failed. */
  lemma RateIsOneIffNoRecentFailure(rs: seq<RunRecord>, brokenAfter: Threshold, degradedAfter: Threshold)
    ensures var h, rows := ComputeHealth(rs, brokenAfter, degradedAfter), NewestFirst(rs);
            && 0.0 <= h.successRate <= 1.0
            && (h.successRate == 1.0 <==> forall i :: 0 <= i < |rows| && i < 20 ==> Succeeded(rows[i]))
  {
    var recent := Recent(NewestFirst(rs));
    AllSucceeded(recent);
    if recent != [] {
      var n, k := |recent| as real, Successes(recent) as real;
      assert k / n * n == k;
      assert forall i :: 0 <= i < |recent| ==> recent[i] in recent && recent[i] == NewestFirst(rs)[i];
      RatioBounds(Successes(recent), |recent|);
    }
  }

  lemma RatioBounds(k: nat, n: nat)
    requires k <= n && n > 0
    ensures 0.0 <= k as real / n as real <= 1.0
    ensures k as real / n as real == 1.0 <==> k == n
  {
    var q := k as real / n as real;
    assert q * n as real == k as real;
    assert q > 1.0 ==> q * n as real > n as real;
  }

  /** Which rows succeeded. */
  function SuccessesAt(rows: seq<RunRecord>): set<nat> { set i: nat | i < |rows| && rows[i].status == "succeeded" }

  lemma {:induction false} SuccessesCount(rows: seq<RunRecord>)
    ensures Successes(rows) == |SuccessesAt(rows)|
  {
    if rows != [] {
      SuccessesCount(rows[1..]);
      ShiftKeepsSize(SuccessesAt(rows[1..]));
      FirstAndShifted(rows);
    }
  }

  lemma FirstAndShifted(rows: seq<RunRecord>)
    requires rows != []
    ensures SuccessesAt(rows) == Shift(SuccessesAt(rows[1..])) + (if Succeeded(rows[0]) then {0} else {})
  {
    var all, later := SuccessesAt(rows), SuccessesAt(rows[1..]);
    forall i: nat ensures i in later <==> i + 1 in all {
      if i < |rows[1..]| {
        assert rows[1..][i] == rows[i + 1];
      }
    }
    forall x | x in all && x > 0 ensures x in Shift(later) { assert x - 1 in later; }
  }

  function Shift(xs: set<nat>): set<nat> { set i: nat | i in xs :: i + 1 }

  lemma {:induction false} ShiftKeepsSize(xs: set<nat>)
    ensures |Shift(xs)| == |xs|
  {
    if xs != {} {
      var x :| x in xs;
      var rest := xs - {x};
      ShiftKeepsSize(rest);
      forall y | y in Shift(xs) ensures y in Shift(rest) + {x + 1} {
        assert y - 1 in xs;
        assert y != x + 1 ==> y - 1 in rest;
      }
      assert Shift(xs) == Shift(rest) + {x + 1};
    }
  }

  lemma Share(k: nat, n: nat)
    requires n > 0
    ensures (k as real / n as real) * n as real == k as real
  {
  }

  /** The rate is the share of successes among the newest twenty rows, and 1 if there are none. */
  ghost predicate IsRate(rows: seq<RunRecord>, rate: real) {
    var recent := if |rows| > 20 then rows[..20] else rows;
    if recent == [] then rate == 1.0 else rate * |recent| as real == |SuccessesAt(recent)| as real
  }

  lemma RateIsQuotient(rows: seq<RunRecord>, recent: seq<RunRecord>)
    requires rows != [] && recent == if |rows| > 20 then rows[..20] else rows
    ensures SuccessRate(rows) == |SuccessesAt(recent)| as real / |recent| as real
  {
    SuccessesCount(recent);
  }

  lemma RateIsShare(rows: seq<RunRecord>)
    ensures IsRate(rows, SuccessRate(rows))
  {
    if rows != [] {
      var recent := if |rows| > 20 then rows[..20] else rows;
      RateIsQuotient(rows, recent);
      Share(|SuccessesAt(recent)|, |recent|);
    }
  }

  /** The whole health, read off the rows newest first: the failures before the newest success, and the share of
      successes among the newest twenty. */
  lemma HealthIs(rs: seq<RunRecord>, brokenAfter: Threshold, degradedAfter: Threshold)
    ensures var h, rows := ComputeHealth(rs, brokenAfter, degradedAfter), NewestFirst(rs);
      && h.consecutiveFailures <= |rows|
      && (forall i :: 0 <= i < h.consecutiveFailures ==> rows[i].status != "succeeded")
      && (h.consecutiveFailures < |rows| ==> rows[h.consecutiveFailures].status == "succeeded")
      && IsRate(rows, h.successRate)
      && (h.dominant.Some? <==> h.flag.Broken?)
  {
    FailureRunIsMaximal(NewestFirst(rs));
    RateIsShare(NewestFirst(rs));
  }

  // ---------- grouping ----------

  datatype GroupKey = GroupKey(workflowId: string, workflowHash: Option<string>)

  function KeyOf(r: RunRecord): GroupKey { GroupKey(r.workflowId, r.workflowHash) }

  function Group(rs: seq<RunRecord>, k: GroupKey): seq<RunRecord> {
    if rs == [] then []
    else Group(rs[..|rs| - 1], k) + (if KeyOf(rs[|rs| - 1]) == k then [rs[|rs| - 1]] else [])
  }

  datatype Snapshot = Snapshot(lastRunAt: int, health: Health)

  function LatestStart(rows: seq<RunRecord>): int
    requires rows != []
  {
    if |rows| == 1 then rows[0].startedAt
    else
      var before, last := LatestStart(rows[..|rows| - 1]), rows[|rows| - 1].startedAt;
      if last >= before then last else before
  }

  lemma {:induction false} LatestStartIsMaximum(rows: seq<RunRecord>)
    requires rows != []
    ensures forall r <- rows :: r.startedAt <= LatestStart(rows)
    ensures exists r <- rows :: r.startedAt == LatestStart(rows)
  {
    assert rows[0] in rows;
    if |rows| > 1 {
      var init, last := rows[..|rows| - 1], rows[|rows| - 1];
      LatestStartIsMaximum(init);
      assert forall r :: r in rows <==> r in init || r == last by { assert rows == init + [last]; }
      if last.startedAt < LatestStart(init) {
        var r :| r in init && r.startedAt == LatestStart(init);
        assert r in rows;
      }
    }
  }

  lemma {:induction false} GroupHas(rs: seq<RunRecord>, k: GroupKey)
    ensures forall r :: r in Group(rs, k) <==> r in rs && KeyOf(r) == k
    ensures Group(rs, k) != [] <==> exists r <- rs :: KeyOf(r) == k
  {
    if rs != [] {
      var init, last := rs[..|rs| - 1], rs[|rs| - 1];
      GroupHas(init, k);
      assert forall r :: r in rs <==> r in init || r == last by { assert rs == init + [last]; }
    }
  }

  /** No record is lost or counted twice. */
  lemma {:induction false} GroupCounts(rs: seq<RunRecord>, r: RunRecord)
    ensures multiset(Group(rs, GroupKey(r.workflowId, r.workflowHash)))[r] == multiset(rs)[r]
  {
    if rs != [] {
      GroupCounts(rs[..|rs| - 1], r);
      assert rs == rs[..|rs| - 1] + [rs[|rs| - 1]];
    }
  }

  /** Records are grouped by workflow and hash, each group in record order, and each group gets its own health. */
  method Snapshots(rs: seq<RunRecord>, brokenAfter: Threshold, degradedAfter: Threshold)
    returns (result: map<GroupKey, Snapshot>)
    ensures forall k :: k in result <==> exists r <- rs :: GroupKey(r.workflowId, r.workflowHash) == k
    ensures forall k <- result ::
        && Group(rs, k) != []
        && result[k] == Snapshot(LatestStart(Group(rs, k)), ComputeHealth(Group(rs, k), brokenAfter, degradedAfter))
        && (forall r <- rs :: GroupKey(r.workflowId, r.workflowHash) == k ==> r.startedAt <= result[k].lastRunAt)
        && exists r <- rs :: GroupKey(r.workflowId, r.workflowHash) == k && r.startedAt == result[k].lastRunAt
  {
    var grouped: map<GroupKey, seq<RunRecord>> := map[];
    for i := 0 to |rs|
      invariant forall k :: k in grouped <==> Group(rs[..i], k) != []
      invariant forall k <- grouped :: grouped[k] == Group(rs[..i], k)
    {
      assert rs[..i + 1][..i] == rs[..i];
      var k := KeyOf(rs[i]);
      grouped := grouped[k := (if k in grouped then grouped[k] else []) + [rs[i]]];
    }
    assert rs[..|rs|] == rs;
    result := map k | k in grouped ::
      Snapshot(LatestStart(grouped[k]), ComputeHealth(grouped[k], brokenAfter, degradedAfter));
    forall k ensures k in result <==> exists r <- rs :: KeyOf(r) == k { GroupHas(rs, k); }
    forall k <- result
      ensures (forall r <- rs :: KeyOf(r) == k ==> r.startedAt <= result[k].lastRunAt)
              && exists r <- rs :: KeyOf(r) == k && r.startedAt == result[k].lastRunAt
    {
      GroupHas(rs, k);
      LatestStartIsMaximum(Group(rs, k));
    }
  }
}
