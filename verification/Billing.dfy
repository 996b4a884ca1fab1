/** internal/traffic/network_history.go: one billing total from the timelines of
    several vnStat sources, each trusted only from the moment it became available. */
module Billing {
  import opened Int64
  import opened Traffic
  import opened Vnstat

  /* ---------- networkSince: forget what a source saw before it was ours ---------- */

  predicate InPrefix(baseline: seq<Bucket>, b: Bucket) { b.Key() in LookupOf(baseline) }

  // What networkSince leaves of one bucket.
  function SinceBucket(baseline: seq<Bucket>, b: Bucket): Bucket {
    if InPrefix(baseline, b) then
      var prior := LookupOf(baseline)[b.Key()];
      Bucket(b.start, b.seconds, Max(0, b.rx - prior.rx), Max(0, b.tx - prior.tx))
    else b
  }

  function SinceRows(rows: seq<Bucket>, baseline: seq<Bucket>): seq<Bucket> {
    seq(|rows|, i requires 0 <= i < |rows| => SinceBucket(baseline, rows[i]))
  }

  function Since(s: Snapshot, available: int, baseline: seq<Bucket>): Snapshot {
    s.(created := Max(s.created, available), buckets := SinceRows(s.buckets, baseline))
  }

  method NetworkSince(s: Snapshot, available: int, baseline: seq<Bucket>) returns (r: Snapshot)
    ensures r == Since(s, available, baseline)
  {
    r := s;
    if available > s.created { r := r.(created := available); }
    var prefix: map<(int, int), Bucket> := map[];
    for n := 0 to |baseline|
      invariant prefix == LookupOf(baseline[..n])
    {
      assert baseline[..n + 1] == baseline[..n] + [baseline[n]];
      LookupOfAppend(baseline[..n], baseline[n]);
      prefix := prefix[baseline[n].Key() := baseline[n]];
    }
    assert baseline[..|baseline|] == baseline;
    var buckets := s.buckets;
    for i := 0 to |buckets|
      invariant |buckets| == |s.buckets|
      invariant forall k :: 0 <= k < i ==> buckets[k] == SinceBucket(baseline, s.buckets[k])
      invariant forall k :: i <= k < |buckets| ==> buckets[k] == s.buckets[k]
    {
      var b := buckets[i];
      if b.Key() in prefix {
        var prior := prefix[b.Key()];
        buckets := buckets[i := b.(rx := Max(0, b.rx - prior.rx), tx := Max(0, b.tx - prior.tx))];
      }
    }
    r := r.(buckets := buckets);
  }

  lemma {:induction false} SinceLookup(s: Snapshot, available: int, baseline: seq<Bucket>, n: nat)
    requires n <= |s.buckets|
    ensures var m, m' := LookupOf(s.buckets[..n]), LookupOf(Since(s, available, baseline).buckets[..n]);
      m'.Keys == m.Keys && forall k <- m :: m[k].Key() == k && m'[k] == SinceBucket(baseline, m[k])
  {
    if n > 0 {
      SinceLookup(s, available, baseline, n - 1);
      var t := Since(s, available, baseline);
      assert s.buckets[..n] == s.buckets[..n - 1] + [s.buckets[n - 1]];
      assert t.buckets[..n] == t.buckets[..n - 1] + [t.buckets[n - 1]];
      LookupOfAppend(s.buckets[..n - 1], s.buckets[n - 1]);
      LookupOfAppend(t.buckets[..n - 1], t.buckets[n - 1]);
    }
  }

  lemma SinceView(s: Snapshot, available: int, baseline: seq<Bucket>)
    ensures var m, m' := ViewOf(s).lookup, ViewOf(Since(s, available, baseline)).lookup;
      m'.Keys == m.Keys && forall k <- m :: m[k].Key() == k && m'[k] == SinceBucket(baseline, m[k])
  {
    SinceLookup(s, available, baseline, |s.buckets|);
    assert s.buckets[..|s.buckets|] == s.buckets;
    var t := Since(s, available, baseline);
    assert t.buckets[..|s.buckets|] == t.buckets;
  }

  function PriorBytes(baseline: seq<Bucket>, k: (int, int), d: Direction): int {
    if k in LookupOf(baseline) then LookupOf(baseline)[k].Bytes(d) else 0
  }

  // The baseline was read at the moment m: for every bucket that reaches past the
  // moment the source became available it holds the bytes of its part before m,
  // if it began by that moment, and nothing otherwise.
  ghost predicate BaselineReadAt(v: View, baseline: seq<Bucket>, f: Rate, d: Direction, m: int, available: int) {
    forall k <- v.lookup | OnGrid(k.0, k.1) && k.1 + k.0 > available ::
      PriorBytes(baseline, k, d) == if k.1 <= available then Passed(f, Max(k.1, v.created), Min(m, k.1 + k.0)) else 0
  }

  // The bytes of a bucket that passed after the baseline was read and before the
  // source became available.
  ghost function Unseen(s: Snapshot, available: int, f: Rate, m: int, k: (int, int)): nat {
    if k.1 <= available then Passed(f, Max(Max(k.1, s.created), m), available) else 0
  }

  // Those that passed after the source became available and before the baseline
  // was read: vnStat's clock was ahead.
  ghost function Lost(s: Snapshot, available: int, f: Rate, m: int, k: (int, int)): nat {
    if k.1 <= available then Passed(f, Max(s.created, available), Min(m, k.1 + k.0)) else 0
  }

  /** What subtracting the baseline leaves in a bucket: the bytes since the source
      became available, with those unseen and without those lost. */
  lemma SinceBytes(s: Snapshot, available: int, baseline: seq<Bucket>, f: Rate, d: Direction, m: int, k: (int, int))
    requires Exact(ViewOf(s), f, d) && BaselineReadAt(ViewOf(s), baseline, f, d, m, available)
    requires k in ViewOf(s).lookup && OnGrid(k.0, k.1) && (k.1 <= available ==> Min(m, k.1 + k.0) <= s.updated)
    requires var v' := ViewOf(Since(s, available, baseline)); v'.Left(k.1) < v'.Right(k.0, k.1)
    ensures var v' := ViewOf(Since(s, available, baseline));
      && k in v'.lookup
      && v'.lookup[k].Bytes(d) ==
         Passed(f, v'.Left(k.1), v'.Right(k.0, k.1)) + Unseen(s, available, f, m, k) - Lost(s, available, f, m, k)
  {
    hide Exact, BaselineReadAt, LookupOf, SinceBucket, PriorBytes;
    var v := ViewOf(s);
    SinceView(s, available, baseline);
    ExactAt(v, f, d, k);
    BaselineAt(v, baseline, f, d, m, available, k);
    SinceOne(v.lookup[k], baseline, d);
    if k.1 <= available { BytesAfter(f, v.Left(k.1), Min(m, k.1 + k.0), available, v.Right(k.0, k.1)); }
  }

  lemma ExactAt(v: View, f: Rate, d: Direction, k: (int, int))
    requires Exact(v, f, d) && k in v.lookup && OnGrid(k.0, k.1) && v.Left(k.1) < v.Right(k.0, k.1)
    ensures v.lookup[k].Bytes(d) == Passed(f, v.Left(k.1), v.Right(k.0, k.1))
  {
  }

  lemma BaselineAt(v: View, baseline: seq<Bucket>, f: Rate, d: Direction, m: int, available: int, k: (int, int))
    requires BaselineReadAt(v, baseline, f, d, m, available)
    requires k in v.lookup && OnGrid(k.0, k.1) && k.1 + k.0 > available
    ensures PriorBytes(baseline, k, d) ==
      if k.1 <= available then Passed(f, Max(k.1, v.created), Min(m, k.1 + k.0)) else 0
  {
  }

  lemma SinceOne(b: Bucket, baseline: seq<Bucket>, d: Direction)
    requires b.Bytes(d) >= 0
    ensures SinceBucket(baseline, b).Bytes(d) == Max(0, b.Bytes(d) - PriorBytes(baseline, b.Key(), d))
  {
  }

  lemma BytesAfter(f: Rate, left: int, m: int, available: int, right: int)
    requires available < right && m <= right && left < right
    ensures Passed(f, left, m) <= Passed(f, left, right)
    ensures Passed(f, left, right) - Passed(f, left, m) ==
      Passed(f, Max(left, available), right) + Passed(f, Max(left, m), available) - Passed(f, Max(left, available), m)
  {
    if m > left { PassedSplit(f, left, m, right); }
    if available > Max(left, m) { PassedSplit(f, Max(left, m), available, right); }
    if m > Max(left, available) { PassedSplit(f, Max(left, available), m, right); }
  }

  /** networkSince is exact exactly when, in every bucket that counts, as many bytes
      passed unseen as were lost; at most one of the two is not 0. So in particular
      when the baseline was read at the very moment the source became available. */
  lemma SinceExact(s: Snapshot, available: int, baseline: seq<Bucket>, f: Rate, d: Direction, m: int)
    requires Exact(ViewOf(s), f, d) && BaselineReadAt(ViewOf(s), baseline, f, d, m, available) && m <= s.updated
    ensures Exact(ViewOf(Since(s, available, baseline)), f, d) <==>
      forall k <- ViewOf(s).lookup |
        OnGrid(k.0, k.1) && Max(k.1, Max(s.created, available)) < Min(k.1 + k.0, s.updated) ::
        Unseen(s, available, f, m, k) == 0 == Lost(s, available, f, m, k)
    ensures m == available ==> Exact(ViewOf(Since(s, available, baseline)), f, d)
  {
    var v, v' := ViewOf(s), ViewOf(Since(s, available, baseline));
    SinceView(s, available, baseline);
    forall k <- v.lookup | OnGrid(k.0, k.1) && v'.Left(k.1) < v'.Right(k.0, k.1)
      ensures v'.lookup[k].Bytes(d) == Passed(f, v'.Left(k.1), v'.Right(k.0, k.1)) <==>
        Unseen(s, available, f, m, k) == 0 == Lost(s, available, f, m, k)
      ensures m == available ==> Unseen(s, available, f, m, k) == 0 == Lost(s, available, f, m, k)
    {
      SinceBytes(s, available, baseline, f, d, m, k);
      assert m >= available ==> Unseen(s, available, f, m, k) == 0;
      assert m <= available ==> Lost(s, available, f, m, k) == 0;
    }
  }

  // network.go: the buckets around the moment a source became available.
  function Around(buckets: seq<Bucket>, available: int): seq<Bucket> {
    if buckets == [] then []
    else
      var n := |buckets| - 1;
      var b := buckets[n];
      if b.start <= available < b.start + b.seconds then Around(buckets[..n], available) + [b]
      else Around(buckets[..n], available)
  }

  function BaselineOf(s: Snapshot, available: int): seq<Bucket> {
    if available > s.created then Around(s.buckets, available) else []
  }

  method CollectBaseline(s: Snapshot, available: int) returns (baseline: seq<Bucket>)
    ensures baseline == BaselineOf(s, available)
  {
    baseline := [];
    if available > s.created {
      for n := 0 to |s.buckets|
        invariant baseline == Around(s.buckets[..n], available)
      {
        assert s.buckets[..n + 1][..n] == s.buckets[..n];
        var b := s.buckets[n];
        if b.start <= available && b.start + b.seconds > available { baseline := baseline + [b]; }
      }
      assert s.buckets[..|s.buckets|] == s.buckets;
    }
  }

  lemma {:induction false} AroundLookup(buckets: seq<Bucket>, available: int)
    ensures var m, r := LookupOf(buckets), LookupOf(Around(buckets, available));
      forall k :: (k in r <==> k in m && k.1 <= available < k.1 + k.0) && (k in r ==> r[k] == m[k])
  {
    if buckets != [] {
      var n := |buckets| - 1;
      AroundLookup(buckets[..n], available);
      LookupOfAppend(Around(buckets[..n], available), buckets[n]);
    }
  }

  // The first snapshot of a source leaves out only buckets nothing passed in,
  // and a bucket outside its recorded time holds no bytes.
  ghost predicate Recorded(s: Snapshot, f: Rate, d: Direction, available: int) {
    (forall k <- ViewOf(s).lookup ::
       ViewOf(s).Left(k.1) >= ViewOf(s).Right(k.0, k.1) ==> ViewOf(s).lookup[k].Bytes(d) == 0) &&
    forall w, at :: OnGrid(w, at) && at <= available < at + w && (w, at) !in ViewOf(s).lookup ==>
      Passed(f, Max(at, s.created), Min(at + w, s.updated)) == 0
  }

  // When the baseline kept at the first sample counts as read. A recreated database
  // needs none: all it holds came after it was created.
  function BaselineMoment(s: Snapshot, available: int): int {
    if available > s.created then s.updated else Min(s.updated, available)
  }

  /** The buckets kept when a source is first sampled are the baseline that
      networkSince needs, as read at the time of that first snapshot, for every
      later snapshot of the source and however the clocks stood. */
  lemma BaselineCollected(s: Snapshot, later: Snapshot, f: Rate, d: Direction, available: int)
    requires Exact(ViewOf(s), f, d) && Recorded(s, f, d, available)
    requires later.created == s.created && s.updated <= later.updated
    ensures BaselineReadAt(ViewOf(later), BaselineOf(s, available), f, d, BaselineMoment(s, available), available)
    ensures BaselineMoment(s, available) <= later.updated
  {
    var m := BaselineMoment(s, available);
    forall k <- ViewOf(later).lookup | OnGrid(k.0, k.1) && k.1 + k.0 > available
      ensures PriorBytes(BaselineOf(s, available), k, d) ==
        if k.1 <= available then Passed(f, Max(k.1, s.created), Min(m, k.1 + k.0)) else 0
    {
      PriorExact(s, f, d, available, k.0, k.1);
    }
  }

  lemma PriorExact(s: Snapshot, f: Rate, d: Direction, available: int, w: int, at: int)
    requires Exact(ViewOf(s), f, d) && Recorded(s, f, d, available) && available < at + w && OnGrid(w, at)
    ensures PriorBytes(BaselineOf(s, available), (w, at), d) ==
      if at <= available then Passed(f, Max(at, s.created), Min(BaselineMoment(s, available), at + w)) else 0
  {
    AroundLookup(s.buckets, available);
  }

  /* ---------- mergeNetworkBuckets: retained rows and the source's own ---------- */

  // No bucket is below the one it replaces.
  predicate Forward(items: map<(int, int), Bucket>, next: seq<Bucket>) {
    next == [] ||
    var n := |next| - 1;
    var before := items + LookupOf(next[..n]);
    Forward(items, next[..n]) &&
      (next[n].Key() in before ==> next[n].rx >= before[next[n].Key()].rx && next[n].tx >= before[next[n].Key()].tx)
  }

  lemma {:induction false} ForwardPrefix(items: map<(int, int), Bucket>, next: seq<Bucket>, n: nat)
    requires n <= |next| && Forward(items, next)
    ensures Forward(items, next[..n])
    decreases |next|
  {
    if n < |next| {
      assert next[..|next| - 1][..n] == next[..n];
      ForwardPrefix(items, next[..|next| - 1], n);
    } else {
      assert next[..n] == next;
    }
  }

  lemma LookupNext(items: map<(int, int), Bucket>, buckets: seq<Bucket>, n: nat)
    requires n < |buckets|
    ensures items + LookupOf(buckets[..n + 1]) == (items + LookupOf(buckets[..n]))[buckets[n].Key() := buckets[n]]
    ensures LookupOf(buckets[..n + 1]) == LookupOf(buckets[..n])[buckets[n].Key() := buckets[n]]
  {
    assert buckets[..n + 1] == buckets[..n] + [buckets[n]];
    LookupOfAppend(buckets[..n], buckets[n]);
  }

  /** The merged buckets by width and start; their order means nothing to an index. */
  method MergeNetworkBuckets(saved: seq<Bucket>, next: seq<Bucket>) returns (ok: bool, items: map<(int, int), Bucket>)
    ensures ok <==> Forward(LookupOf(saved), next)
    ensures ok ==> items == LookupOf(saved) + LookupOf(next)
  {
    items := map[];
    for n := 0 to |saved|
      invariant items == LookupOf(saved[..n])
    {
      LookupNext(map[], saved, n);
      items := items[saved[n].Key() := saved[n]];
    }
    assert saved[..|saved|] == saved;
    ghost var first := items;
    assert first + map[] == first;
    for n := 0 to |next|
      invariant items == first + LookupOf(next[..n]) && Forward(first, next[..n])
    {
      var b := next[n];
      LookupNext(first, next, n);
      assert next[..n + 1][..n] == next[..n];
      if b.Key() in items && (b.rx < items[b.Key()].rx || b.tx < items[b.Key()].tx) {
        if Forward(first, next) { ForwardPrefix(first, next, n + 1); }
        return false, items;
      }
      items := items[b.Key() := b];
    }
    assert next[..|next|] == next;
    ok := true;
  }

  function Merged(saved: View, next: View): View { View(next.created, next.updated, saved.lookup + next.lookup) }

  /** Rows kept after vnStat dropped them stay exact exactly when nothing passed in
      them after they were last saved; so in particular when they had ended by then. */
  lemma MergedExact(saved: View, next: View, f: Rate, d: Direction)
    requires Exact(saved, f, d) && Exact(next, f, d) && saved.created == next.created && saved.updated <= next.updated
    requires forall k <- saved.lookup | OnGrid(k.0, k.1) && saved.Left(k.1) >= saved.Right(k.0, k.1) ::
      saved.lookup[k].Bytes(d) == 0
    ensures Exact(Merged(saved, next), f, d) <==>
      forall k <- saved.lookup | k !in next.lookup && OnGrid(k.0, k.1) ::
        Passed(f, Max(saved.Left(k.1), saved.updated), next.Right(k.0, k.1)) == 0
    ensures (forall k <- saved.lookup | k !in next.lookup && OnGrid(k.0, k.1) :: k.1 + k.0 <= saved.updated) ==>
      Exact(Merged(saved, next), f, d)
  {
    var m := Merged(saved, next);
    forall k <- saved.lookup | k !in next.lookup && OnGrid(k.0, k.1)
      ensures (m.Left(k.1) < m.Right(k.0, k.1) ==>
        m.lookup[k].Bytes(d) == Passed(f, m.Left(k.1), m.Right(k.0, k.1))) <==>
        Passed(f, Max(saved.Left(k.1), saved.updated), next.Right(k.0, k.1)) == 0
    {
      DroppedBucket(saved, next, f, d, k);
    }
  }

  lemma DroppedBucket(saved: View, next: View, f: Rate, d: Direction, k: (int, int))
    requires Exact(saved, f, d) && saved.created == next.created && saved.updated <= next.updated
    requires k in saved.lookup && OnGrid(k.0, k.1) &&
      (saved.Left(k.1) >= saved.Right(k.0, k.1) ==> saved.lookup[k].Bytes(d) == 0)
    ensures (next.Left(k.1) < next.Right(k.0, k.1) ==>
      saved.lookup[k].Bytes(d) == Passed(f, next.Left(k.1), next.Right(k.0, k.1))) <==>
      Passed(f, Max(saved.Left(k.1), saved.updated), next.Right(k.0, k.1)) == 0
  {
    var left, mid, right := saved.Left(k.1), saved.Right(k.0, k.1), next.Right(k.0, k.1);
    if left < mid { PassedSplit(f, left, mid, right); }
  }

  // No bucket of a snapshot is below the last one of its own key.
  predicate NoneAbove(next: seq<Bucket>, above: seq<Bucket>) {
    forall b <- above ::
      b.Key() in LookupOf(next) && b.rx >= LookupOf(next)[b.Key()].rx && b.tx >= LookupOf(next)[b.Key()].tx
  }

  // Every bucket of m is at least the last one of its key in next.
  predicate AllAbove(m: map<(int, int), Bucket>, next: seq<Bucket>) {
    forall k <- m :: k in LookupOf(next) && m[k].rx >= LookupOf(next)[k].rx && m[k].tx >= LookupOf(next)[k].tx
  }

  lemma AboveStep(next: seq<Bucket>, n: nat)
    requires n < |next| && NoneAbove(next, next[..n]) && AllAbove(LookupOf(next[..n]), next)
    requires forall b <- next :: b.Key() in LookupOf(next)
    requires var b, last := next[n], LookupOf(next)[next[n].Key()]; b.rx >= last.rx && b.tx >= last.tx
    ensures NoneAbove(next, next[..n + 1]) && AllAbove(LookupOf(next[..n + 1]), next)
  {
    hide LookupOf;
    var b, before := next[n], next[..n];
    assert next[..n + 1] == before + [b];
    LookupOfAppend(before, b);
    assert b in next;
    forall c | c in before + [b] ensures c.rx >= LookupOf(next)[c.Key()].rx && c.tx >= LookupOf(next)[c.Key()].tx {
      assert c in before || c == b;
    }
  }

  lemma {:induction false} RetryForward(items: map<(int, int), Bucket>, next: seq<Bucket>, n: nat)
    requires n <= |next| && Forward(items, next) && forall b <- next :: b.Key() in LookupOf(next)
    ensures Forward(items + LookupOf(next), next[..n]) <==> NoneAbove(next, next[..n])
    ensures NoneAbove(next, next[..n]) ==> AllAbove(LookupOf(next[..n]), next)
  {
    if n > 0 {
      var b := next[n - 1];
      RetryForward(items, next, n - 1);
      ForwardPrefix(items, next, n);
      assert next[..n][..n - 1] == next[..n - 1] && b in next[..n];
      forall c | c in next[..n - 1] ensures c in next[..n] {}
      if NoneAbove(next, next[..n - 1]) { RetryStep(items, next, n - 1); }
    }
  }

  // The next bucket of a retry meets the last of its key, or an earlier one.
  lemma RetryStep(items: map<(int, int), Bucket>, next: seq<Bucket>, n: nat)
    requires n < |next| && Forward(items, next[..n + 1]) && next[..n + 1][..n] == next[..n]
    requires forall b <- next :: b.Key() in LookupOf(next)
    requires NoneAbove(next, next[..n]) && AllAbove(LookupOf(next[..n]), next)
    requires Forward(items + LookupOf(next), next[..n])
    ensures Forward(items + LookupOf(next), next[..n + 1]) <==> NoneAbove(next, next[..n + 1])
    ensures NoneAbove(next, next[..n + 1]) ==> AllAbove(LookupOf(next[..n + 1]), next)
  {
    var b, last := next[n], LookupOf(next)[next[n].Key()];
    assert b in next[..n + 1] by { assert next[..n + 1][n] == b; }
    if b.rx >= last.rx && b.tx >= last.tx { AboveStep(next, n); }
  }

  /** Merging the same snapshot again, which a retry does, changes nothing, and is
      accepted if and only if the snapshot has no bucket below a repeated one. */
  lemma MergedTwice(saved: View, next: View, buckets: seq<Bucket>)
    requires saved.created == next.created && next.lookup == LookupOf(buckets) && Forward(saved.lookup, buckets)
    ensures Merged(Merged(saved, next), next) == Merged(saved, next)
    ensures Forward(Merged(saved, next).lookup, buckets) <==> NoneAbove(buckets, buckets)
  {
    assert saved.lookup + next.lookup + next.lookup == saved.lookup + next.lookup;
    LookupOfMembers(buckets);
    RetryForward(saved.lookup, buckets, |buckets|);
    assert buckets[..|buckets|] == buckets;
  }

  /** As vnStat never repeats a key, its retries are always accepted. */
  lemma RetryAccepted(s: Snapshot)
    requires Parsed(s)
    ensures NoneAbove(s.buckets, s.buckets)
  {
    LookupOfMembers(s.buckets);
    forall b <- s.buckets ensures LookupOf(s.buckets)[b.Key()] == b {
      var i :| 0 <= i < |s.buckets| && s.buckets[i] == b;
      var j :| 0 <= j < |s.buckets| && s.buckets[j] == LookupOf(s.buckets)[b.Key()];
    }
  }

  /* ---------- sumNetworkSources ---------- */

  // ended == 0 means the source is still open.
  datatype Source = Source(snapshot: Snapshot, available: int, ended: int)

  // The part of [start, end) this source answers for.
  function Window(s: Source, start: int, end: int): (int, int) {
    var z := if s.ended > 0 then Min(end, s.ended) else end;
    (Max(start, s.available), Min(z, s.snapshot.updated))
  }

  // The source is added up: its window is not empty and it has a bucket there.
  ghost predicate Counted(s: Source, start: int, end: int) {
    var w := Window(s, start, end);
    w.0 < w.1 && HasExtent(Extents(s.snapshot, |s.snapshot.buckets|), w.0, w.1)
  }

  // The windows of the sources that are added up.
  ghost function Windows(sources: seq<Source>, start: int, end: int): seq<(int, int)> {
    if sources == [] then []
    else
      var n := |sources| - 1;
      Windows(sources[..n], start, end) +
        if Counted(sources[n], start, end) then [Window(sources[n], start, end)] else []
  }

  ghost function SourceSum(s: Source, start: int, end: int): Total {
    var w := Window(s, start, end);
    if Counted(s, start, end) then SumOf(ViewOf(s.snapshot), w.0, w.1) else Total(0, 0, false)
  }

  ghost function SourcesTotal(sources: seq<Source>, start: int, end: int): Total {
    if sources == [] then Total(0, 0, false)
    else
      var n := |sources| - 1;
      var t, s := SourcesTotal(sources[..n], start, end), SourceSum(sources[n], start, end);
      Total(AddSaturating(t.rx, s.rx), AddSaturating(t.tx, s.tx), t.partial || s.partial)
  }

  ghost predicate Within(ws: seq<(int, int)>, t: int) { exists w <- ws :: w.0 <= t < w.1 }

  // Some second of the period is in no counted window.
  ghost predicate Uncovered(ws: seq<(int, int)>, start: int, end: int) {
    exists t :: start <= t < end && !Within(ws, t)
  }

  datatype Billed = Billed(rx: int, tx: int, available: bool, partial: bool) {
    function Bytes(d: Direction): int { if d == RX then rx else tx }
  }

  /** What sumNetworkSources answers: partial exactly when a counted source is, or
      when some second of the period is in no counted window. */
  ghost function SumSources(sources: seq<Source>, start: int, end: int): Billed {
    var t, ws := SourcesTotal(sources, start, end), Windows(sources, start, end);
    Billed(t.rx, t.tx, ws != [], t.partial || Uncovered(ws, start, end))
  }

  lemma {:induction false} WindowsInside(sources: seq<Source>, start: int, end: int)
    ensures forall w <- Windows(sources, start, end) ::
      start <= w.0 < w.1 <= end && exists i :: 0 <= i < |sources| && w == Window(sources[i], start, end)
  {
    if sources != [] { WindowsInside(sources[..|sources| - 1], start, end); }
  }

  /** The sweep over the windows in order of their left edges finds an uncovered
      second exactly when there is one. */
  method Sweep(coverage: seq<(int, int)>, start: int, end: int) returns (gap: bool)
    requires forall w <- coverage :: start <= w.0 < w.1 <= end
    ensures gap == Uncovered(coverage, start, end)
  {
    var sorted := SortByLeft(coverage);
    SameWindows(coverage, sorted, start, end);
    gap := false;
    var covered := start;
    for n := 0 to |sorted|
      invariant start <= covered
      invariant forall i :: 0 <= i < n ==> sorted[i].1 <= covered
      invariant if gap then Uncovered(sorted, start, end) else forall t :: start <= t < covered ==> Within(sorted, t)
    {
      var c := sorted[n];
      assert c in sorted;
      if c.0 > covered {
        assert !Within(sorted, covered);
        gap := true;
      }
      if c.1 > covered { covered := c.1; }
    }
    if covered < end { assert !Within(sorted, covered); }
    return gap || covered < end;
  }

  lemma SameWindows(ws: seq<(int, int)>, vs: seq<(int, int)>, start: int, end: int)
    requires multiset(ws) == multiset(vs)
    ensures forall w :: w in ws <==> w in vs
    ensures Uncovered(ws, start, end) == Uncovered(vs, start, end)
  {
    forall w ensures w in ws <==> w in vs {
      assert w in ws <==> w in multiset(ws);
      assert w in vs <==> w in multiset(vs);
    }
    forall t ensures Within(ws, t) == Within(vs, t) {}
  }

  lemma NothingAdded(a: int)
    ensures AddSaturating(a, 0) == a
  {
  }

  // One source: its window, and what it adds when it has a bucket there.
  method SumSource(source: Source, index: Index, start: int, end: int)
    returns (has: bool, w: (int, int), r: int, t: int, p: bool)
    requires index.For(source.snapshot)
    ensures has == Counted(source, start, end) && w == Window(source, start, end)
    ensures has ==> Total(r, t, p) == SumOf(ViewOf(source.snapshot), w.0, w.1)
  {
    hide SumOf, Extents;
    var a, z := start, end;
    if a < source.available { a := source.available; }
    if source.ended > 0 && z > source.ended { z := source.ended; }
    if z > source.snapshot.updated { z := source.snapshot.updated; }
    has, w, r, t, p := false, (a, z), 0, 0, false;
    if z > a { has := index.HasCoverage(source.snapshot, a, z); }
    if has {
      ViewOfValid(source.snapshot);
      r, t, p := index.Sum(a, z);
    }
  }

  method SumNetworkSources(sources: seq<Source>, indexes: seq<Index>, start: int, end: int)
    returns (rx: int, tx: int, available: bool, partial: bool)
    requires |indexes| == |sources| && forall i :: 0 <= i < |sources| ==> indexes[i].For(sources[i].snapshot)
    ensures Billed(rx, tx, available, partial) == SumSources(sources, start, end)
  {
    hide Counted, SumOf, AddSaturating, Index.For;
    rx, tx, available, partial := 0, 0, false, false;
    var coverage: seq<(int, int)> := [];
    for n := 0 to |sources|
      invariant Total(rx, tx, partial) == SourcesTotal(sources[..n], start, end)
      invariant coverage == Windows(sources[..n], start, end) && available == (coverage != [])
    {
      SourcesStep(sources, n, start, end);
      var has, w, r, t, p := SumSource(sources[n], indexes[n], start, end);
      if has {
        rx, tx := AddSaturating(rx, r), AddSaturating(tx, t);
        available, partial := true, partial || p;
        coverage := coverage + [w];
      } else {
        NothingAdded(rx);
        NothingAdded(tx);
      }
    }
    assert sources[..|sources|] == sources;
    WindowsInside(sources, start, end);
    var gap := Sweep(coverage, start, end);
    partial := partial || gap;
  }

  lemma SourcesStep(sources: seq<Source>, n: nat, start: int, end: int)
    requires n < |sources|
    ensures Windows(sources[..n + 1], start, end) == Windows(sources[..n], start, end) +
      if Counted(sources[n], start, end) then [Window(sources[n], start, end)] else []
    ensures var t, s := SourcesTotal(sources[..n], start, end), SourceSum(sources[n], start, end);
      SourcesTotal(sources[..n + 1], start, end) ==
        Total(AddSaturating(t.rx, s.rx), AddSaturating(t.tx, s.tx), t.partial || s.partial)
  {
    assert sources[..n + 1][..n] == sources[..n];
  }

  /* ---------- the billing theorem ---------- */

  predicate Owns(s: Source, t: int) { s.available <= t && (s.ended > 0 ==> t < s.ended) }

  // No second belongs to two sources.
  ghost predicate Timeline(sources: seq<Source>) {
    forall i, j, t :: 0 <= i < j < |sources| && Owns(sources[i], t) ==> !Owns(sources[j], t)
  }

  // Each source counts its own interface exactly, and is the billed one while it owns the time.
  ghost predicate Faithful(sources: seq<Source>, fs: seq<Rate>, g: Rate, d: Direction) {
    |fs| == |sources| &&
    (forall i :: 0 <= i < |sources| ==> Exact(ViewOf(sources[i].snapshot), fs[i], d)) &&
    (forall i, t :: 0 <= i < |sources| && Owns(sources[i], t) ==> fs[i](t) == g(t))
  }

  ghost function Masked(ws: seq<(int, int)>, g: Rate): Rate { t => if Within(ws, t) then g(t) else 0 }

  lemma MaskedStep(ws: seq<(int, int)>, w: (int, int), g: Rate, start: int, end: int)
    requires start <= w.0 < w.1 <= end
    requires forall t :: w.0 <= t < w.1 ==> !Within(ws, t)
    ensures Passed(Masked(ws + [w], g), start, end) == Passed(Masked(ws, g), start, end) + Passed(g, w.0, w.1)
  {
    var before, after := Masked(ws, g), Masked(ws + [w], g);
    forall t ensures Within(ws + [w], t) == (Within(ws, t) || w.0 <= t < w.1) {
      forall x | x in ws ensures x in ws + [w] {}
      assert w in ws + [w];
    }
    PassedSplit(before, start, w.0, end);
    PassedSplit(before, w.0, w.1, end);
    PassedSplit(after, start, w.0, end);
    PassedSplit(after, w.0, w.1, end);
    PassedAgree(before, after, start, w.0);
    PassedAgree(before, after, w.1, end);
    PassedZero(before, w.0, w.1);
    PassedAgree(after, g, w.0, w.1);
  }

  lemma {:induction false} MaskedTotal(sources: seq<Source>, fs: seq<Rate>, g: Rate, d: Direction, start: int, end: int)
    requires Timeline(sources) && Faithful(sources, fs, g, d)
    ensures var m, t := Passed(Masked(Windows(sources, start, end), g), start, end), SourcesTotal(sources, start, end);
      0 <= t.Bytes(d) <= Cap(m) && (!t.partial ==> t.Bytes(d) == Cap(m))
  {
    if sources == [] {
      assert Windows(sources, start, end) == [];
      forall t ensures Masked([], g)(t) == 0 {
        assert !Within([], t);
      }
      PassedZero(Masked(Windows(sources, start, end), g), start, end);
    } else {
      var n := |sources| - 1;
      var s, ws := sources[n], Windows(sources[..n], start, end);
      MaskedTotal(sources[..n], fs[..n], g, d, start, end);
      if Counted(s, start, end) {
        var w := Window(s, start, end);
        WindowsApart(sources, start, end);
        MaskedStep(ws, w, g, start, end);
        OwnedBytes(s, fs[n], g, d, w.0, w.1);
        assert Windows(sources, start, end) == ws + [w];
        CappedStep(SourcesTotal(sources[..n], start, end), SourceSum(s, start, end), d,
          Passed(Masked(ws, g), start, end), Passed(g, w.0, w.1));
      } else {
        assert Windows(sources, start, end) == ws;
      }
    }
  }

  lemma WindowsApart(sources: seq<Source>, start: int, end: int)
    requires sources != [] && Timeline(sources)
    ensures var n := |sources| - 1; var w := Window(sources[n], start, end);
      forall t :: w.0 <= t < w.1 ==> !Within(Windows(sources[..n], start, end), t)
  {
    hide Windows, Counted;
    var n := |sources| - 1;
    var w, ws := Window(sources[n], start, end), Windows(sources[..n], start, end);
    WindowsInside(sources[..n], start, end);
    forall i, t | 0 <= i <= n && Window(sources[i], start, end).0 <= t < Window(sources[i], start, end).1
      ensures Owns(sources[i], t)
    {
    }
    forall t | w.0 <= t < w.1 ensures !Within(ws, t) {
      forall x | x in ws ensures !(x.0 <= t < x.1) {
        var i :| 0 <= i < n && x == Window(sources[..n][i], start, end);
        assert !Owns(sources[i], t);
      }
    }
  }

  lemma CappedStep(t: Total, s: Total, d: Direction, m: nat, p: nat)
    requires 0 <= t.Bytes(d) <= Cap(m) && (!t.partial ==> t.Bytes(d) == Cap(m))
    requires 0 <= s.Bytes(d) <= Cap(p) && (!s.partial ==> s.Bytes(d) == Cap(p))
    ensures 0 <= AddSaturating(t.Bytes(d), s.Bytes(d)) <= Cap(m + p)
    ensures !t.partial && !s.partial ==> AddSaturating(t.Bytes(d), s.Bytes(d)) == Cap(m + p)
  {
  }

  lemma OwnedBytes(s: Source, f: Rate, g: Rate, d: Direction, a: int, z: int)
    requires Exact(ViewOf(s.snapshot), f, d) && (forall t | Owns(s, t) :: f(t) == g(t))
    requires s.available <= a < z <= s.snapshot.updated && (s.ended > 0 ==> z <= s.ended)
    ensures 0 <= SumOf(ViewOf(s.snapshot), a, z).Bytes(d) <= Cap(Passed(g, a, z))
    ensures !SumOf(ViewOf(s.snapshot), a, z).partial ==>
      SumOf(ViewOf(s.snapshot), a, z).Bytes(d) == Cap(Passed(g, a, z))
  {
    PassedAgree(f, g, a, z);
    SumInWindow(ViewOf(s.snapshot), f, d, a, z);
  }

  // SumExact for a window that ends by the last update.
  lemma SumInWindow(v: View, f: Rate, d: Direction, a: int, z: int)
    requires Exact(v, f, d) && a < z <= v.updated
    ensures 0 <= SumOf(v, a, z).Bytes(d) <= Cap(Passed(f, a, z))
    ensures !SumOf(v, a, z).partial ==> SumOf(v, a, z).Bytes(d) == Cap(Passed(f, a, z))
  {
    SumExact(v, f, d, a, z);
    if v.created > a { PassedSplit(f, a, Min(v.created, z), z); }
  }

  lemma {:induction false} MaskedBound(ws: seq<(int, int)>, g: Rate, a: int, z: int)
    ensures Passed(Masked(ws, g), a, z) <= Passed(g, a, z)
    decreases z - a
  {
    if a < z { MaskedBound(ws, g, a, z - 1); }
  }

  /** The multi-source bill never counts a byte from outside the period, from
      before a source became available or twice; when it is not flagged partial it
      is the period's true traffic to the byte. */
  lemma BillExact(sources: seq<Source>, fs: seq<Rate>, g: Rate, d: Direction, start: int, end: int)
    requires Timeline(sources) && Faithful(sources, fs, g, d)
    ensures var owned := Masked(Windows(sources, start, end), g);
      0 <= SumSources(sources, start, end).Bytes(d) <= Passed(owned, start, end) <= Passed(g, start, end)
    ensures !SumSources(sources, start, end).partial ==>
      SumSources(sources, start, end).Bytes(d) == Cap(Passed(g, start, end))
  {
    var ws := Windows(sources, start, end);
    MaskedTotal(sources, fs, g, d, start, end);
    MaskedBound(ws, g, start, end);
    if !Uncovered(ws, start, end) {
      PassedAgree(Masked(ws, g), g, start, end);
    }
  }

  lemma {:induction false} PassedConstant(f: Rate, c: nat, a: int, z: int)
    requires a <= z && forall t :: a <= t < z ==> f(t) == c
    ensures Passed(f, a, z) == c * (z - a)
    decreases z - a
  {
    if a < z { PassedConstant(f, c, a, z - 1); }
  }

  /* ---------- a switch between two updates ---------- */

  // A source with the open bucket of one hour: as first read after its update at
  // 3800, and after its update at 4200.
  const HOUR: Bucket := Bucket(3600, 3600, 200, 0)
  const FIRST_READ: Snapshot := Snapshot(3600, 3800, 200, 0, [HOUR])
  const NEXT_READ: Snapshot := Snapshot(3600, 4200, 600, 0, [HOUR.(rx := 600)])
  const SWITCHED_AT: int := 3900

  lemma OneBucket(b: Bucket)
    ensures LookupOf([b]) == map[b.Key() := b]
  {
    assert [b] == [] + [b];
    LookupOfAppend([], b);
  }

  lemma OneSeries(b: Bucket, seconds: int, d: Direction)
    ensures SeriesBytes([b], seconds, d) == if b.seconds == seconds then b.Bytes(d) else 0
  {
    assert SeriesBytes([], seconds, d) == 0;
  }

  lemma ReadsParsed()
    ensures Parsed(FIRST_READ) && Parsed(NEXT_READ)
  {
    forall w, d ensures SeriesBytes([HOUR], w, d) == if w == 3600 then HOUR.Bytes(d) else 0 { OneSeries(HOUR, w, d); }
    var next := HOUR.(rx := 600);
    forall w, d ensures SeriesBytes([next], w, d) == if w == 3600 then next.Bytes(d) else 0 { OneSeries(next, w, d); }
  }

  lemma CollectedHour()
    ensures BaselineOf(FIRST_READ, SWITCHED_AT) == [HOUR]
  {
    assert [HOUR][..0] == [] && Around([], SWITCHED_AT) == [];
  }

  // What the bill adds up: the shortened bucket counts 400 bytes.
  const SHORTENED: Snapshot := Snapshot(3900, 4200, 600, 0, [HOUR.(rx := 400)])

  lemma ShortenedHour()
    ensures Since(NEXT_READ, SWITCHED_AT, [HOUR]) == SHORTENED
  {
    OneBucket(HOUR);
  }

  lemma HourExact(g: Rate)
    requires forall t :: g(t) == 1
    ensures Exact(ViewOf(NEXT_READ), g, RX) && BaselineReadAt(ViewOf(NEXT_READ), [HOUR], g, RX, 3800, SWITCHED_AT)
  {
    PassedConstant(g, 1, 3600, 4200);
    PassedConstant(g, 1, 3600, 3800);
    OneBucket(HOUR);
    OneBucket(HOUR.(rx := 600));
  }

  lemma ShortenedCovers()
    ensures !SumOf(ViewOf(SHORTENED), 3900, 4200).partial
    ensures Counted(Source(SHORTENED, SWITCHED_AT, 0), 3900, 4200)
  {
    OneBucket(SHORTENED.buckets[0]);
    forall t | 3900 <= t < 4200 ensures Covered(ViewOf(SHORTENED), t, 3900, 4200) {
      assert Usable(ViewOf(SHORTENED), (3600, 3600), 3900, 4200);
    }
    PartialIff(ViewOf(SHORTENED), 3900, 4200);
    ExtentsAt(SHORTENED, 1, (3900, 4200));
  }

  lemma ShortenedExact(f: Rate, d: Direction)
    requires Passed(f, 3900, 4200) == SHORTENED.buckets[0].Bytes(d)
    ensures Exact(ViewOf(SHORTENED), f, d)
  {
    OneBucket(SHORTENED.buckets[0]);
  }

  lemma ShortenedSum()
    ensures SumOf(ViewOf(SHORTENED), 3900, 4200) == Total(400, 0, false)
  {
    var f: Rate := t => if t % 3 == 0 then 2 else 1;
    var zero: Rate := t => 0;
    PassedThirds(f, 1300, 1400);
    PassedZero(zero, 3900, 4200);
    ShortenedExact(f, RX);
    ShortenedExact(zero, TX);
    ShortenedCovers();
    SumInWindow(ViewOf(SHORTENED), f, RX, 3900, 4200);
    SumInWindow(ViewOf(SHORTENED), zero, TX, 3900, 4200);
  }

  // Four bytes every three seconds.
  lemma {:induction false} PassedThirds(f: Rate, a: int, z: int)
    requires a <= z && forall t :: f(t) == if t % 3 == 0 then 2 else 1
    ensures Passed(f, 3 * a, 3 * z) == 4 * (z - a)
    decreases z - a
  {
    if a < z {
      PassedThirds(f, a, z - 1);
      var n := 3 * (z - 1);
      assert Passed(f, 3 * a, n + 1) == Passed(f, 3 * a, n) + 2;
      assert Passed(f, 3 * a, n + 2) == Passed(f, 3 * a, n + 1) + 1;
      assert Passed(f, 3 * a, n + 3) == Passed(f, 3 * a, n + 2) + 1;
    }
  }

  lemma OneSourceBill(s: Source, start: int, end: int)
    requires start < end && Window(s, start, end) == (start, end) && Counted(s, start, end)
    ensures var bill, sum := SumSources([s], start, end), SumOf(ViewOf(s.snapshot), start, end);
      bill.rx == AddSaturating(0, sum.rx) && bill.tx == AddSaturating(0, sum.tx) && bill.partial == sum.partial
  {
    SourcesStep([s], 0, start, end);
    assert [s][..0] == [] && [s][..1] == [s];
    forall t | start <= t < end ensures Within([(start, end)], t) {
      assert (start, end) in [(start, end)];
    }
  }

  // A range that begins earlier has the same window.
  lemma EarlierStart(s: Source, start: int, first: int, end: int)
    requires start <= first == s.available
    ensures SumSources([s], start, end).rx == SumSources([s], first, end).rx
  {
    SourcesStep([s], 0, start, end);
    SourcesStep([s], 0, first, end);
    assert [s][..0] == [] && [s][..1] == [s];
  }

  /** A source switched in 100 seconds after its last update: its baseline is as old
      as that update, it is available from the moment of the sample, and the bytes in
      between are billed, in a total that begins at the switch and is not flagged as
      well as in the total of the whole period. Such a reading is accepted, as
      Network.EarlySwitchAccepted says. */
  lemma EarlierBytesBilled() returns (g: Rate)
    ensures Parsed(FIRST_READ) && Parsed(NEXT_READ) && FIRST_READ.updated < SWITCHED_AT
    ensures Exact(ViewOf(NEXT_READ), g, RX)
    ensures var baseline := BaselineOf(FIRST_READ, SWITCHED_AT);
      var source := Source(Since(NEXT_READ, SWITCHED_AT, baseline), SWITCHED_AT, 0);
      var bill := SumSources([source], SWITCHED_AT, NEXT_READ.updated);
      && BaselineReadAt(ViewOf(NEXT_READ), baseline, g, RX, FIRST_READ.updated, SWITCHED_AT)
      && !bill.partial && bill.rx > Passed(g, SWITCHED_AT, NEXT_READ.updated)
      && forall start | start <= SWITCHED_AT ::
           SumSources([source], start, NEXT_READ.updated).rx > Passed(g, SWITCHED_AT, NEXT_READ.updated)
  {
    g := t => 1;
    ReadsParsed();
    CollectedHour();
    ShortenedHour();
    HourExact(g);
    PassedConstant(g, 1, 3900, 4200);
    ShortenedCovers();
    ShortenedSum();
    var source := Source(SHORTENED, SWITCHED_AT, 0);
    OneSourceBill(source, 3900, 4200);
    forall start | start <= SWITCHED_AT
      ensures SumSources([source], start, 4200).rx == SumSources([source], 3900, 4200).rx
    {
      EarlierStart(source, start, 3900, 4200);
    }
  }

  /* ---------- readNetworkWindow ---------- */

  // The rows a windowed read keeps. No bucket is longer than a day.
  predicate InWindow(k: (int, int), start: int, end: int) {
    start - 86400 <= k.1 < end && k.1 + k.0 > start
  }

  function Windowed(v: View, start: int, end: int): View {
    v.(lookup := map k | k in v.lookup && InWindow(k, start, end) :: v.lookup[k])
  }

  lemma WindowedCell(v: View, at: int, a: int, z: int, level: nat, start: int, end: int)
    requires level < 3 && start <= a && z <= end
    ensures Cell(Windowed(v, start, end), at, a, z, level) == Cell(v, at, a, z, level)
    decreases 3 - level, 0, 1
  {
    var w := Width(level);
    var left, right := Max(Max(at, a), v.created), Min(Min(at + w, z), v.updated);
    if left < right {
      assert InWindow((w, at), start, end);
      if level < 2 { WindowedFrom(v, left / Width(level + 1) * Width(level + 1), left, right, level + 1, start, end); }
    }
  }

  lemma {:induction false} WindowedFrom(v: View, at: int, a: int, z: int, level: nat, start: int, end: int)
    requires level < 3 && start <= a && z <= end
    ensures PiecesFrom(Windowed(v, start, end), at, a, z, level) == PiecesFrom(v, at, a, z, level)
    decreases 3 - level, if at < z then z - at else 0
  {
    if at < z {
      WindowedCell(v, at, a, z, level, start, end);
      WindowedFrom(v, at + Width(level), a, z, level, start, end);
    }
  }

  /** Bounding the read on both sides loses nothing: every range inside the window
      has the same sum and the same flag as over all rows. */
  lemma WindowedSum(v: View, start: int, end: int, a: int, z: int)
    requires start <= a && z <= end
    ensures SumOf(Windowed(v, start, end), a, z) == SumOf(v, a, z)
  {
    var from, to := Max(a, v.created), Min(z, v.updated);
    WindowedFrom(v, from / Width(0) * Width(0), from, to, 0, start, end);
  }

  // The rows of a windowed read, of the buckets or of the baseline.
  function ReadWindow(rows: seq<Bucket>, start: int, end: int): seq<Bucket> {
    if rows == [] then []
    else
      var n := |rows| - 1;
      ReadWindow(rows[..n], start, end) + if InWindow(rows[n].Key(), start, end) then [rows[n]] else []
  }

  lemma {:induction false} ReadLookup(rows: seq<Bucket>, start: int, end: int, k: (int, int))
    ensures var m, w := LookupOf(rows), LookupOf(ReadWindow(rows, start, end));
      (k in w <==> k in m && InWindow(k, start, end)) && (k in w ==> w[k] == m[k])
  {
    if rows != [] {
      var n := |rows| - 1;
      ReadLookup(rows[..n], start, end, k);
      LookupOfAppend(ReadWindow(rows[..n], start, end), rows[n]);
      if !InWindow(rows[n].Key(), start, end) {
        assert ReadWindow(rows, start, end) == ReadWindow(rows[..n], start, end);
      }
    }
  }

  lemma ReadBucket(b: Bucket, baseline: seq<Bucket>, start: int, end: int)
    requires InWindow(b.Key(), start, end)
    ensures SinceBucket(ReadWindow(baseline, start, end), b) == SinceBucket(baseline, b)
  {
    ReadLookup(baseline, start, end, b.Key());
  }

  lemma SinceRowsAppend(rows: seq<Bucket>, b: Bucket, baseline: seq<Bucket>)
    ensures SinceRows(rows + [b], baseline) == SinceRows(rows, baseline) + [SinceBucket(baseline, b)]
  {
  }

  lemma ReadAppend(rows: seq<Bucket>, b: Bucket, start: int, end: int)
    ensures ReadWindow(rows + [b], start, end) ==
      ReadWindow(rows, start, end) + if InWindow(b.Key(), start, end) then [b] else []
  {
    assert (rows + [b])[..|rows|] == rows;
  }

  lemma {:induction false} SinceRead(rows: seq<Bucket>, baseline: seq<Bucket>, start: int, end: int)
    ensures SinceRows(ReadWindow(rows, start, end), ReadWindow(baseline, start, end)) ==
      ReadWindow(SinceRows(rows, baseline), start, end)
  {
    if rows != [] {
      var n := |rows| - 1;
      SinceRead(rows[..n], baseline, start, end);
      assert rows == rows[..n] + [rows[n]];
      SinceRowsAppend(rows[..n], rows[n], baseline);
      ReadAppend(SinceRows(rows[..n], baseline), SinceBucket(baseline, rows[n]), start, end);
      if InWindow(rows[n].Key(), start, end) {
        ReadBucket(rows[n], baseline, start, end);
        SinceRowsAppend(ReadWindow(rows[..n], start, end), rows[n], ReadWindow(baseline, start, end));
      }
    }
  }

  lemma {:induction false} ReadMembers(rows: seq<Bucket>, start: int, end: int)
    ensures forall b :: b in ReadWindow(rows, start, end) <==> b in rows && InWindow(b.Key(), start, end)
  {
    if rows != [] {
      var n := |rows| - 1;
      ReadMembers(rows[..n], start, end);
      assert rows == rows[..n] + [rows[n]];
    }
  }

  // The recorded part of a bucket, inside [a, z).
  ghost predicate Records(s: Snapshot, b: Bucket, a: int, z: int) {
    var left, right := Max(b.start, s.created), Min(b.start + b.seconds, s.updated);
    a <= left < right <= z
  }

  lemma ExtentIffRecords(s: Snapshot, a: int, z: int)
    ensures HasExtent(Extents(s, |s.buckets|), a, z) <==> exists b <- s.buckets :: Records(s, b, a, z)
  {
    if exists b <- s.buckets :: Records(s, b, a, z) {
      var b :| b in s.buckets && Records(s, b, a, z);
      ExtentsAt(s, |s.buckets|, (Max(b.start, s.created), Min(b.start + b.seconds, s.updated)));
    }
    if HasExtent(Extents(s, |s.buckets|), a, z) {
      var e :| e in Extents(s, |s.buckets|) && a <= e.0 && e.1 <= z;
      ExtentsAt(s, |s.buckets|, e);
      var i :| 0 <= i < |s.buckets| && e.0 == Max(s.buckets[i].start, s.created) &&
        e.1 == Min(s.buckets[i].start + s.buckets[i].seconds, s.updated) && e.1 > e.0;
      assert s.buckets[i] in s.buckets && Records(s, s.buckets[i], a, z);
    }
  }

  lemma ReadCoverage(s: Snapshot, start: int, end: int, a: int, z: int)
    requires start <= a && z <= end && forall b <- s.buckets :: b.seconds <= 86400
    ensures var read := s.(buckets := ReadWindow(s.buckets, start, end));
      HasExtent(Extents(read, |read.buckets|), a, z) <==> HasExtent(Extents(s, |s.buckets|), a, z)
  {
    var read := s.(buckets := ReadWindow(s.buckets, start, end));
    ExtentIffRecords(s, a, z);
    ExtentIffRecords(read, a, z);
    ReadMembers(s.buckets, start, end);
    forall b <- s.buckets | Records(s, b, a, z) ensures b in read.buckets {}
    forall b <- read.buckets ensures Records(read, b, a, z) == Records(s, b, a, z) {}
  }

  // A source as the windowed read returns it.
  function ReadSource(s: Snapshot, available: int, baseline: seq<Bucket>, start: int, end: int): Snapshot {
    Since(s.(buckets := ReadWindow(s.buckets, start, end)), available, ReadWindow(baseline, start, end))
  }

  lemma ReadSourceRows(s: Snapshot, available: int, baseline: seq<Bucket>, start: int, end: int)
    ensures var whole := Since(s, available, baseline);
      ReadSource(s, available, baseline, start, end) == whole.(buckets := ReadWindow(whole.buckets, start, end))
  {
    SinceRead(s.buckets, baseline, start, end);
  }

  lemma ReadView(s: Snapshot, start: int, end: int)
    ensures ViewOf(s.(buckets := ReadWindow(s.buckets, start, end))) == Windowed(ViewOf(s), start, end)
  {
    var read := s.(buckets := ReadWindow(s.buckets, start, end));
    forall k ensures k in ViewOf(read).lookup <==> k in Windowed(ViewOf(s), start, end).lookup
      ensures k in ViewOf(read).lookup ==> ViewOf(read).lookup[k] == ViewOf(s).lookup[k]
    {
      ReadLookup(s.buckets, start, end, k);
    }
    assert ViewOf(read).lookup == Windowed(ViewOf(s), start, end).lookup;
  }

  /** A source read through the window, its baseline too, answers every range inside
      the window as the whole source does: covered or not, sum and flag. */
  lemma WindowedSource(s: Snapshot, available: int, baseline: seq<Bucket>, start: int, end: int, a: int, z: int)
    requires start <= a && z <= end && forall b <- s.buckets :: b.seconds <= 86400
    ensures var whole, read := Since(s, available, baseline), ReadSource(s, available, baseline, start, end);
      && SumOf(ViewOf(read), a, z) == SumOf(ViewOf(whole), a, z)
      && (HasExtent(Extents(read, |read.buckets|), a, z) <==> HasExtent(Extents(whole, |whole.buckets|), a, z))
  {
    var whole := Since(s, available, baseline);
    ReadSourceRows(s, available, baseline, start, end);
    ReadView(whole, start, end);
    WindowedSum(ViewOf(whole), start, end, a, z);
    ReadCoverage(whole, start, end, a, z);
  }

  /* ---------- saveNetworks: the table of sources ---------- */

  datatype SourceRow = SourceRow(generation: string, created: int, updated: int, available: nat, ended: nat) {
    predicate Holds(t: int) { available <= t && (ended > 0 ==> t < ended) }
  }

  // Saving a record closes every other open source and inserts or refreshes its own.
  function SaveSource(rows: seq<SourceRow>, r: SourceRow): seq<SourceRow> {
    var closed := seq(|rows|, i requires 0 <= i < |rows| =>
      if rows[i].generation != r.generation && rows[i].ended == 0 then rows[i].(ended := r.available)
      else if rows[i].generation == r.generation then rows[i].(updated := r.updated)
      else rows[i]);
    if exists i :: 0 <= i < |rows| && rows[i].generation == r.generation then closed
    else closed + [r.(ended := 0)]
  }

  predicate EndedBefore(a: SourceRow, b: SourceRow) { 0 < a.ended <= b.available }

  // Only the newest source is open, and each ended before the next began.
  ghost predicate Chained(rows: seq<SourceRow>) {
    forall i, j :: 0 <= i < j < |rows| ==> EndedBefore(rows[i], rows[j])
  }

  ghost predicate NoOverlap(rows: seq<SourceRow>) {
    forall i, j, t :: 0 <= i < j < |rows| && rows[i].Holds(t) ==> !rows[j].Holds(t)
  }

  ghost predicate IsNew(rows: seq<SourceRow>, r: SourceRow) {
    forall i :: 0 <= i < |rows| ==> rows[i].generation != r.generation
  }

  /** A new source overlaps an older one exactly when it claims to be available
      before a nonempty closed source ended. */
  lemma NewSourceOverlap(rows: seq<SourceRow>, r: SourceRow)
    requires Chained(rows) && IsNew(rows, r) && r.available > 0
    ensures NoOverlap(SaveSource(rows, r)) <==>
      forall i :: 0 <= i < |rows| && 0 < rows[i].ended && rows[i].available < rows[i].ended ==>
        rows[i].ended <= r.available
  {
    var after := SaveSource(rows, r);
    var n := |rows|;
    forall i | 0 <= i < n && 0 < rows[i].ended && rows[i].available < rows[i].ended && rows[i].ended > r.available
      ensures !NoOverlap(after)
    {
      var t := Max(rows[i].available, r.available);
      assert after[i].Holds(t) && after[n].Holds(t);
    }
    if forall i :: 0 <= i < n && 0 < rows[i].ended && rows[i].available < rows[i].ended ==>
         rows[i].ended <= r.available
    {
      forall i, j, t | 0 <= i < j < |after| && after[i].Holds(t) ensures !after[j].Holds(t) {
        assert after[i] == if rows[i].ended == 0 then rows[i].(ended := r.available) else rows[i];
        if j < n { assert EndedBefore(rows[i], rows[j]) && after[j].available == rows[j].available; }
      }
    }
  }

  // Each save refreshes a known source or adds one that begins no earlier than all others.
  ghost predicate InOrder(rows: seq<SourceRow>, saves: seq<SourceRow>)
    decreases |saves|
  {
    saves == [] ||
    (saves[0].available > 0 &&
     (IsNew(rows, saves[0]) ==> forall i :: 0 <= i < |rows| ==> rows[i].ended <= saves[0].available) &&
     InOrder(SaveSource(rows, saves[0]), saves[1..]))
  }

  function SaveAll(rows: seq<SourceRow>, saves: seq<SourceRow>): seq<SourceRow>
    decreases |saves|
  {
    if saves == [] then rows else SaveAll(SaveSource(rows, saves[0]), saves[1..])
  }

  lemma SaveKeepsChain(rows: seq<SourceRow>, r: SourceRow)
    requires Chained(rows) && r.available > 0
    requires IsNew(rows, r) ==> forall i :: 0 <= i < |rows| ==> rows[i].ended <= r.available
    ensures Chained(SaveSource(rows, r))
  {
    var after := SaveSource(rows, r);
    forall i, j | 0 <= i < j < |after| ensures EndedBefore(after[i], after[j]) {
      if j < |rows| {
        assert EndedBefore(rows[i], rows[j]);
      } else {
        assert IsNew(rows, r) && after[j].available == r.available;
      }
    }
  }

  /** Over any run of saves, retries and refreshes included, no second of the
      billing timeline belongs to two sources. */
  lemma {:induction false} SavesKeepTimeline(rows: seq<SourceRow>, saves: seq<SourceRow>)
    requires Chained(rows) && InOrder(rows, saves)
    ensures Chained(SaveAll(rows, saves)) && NoOverlap(SaveAll(rows, saves))
    decreases |saves|
  {
    if saves != [] {
      SaveKeepsChain(rows, saves[0]);
      SavesKeepTimeline(SaveSource(rows, saves[0]), saves[1..]);
    }
  }
}
