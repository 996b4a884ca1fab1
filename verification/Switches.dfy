/** internal/traffic/network_history.go: when the subtracted baseline gives right
    bills, said on times alone, and one bill from what the sources recorded. */
module Switches {
  import opened Int64
  import opened Options
  import opened Traffic
  import opened Vnstat
  import opened Billing

  /* ---------- networkSince ---------- */

  // No second of the bucket lies between the moment its baseline was read and the
  // moment the source became available.
  predicate Seamless(s: Snapshot, available: int, m: int, k: (int, int)) {
    k.1 <= available ==>
      Max(Max(k.1, s.created), m) >= available && Max(s.created, available) >= Min(m, k.1 + k.0)
  }

  // The bucket counts once the source is available.
  predicate CountsSince(s: Snapshot, available: int, k: (int, int)) {
    k in ViewOf(s).lookup && OnGrid(k.0, k.1) &&
    Max(k.1, Max(s.created, available)) < Min(k.1 + k.0, s.updated)
  }

  predicate AllSeamless(s: Snapshot, available: int, m: int) {
    forall k <- ViewOf(s).lookup | CountsSince(s, available, k) :: Seamless(s, available, m, k)
  }

  lemma SeamlessExact(s: Snapshot, available: int, baseline: seq<Bucket>, f: Rate, d: Direction, m: int)
    requires Exact(ViewOf(s), f, d) && BaselineReadAt(ViewOf(s), baseline, f, d, m, available)
    requires AllSeamless(s, available, m)
    ensures Exact(ViewOf(Since(s, available, baseline)), f, d)
  {
    var v, v' := ViewOf(s), ViewOf(Since(s, available, baseline));
    SinceView(s, available, baseline);
    forall k <- v'.lookup | OnGrid(k.0, k.1) && v'.Left(k.1) < v'.Right(k.0, k.1)
      ensures v'.lookup[k].Bytes(d) == Passed(f, v'.Left(k.1), v'.Right(k.0, k.1))
    {
      assert CountsSince(s, available, k);
      SinceBytes(s, available, baseline, f, d, m, k);
    }
  }

  // Two snapshots that differ in their byte counts only.
  predicate SameTimes(s: Snapshot, s': Snapshot) {
    s'.created == s.created && s'.updated == s.updated && |s'.buckets| == |s.buckets| &&
    forall i :: 0 <= i < |s.buckets| ==> s'.buckets[i].Key() == s.buckets[i].Key()
  }

  // A snapshot with the times of s, a baseline read at m, and traffic both fit.
  ghost predicate Fits(s: Snapshot, s': Snapshot, baseline: seq<Bucket>, f: Rate, d: Direction,
                       m: int, available: int) {
    SameTimes(s, s') && Exact(ViewOf(s'), f, d) && BaselineReadAt(ViewOf(s'), baseline, f, d, m, available)
  }

  lemma {:induction false} SameKeys(rows: seq<Bucket>, rows': seq<Bucket>)
    requires |rows'| == |rows| && forall i :: 0 <= i < |rows| ==> rows'[i].Key() == rows[i].Key()
    ensures LookupOf(rows').Keys == LookupOf(rows).Keys
  {
    if rows != [] {
      var n := |rows| - 1;
      SameKeys(rows[..n], rows'[..n]);
    }
  }

  /* ---------- traffic that shows it ---------- */

  // One byte in each second of [lo, hi), nothing before and after.
  ghost function Burst(lo: int, hi: int): Rate { t => if lo <= t < hi then 1 else 0 }

  function Length(lo: int, hi: int, a: int, z: int): nat { Max(0, Min(z, hi) - Max(a, lo)) }

  lemma {:induction false} PassedBurst(lo: int, hi: int, a: int, z: int)
    ensures Passed(Burst(lo, hi), a, z) == Length(lo, hi, a, z)
    decreases z - a
  {
    if a < z { PassedBurst(lo, hi, a, z - 1); }
  }

  function Row(k: (int, int), bytes: nat): Bucket { Bucket(k.1, k.0, bytes, bytes) }

  // The buckets of s as the burst fills them, and the baseline read of it at m.
  function FilledRow(s: Snapshot, lo: int, hi: int, k: (int, int)): Bucket {
    Row(k, Length(lo, hi, Max(k.1, s.created), Min(k.1 + k.0, s.updated)))
  }

  function PriorRow(s: Snapshot, lo: int, hi: int, m: int, available: int, k: (int, int)): Bucket {
    Row(k, if k.1 <= available then Length(lo, hi, Max(k.1, s.created), Min(m, k.1 + k.0)) else 0)
  }

  function Filled(s: Snapshot, lo: int, hi: int): Snapshot {
    s.(buckets := seq(|s.buckets|, i requires 0 <= i < |s.buckets| => FilledRow(s, lo, hi, s.buckets[i].Key())))
  }

  function PriorRows(s: Snapshot, lo: int, hi: int, m: int, available: int): seq<Bucket> {
    seq(|s.buckets|, i requires 0 <= i < |s.buckets| => PriorRow(s, lo, hi, m, available, s.buckets[i].Key()))
  }

  lemma FilledLookup(s: Snapshot, lo: int, hi: int, k: (int, int))
    requires k in LookupOf(s.buckets)
    ensures k in LookupOf(Filled(s, lo, hi).buckets)
    ensures LookupOf(Filled(s, lo, hi).buckets)[k] == FilledRow(s, lo, hi, k)
  {
    SameKeys(s.buckets, Filled(s, lo, hi).buckets);
    LookupOfMembers(Filled(s, lo, hi).buckets);
  }

  lemma PriorLookup(s: Snapshot, lo: int, hi: int, m: int, available: int, k: (int, int))
    requires k in LookupOf(s.buckets)
    ensures k in LookupOf(PriorRows(s, lo, hi, m, available))
    ensures LookupOf(PriorRows(s, lo, hi, m, available))[k] == PriorRow(s, lo, hi, m, available, k)
  {
    SameKeys(s.buckets, PriorRows(s, lo, hi, m, available));
    LookupOfMembers(PriorRows(s, lo, hi, m, available));
  }

  lemma BurstFits(s: Snapshot, d: Direction, m: int, available: int, lo: int, hi: int)
    ensures Fits(s, Filled(s, lo, hi), PriorRows(s, lo, hi, m, available), Burst(lo, hi), d, m, available)
  {
    var s', f := Filled(s, lo, hi), Burst(lo, hi);
    SameKeys(s.buckets, s'.buckets);
    forall k <- ViewOf(s').lookup
      ensures ViewOf(s').lookup[k].Bytes(d) == Passed(f, Max(k.1, s.created), Min(k.1 + k.0, s.updated))
      ensures PriorBytes(PriorRows(s, lo, hi, m, available), k, d) ==
        if k.1 <= available then Passed(f, Max(k.1, s.created), Min(m, k.1 + k.0)) else 0
    {
      FilledLookup(s, lo, hi, k);
      PriorLookup(s, lo, hi, m, available, k);
      PassedBurst(lo, hi, Max(k.1, s.created), Min(k.1 + k.0, s.updated));
      PassedBurst(lo, hi, Max(k.1, s.created), Min(m, k.1 + k.0));
    }
  }

  // The seconds of a bucket between the two moments, either way round.
  function Between(s: Snapshot, available: int, m: int, k: (int, int)): (int, int) {
    if Max(Max(k.1, s.created), m) < available then (Max(Max(k.1, s.created), m), available)
    else (Max(s.created, available), Min(m, k.1 + k.0))
  }

  // Traffic in those seconds alone is counted in full though none is due, or not at all.
  lemma BetweenBytes(s: Snapshot, available: int, m: int, k: (int, int))
    requires !Seamless(s, available, m, k)
    ensures var b := Between(s, available, m, k); var f := Burst(b.0, b.1);
      if Max(Max(k.1, s.created), m) < available
      then Unseen(s, available, f, m, k) > 0 == Lost(s, available, f, m, k)
      else Lost(s, available, f, m, k) == b.1 - b.0 > 0 == Unseen(s, available, f, m, k)
  {
    var b := Between(s, available, m, k);
    PassedBurst(b.0, b.1, Max(Max(k.1, s.created), m), available);
    PassedBurst(b.0, b.1, Max(s.created, available), Min(m, k.1 + k.0));
  }

  lemma NotExact(s: Snapshot, d: Direction, m: int, available: int, k: (int, int))
    requires m <= s.updated && CountsSince(s, available, k) && !Seamless(s, available, m, k)
    ensures var b := Between(s, available, m, k);
      !Exact(ViewOf(Since(Filled(s, b.0, b.1), available, PriorRows(s, b.0, b.1, m, available))), Burst(b.0, b.1), d)
  {
    var b := Between(s, available, m, k);
    var s', prior, f := Filled(s, b.0, b.1), PriorRows(s, b.0, b.1, m, available), Burst(b.0, b.1);
    BurstFits(s, d, m, available, b.0, b.1);
    SameKeys(s.buckets, s'.buckets);
    SinceExact(s', available, prior, f, d, m);
    BetweenBytes(s, available, m, k);
    assert k in ViewOf(s').lookup;
    assert Unseen(s', available, f, m, k) == Unseen(s, available, f, m, k);
    assert Lost(s', available, f, m, k) == Lost(s, available, f, m, k);
  }

  lemma SeamlessTimes(s: Snapshot, s': Snapshot, available: int, m: int)
    requires SameTimes(s, s') && AllSeamless(s, available, m)
    ensures AllSeamless(s', available, m)
  {
    SameKeys(s.buckets, s'.buckets);
    forall k <- ViewOf(s').lookup | CountsSince(s', available, k) ensures Seamless(s', available, m, k) {
      assert k in LookupOf(s'.buckets).Keys;
      assert CountsSince(s, available, k);
    }
  }

  lemma FitsExact(s: Snapshot, s': Snapshot, baseline: seq<Bucket>, f: Rate, d: Direction, m: int, available: int)
    requires AllSeamless(s, available, m) && Fits(s, s', baseline, f, d, m, available)
    ensures Exact(ViewOf(Since(s', available, baseline)), f, d)
  {
    hide Exact, BaselineReadAt, Since, SameTimes, AllSeamless;
    SeamlessTimes(s, s', available, m);
    SeamlessExact(s', available, baseline, f, d, m);
  }

  /** networkSince leaves exact buckets for all traffic, if and only if nothing of a
      bucket that counts lies between the reading of the baseline and the moment the
      source became available. */
  lemma SinceExactIff(s: Snapshot, available: int, m: int, d: Direction)
    requires m <= s.updated
    ensures (forall s', baseline, f | Fits(s, s', baseline, f, d, m, available) ::
        Exact(ViewOf(Since(s', available, baseline)), f, d)) <==>
      AllSeamless(s, available, m)
  {
    hide Exact, Fits, Since, Seamless, CountsSince, Filled, PriorRows, Burst, Between;
    if AllSeamless(s, available, m) {
      forall s', baseline, f | Fits(s, s', baseline, f, d, m, available)
        ensures Exact(ViewOf(Since(s', available, baseline)), f, d)
      {
        FitsExact(s, s', baseline, f, d, m, available);
      }
    } else {
      var k :| k in ViewOf(s).lookup && CountsSince(s, available, k) && !Seamless(s, available, m, k);
      var b := Between(s, available, m, k);
      BurstFits(s, d, m, available, b.0, b.1);
      NotExact(s, d, m, available, k);
    }
  }

  /* ---------- the first bucket of a sum ---------- */

  // The bucket a sum of [from, to) counts first, if it begins with one.
  function FirstBucket(v: View, from: int, to: int, level: nat): Option<(int, int)>
    requires level < 3
    decreases 3 - level
  {
    var w := Width(level);
    var at := from / w * w;
    if (w, at) in v.lookup && from == v.Left(at) && v.Right(w, at) <= to then Some((w, at))
    else if level < 2 then FirstBucket(v, from, Min(at + w, to), level + 1)
    else None
  }

  lemma {:induction false} FirstSame(v: View, u: View, from: int, to: int, level: nat)
    requires level < 3 && u.created == v.created && u.updated == v.updated && u.lookup.Keys == v.lookup.Keys
    ensures FirstBucket(u, from, to, level) == FirstBucket(v, from, to, level)
    decreases 3 - level
  {
    var at := from / Width(level) * Width(level);
    assert (Width(level), at) in u.lookup.Keys <==> (Width(level), at) in v.lookup.Keys;
    if level < 2 { FirstSame(v, u, from, Min(at + Width(level), to), level + 1); }
  }

  // The piece begins the range: it is this bucket, or a gap.
  ghost predicate Leads(v: View, k: Option<(int, int)>, from: int, to: int, p: Piece) {
    if k.None? then p.Gap?
    else
      var key := k.value;
      key in v.lookup && OnGrid(key.0, key.1) && v.Left(key.1) == from < v.Right(key.0, key.1) <= to &&
      p == Whole(from, v.Right(key.0, key.1), v.lookup[key])
  }

  // The cell the range begins in, by its own bucket, finer pieces or a gap.
  lemma FirstCell(v: View, from: int, to: int, level: nat)
    requires level < 3 && v.created <= from < to <= v.updated
    ensures var w := Width(level); var at := from / w * w;
      && at <= from < at + w && OnGrid(w, at)
      && Cell(v, at, from, to, level) ==
         if (w, at) in v.lookup && from == v.Left(at) && v.Right(w, at) <= to
         then [Whole(from, v.Right(w, at), v.lookup[(w, at)])]
         else if level < 2 then Pieces(v, from, Min(at + w, to), level + 1)
         else [Gap(from, Min(at + w, to))]
  {
    hide Pieces;
    GridStart(from, level);
  }

  lemma FirstOf(v: View, from: int, to: int, level: nat)
    requires level < 3 && from < to && Cell(v, from / Width(level) * Width(level), from, to, level) != []
    requires from / Width(level) * Width(level) <= from
    ensures Pieces(v, from, to, level) != []
    ensures Pieces(v, from, to, level)[0] == Cell(v, from / Width(level) * Width(level), from, to, level)[0]
  {
    hide Cell;
  }

  lemma {:induction false} FirstPiece(v: View, from: int, to: int, level: nat)
    requires level < 3 && v.created <= from < to <= v.updated
    ensures Pieces(v, from, to, level) != []
    ensures Leads(v, FirstBucket(v, from, to, level), from, to, Pieces(v, from, to, level)[0])
    decreases 3 - level
  {
    hide Pieces, Cell, OnGrid;
    FirstCell(v, from, to, level);
    if level < 2 {
      var at := from / Width(level) * Width(level);
      FirstPiece(v, from, Min(at + Width(level), to), level + 1);
    }
    FirstOf(v, from, to, level);
  }

  // The buckets that begin after the source became available.
  function Later(v: View, available: int): View {
    v.(lookup := map k | k in v.lookup && k.1 > available :: v.lookup[k])
  }

  lemma LaterExact(s: Snapshot, available: int, baseline: seq<Bucket>, f: Rate, d: Direction, m: int)
    requires Exact(ViewOf(s), f, d) && BaselineReadAt(ViewOf(s), baseline, f, d, m, available)
    ensures Exact(Later(ViewOf(Since(s, available, baseline)), available), f, d)
  {
    var v' := ViewOf(Since(s, available, baseline));
    SinceView(s, available, baseline);
    forall k <- Later(v', available).lookup | OnGrid(k.0, k.1) && v'.Left(k.1) < v'.Right(k.0, k.1)
      ensures v'.lookup[k].Bytes(d) == Passed(f, v'.Left(k.1), v'.Right(k.0, k.1))
    {
      SinceBytes(s, available, baseline, f, d, m, k);
    }
  }

  // After the first piece only such buckets are counted.
  lemma LaterPieces(v: View, available: int, ps: seq<Piece>, a: int, z: int, from: int, to: int)
    requires available <= v.created < a && Chain(ps, a, z)
    requires forall p <- ps :: UsablePiece(v, p, from, to)
    ensures forall p <- ps :: UsablePiece(Later(v, available), p, from, to)
  {
    forall p | p in ps ensures UsablePiece(Later(v, available), p, from, to) {
      InsideChain(ps, a, z, p);
      if p.Whole? {
        var k :| Usable(v, k, from, to) && v.lookup[k] == p.bucket && p.left == v.Left(k.1) &&
          p.right == v.Right(k.0, k.1);
        assert Usable(Later(v, available), k, from, to);
      }
    }
  }

  // What the first bucket counts beyond its due bytes, or falls short of them.
  ghost function Extra(s: Snapshot, available: int, f: Rate, m: int, k: Option<(int, int)>): int {
    if k.None? then 0 else Unseen(s, available, f, m, k.value) - Lost(s, available, f, m, k.value)
  }

  lemma FirstBytes(s: Snapshot, available: int, baseline: seq<Bucket>, f: Rate, d: Direction, m: int,
                   k: Option<(int, int)>, from: int, to: int, p: Piece)
    requires Exact(ViewOf(s), f, d) && BaselineReadAt(ViewOf(s), baseline, f, d, m, available) && m <= s.updated
    requires Leads(ViewOf(Since(s, available, baseline)), k, from, to, p)
    ensures p.Whole? ==> p.bucket.Bytes(d) == Passed(f, from, p.right) + Extra(s, available, f, m, k) >= 0
    ensures p.Gap? ==> Extra(s, available, f, m, k) == 0
  {
    if k.Some? {
      SinceView(s, available, baseline);
      SinceBytes(s, available, baseline, f, d, m, k.value);
      ExactAt(ViewOf(s), f, d, k.value);
    }
  }

  /** A sum after networkSince is wrong in its first piece only, and by what passed
      between the two moments in that bucket. */
  lemma SwitchedSum(s: Snapshot, available: int, baseline: seq<Bucket>, f: Rate, d: Direction, m: int,
                    from: int, to: int)
    requires Exact(ViewOf(s), f, d) && BaselineReadAt(ViewOf(s), baseline, f, d, m, available) && m <= s.updated
    requires Max(s.created, available) <= from < to <= s.updated
    ensures var v' := ViewOf(Since(s, available, baseline));
      var ps, k := Pieces(v', from, to, 0), FirstBucket(v', from, to, 0);
      var due := Passed(f, from, to) + Extra(s, available, f, m, k);
      && 0 <= WholeBytes(ps, d) <= due
      && (!HasGap(ps) ==> k.Some? && WholeBytes(ps, d) == due)
      && (k.Some? ==> WholeBytes(ps, d) >= Extra(s, available, f, m, k))
  {
    hide Exact, BaselineReadAt, Since, Pieces, FirstBucket, Extra, Usable, Passed, Lost, Unseen;
    var v' := ViewOf(Since(s, available, baseline));
    var ps, k := Pieces(v', from, to, 0), FirstBucket(v', from, to, 0);
    SinceTimes(s, available, baseline);
    PiecesTile(v', from, to, 0);
    FirstPiece(v', from, to, 0);
    FirstBytes(s, available, baseline, f, d, m, k, from, to, ps[0]);
    var rest, mid := ps[1..], ps[0].right;
    RestChain(ps, from, to);
    LaterPieces(v', available, rest, mid, to, from, to);
    LaterExact(s, available, baseline, f, d, m);
    ChainBytes(Later(v', available), rest, mid, to, f, d, from, to);
    PassedSplit(f, from, mid, to);
    FirstGap(ps);
    LeadsWhole(v', k, from, to, ps[0]);
  }

  lemma SinceTimes(s: Snapshot, available: int, baseline: seq<Bucket>)
    ensures var v' := ViewOf(Since(s, available, baseline));
      v'.created == Max(s.created, available) && v'.updated == s.updated
  {
  }

  lemma RestChain(ps: seq<Piece>, from: int, to: int)
    requires ps != [] && Chain(ps, from, to)
    ensures Chain(ps[1..], ps[0].right, to) && from < ps[0].right <= to
    ensures forall p <- ps[1..] :: p in ps
  {
    ChainOrder(ps[1..], ps[0].right, to);
  }

  lemma FirstGap(ps: seq<Piece>)
    requires ps != []
    ensures HasGap(ps) <==> ps[0].Gap? || HasGap(ps[1..])
  {
    assert ps == [ps[0]] + ps[1..];
  }

  lemma LeadsWhole(v: View, k: Option<(int, int)>, from: int, to: int, p: Piece)
    requires Leads(v, k, from, to, p)
    ensures k.Some? <==> p.Whole?
  {
  }

  /* ---------- the bill of one switched source ---------- */

  function Switched(s: Snapshot, available: int, baseline: seq<Bucket>): Source {
    Source(Since(s, available, baseline), available, 0)
  }

  ghost function BillOf(s: Snapshot, available: int, baseline: seq<Bucket>, start: int, end: int): Billed {
    SumSources([Switched(s, available, baseline)], start, end)
  }

  // The part of the range the source answers for.
  function Answered(s: Snapshot, available: int, start: int, end: int): (int, int) {
    (Max(start, Max(s.created, available)), Min(end, s.updated))
  }

  // The bucket that the bill counts first.
  function FirstCounted(s: Snapshot, available: int, start: int, end: int): Option<(int, int)> {
    var r := Answered(s, available, start, end);
    if r.0 < r.1 then FirstBucket(ViewOf(s.(created := Max(s.created, available))), r.0, r.1, 0) else None
  }

  lemma FirstCountedView(s: Snapshot, available: int, baseline: seq<Bucket>, start: int, end: int)
    requires var r := Answered(s, available, start, end); r.0 < r.1
    ensures var r := Answered(s, available, start, end);
      FirstCounted(s, available, start, end) == FirstBucket(ViewOf(Since(s, available, baseline)), r.0, r.1, 0)
  {
    var r := Answered(s, available, start, end);
    SinceView(s, available, baseline);
    FirstSame(ViewOf(Since(s, available, baseline)), ViewOf(s.(created := Max(s.created, available))), r.0, r.1, 0);
  }

  lemma CountedFirst(s: Snapshot, available: int, baseline: seq<Bucket>, start: int, end: int)
    requires FirstCounted(s, available, start, end).Some?
    ensures Counted(Switched(s, available, baseline), start, end)
  {
    var t, r := Since(s, available, baseline), Answered(s, available, start, end);
    FirstCountedView(s, available, baseline, start, end);
    FirstPiece(ViewOf(t), r.0, r.1, 0);
    var k := FirstCounted(s, available, start, end).value;
    RecordedBucket(t, k);
    ExtentsAt(t, |t.buckets|, (Max(k.1, t.created), Min(k.1 + k.0, t.updated)));
  }

  lemma RecordedBucket(t: Snapshot, k: (int, int))
    requires k in LookupOf(t.buckets)
    ensures exists i :: 0 <= i < |t.buckets| && t.buckets[i].start == k.1 && t.buckets[i].seconds == k.0
  {
    LookupOfMembers(t.buckets);
    var i :| 0 <= i < |t.buckets| && t.buckets[i] == LookupOf(t.buckets)[k];
    assert t.buckets[i].Key() == k;
  }

  lemma OneBill(source: Source, d: Direction, start: int, end: int)
    ensures var bill, sum := SumSources([source], start, end), SourceSum(source, start, end);
      && bill.Bytes(d) == sum.Bytes(d)
      && (!bill.partial && start < end ==>
            !sum.partial && Counted(source, start, end) && Window(source, start, end) == (start, end))
  {
    hide Counted, SumOf;
    SourcesStep([source], 0, start, end);
    assert [source][..0] == [] && [source][..1] == [source];
    CappedSource(source, start, end);
    var ws := Windows([source], start, end);
    if !SumSources([source], start, end).partial && start < end {
      assert Within(ws, start) && Within(ws, end - 1);
    }
  }

  lemma CappedSource(source: Source, start: int, end: int)
    ensures SourceSum(source, start, end).rx <= MAX && SourceSum(source, start, end).tx <= MAX
  {
  }

  lemma BillBytes(s: Snapshot, available: int, baseline: seq<Bucket>, d: Direction, start: int, end: int)
    ensures var bill, r := BillOf(s, available, baseline, start, end), Answered(s, available, start, end);
      var ps := Pieces(ViewOf(Since(s, available, baseline)), r.0, r.1, 0);
      && bill.Bytes(d) == (if r.0 < r.1 && Counted(Switched(s, available, baseline), start, end)
                           then Cap(WholeBytes(ps, d)) else 0)
      && (!bill.partial && start < end ==>
            r == (start, end) && Counted(Switched(s, available, baseline), start, end) && !HasGap(ps))
  {
    hide Pieces, WholeBytes, SumSources, HasExtent;
    OneBill(Switched(s, available, baseline), d, start, end);
    SinceTimes(s, available, baseline);
  }

  /** The bill of one switched source: never above the bytes due from the moment it
      was available and those its first bucket counts beyond; unflagged, exactly these. */
  lemma SwitchedBill(s: Snapshot, available: int, baseline: seq<Bucket>, f: Rate, d: Direction, m: int,
                     start: int, end: int)
    requires Exact(ViewOf(s), f, d) && BaselineReadAt(ViewOf(s), baseline, f, d, m, available) && m <= s.updated
    ensures var bill, r := BillOf(s, available, baseline, start, end), Answered(s, available, start, end);
      var k := FirstCounted(s, available, start, end);
      var due := Passed(f, r.0, r.1) + Extra(s, available, f, m, k);
      && 0 <= bill.Bytes(d) <= Cap(due)
      && (!bill.partial && start < end ==> r == (start, end) && k.Some? && bill.Bytes(d) == Cap(due))
      && (k.Some? ==> bill.Bytes(d) >= Cap(Extra(s, available, f, m, k)))
  {
    hide Exact, BaselineReadAt, Since, Pieces, BillOf, FirstCounted, Extra, HasGap, WholeBytes, Counted;
    var r := Answered(s, available, start, end);
    BillBytes(s, available, baseline, d, start, end);
    if r.0 < r.1 {
      FirstCountedView(s, available, baseline, start, end);
      SwitchedSum(s, available, baseline, f, d, m, r.0, r.1);
      if FirstCounted(s, available, start, end).Some? { CountedFirst(s, available, baseline, start, end); }
    } else {
      NoneCounted(s, available, f, m, start, end);
    }
  }

  lemma NoneCounted(s: Snapshot, available: int, f: Rate, m: int, start: int, end: int)
    requires var r := Answered(s, available, start, end); r.0 >= r.1
    ensures var k := FirstCounted(s, available, start, end); k.None? && Extra(s, available, f, m, k) == 0
  {
  }

  /* ---------- when that bill is right, on times alone ---------- */

  lemma FirstTimes(s: Snapshot, s': Snapshot, available: int, start: int, end: int)
    requires SameTimes(s, s')
    ensures FirstCounted(s', available, start, end) == FirstCounted(s, available, start, end)
  {
    var r := Answered(s, available, start, end);
    SameKeys(s.buckets, s'.buckets);
    if r.0 < r.1 {
      FirstSame(ViewOf(s.(created := Max(s.created, available))), ViewOf(s'.(created := Max(s'.created, available))),
        r.0, r.1, 0);
    }
  }

  lemma {:induction false} ExtentTimes(t: Snapshot, t': Snapshot, n: nat)
    requires SameTimes(t, t') && n <= |t.buckets|
    ensures Extents(t', n) == Extents(t, n)
  {
    if n > 0 {
      ExtentTimes(t, t', n - 1);
      assert t'.buckets[n - 1].Key() == t.buckets[n - 1].Key();
    }
  }

  lemma FlagTimes(t: Snapshot, t': Snapshot, a: int, z: int)
    requires SameTimes(t, t')
    ensures SumOf(ViewOf(t'), a, z).partial == SumOf(ViewOf(t), a, z).partial
  {
    hide SumOf;
    if a < z {
      SameKeys(t.buckets, t'.buckets);
      var v, v' := ViewOf(t), ViewOf(t');
      forall k, lo, hi ensures Usable(v', k, lo, hi) == Usable(v, k, lo, hi) {
        assert k in v'.lookup.Keys <==> k in v.lookup.Keys;
      }
      forall x, lo, hi ensures Covered(v', x, lo, hi) == Covered(v, x, lo, hi) {}
      PartialIff(v, a, z);
      PartialIff(v', a, z);
    } else {
      EmptyRange(ViewOf(t), a, z);
      EmptyRange(ViewOf(t'), a, z);
    }
  }

  lemma EmptyRange(v: View, a: int, z: int)
    requires z <= a
    ensures SumOf(v, a, z) == Total(0, 0, false)
  {
  }

  lemma SinceSame(s: Snapshot, s': Snapshot, available: int, baseline: seq<Bucket>, baseline': seq<Bucket>)
    requires SameTimes(s, s')
    ensures SameTimes(Since(s, available, baseline), Since(s', available, baseline'))
  {
    forall i | 0 <= i < |s.buckets|
      ensures SinceBucket(baseline', s'.buckets[i]).Key() == SinceBucket(baseline, s.buckets[i]).Key()
    {
      assert s'.buckets[i].Key() == s.buckets[i].Key();
    }
  }

  /** The flag of the bill depends on times only. */
  lemma BillFlag(s: Snapshot, s': Snapshot, available: int, baseline: seq<Bucket>, baseline': seq<Bucket>,
                 start: int, end: int)
    requires SameTimes(s, s')
    ensures BillOf(s', available, baseline', start, end).partial == BillOf(s, available, baseline, start, end).partial
  {
    hide SumOf, Since, HasExtent;
    var x, x' := Switched(s, available, baseline), Switched(s', available, baseline');
    SinceSame(s, s', available, baseline, baseline');
    ExtentTimes(x.snapshot, x'.snapshot, |x.snapshot.buckets|);
    var w := Window(x, start, end);
    FlagTimes(x.snapshot, x'.snapshot, w.0, w.1);
    SourcesStep([x], 0, start, end);
    SourcesStep([x'], 0, start, end);
    assert [x][..0] == [] && [x][..1] == [x] && [x'][..0] == [] && [x'][..1] == [x'];
  }

  predicate FirstSeamless(s: Snapshot, available: int, m: int, start: int, end: int) {
    var k := FirstCounted(s, available, start, end);
    k.Some? ==> Seamless(s, available, m, k.value)
  }

  lemma SeamlessExtra(s: Snapshot, available: int, f: Rate, m: int, k: Option<(int, int)>)
    requires k.Some? ==> Seamless(s, available, m, k.value)
    ensures Extra(s, available, f, m, k) == 0
  {
  }

  lemma FitsBill(s: Snapshot, s': Snapshot, baseline: seq<Bucket>, f: Rate, d: Direction, m: int, available: int,
                 start: int, end: int)
    requires m <= s.updated && start < end && !BillOf(s, available, [], start, end).partial
    requires FirstSeamless(s, available, m, start, end) && Fits(s, s', baseline, f, d, m, available)
    ensures BillOf(s', available, baseline, start, end).Bytes(d) == Cap(Passed(f, start, end))
  {
    hide Exact, BaselineReadAt, BillOf, FirstCounted, Extra;
    FirstTimes(s, s', available, start, end);
    BillFlag(s, s', available, [], baseline, start, end);
    SwitchedBill(s', available, baseline, f, d, m, start, end);
    SeamlessExtra(s', available, f, m, FirstCounted(s', available, start, end));
  }

  // The first bucket, with traffic in its seconds between the two moments alone.
  lemma BurstBill(s: Snapshot, d: Direction, m: int, available: int, start: int, end: int)
    returns (b: (int, int), bill: Billed)
    requires m <= s.updated && !FirstSeamless(s, available, m, start, end)
    ensures var k := FirstCounted(s, available, start, end).value; var r := Answered(s, available, start, end);
      && b == Between(s, available, m, k)
      && bill == BillOf(Filled(s, b.0, b.1), available, PriorRows(s, b.0, b.1, m, available), start, end)
      && bill.partial == BillOf(s, available, [], start, end).partial
      && (Max(Max(k.1, s.created), m) < available ==> bill.Bytes(d) > 0 == Passed(Burst(b.0, b.1), r.0, r.1))
      && (!bill.partial && start < end ==>
            r == (start, end) && bill.Bytes(d) != Cap(Passed(Burst(b.0, b.1), start, end)))
  {
    hide Exact, BaselineReadAt, BillOf, FirstCounted, Filled, PriorRows, Burst;
    var k, r := FirstCounted(s, available, start, end).value, Answered(s, available, start, end);
    b := Between(s, available, m, k);
    var s', prior, f := Filled(s, b.0, b.1), PriorRows(s, b.0, b.1, m, available), Burst(b.0, b.1);
    bill := BillOf(s', available, prior, start, end);
    BurstFits(s, d, m, available, b.0, b.1);
    FirstTimes(s, s', available, start, end);
    BillFlag(s, s', available, [], prior, start, end);
    SwitchedBill(s', available, prior, f, d, m, start, end);
    BetweenBytes(s, available, m, k);
    PassedBurst(b.0, b.1, r.0, r.1);
  }

  /** An unflagged bill of a switched source is right for all traffic, if and only if
      nothing of the bucket it counts first lies between the reading of the baseline
      and the moment the source became available. */
  lemma SwitchedBillIff(s: Snapshot, available: int, m: int, d: Direction, start: int, end: int)
    requires m <= s.updated && start < end && !BillOf(s, available, [], start, end).partial
    ensures (forall s', baseline, f | Fits(s, s', baseline, f, d, m, available) ::
        BillOf(s', available, baseline, start, end).Bytes(d) == Cap(Passed(f, start, end))) <==>
      FirstSeamless(s, available, m, start, end)
  {
    hide BillOf, Fits, FirstSeamless, Filled, PriorRows, Burst;
    if FirstSeamless(s, available, m, start, end) {
      forall s', baseline, f | Fits(s, s', baseline, f, d, m, available)
        ensures BillOf(s', available, baseline, start, end).Bytes(d) == Cap(Passed(f, start, end))
      {
        FitsBill(s, s', baseline, f, d, m, available, start, end);
      }
    } else {
      var b, bill := BurstBill(s, d, m, available, start, end);
      BurstFits(s, d, m, available, b.0, b.1);
    }
  }

  // The baseline of the first bucket was not read before the source was available.
  predicate FirstKnown(s: Snapshot, available: int, m: int, start: int, end: int) {
    var k := FirstCounted(s, available, start, end);
    k.Some? && k.value.1 <= available ==> Max(Max(k.value.1, s.created), m) >= available
  }

  lemma FitsBound(s: Snapshot, s': Snapshot, baseline: seq<Bucket>, f: Rate, d: Direction, m: int, available: int,
                  start: int, end: int)
    requires m <= s.updated && FirstKnown(s, available, m, start, end) && Fits(s, s', baseline, f, d, m, available)
    ensures var r := Answered(s, available, start, end);
      BillOf(s', available, baseline, start, end).Bytes(d) <= Passed(f, r.0, r.1)
  {
    hide Exact, BaselineReadAt, BillOf, FirstCounted;
    FirstTimes(s, s', available, start, end);
    SwitchedBill(s', available, baseline, f, d, m, start, end);
  }

  /** Flagged or not, the bill has no byte from before the source was available, for
      all traffic, if and only if the baseline of the bucket it counts first was not
      read before that moment. */
  lemma NothingEarlierIff(s: Snapshot, available: int, m: int, d: Direction, start: int, end: int)
    requires m <= s.updated
    ensures (forall s', baseline, f | Fits(s, s', baseline, f, d, m, available) ::
        var r := Answered(s, available, start, end);
        BillOf(s', available, baseline, start, end).Bytes(d) <= Passed(f, r.0, r.1)) <==>
      FirstKnown(s, available, m, start, end)
  {
    hide BillOf, Fits, Filled, PriorRows, Burst, FirstCounted;
    var r := Answered(s, available, start, end);
    if FirstKnown(s, available, m, start, end) {
      forall s', baseline, f | Fits(s, s', baseline, f, d, m, available)
        ensures BillOf(s', available, baseline, start, end).Bytes(d) <= Passed(f, r.0, r.1)
      {
        FitsBound(s, s', baseline, f, d, m, available, start, end);
      }
    } else {
      var b, bill := BurstBill(s, d, m, available, start, end);
      BurstFits(s, d, m, available, b.0, b.1);
    }
  }

  /* ---------- one bill over all switches ---------- */

  // What the database has of a source: its own buckets, and the baseline kept when
  // it was first read.
  datatype Stored = Stored(raw: Snapshot, baseline: seq<Bucket>)

  // The source as billed comes from these, which are exact and were read in time.
  ghost predicate MadeFrom(source: Source, kept: Stored, f: Rate, m: int, d: Direction) {
    && source.snapshot == Since(kept.raw, source.available, kept.baseline)
    && Exact(ViewOf(kept.raw), f, d) && BaselineReadAt(ViewOf(kept.raw), kept.baseline, f, d, m, source.available)
    && AllSeamless(kept.raw, source.available, m)
  }

  /** networkSince followed by sumNetworkSources: from the sources' own exact buckets
      and baselines read in time, the bill counts no byte twice and none from outside
      the period or from before its source was available; not flagged, it is the true
      traffic. */
  lemma BillAfterSwitches(sources: seq<Source>, kept: seq<Stored>, fs: seq<Rate>, ms: seq<int>, g: Rate, d: Direction,
                          start: int, end: int)
    requires Timeline(sources) && |kept| == |fs| == |ms| == |sources|
    requires forall i :: 0 <= i < |sources| ==> MadeFrom(sources[i], kept[i], fs[i], ms[i], d)
    requires forall i, t :: 0 <= i < |sources| && Owns(sources[i], t) ==> fs[i](t) == g(t)
    ensures var owned := Masked(Windows(sources, start, end), g);
      0 <= SumSources(sources, start, end).Bytes(d) <= Passed(owned, start, end) <= Passed(g, start, end)
    ensures !SumSources(sources, start, end).partial ==>
      SumSources(sources, start, end).Bytes(d) == Cap(Passed(g, start, end))
  {
    hide Exact, BaselineReadAt, AllSeamless, SumSources, Windows;
    forall i | 0 <= i < |sources| ensures Exact(ViewOf(sources[i].snapshot), fs[i], d) {
      SeamlessExact(kept[i].raw, sources[i].available, kept[i].baseline, fs[i], d, ms[i]);
    }
    BillExact(sources, fs, g, d, start, end);
  }

  /** The baseline of a recreated database, and that of a source available from its
      own update on, is always read in time; that of any other source if and only if
      every bucket that counts began by no sooner than the source became available,
      and later when vnStat's clock was ahead. */
  lemma InTime(first: Snapshot, later: Snapshot, available: int)
    requires later.created == first.created
    ensures AllSeamless(later, available, BaselineMoment(first, available)) <==>
      available <= first.created || available == first.updated ||
      forall k <- ViewOf(later).lookup | CountsSince(later, available, k) ::
        if first.updated < available then k.1 >= available else k.1 > available
  {
    hide ViewOf;
  }
}
