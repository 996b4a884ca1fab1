/** internal/nettraffic/vnstat.go: vnStat's day, hour and five-minute buckets,
    and the index that adds up a time range from them. Times are whole seconds. */
module Vnstat {
  import opened Int64
  import opened Traffic

  datatype Direction = RX | TX

  datatype Bucket = Bucket(start: int, seconds: int, rx: int, tx: int) {
    function Bytes(d: Direction): int { if d == RX then rx else tx }
    function Key(): (int, int) { (seconds, start) }
  }

  datatype Snapshot = Snapshot(created: int, updated: int, rx: int, tx: int, buckets: seq<Bucket>) {
    // What Parse and the database guarantee of every snapshot handed to the index.
    ghost predicate Valid() {
      created >= 0 && forall b <- buckets :: 0 <= b.rx <= MAX && 0 <= b.tx <= MAX
    }
  }

  // The bytes of one series, daily, hourly or five-minute.
  function SeriesBytes(buckets: seq<Bucket>, seconds: int, d: Direction): int {
    if buckets == [] then 0
    else
      var b := buckets[|buckets| - 1];
      SeriesBytes(buckets[..|buckets| - 1], seconds, d) + if b.seconds == seconds then b.Bytes(d) else 0
  }

  predicate Parsable(b: Bucket, updated: int) {
    b.seconds in {86400, 3600, 300} && 0 < b.start <= updated && b.start % b.seconds == 0 && b.rx >= 0 && b.tx >= 0
  }

  // What Parse can return.
  ghost predicate Parsed(s: Snapshot) {
    && 0 < s.created <= s.updated && s.rx >= 0 && s.tx >= 0 && s.rx + s.tx <= MAX
    && (forall b <- s.buckets :: Parsable(b, s.updated))
    && (forall i, j :: 0 <= i < j < |s.buckets| ==> s.buckets[i].Key() != s.buckets[j].Key())
    && (forall w <- {86400, 3600, 300} ::
          SeriesBytes(s.buckets, w, RX) <= s.rx && SeriesBytes(s.buckets, w, TX) <= s.tx)
  }

  datatype Total = Total(rx: int, tx: int, partial: bool) {
    function Bytes(d: Direction): int { if d == RX then rx else tx }
  }

  /* ---------- the value of an index ---------- */

  // What an Index holds, as a value: the lookup table and the recorded lifetime.
  datatype View = View(created: int, updated: int, lookup: map<(int, int), Bucket>) {
    ghost predicate Valid() {
      created >= 0 && forall k <- lookup :: 0 <= lookup[k].rx <= MAX && 0 <= lookup[k].tx <= MAX
    }

    // The recorded part of the bucket position [at, at + width).
    function Left(at: int): int { Max(at, created) }
    function Right(width: int, at: int): int { Min(at + width, updated) }
  }

  /** The last bucket of each width and start wins. */
  function LookupOf(buckets: seq<Bucket>): map<(int, int), Bucket> {
    if buckets == [] then map[]
    else LookupOf(buckets[..|buckets| - 1])[buckets[|buckets| - 1].Key() := buckets[|buckets| - 1]]
  }

  lemma {:induction false} LookupOfMembers(buckets: seq<Bucket>)
    ensures forall k <- LookupOf(buckets) :: LookupOf(buckets)[k] in buckets && LookupOf(buckets)[k].Key() == k
    ensures forall b <- buckets :: b.Key() in LookupOf(buckets)
  {
    if buckets != [] { LookupOfMembers(buckets[..|buckets| - 1]); }
  }

  lemma LookupOfAppend(buckets: seq<Bucket>, b: Bucket)
    ensures LookupOf(buckets + [b]) == LookupOf(buckets)[b.Key() := b]
  {
    assert (buckets + [b])[..|buckets|] == buckets;
  }

  function ViewOf(s: Snapshot): View { View(s.created, s.updated, LookupOf(s.buckets)) }

  lemma ViewOfValid(s: Snapshot)
    requires s.Valid()
    ensures ViewOf(s).Valid()
  {
    LookupOfMembers(s.buckets);
  }

  function Width(level: nat): (w: int)
    requires level < 3
    ensures w > 0
    ensures level < 2 ==> w % Width(level + 1) == 0
    decreases 3 - level
  {
    if level == 0 then 86400 else if level == 1 then 3600 else 300
  }

  /* ---------- the pieces a range is cut into ---------- */

  // One step of the tiling: a bucket counted whole, or a stretch no bucket can fill.
  datatype Piece = Whole(left: int, right: int, bucket: Bucket) | Gap(left: int, right: int)

  /** The pieces of the part of [a, z) that lies in the grid cell at at: its own
      bucket if that is recorded and lies wholly inside, else finer pieces. */
  function Cell(v: View, at: int, a: int, z: int, level: nat): seq<Piece>
    requires level < 3
    decreases 3 - level, 0, 1
  {
    var w := Width(level);
    var left, right := Max(Max(at, a), v.created), Min(Min(at + w, z), v.updated);
    if right <= left then []
    else if (w, at) in v.lookup && left == v.Left(at) && right == v.Right(w, at)
    then [Whole(left, right, v.lookup[(w, at)])]
    else if level < 2 then Pieces(v, left, right, level + 1)
    else [Gap(left, right)]
  }

  function PiecesFrom(v: View, at: int, a: int, z: int, level: nat): seq<Piece>
    requires level < 3
    decreases 3 - level, if at < z then z - at else 0
  {
    if at >= z then [] else Cell(v, at, a, z, level) + PiecesFrom(v, at + Width(level), a, z, level)
  }

  /** The pieces of [a, z), widest buckets first. */
  function Pieces(v: View, a: int, z: int, level: nat): seq<Piece>
    requires level < 3
    decreases 4 - level, 0, 0
  {
    PiecesFrom(v, a / Width(level) * Width(level), a, z, level)
  }

  function WholeBytes(ps: seq<Piece>, d: Direction): int {
    if ps == [] then 0
    else (if ps[0].Whole? then ps[0].bucket.Bytes(d) else 0) + WholeBytes(ps[1..], d)
  }

  predicate HasGap(ps: seq<Piece>) { exists p <- ps :: p.Gap? }

  lemma {:induction false} WholeBytesAppend(ps: seq<Piece>, qs: seq<Piece>, d: Direction)
    ensures WholeBytes(ps + qs, d) == WholeBytes(ps, d) + WholeBytes(qs, d)
  {
    if ps == [] {
      assert ps + qs == qs;
    } else {
      assert (ps + qs)[1..] == ps[1..] + qs;
      WholeBytesAppend(ps[1..], qs, d);
    }
  }

  /* ---------- tiling ---------- */

  // The pieces follow one another without overlap and fill [a, z).
  ghost predicate Chain(ps: seq<Piece>, a: int, z: int) {
    if ps == [] then a == z
    else ps[0].left == a && a < ps[0].right && Chain(ps[1..], ps[0].right, z)
  }

  lemma {:induction false} ChainAppend(ps: seq<Piece>, qs: seq<Piece>, a: int, m: int, z: int)
    requires Chain(ps, a, m) && Chain(qs, m, z)
    ensures Chain(ps + qs, a, z)
  {
    if ps == [] {
      assert ps + qs == qs;
    } else {
      assert (ps + qs)[1..] == ps[1..] + qs;
      ChainAppend(ps[1..], qs, ps[0].right, m, z);
    }
  }

  // at is a multiple of the width, which is one of the three.
  predicate OnGrid(width: int, at: int) {
    (width == 86400 && at % 86400 == 0) || (width == 3600 && at % 3600 == 0) || (width == 300 && at % 300 == 0)
  }

  // A bucket of one of the three widths, on its grid, whose recorded part is
  // nonempty and lies inside [a, z).
  ghost predicate Usable(v: View, k: (int, int), a: int, z: int) {
    k in v.lookup && OnGrid(k.0, k.1) &&
    a <= v.Left(k.1) < v.Right(k.0, k.1) <= z
  }

  ghost predicate UsablePiece(v: View, p: Piece, a: int, z: int) {
    p.Whole? ==> exists k ::
      Usable(v, k, a, z) && v.lookup[k] == p.bucket && p.left == v.Left(k.1) && p.right == v.Right(k.0, k.1)
  }

  lemma {:induction false} PiecesTileFrom(v: View, at: int, a: int, z: int, level: nat)
    requires level < 3 && v.created <= a <= z <= v.updated && OnGrid(Width(level), at)
    ensures Chain(PiecesFrom(v, at, a, z, level), Min(Max(at, a), z), z)
    ensures forall p <- PiecesFrom(v, at, a, z, level) :: UsablePiece(v, p, a, z)
    decreases 3 - level, if at < z then z - at else 0
  {
    if at < z {
      var next := at + Width(level);
      GridNext(level, at);
      CellTile(v, at, a, z, level);
      PiecesTileFrom(v, next, a, z, level);
      ChainAppend(Cell(v, at, a, z, level), PiecesFrom(v, next, a, z, level),
        Min(Max(at, a), z), Min(Max(next, a), z), z);
    }
  }

  lemma GridNext(level: nat, at: int)
    requires level < 3 && OnGrid(Width(level), at)
    ensures OnGrid(Width(level), at + Width(level))
  {
    NextMultiple(at, if level == 0 then 86400 else if level == 1 then 3600 else 300);
  }

  lemma NextMultiple(at: int, w: int)
    requires w in {86400, 3600, 300} && at % w == 0
    ensures (at + w) % w == 0
  {
    if w == 86400 {
      assert (at + 86400) % 86400 == 0;
    } else if w == 3600 {
      assert (at + 3600) % 3600 == 0;
    } else {
      assert (at + 300) % 300 == 0;
    }
  }

  lemma CellTile(v: View, at: int, a: int, z: int, level: nat)
    requires level < 3 && v.created <= a <= z <= v.updated && at < z && OnGrid(Width(level), at)
    ensures Chain(Cell(v, at, a, z, level), Min(Max(at, a), z), Min(Max(at + Width(level), a), z))
    ensures forall p <- Cell(v, at, a, z, level) :: UsablePiece(v, p, a, z)
    decreases 3 - level, 0, 1
  {
    hide Pieces;
    var w := Width(level);
    var left, right := Max(Max(at, a), v.created), Min(Min(at + w, z), v.updated);
    if left < right {
      if (w, at) in v.lookup && left == v.Left(at) && right == v.Right(w, at) {
        assert Usable(v, (w, at), a, z);
      } else if level < 2 {
        PiecesTile(v, left, right, level + 1);
        forall p <- Pieces(v, left, right, level + 1) ensures UsablePiece(v, p, a, z) {
          assert UsablePiece(v, p, left, right);
          if p.Whole? {
            var k :| Usable(v, k, left, right) && v.lookup[k] == p.bucket && p.left == v.Left(k.1) &&
              p.right == v.Right(k.0, k.1);
            assert Usable(v, k, a, z);
          }
        }
      }
    }
  }

  /** The pieces of a range inside the recorded lifetime are disjoint, stay inside
      the range and fill it; each counted bucket is recorded wholly inside it. */
  lemma PiecesTile(v: View, a: int, z: int, level: nat)
    requires level < 3 && v.created <= a <= z <= v.updated
    ensures Chain(Pieces(v, a, z, level), a, z)
    ensures forall p <- Pieces(v, a, z, level) :: UsablePiece(v, p, a, z)
    decreases 4 - level, 0, 0
  {
    GridStart(a, level);
    PiecesTileFrom(v, a / Width(level) * Width(level), a, z, level);
  }

  lemma GridStart(a: int, level: nat)
    requires level < 3
    ensures a / Width(level) * Width(level) <= a < a / Width(level) * Width(level) + Width(level)
    ensures OnGrid(Width(level), a / Width(level) * Width(level))
  {
    if level == 0 { DayStart(a); } else if level == 1 { HourStart(a); } else { FiveStart(a); }
  }

  lemma DayStart(a: int)
    ensures a / 86400 * 86400 <= a < a / 86400 * 86400 + 86400 && a / 86400 * 86400 % 86400 == 0
  {
  }

  lemma HourStart(a: int)
    ensures a / 3600 * 3600 <= a < a / 3600 * 3600 + 3600 && a / 3600 * 3600 % 3600 == 0
  {
  }

  lemma FiveStart(a: int)
    ensures a / 300 * 300 <= a < a / 300 * 300 + 300 && a / 300 * 300 % 300 == 0
  {
  }

  lemma {:induction false} FindCell(v: View, at: int, a: int, z: int, level: nat, p: Piece) returns (cell: int)
    requires level < 3 && OnGrid(Width(level), at) && p in PiecesFrom(v, at, a, z, level)
    ensures OnGrid(Width(level), cell) && cell < z && p in Cell(v, cell, a, z, level)
    decreases z - at
  {
    if p in Cell(v, at, a, z, level) {
      cell := at;
    } else {
      GridNext(level, at);
      cell := FindCell(v, at + Width(level), a, z, level, p);
    }
  }

  // A bucket no wider than the level cannot cover the start of a gap.
  lemma GapUncovered(v: View, a: int, z: int, level: nat, g: Piece, k: (int, int))
    requires level < 3 && v.created <= a <= z <= v.updated
    requires g in Pieces(v, a, z, level) && g.Gap?
    requires Usable(v, k, a, z) && k.0 <= Width(level)
    ensures !(v.Left(k.1) <= g.left < v.Right(k.0, k.1))
    decreases 4 - level, 0, 0
  {
    GridStart(a, level);
    var at := FindCell(v, a / Width(level) * Width(level), a, z, level, g);
    GapUncoveredCell(v, at, a, z, level, g, k);
  }

  lemma GapUncoveredCell(v: View, at: int, a: int, z: int, level: nat, g: Piece, k: (int, int))
    requires level < 3 && v.created <= a <= z <= v.updated && OnGrid(Width(level), at) && at < z
    requires g in Cell(v, at, a, z, level) && g.Gap?
    requires Usable(v, k, a, z) && k.0 <= Width(level)
    ensures !(v.Left(k.1) <= g.left < v.Right(k.0, k.1))
    decreases 3 - level, 0, 1
  {
    hide Pieces, Chain, UsablePiece;
    var w := Width(level);
    var left, right := Max(Max(at, a), v.created), Min(Min(at + w, z), v.updated);
    if v.Left(k.1) <= g.left < v.Right(k.0, k.1) {
      CellTile(v, at, a, z, level);
      InsideChain(Cell(v, at, a, z, level), left, right, g);
      SameCell(k.1, k.0, at, w, g.left);
      if k.0 == w {
        assert false;
      } else {
        assert Usable(v, k, left, right);
        GapUncovered(v, left, right, level + 1, g, k);
      }
    }
  }

  lemma {:induction false} InsideChain(ps: seq<Piece>, a: int, z: int, p: Piece)
    requires Chain(ps, a, z) && p in ps
    ensures a <= p.left < p.right <= z
  {
    ChainOrder(ps[1..], ps[0].right, z);
    if p != ps[0] {
      InsideChain(ps[1..], ps[0].right, z, p);
    }
  }

  lemma {:induction false} ChainOrder(ps: seq<Piece>, a: int, z: int)
    requires Chain(ps, a, z)
    ensures a <= z
  {
    if ps != [] { ChainOrder(ps[1..], ps[0].right, z); }
  }

  // Grid cells of the three widths are nested.
  lemma SameCell(x: int, w: int, at: int, wider: int, t: int)
    requires OnGrid(w, x) && OnGrid(wider, at) && w <= wider
    requires x <= t < x + w && at <= t < at + wider
    ensures at <= x && x + w <= at + wider
    ensures w == wider ==> x == at
  {
    var n := if w == wider then 1 else if w == 3600 then 24 else if wider == 3600 then 12 else 288;
    var i := if w == 86400 then x / 86400 else if w == 3600 then x / 3600 else x / 300;
    var c := if wider == 86400 then at / 86400 * n else if wider == 3600 then at / 3600 * n else at / 300 * n;
    FinerCell(i, c, n, w, t);
  }

  lemma FinerCell(i: int, c: int, n: int, w: int, t: int)
    requires w > 0 && i * w <= t < i * w + w && c * w <= t < c * w + n * w
    ensures c <= i < c + n
    ensures c * w <= i * w && i * w + w <= c * w + n * w
  {
    Distributes(c, n, w);
    Distributes(i, 1, w);
    LessByFactor(i, c + n, w);
    LessByFactor(c, i + 1, w);
    MoreByFactor(c, i, w);
    MoreByFactor(i + 1, c + n, w);
  }

  lemma Distributes(a: int, b: int, w: int)
    ensures (a + b) * w == a * w + b * w
  {
  }

  lemma LessByFactor(a: int, b: int, w: int)
    requires w > 0 && a * w < b * w
    ensures a < b
  {
  }

  lemma MoreByFactor(a: int, b: int, w: int)
    requires w > 0 && a <= b
    ensures a * w <= b * w
  {
  }

  /* ---------- the sum of a range ---------- */

  // What Index.Sum answers for [start, end).
  function SumOf(v: View, start: int, end: int): Total {
    var from, to := Max(start, v.created), Min(end, v.updated);
    if end <= start then Total(0, 0, false)
    else if to <= from then Total(0, 0, start < v.created || v.updated < start)
    else
      var ps := Pieces(v, from, to, 0);
      Total(Cap(WholeBytes(ps, RX)), Cap(WholeBytes(ps, TX)), start < v.created || HasGap(ps))
  }

  // Every bucket holds exactly the bytes of its recorded part.
  ghost predicate Exact(v: View, f: Rate, d: Direction) {
    forall k <- v.lookup | OnGrid(k.0, k.1) && v.Left(k.1) < v.Right(k.0, k.1) ::
      v.lookup[k].Bytes(d) == Passed(f, v.Left(k.1), v.Right(k.0, k.1))
  }

  lemma {:induction false} ChainBytes(v: View, ps: seq<Piece>, a: int, z: int, f: Rate, d: Direction, lo: int, hi: int)
    requires Chain(ps, a, z) && Exact(v, f, d)
    requires forall p <- ps :: UsablePiece(v, p, lo, hi)
    ensures 0 <= WholeBytes(ps, d) <= Passed(f, a, z)
    ensures !HasGap(ps) ==> WholeBytes(ps, d) == Passed(f, a, z)
  {
    if ps != [] {
      ChainOrder(ps[1..], ps[0].right, z);
      PassedSplit(f, a, ps[0].right, z);
      assert UsablePiece(v, ps[0], lo, hi);
      ChainBytes(v, ps[1..], ps[0].right, z, f, d, lo, hi);
    }
  }

  /** With exact buckets a sum never counts a byte from outside the range, and
      never one twice; a sum not flagged partial counts every recorded byte. */
  lemma SumExact(v: View, f: Rate, d: Direction, start: int, end: int)
    requires Exact(v, f, d)
    ensures 0 <= SumOf(v, start, end).Bytes(d) <= Passed(f, Max(start, v.created), Min(end, v.updated))
    ensures !SumOf(v, start, end).partial ==>
      SumOf(v, start, end).Bytes(d) == Cap(Passed(f, start, Min(end, v.updated)))
  {
    var from, to := Max(start, v.created), Min(end, v.updated);
    if start < end && from < to {
      PiecesTile(v, from, to, 0);
      ChainBytes(v, Pieces(v, from, to, 0), from, to, f, d, from, to);
    }
  }

  ghost predicate Covered(v: View, t: int, a: int, z: int) {
    exists k :: Usable(v, k, a, z) && v.Left(k.1) <= t < v.Right(k.0, k.1)
  }

  lemma {:induction false} NoGapCovers(v: View, ps: seq<Piece>, a: int, z: int, t: int, lo: int, hi: int)
    requires Chain(ps, a, z) && !HasGap(ps) && a <= t < z
    requires forall p <- ps :: UsablePiece(v, p, lo, hi)
    ensures Covered(v, t, lo, hi)
  {
    assert UsablePiece(v, ps[0], lo, hi) && ps[0] in ps;
    if ps[0].right <= t {
      NoGapCovers(v, ps[1..], ps[0].right, z, t, lo, hi);
    }
  }

  /** The coarse-to-fine search is complete: a range is flagged partial exactly
      when it starts outside the recorded lifetime or has a second that lies in
      no bucket recorded wholly inside the range. */
  lemma PartialIff(v: View, start: int, end: int)
    requires start < end
    ensures SumOf(v, start, end).partial <==>
      start < v.created || v.updated < start ||
      exists t :: Max(start, v.created) <= t < Min(end, v.updated) &&
        !Covered(v, t, Max(start, v.created), Min(end, v.updated))
  {
    var from, to := Max(start, v.created), Min(end, v.updated);
    if from < to {
      var ps := Pieces(v, from, to, 0);
      PiecesTile(v, from, to, 0);
      if HasGap(ps) {
        var g :| g in ps && g.Gap?;
        InsideChain(ps, from, to, g);
        forall k | Usable(v, k, from, to) ensures !(v.Left(k.1) <= g.left < v.Right(k.0, k.1)) {
          GapUncovered(v, from, to, 0, g, k);
        }
        assert !Covered(v, g.left, from, to);
      } else {
        forall t | from <= t < to ensures Covered(v, t, from, to) {
          NoGapCovers(v, ps, from, to, t, from, to);
        }
      }
    }
  }

  /** Two complete adjacent ranges are complete together and add up. */
  lemma AdjacentRanges(v: View, f: Rate, d: Direction, a: int, b: int, c: int)
    requires a < b < c && Exact(v, f, d)
    requires !SumOf(v, a, b).partial && !SumOf(v, b, c).partial
    ensures !SumOf(v, a, c).partial
    ensures SumOf(v, a, c).Bytes(d) == AddSaturating(SumOf(v, a, b).Bytes(d), SumOf(v, b, c).Bytes(d))
  {
    PartialIff(v, a, b);
    PartialIff(v, b, c);
    var to := Min(c, v.updated);
    forall t | a <= t < to ensures Covered(v, t, a, to) {
      var lo, hi := if t < b then a else b, if t < b then b else to;
      assert Covered(v, t, lo, hi);
      var k :| Usable(v, k, lo, hi) && v.Left(k.1) <= t < v.Right(k.0, k.1);
      assert Usable(v, k, a, to);
    }
    PartialIff(v, a, c);
    SumExact(v, f, d, a, b);
    SumExact(v, f, d, b, c);
    SumExact(v, f, d, a, c);
    PassedSplit(f, a, b, to);
    CappedSums(Passed(f, a, b), Passed(f, b, to));
  }

  // g passes one byte more than f, in the second m.
  lemma {:induction false} PassedMore(f: Rate, g: Rate, a: int, z: int, m: int)
    requires a <= m && g(m) == f(m) + 1 && forall t :: t != m ==> g(t) == f(t)
    ensures Passed(g, a, z) == Passed(f, a, z) + if m < z then 1 else 0
    decreases z - a
  {
    if a < z { PassedMore(f, g, a, z - 1, m); }
  }

  lemma ExactUpToUpdate(v: View, f: Rate, g: Rate, d: Direction)
    requires Exact(v, f, d) && forall t :: t < v.updated ==> g(t) == f(t)
    ensures Exact(v, g, d)
  {
    forall k <- v.lookup | OnGrid(k.0, k.1) && v.Left(k.1) < v.Right(k.0, k.1)
      ensures v.lookup[k].Bytes(d) == Passed(g, v.Left(k.1), v.Right(k.0, k.1))
    {
      PassedAgree(f, g, v.Left(k.1), v.Right(k.0, k.1));
    }
  }

  /** When an unflagged sum is the true traffic of the whole range, whatever traffic
      the buckets are exact for: if and only if the range ends by vnStat's last
      update. The flag alone does not say so. */
  lemma UnflaggedIffUpdated(v: View, f: Rate, d: Direction, start: int, end: int)
    requires Exact(v, f, d) && start < end
    requires !SumOf(v, start, end).partial && SumOf(v, start, end).Bytes(d) < MAX
    ensures (forall g: Rate :: Exact(v, g, d) ==> SumOf(v, start, end).Bytes(d) == Cap(Passed(g, start, end))) <==>
      end <= v.updated
  {
    if end <= v.updated {
      forall g: Rate | Exact(v, g, d) ensures SumOf(v, start, end).Bytes(d) == Cap(Passed(g, start, end)) {
        SumExact(v, g, d, start, end);
      }
    } else {
      var m := Max(start, v.updated);
      var g: Rate := t => if t == m then f(t) + 1 else f(t);
      ExactUpToUpdate(v, f, g, d);
      PassedMore(f, g, start, end, m);
      assert Exact(v, f, d) && Exact(v, g, d);
    }
  }

  /** Bytes passed after the last update are missing from a sum that is not
      partial, for a snapshot as vnStat gives it. */
  lemma UnflaggedAfterUpdate() returns (s: Snapshot, f: Rate, start: int, end: int)
    ensures Parsed(s) && Exact(ViewOf(s), f, RX) && start < end
    ensures !SumOf(ViewOf(s), start, end).partial && SumOf(ViewOf(s), start, end).rx < Passed(f, start, end)
  {
    var b := Bucket(300, 300, 0, 0);
    s := Snapshot(300, 600, 0, 0, [b]);
    f := t => if t < 600 then 0 else 1;
    start, end := 300, 601;
    PassedZero(f, 300, 600);
    LookupOfAppend([], b);
    assert [] + [b] == [b] && [b][..0] == [];
    var v := ViewOf(s);
    assert v.lookup == map[(300, 300) := b];
    forall w, e: Direction ensures SeriesBytes([b], w, e) == 0 { assert SeriesBytes([], w, e) == 0; }
    forall t | 300 <= t < 600 ensures Covered(v, t, 300, 600) {
      assert Usable(v, (300, 300), 300, 600);
    }
    PartialIff(v, start, end);
    SumExact(v, f, RX, start, end);
  }

  /* ---------- coverage ---------- */

  // The recorded parts of the snapshot's buckets that are not empty.
  function Extents(s: Snapshot, n: nat): seq<(int, int)>
    requires n <= |s.buckets|
  {
    if n == 0 then []
    else
      var b := s.buckets[n - 1];
      var left, right := Max(b.start, s.created), Min(b.start + b.seconds, s.updated);
      Extents(s, n - 1) + if right > left then [(left, right)] else []
  }

  // A recorded part lies inside [start, end).
  ghost predicate HasExtent(xs: seq<(int, int)>, start: int, end: int) {
    exists e <- xs :: start <= e.0 && e.1 <= end
  }

  predicate Sorted(xs: seq<(int, int)>) { forall i, j :: 0 <= i < j < |xs| ==> xs[i].0 <= xs[j].0 }

  /** Coverage depends on which parts are recorded, not on their order. */
  lemma SameExtents(xs: seq<(int, int)>, ys: seq<(int, int)>, start: int, end: int)
    requires multiset(xs) == multiset(ys)
    ensures HasExtent(xs, start, end) == HasExtent(ys, start, end)
  {
    forall e ensures e in xs <==> e in ys {
      assert e in xs <==> e in multiset(xs);
      assert e in ys <==> e in multiset(ys);
    }
  }

  lemma {:induction false} ExtentsAt(s: Snapshot, n: nat, e: (int, int))
    requires n <= |s.buckets|
    ensures e in Extents(s, n) <==> exists i ::
      0 <= i < n && e.0 == Max(s.buckets[i].start, s.created) &&
      e.1 == Min(s.buckets[i].start + s.buckets[i].seconds, s.updated) && e.1 > e.0
  {
    if n > 0 { ExtentsAt(s, n - 1, e); }
  }

  lemma ExtentsProper(s: Snapshot, xs: seq<(int, int)>)
    requires multiset(xs) == multiset(Extents(s, |s.buckets|))
    ensures forall i :: 0 <= i < |xs| ==> xs[i].0 < xs[i].1
  {
    forall i | 0 <= i < |xs| ensures xs[i].0 < xs[i].1 {
      assert xs[i] in multiset(xs);
      ExtentsAt(s, |s.buckets|, xs[i]);
    }
  }

  lemma NoneInRange(xs: seq<(int, int)>, lo: nat, at: nat, start: int, end: int)
    requires lo <= at <= |xs| && Sorted(xs) && (at < |xs| ==> xs[at].0 >= end)
    requires forall i :: 0 <= i < |xs| ==> xs[i].0 < xs[i].1
    requires forall i :: 0 <= i < lo ==> xs[i].0 < start
    requires forall i :: lo <= i < at ==> xs[i].1 > end
    ensures !HasExtent(xs, start, end)
  {
    forall i | 0 <= i < |xs| ensures !(start <= xs[i].0 && xs[i].1 <= end) {
      if at <= i { assert xs[at].0 <= xs[i].0; }
    }
  }

  // Where x belongs among sorted parts: after those not beyond it.
  method Place(r: seq<(int, int)>, x: (int, int)) returns (at: nat)
    requires Sorted(r)
    ensures at <= |r| && (at > 0 ==> r[at - 1].0 <= x.0)
    ensures forall i :: at <= i < |r| ==> x.0 <= r[i].0
  {
    at := |r|;
    while at > 0 && r[at - 1].0 > x.0
      invariant at <= |r| && forall i :: at <= i < |r| ==> x.0 <= r[i].0
    {
      at := at - 1;
    }
  }

  method Insert(r: seq<(int, int)>, x: (int, int)) returns (z: seq<(int, int)>)
    requires Sorted(r)
    ensures Sorted(z) && multiset(z) == multiset(r) + multiset{x}
  {
    var at := Place(r, x);
    Inserted(r, at, x);
    z := r[..at] + [x] + r[at..];
  }

  lemma TakenMore(xs: seq<(int, int)>, n: nat)
    requires n < |xs|
    ensures multiset(xs[..n + 1]) == multiset(xs[..n]) + multiset{xs[n]}
  {
    assert xs[..n + 1] == xs[..n] + [xs[n]];
  }

  /** sort.Slice by left edge. */
  method SortByLeft(xs: seq<(int, int)>) returns (r: seq<(int, int)>)
    ensures Sorted(r) && multiset(r) == multiset(xs)
  {
    r := [];
    for n := 0 to |xs|
      invariant Sorted(r) && multiset(r) == multiset(xs[..n])
    {
      TakenMore(xs, n);
      r := Insert(r, xs[n]);
    }
    assert xs[..|xs|] == xs;
  }

  lemma Inserted(r: seq<(int, int)>, at: nat, x: (int, int))
    requires at <= |r| && Sorted(r) && (at > 0 ==> r[at - 1].0 <= x.0)
    requires forall i :: at <= i < |r| ==> x.0 <= r[i].0
    ensures Sorted(r[..at] + [x] + r[at..])
    ensures multiset(r[..at] + [x] + r[at..]) == multiset(r) + multiset{x}
  {
    InsertedMembers(r, at, x);
    forall i | 0 <= i < at ensures r[i].0 <= x.0 {
      if i < at - 1 { assert r[i].0 <= r[at - 1].0; }
    }
    SortedInsertion(r, at, x);
  }

  lemma InsertedMembers(r: seq<(int, int)>, at: nat, x: (int, int))
    requires at <= |r|
    ensures multiset(r[..at] + [x] + r[at..]) == multiset(r) + multiset{x}
  {
    assert r == r[..at] + r[at..];
  }

  lemma SortedInsertion(r: seq<(int, int)>, at: nat, x: (int, int))
    requires at <= |r| && Sorted(r)
    requires forall i :: 0 <= i < at ==> r[i].0 <= x.0
    requires forall i :: at <= i < |r| ==> x.0 <= r[i].0
    ensures Sorted(r[..at] + [x] + r[at..])
  {
  }

  /** The linear scan. */
  method HasCoverage(s: Snapshot, start: int, end: int) returns (found: bool)
    ensures found == HasExtent(Extents(s, |s.buckets|), start, end)
  {
    for n := 0 to |s.buckets|
      invariant !HasExtent(Extents(s, n), start, end)
    {
      var b := s.buckets[n];
      var left, right := Max(b.start, s.created), Min(b.start + b.seconds, s.updated);
      if right > left && left >= start && right <= end {
        ExtentsAt(s, |s.buckets|, (left, right));
        return true;
      }
    }
    return false;
  }

  /* ---------- the index ---------- */

  class Index {
    var created: int
    var updated: int
    var lookup: map<(int, int), Bucket>
    var coverage: seq<(int, int)>

    function Value(): View
      reads this
    {
      View(created, updated, lookup)
    }

    // The index was built from this snapshot.
    ghost predicate For(s: Snapshot)
      reads this
    {
      s.Valid() && Value() == ViewOf(s) &&
      Sorted(coverage) && multiset(coverage) == multiset(Extents(s, |s.buckets|))
    }

    constructor (s: Snapshot)
      requires s.Valid()
      ensures For(s)
    {
      created, updated, lookup, coverage := s.created, s.updated, map[], [];
      new;
      var found: seq<(int, int)> := [];
      for n := 0 to |s.buckets|
        invariant created == s.created && updated == s.updated
        invariant lookup == LookupOf(s.buckets[..n]) && found == Extents(s, n)
      {
        var b := s.buckets[n];
        assert s.buckets[..n + 1] == s.buckets[..n] + [b];
        LookupOfAppend(s.buckets[..n], b);
        lookup := lookup[(b.seconds, b.start) := b];
        var left, right := Max(b.start, s.created), Min(b.start + b.seconds, s.updated);
        if right > left {
          found := found + [(left, right)];
        }
      }
      assert s.buckets[..|s.buckets|] == s.buckets;
      coverage := SortByLeft(found);
    }

    // The first part that starts at start or later.
    method FirstFrom(start: int) returns (lo: nat)
      requires Sorted(coverage)
      ensures lo <= |coverage|
      ensures forall i :: 0 <= i < lo ==> coverage[i].0 < start
      ensures forall i :: lo <= i < |coverage| ==> coverage[i].0 >= start
    {
      lo := 0;
      var hi := |coverage|;
      while lo < hi
        invariant 0 <= lo <= hi <= |coverage|
        invariant forall i :: 0 <= i < lo ==> coverage[i].0 < start
        invariant forall i :: hi <= i < |coverage| ==> coverage[i].0 >= start
      {
        var mid := (lo + hi) / 2;
        if coverage[mid].0 >= start { hi := mid; } else { lo := mid + 1; }
      }
    }

    /** Binary search for the first part that starts in the range, then a scan:
        the same answer as the linear scan of the snapshot. */
    method HasCoverage(ghost s: Snapshot, start: int, end: int) returns (found: bool)
      requires For(s)
      ensures found == HasExtent(Extents(s, |s.buckets|), start, end)
    {
      SameExtents(coverage, Extents(s, |s.buckets|), start, end);
      ExtentsProper(s, coverage);
      var lo := FirstFrom(start);
      var at := lo;
      while at < |coverage| && coverage[at].0 < end
        invariant lo <= at <= |coverage|
        invariant forall i :: lo <= i < at ==> coverage[i].1 > end
      {
        if coverage[at].1 <= end { return true; }
        at := at + 1;
      }
      NoneInRange(coverage, lo, at, start, end);
      return false;
    }

    // One turn of the loop: the bucket of the cell at at, or the finer levels.
    method SumCell(at: int, a: int, z: int, level: nat) returns (r: int, t: int, p: bool)
      requires level < 3 && at < z && Value().Valid()
      ensures Summed(Cell(Value(), at, a, z, level), r, t, p)
      decreases 3 - level, 0
    {
      var width := Width(level);
      r, t, p := 0, 0, false;
      var left, right := Max(Max(at, a), created), Min(Min(at + width, z), updated);
      if right > left {
        if (width, at) in lookup && left == Max(at, created) && right == Min(at + width, updated) {
          var b := lookup[(width, at)];
          OnePiece(Whole(left, right, b));
          r, t := b.rx, b.tx;
        } else if level < 2 {
          r, t, p := SumLevel(left, right, level + 1);
        } else {
          OnePiece(Gap(left, right));
          p := true;
        }
      }
    }

    /** One level of the recursive sum over [a, z). */
    method SumLevel(a: int, z: int, level: nat) returns (r: int, t: int, p: bool)
      requires level < 3 && Value().Valid()
      ensures r == Cap(WholeBytes(Pieces(Value(), a, z, level), RX))
      ensures t == Cap(WholeBytes(Pieces(Value(), a, z, level), TX))
      ensures p == HasGap(Pieces(Value(), a, z, level))
      decreases 3 - level, 1
    {
      ghost var v := Value();
      r, t, p := 0, 0, false;
      ghost var done: seq<Piece> := [];
      var at := a / Width(level) * Width(level);
      while at < z
        invariant v == Value() && NonNegative(done) && Summed(done, r, t, p)
        invariant done + PiecesFrom(v, at, a, z, level) == Pieces(v, a, z, level)
      {
        var rr, tt, pp := SumCell(at, a, z, level);
        CellStep(v, at, a, z, level, done);
        CellSummed(v, at, a, z, level, done, r, t, p, rr, tt, pp);
        r, t, p := Saturate(r, rr), Saturate(t, tt), p || pp;
        done := done + Cell(v, at, a, z, level);
        at := at + Width(level);
      }
      assert done == Pieces(v, a, z, level);
    }

    method Sum(start: int, end: int) returns (rx: int, tx: int, partial: bool)
      requires Value().Valid()
      ensures Total(rx, tx, partial) == SumOf(Value(), start, end)
    {
      if end <= start { return 0, 0, false; }
      var from, to := start, end;
      partial := false;
      if start < created { from := created; partial := true; }
      if end > updated { to := updated; }
      if to <= from { return 0, 0, partial || start < created || updated < start; }
      var r, t, p := SumLevel(from, to, 0);
      return r, t, partial || p;
    }
  }

  ghost predicate NonNegative(ps: seq<Piece>) {
    forall p <- ps :: p.Whole? ==> 0 <= p.bucket.rx <= MAX && 0 <= p.bucket.tx <= MAX
  }

  lemma OnePiece(p: Piece)
    ensures forall d :: WholeBytes([p], d) == if p.Whole? then p.bucket.Bytes(d) else 0
    ensures HasGap([p]) == p.Gap?
  {
    assert p in [p];
  }

  // The capped totals and the flag of some pieces.
  ghost predicate Summed(ps: seq<Piece>, r: int, t: int, p: bool) {
    r == Cap(WholeBytes(ps, RX)) && t == Cap(WholeBytes(ps, TX)) && p == HasGap(ps)
  }

  lemma CellStep(v: View, at: int, a: int, z: int, level: nat, done: seq<Piece>)
    requires level < 3 && at < z && v.Valid() && NonNegative(done)
    ensures var cell := Cell(v, at, a, z, level);
      && done + PiecesFrom(v, at, a, z, level) == done + cell + PiecesFrom(v, at + Width(level), a, z, level)
      && NonNegative(done + cell)
  {
    NonNegativeCell(v, at, a, z, level);
  }

  // Taking the next cell into a running capped total.
  lemma CellSummed(v: View, at: int, a: int, z: int, level: nat, done: seq<Piece>,
                   r: int, t: int, p: bool, rr: int, tt: int, pp: bool)
    requires level < 3 && v.Valid() && NonNegative(done) && Summed(done, r, t, p)
    requires Summed(Cell(v, at, a, z, level), rr, tt, pp)
    ensures Summed(done + Cell(v, at, a, z, level), Saturate(r, rr), Saturate(t, tt), p || pp)
  {
    var cell := Cell(v, at, a, z, level);
    NonNegativeCell(v, at, a, z, level);
    AppendBytes(done, cell, RX);
    AppendBytes(done, cell, TX);
    AppendGap(done, cell);
  }

  lemma AppendGap(ps: seq<Piece>, qs: seq<Piece>)
    ensures HasGap(ps + qs) == (HasGap(ps) || HasGap(qs))
  {
    forall g | g in ps || g in qs ensures g in ps + qs {}
  }

  lemma AppendBytes(ps: seq<Piece>, qs: seq<Piece>, d: Direction)
    requires NonNegative(ps) && NonNegative(qs)
    ensures Saturate(Cap(WholeBytes(ps, d)), Cap(WholeBytes(qs, d))) == Cap(WholeBytes(ps + qs, d))
  {
    WholeBytesAppend(ps, qs, d);
    WholeBytesSign(ps, d);
    WholeBytesSign(qs, d);
    CappedSums(WholeBytes(ps, d), WholeBytes(qs, d));
  }

  lemma {:induction false} WholeBytesSign(ps: seq<Piece>, d: Direction)
    requires NonNegative(ps)
    ensures WholeBytes(ps, d) >= 0
  {
    if ps != [] { WholeBytesSign(ps[1..], d); }
  }

  lemma {:induction false} NonNegativeFrom(v: View, at: int, a: int, z: int, level: nat)
    requires level < 3 && v.Valid()
    ensures NonNegative(PiecesFrom(v, at, a, z, level))
    decreases 3 - level, if at < z then z - at else 0
  {
    if at < z {
      NonNegativeCell(v, at, a, z, level);
      NonNegativeFrom(v, at + Width(level), a, z, level);
    }
  }

  lemma NonNegativeCell(v: View, at: int, a: int, z: int, level: nat)
    requires level < 3 && v.Valid()
    ensures NonNegative(Cell(v, at, a, z, level))
    decreases 3 - level, 0, 1
  {
    var left, right := Max(Max(at, a), v.created), Min(Min(at + Width(level), z), v.updated);
    if level < 2 {
      NonNegativeFrom(v, left / Width(level + 1) * Width(level + 1), left, right, level + 1);
    }
  }
}
