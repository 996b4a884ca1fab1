/** internal/traffic/apps.go, recordConnections: the core's bytes split over the
    applications its open connections belong to. */
module Apps {
  import opened Int64
  import H = History

  datatype Field = Up | Down

  datatype Usage = Usage(upload: int, download: int) {
    function Plus(u: Usage): Usage { Usage(upload + u.upload, download + u.download) }
    function Get(f: Field): int { if f == Up then upload else download }
    predicate Zero() { upload == 0 && download == 0 }
  }

  datatype Key = Key(day: int, hour: int, app: string, domain: string)

  datatype Connection = Connection(id: string, upload: int, download: int, meta: string) {
    // The list may hold entries that cannot be counted.
    predicate Skipped() { id == "" || upload < 0 || download < 0 }
  }

  // The metadata decides the application and the domain.
  type Classifier = string -> (string, string)

  // The connections of the last reading.
  type Seen = map<string, Usage>

  const UNATTRIBUTED := "unattributed"

  /* ---------- one sample ---------- */

  // What a connection has moved since it was last seen. One whose counters went
  // back is counted in full.
  function Growth(seen: Seen, c: Connection): Usage {
    if c.Skipped() then Usage(0, 0)
    else if c.id in seen && c.upload >= seen[c.id].upload && c.download >= seen[c.id].download
    then Usage(c.upload - seen[c.id].upload, c.download - seen[c.id].download)
    else Usage(c.upload, c.download)
  }

  function Attributed(seen: Seen, conns: seq<Connection>, f: Field): int {
    if conns == [] then 0 else Attributed(seen, conns[..|conns| - 1], f) + Growth(seen, conns[|conns| - 1]).Get(f)
  }

  function AttributedUsage(seen: Seen, conns: seq<Connection>): Usage {
    Usage(Attributed(seen, conns, Up), Attributed(seen, conns, Down))
  }

  function SeenOf(conns: seq<Connection>): Seen {
    if conns == [] then map[]
    else
      var n := |conns| - 1;
      if conns[n].Skipped() then SeenOf(conns[..n])
      else SeenOf(conns[..n])[conns[n].id := Usage(conns[n].upload, conns[n].download)]
  }

  datatype Entry = Entry(key: Key, usage: Usage)

  datatype Place = Place(day: int, hour: int, classify: Classifier)

  function EntryOf(at: Place, seen: Seen, c: Connection): Entry {
    var (app, domain) := at.classify(c.meta);
    Entry(Key(at.day, at.hour, app, domain), Growth(seen, c))
  }

  function ConnectionEntries(at: Place, seen: Seen, conns: seq<Connection>): seq<Entry> {
    if conns == [] then []
    else
      var n := |conns| - 1;
      var rest := ConnectionEntries(at, seen, conns[..n]);
      if Growth(seen, conns[n]).Zero() then rest else rest + [EntryOf(at, seen, conns[n])]
  }

  // The bytes the connections do not account for.
  function Rest(delta: Usage, attributed: Usage): Usage {
    Usage(Max(0, delta.upload - attributed.upload), Max(0, delta.download - attributed.download))
  }

  function SampleEntries(at: Place, seen: Seen, conns: seq<Connection>, seedOnly: bool, delta: Usage): seq<Entry> {
    var listed := if seedOnly then [] else ConnectionEntries(at, seen, conns);
    var rest := Rest(delta, if seedOnly then Usage(0, 0) else AttributedUsage(seen, conns));
    if rest.Zero() then listed else listed + [Entry(Key(at.day, at.hour, UNATTRIBUTED, UNATTRIBUTED), rest)]
  }

  function Bytes(es: seq<Entry>, f: Field): int {
    if es == [] then 0 else Bytes(es[..|es| - 1], f) + es[|es| - 1].usage.Get(f)
  }

  lemma BytesAppend(es: seq<Entry>, e: Entry, f: Field)
    ensures Bytes(es + [e], f) == Bytes(es, f) + e.usage.Get(f)
  {
    assert (es + [e])[..|es|] == es;
  }

  lemma {:induction false} ConnectionBytes(at: Place, seen: Seen, conns: seq<Connection>, f: Field)
    ensures Bytes(ConnectionEntries(at, seen, conns), f) == Attributed(seen, conns, f)
  {
    if conns != [] {
      var n := |conns| - 1;
      ConnectionBytes(at, seen, conns[..n], f);
      BytesAppend(ConnectionEntries(at, seen, conns[..n]), EntryOf(at, seen, conns[n]), f);
    }
  }

  /** In each direction the sample adds the core's delta or what the connections
      moved, whichever is more. */
  lemma SampleBytes(at: Place, seen: Seen, conns: seq<Connection>, seedOnly: bool, delta: Usage, f: Field)
    ensures Bytes(SampleEntries(at, seen, conns, seedOnly, delta), f) ==
      Max(delta.Get(f), if seedOnly then 0 else Attributed(seen, conns, f))
  {
    ConnectionBytes(at, seen, conns, f);
    var listed := if seedOnly then [] else ConnectionEntries(at, seen, conns);
    var rest := Rest(delta, if seedOnly then Usage(0, 0) else AttributedUsage(seen, conns));
    BytesAppend(listed, Entry(Key(at.day, at.hour, UNATTRIBUTED, UNATTRIBUTED), rest), f);
  }

  /* ---------- the rows ---------- */

  type Rows = map<Key, Usage>

  function Row(m: Rows, k: Key): Usage { if k in m then m[k] else Usage(0, 0) }

  function Add(m: Rows, e: Entry): Rows { m[e.key := Row(m, e.key).Plus(e.usage)] }

  function AddAll(m: Rows, es: seq<Entry>): Rows {
    if es == [] then m else Add(AddAll(m, es[..|es| - 1]), es[|es| - 1])
  }

  lemma AddAllAppend(m: Rows, es: seq<Entry>, e: Entry)
    ensures AddAll(m, es + [e]) == Add(AddAll(m, es), e)
  {
    assert (es + [e])[..|es|] == es;
  }

  // The rows of some keys together.
  function Sum(m: Rows, keys: seq<Key>, f: Field): int {
    if keys == [] then 0 else Sum(m, keys[..|keys| - 1], f) + Row(m, keys[|keys| - 1]).Get(f)
  }

  ghost predicate DistinctKeys(keys: seq<Key>) { forall i, j :: 0 <= i < j < |keys| ==> keys[i] != keys[j] }

  lemma RowAdd(m: Rows, e: Entry, k: Key, f: Field)
    ensures Row(Add(m, e), k).Get(f) == Row(m, k).Get(f) + if e.key == k then e.usage.Get(f) else 0
  {
  }

  lemma {:induction false} SumAdd(m: Rows, e: Entry, keys: seq<Key>, f: Field)
    requires DistinctKeys(keys)
    ensures Sum(Add(m, e), keys, f) == Sum(m, keys, f) + if e.key in keys then e.usage.Get(f) else 0
  {
    if keys != [] {
      var n := |keys| - 1;
      SumAdd(m, e, keys[..n], f);
      RowAdd(m, e, keys[n], f);
      assert e.key in keys <==> e.key in keys[..n] || e.key == keys[n];
    }
  }

  /** The application rows together grow by what is booked. */
  lemma {:induction false} RowsGrow(m: Rows, es: seq<Entry>, keys: seq<Key>, f: Field)
    requires DistinctKeys(keys) && forall e <- es :: e.key in keys
    ensures Sum(AddAll(m, es), keys, f) == Sum(m, keys, f) + Bytes(es, f)
  {
    if es != [] {
      var n := |es| - 1;
      RowsGrow(m, es[..n], keys, f);
      SumAdd(AddAll(m, es[..n]), es[n], keys, f);
    }
  }

  /* ---------- the recorder ---------- */

  // What the first n connections of a list come to.
  ghost predicate Taken(at: Place, seen: Seen, conns: seq<Connection>, n: nat, seedOnly: bool,
                         nextConns: Seen, attributed: Usage, es: seq<Entry>)
    requires n <= |conns|
  {
    nextConns == SeenOf(conns[..n]) &&
    attributed == (if seedOnly then Usage(0, 0) else AttributedUsage(seen, conns[..n])) &&
    es == if seedOnly then [] else ConnectionEntries(at, seen, conns[..n])
  }

  lemma AllListed(at: Place, seen: Seen, conns: seq<Connection>, seedOnly: bool,
                  nextConns: Seen, attributed: Usage, es: seq<Entry>)
    requires Taken(at, seen, conns, |conns|, seedOnly, nextConns, attributed, es)
    ensures nextConns == SeenOf(conns)
    ensures attributed == if seedOnly then Usage(0, 0) else AttributedUsage(seen, conns)
    ensures es == if seedOnly then [] else ConnectionEntries(at, seen, conns)
  {
    assert conns[..|conns|] == conns;
  }

  class Recorder {
    var activeConns: Seen
    var connsSeeded: bool
    var pendingAppHistory: Rows

    constructor ()
      ensures activeConns == map[] && !connsSeeded && pendingAppHistory == map[]
    {
      activeConns, connsSeeded, pendingAppHistory := map[], false, map[];
    }

    method RecordConnections(at: Place, conns: seq<Connection>, restarted: bool, hadBaseline: bool, delta: Usage)
      modifies this
      ensures connsSeeded && activeConns == SeenOf(conns)
      ensures pendingAppHistory == AddAll(old(pendingAppHistory),
        SampleEntries(at, if restarted then map[] else old(activeConns), conns,
          !old(connsSeeded) && hadBaseline && !restarted, delta))
    {
      if restarted { activeConns := map[]; }
      var seedOnly := !connsSeeded && hadBaseline && !restarted;
      connsSeeded := true;
      ghost var seen, first := activeConns, pendingAppHistory;
      var nextConns, attributed, es := RecordListed(at, conns, seedOnly);
      activeConns := nextConns;
      RecordRest(at, Rest(delta, attributed), first, es);
    }

    // The loop over the listed connections.
    method RecordListed(at: Place, conns: seq<Connection>, seedOnly: bool)
      returns (nextConns: Seen, attributed: Usage, ghost es: seq<Entry>)
      modifies this`pendingAppHistory
      ensures nextConns == SeenOf(conns)
      ensures attributed == if seedOnly then Usage(0, 0) else AttributedUsage(activeConns, conns)
      ensures es == if seedOnly then [] else ConnectionEntries(at, activeConns, conns)
      ensures pendingAppHistory == AddAll(old(pendingAppHistory), es)
    {
      hide SeenOf, AttributedUsage, ConnectionEntries, AddAll, Taken;
      ghost var first := pendingAppHistory;
      nextConns, attributed, es := NoneListed(at, conns, seedOnly, first);
      for n := 0 to |conns|
        invariant Taken(at, activeConns, conns, n, seedOnly, nextConns, attributed, es)
        invariant pendingAppHistory == AddAll(first, es)
      {
        nextConns, attributed, es := RecordNext(at, conns, n, seedOnly, nextConns, attributed, first, es);
      }
      AllListed(at, activeConns, conns, seedOnly, nextConns, attributed, es);
    }

    method NoneListed(at: Place, conns: seq<Connection>, seedOnly: bool, ghost first: Rows)
      returns (nextConns: Seen, attributed: Usage, ghost es: seq<Entry>)
      ensures Taken(at, activeConns, conns, 0, seedOnly, nextConns, attributed, es) && first == AddAll(first, es)
    {
      nextConns, attributed, es := map[], Usage(0, 0), [];
    }

    // One listed connection.
    method RecordNext(at: Place, conns: seq<Connection>, n: nat, seedOnly: bool, nextConns: Seen, attributed: Usage,
                      ghost first: Rows, ghost es: seq<Entry>)
      returns (next: Seen, sum: Usage, ghost more: seq<Entry>)
      requires n < |conns| && Taken(at, activeConns, conns, n, seedOnly, nextConns, attributed, es)
      requires pendingAppHistory == AddAll(first, es)
      modifies this`pendingAppHistory
      ensures Taken(at, activeConns, conns, n + 1, seedOnly, next, sum, more) &&
        pendingAppHistory == AddAll(first, more)
    {
      hide SeenOf, AttributedUsage, ConnectionEntries, AddAll;
      PrefixStep(at, activeConns, conns, n);
      next, sum, more := nextConns, attributed, es;
      var c := conns[n];
      if !c.Skipped() {
        next := nextConns[c.id := Usage(c.upload, c.download)];
        if !seedOnly {
          var grown;
          grown, more := RecordOne(at, c, first, es);
          sum := attributed.Plus(grown);
        }
      }
    }

    // What no listed connection accounts for.
    method RecordRest(at: Place, rest: Usage, ghost first: Rows, ghost es: seq<Entry>)
      requires pendingAppHistory == AddAll(first, es)
      modifies this`pendingAppHistory
      ensures pendingAppHistory == AddAll(first,
        if rest.Zero() then es else es + [Entry(Key(at.day, at.hour, UNATTRIBUTED, UNATTRIBUTED), rest)])
    {
      if !rest.Zero() {
        var key := Key(at.day, at.hour, UNATTRIBUTED, UNATTRIBUTED);
        AddAllAppend(first, es, Entry(key, rest));
        pendingAppHistory := pendingAppHistory[key := Row(pendingAppHistory, key).Plus(rest)];
      }
    }

    method GrownSince(c: Connection) returns (grown: Usage)
      requires !c.Skipped()
      ensures grown == Growth(activeConns, c)
    {
      grown := Usage(c.upload, c.download);
      if c.id in activeConns {
        var prev := activeConns[c.id];
        if c.upload >= prev.upload && c.download >= prev.download {
          grown := Usage(c.upload - prev.upload, c.download - prev.download);
        }
      }
    }

    method RecordOne(at: Place, c: Connection, ghost first: Rows, ghost es: seq<Entry>)
      returns (grown: Usage, ghost more: seq<Entry>)
      requires !c.Skipped() && pendingAppHistory == AddAll(first, es)
      modifies this`pendingAppHistory
      ensures grown == Growth(activeConns, c)
      ensures more == if grown.Zero() then es else es + [EntryOf(at, activeConns, c)]
      ensures pendingAppHistory == AddAll(first, more)
    {
      grown := GrownSince(c);
      more := es;
      if !grown.Zero() {
        var (app, domain) := at.classify(c.meta);
        var key := Key(at.day, at.hour, app, domain);
        pendingAppHistory := pendingAppHistory[key := Row(pendingAppHistory, key).Plus(grown)];
        AddAllAppend(first, es, EntryOf(at, activeConns, c));
        more := es + [EntryOf(at, activeConns, c)];
      }
    }
  }

  lemma PrefixStep(at: Place, seen: Seen, conns: seq<Connection>, n: nat)
    requires n < |conns|
    ensures var c, rest := conns[n], ConnectionEntries(at, seen, conns[..n]);
      SeenOf(conns[..n + 1]) ==
        (if c.Skipped() then SeenOf(conns[..n]) else SeenOf(conns[..n])[c.id := Usage(c.upload, c.download)]) &&
      AttributedUsage(seen, conns[..n + 1]) == AttributedUsage(seen, conns[..n]).Plus(Growth(seen, c)) &&
      ConnectionEntries(at, seen, conns[..n + 1]) ==
        if Growth(seen, c).Zero() then rest else rest + [EntryOf(at, seen, c)]
  {
    assert conns[..n + 1][..n] == conns[..n];
  }

  /* ---------- the core ---------- */

  // All connections a core generation ever had; its totals are theirs.
  datatype Core = Core(generation: string, conns: seq<Connection>, live: set<nat>)

  ghost predicate ValidCore(c: Core) {
    (forall i :: 0 <= i < |c.conns| ==> !c.conns[i].Skipped()) &&
    (forall i, j :: 0 <= i < j < |c.conns| ==> c.conns[i].id != c.conns[j].id) &&
    forall i <- c.live :: 0 <= i < |c.conns|
  }

  function Counter(c: Connection, f: Field): int { if f == Up then c.upload else c.download }

  function Total(conns: seq<Connection>, f: Field): int {
    if conns == [] then 0 else Total(conns[..|conns| - 1], f) + Counter(conns[|conns| - 1], f)
  }

  // The same core later: new connections, larger counters, and what was closed stays closed.
  ghost predicate Grew(c: Core, d: Core) {
    d.generation == c.generation && |c.conns| <= |d.conns| &&
    (forall i :: 0 <= i < |c.conns| ==>
      d.conns[i].id == c.conns[i].id && d.conns[i].upload >= c.conns[i].upload &&
        d.conns[i].download >= c.conns[i].download) &&
    forall i <- d.live | i < |c.conns| :: i in c.live
  }

  // The open connections, in the order the API happens to list them.
  ghost predicate Lists(order: seq<nat>, c: Core) {
    Distinct(order) && forall i :: i in order <==> i in c.live
  }

  predicate Distinct(order: seq<nat>) {
    order == [] || (Distinct(order[..|order| - 1]) && order[|order| - 1] !in order[..|order| - 1])
  }

  predicate Bounded(order: seq<nat>, n: nat) { forall j :: 0 <= j < |order| ==> order[j] < n }

  function Listed(conns: seq<Connection>, order: seq<nat>): (l: seq<Connection>)
    requires Bounded(order, |conns|)
    ensures |l| == |order|
  {
    if order == [] then [] else Listed(conns, order[..|order| - 1]) + [conns[order[|order| - 1]]]
  }

  lemma ListedLast(conns: seq<Connection>, order: seq<nat>)
    requires order != [] && Bounded(order, |conns|)
    ensures var n := |order| - 1; var l := Listed(conns, order);
      l[..n] == Listed(conns, order[..n]) && l[n] == conns[order[n]]
  {
  }

  // The connection's bytes since the earlier state of the core.
  function Moved(c: seq<Connection>, d: seq<Connection>, i: nat, f: Field): int
    requires i < |d|
  {
    Counter(d[i], f) - if i < |c| then Counter(c[i], f) else 0
  }

  function AllMoved(c: seq<Connection>, d: seq<Connection>, f: Field): seq<int> {
    seq(|d|, i requires 0 <= i < |d| => Moved(c, d, i, f))
  }

  function Sums(g: seq<int>): int {
    if g == [] then 0 else Sums(g[..|g| - 1]) + g[|g| - 1]
  }

  lemma {:induction false} SumsWithout(g: seq<int>, i: nat)
    requires i < |g|
    ensures Sums(g) == Sums(g[i := 0]) + g[i]
  {
    var n := |g| - 1;
    if i == n {
      assert g[i := 0][..n] == g[..n];
    } else {
      assert g[i := 0][..n] == g[..n][i := 0];
      SumsWithout(g[..n], i);
    }
  }

  lemma {:induction false} SumsNonnegative(g: seq<int>)
    requires forall k :: 0 <= k < |g| ==> g[k] >= 0
    ensures Sums(g) >= 0
  {
    if g != [] { SumsNonnegative(g[..|g| - 1]); }
  }

  function Picked(g: seq<int>, order: seq<nat>): int
    requires Bounded(order, |g|)
  {
    if order == [] then 0 else Picked(g, order[..|order| - 1]) + g[order[|order| - 1]]
  }

  lemma {:induction false} PickedElsewhere(g: seq<int>, order: seq<nat>, i: nat)
    requires i < |g| && i !in order && Bounded(order, |g|)
    ensures Picked(g[i := 0], order) == Picked(g, order)
  {
    if order != [] { PickedElsewhere(g, order[..|order| - 1], i); }
  }

  lemma {:induction false} PickedWithin(g: seq<int>, order: seq<nat>)
    requires Distinct(order) && Bounded(order, |g|)
    requires forall k :: 0 <= k < |g| ==> g[k] >= 0
    ensures Picked(g, order) <= Sums(g)
    decreases |order|
  {
    if order == [] {
      SumsNonnegative(g);
    } else {
      var n := |order| - 1;
      var i := order[n];
      PickedElsewhere(g, order[..n], i);
      SumsWithout(g, i);
      PickedWithin(g[i := 0], order[..n]);
    }
  }

  lemma AllMovedPrefix(c: seq<Connection>, d: seq<Connection>, f: Field)
    requires |c| <= |d| && d != []
    ensures var n := |d| - 1; AllMoved(c, d, f)[..n] == AllMoved(if |c| <= n then c else c[..n], d[..n], f)
  {
  }

  lemma {:induction false} MovedTotal(c: seq<Connection>, d: seq<Connection>, f: Field)
    requires |c| <= |d|
    ensures Total(d, f) == Total(c, f) + Sums(AllMoved(c, d, f))
    decreases |d|
  {
    if d != [] {
      var n := |d| - 1;
      AllMovedPrefix(c, d, f);
      MovedTotal(if |c| <= n then c else c[..n], d[..n], f);
    }
  }

  // What the last reading left: exactly its open connections, with their counters.
  ghost predicate Remembers(seen: Seen, c: Core) {
    (forall i :: 0 <= i < |c.conns| && i in c.live ==>
      c.conns[i].id in seen && seen[c.conns[i].id] == Usage(c.conns[i].upload, c.conns[i].download)) &&
    forall id <- seen :: HasId(c, id)
  }

  ghost predicate HasId(c: Core, id: string) { exists i :: 0 <= i < |c.conns| && i in c.live && c.conns[i].id == id }

  lemma GrowthIsMoved(seen: Seen, c: Core, d: Core, i: nat, f: Field)
    requires ValidCore(c) && ValidCore(d) && Grew(c, d) && Remembers(seen, c) && i in d.live
    ensures Growth(seen, d.conns[i]).Get(f) == Moved(c.conns, d.conns, i, f)
  {
    var id := d.conns[i].id;
    if id in seen {
      assert HasId(c, id);
      var j :| 0 <= j < |c.conns| && j in c.live && c.conns[j].id == id;
      assert d.conns[j].id == id;
      assert i == j;
    }
  }

  lemma {:induction false} AttributedIsPicked(seen: Seen, conns: seq<Connection>, g: seq<int>, order: seq<nat>,
      f: Field)
    requires |g| == |conns| && Bounded(order, |conns|)
    requires forall j :: 0 <= j < |order| ==> Growth(seen, conns[order[j]]).Get(f) == g[order[j]]
    ensures Attributed(seen, Listed(conns, order), f) == Picked(g, order)
  {
    if order != [] {
      ListedLast(conns, order);
      AttributedIsPicked(seen, conns, g, order[..|order| - 1], f);
    }
  }

  /** The open connections never account for more than the core moved. */
  lemma AttributedWithin(seen: Seen, c: Core, d: Core, order: seq<nat>, f: Field)
    requires ValidCore(c) && ValidCore(d) && Grew(c, d) && Remembers(seen, c) && Lists(order, d) &&
      Bounded(order, |d.conns|)
    ensures Attributed(seen, Listed(d.conns, order), f) <= Total(d.conns, f) - Total(c.conns, f)
  {
    var g := AllMoved(c.conns, d.conns, f);
    forall j | 0 <= j < |order| ensures Growth(seen, d.conns[order[j]]).Get(f) == g[order[j]] {
      assert order[j] in order;
      GrowthIsMoved(seen, c, d, order[j], f);
    }
    AttributedIsPicked(seen, d.conns, g, order, f);
    MovedNonnegative(c, d, f);
    PickedWithin(g, order);
    MovedTotal(c.conns, d.conns, f);
  }

  lemma MovedNonnegative(c: Core, d: Core, f: Field)
    requires ValidCore(d) && Grew(c, d)
    ensures var g := AllMoved(c.conns, d.conns, f); forall k :: 0 <= k < |g| ==> g[k] >= 0
  {
  }

  ghost function Marked(d: Core, order: seq<nat>): Core { d.(live := set i: nat | i in order) }

  lemma {:induction false} RememberedListed(d: Core, order: seq<nat>)
    requires ValidCore(d) && Bounded(order, |d.conns|)
    ensures Remembers(SeenOf(Listed(d.conns, order)), Marked(d, order))
  {
    if order != [] {
      var n := |order| - 1;
      ListedLast(d.conns, order);
      RememberedListed(d, order[..n]);
      assert order == order[..n] + [order[n]];
      RememberedOneMore(d, order[..n], order[n], SeenOf(Listed(d.conns, order[..n])));
    }
  }

  lemma RememberedOneMore(d: Core, order: seq<nat>, k: nat, seen: Seen)
    requires ValidCore(d) && k < |d.conns| && Remembers(seen, Marked(d, order))
    ensures Remembers(seen[d.conns[k].id := Usage(d.conns[k].upload, d.conns[k].download)], Marked(d, order + [k]))
  {
    var id := d.conns[k].id;
    assert k in order + [k];
    forall x | x in seen ensures HasId(Marked(d, order + [k]), x) {
      assert HasId(Marked(d, order), x);
      var i :| 0 <= i < |d.conns| && i in Marked(d, order).live && d.conns[i].id == x;
      assert i in order + [k];
    }
  }

  lemma RememberedAfter(d: Core, order: seq<nat>)
    requires ValidCore(d) && Lists(order, d) && Bounded(order, |d.conns|)
    ensures Remembers(SeenOf(Listed(d.conns, order)), d)
  {
    RememberedListed(d, order);
    assert Marked(d, order).live == d.live;
  }

  /* ---------- whole runs ---------- */

  datatype Panel = Panel(counters: H.Counters, seen: Seen, seeded: bool)

  datatype Event =
    | Sample(core: Core, order: seq<nat>, generation: string)   // the generation as it could be read
    | PanelRestart(checkpoint: H.Counters)

  function TotalUsage(c: Core): Usage { Usage(Total(c.conns, Up), Total(c.conns, Down)) }

  // What applySampleWithConns passes on to recordConnections.
  function Delta(p: Panel, total: Usage, generation: string): Usage {
    Usage(H.UploadDelta(p.counters, total.upload, total.download, generation),
      H.DownloadDelta(p.counters, total.upload, total.download, generation))
  }

  predicate IsRestart(p: Panel, total: Usage, generation: string) {
    H.Restarted(p.counters, total.upload, total.download, generation)
  }

  function EntriesAt(at: Place, p: Panel, conns: seq<Connection>, total: Usage, generation: string): seq<Entry> {
    var restarted := IsRestart(p, total, generation);
    var hadBaseline := p.counters.lastUpload > 0 || p.counters.lastDownload > 0;
    SampleEntries(at, if restarted then map[] else p.seen, conns,
      !p.seeded && hadBaseline && !restarted, Delta(p, total, generation))
  }

  function AfterSample(p: Panel, conns: seq<Connection>, total: Usage, generation: string): Panel {
    Panel(H.Applied(p.counters, total.upload, total.download, generation), SeenOf(conns), true)
  }

  // A reading that a running panel takes for the core it knows is of that core.
  ghost predicate Follows(p: Panel, c: Core, d: Core, order: seq<nat>, generation: string) {
    ValidCore(d) && Lists(order, d) && Bounded(order, |d.conns|) &&
    (p.seeded && !IsRestart(p, TotalUsage(d), generation) ==> Grew(c, d))
  }

  ghost predicate Realistic(p: Panel, c: Core, evs: seq<Event>)
    decreases |evs|
  {
    evs == [] ||
    match evs[0]
    case Sample(d, order, generation) =>
      Follows(p, c, d, order, generation) &&
        Realistic(AfterSample(p, Listed(d.conns, order), TotalUsage(d), generation), d, evs[1..])
    case PanelRestart(checkpoint) =>
      checkpoint.lastUpload >= 0 && checkpoint.lastDownload >= 0 &&
        Realistic(Panel(checkpoint, map[], false), c, evs[1..])
  }

  ghost predicate Tracks(p: Panel, c: Core) {
    ValidCore(c) && p.counters.lastUpload >= 0 && p.counters.lastDownload >= 0 &&
    if p.seeded then Remembers(p.seen, c) && Usage(p.counters.lastUpload, p.counters.lastDownload) == TotalUsage(c)
    else p.seen == map[]
  }

  /** One sample of a run: the applications get exactly the core's bytes. */
  lemma SampleConserves(at: Place, p: Panel, c: Core, d: Core, order: seq<nat>, generation: string, f: Field)
    requires Tracks(p, c) && Follows(p, c, d, order, generation)
    ensures Bytes(EntriesAt(at, p, Listed(d.conns, order), TotalUsage(d), generation), f) ==
      Delta(p, TotalUsage(d), generation).Get(f)
  {
    var restarted := IsRestart(p, TotalUsage(d), generation);
    var hadBaseline := p.counters.lastUpload > 0 || p.counters.lastDownload > 0;
    SampleBytes(at, if restarted then map[] else p.seen, Listed(d.conns, order), !p.seeded && hadBaseline && !restarted,
      Delta(p, TotalUsage(d), generation), f);
    if restarted || !p.seeded {
      AttributedWithin(map[], Core(d.generation, [], {}), d, order, f);
    } else {
      AttributedWithin(p.seen, c, d, order, f);
    }
  }

  /** When a restart of the core goes unrecognised, its applications get the
      recorded bytes only if its open connections moved no more than its counters
      exceed the old baseline. */
  lemma UnrecognisedRestart(at: Place, p: Panel, d: Core, order: seq<nat>, generation: string, f: Field)
    requires p.seeded && ValidCore(d) && Lists(order, d) && Bounded(order, |d.conns|)
    requires !IsRestart(p, TotalUsage(d), generation) && forall i :: 0 <= i < |d.conns| ==> d.conns[i].id !in p.seen
    ensures var booked := Bytes(EntriesAt(at, p, Listed(d.conns, order), TotalUsage(d), generation), f);
      booked == Delta(p, TotalUsage(d), generation).Get(f) <==>
      Picked(AllMoved([], d.conns, f), order) <=
        Total(d.conns, f) - if f == Up then p.counters.lastUpload else p.counters.lastDownload
  {
    SampleBytes(at, p.seen, Listed(d.conns, order), false, Delta(p, TotalUsage(d), generation), f);
    AttributedIsPicked(p.seen, d.conns, AllMoved([], d.conns, f), order, f);
  }

  /** It can be more: a core restarted with no readable ID, whose one connection has
      already moved more than the old core had, counts 20 bytes for 10. */
  lemma UnrecognisedRestartOvercounts(at: Place, f: Field) returns (p: Panel, d: Core, order: seq<nat>)
    ensures p.seeded && ValidCore(d) && Lists(order, d) && Bounded(order, |d.conns|)
    ensures p.counters.generation != d.generation && !IsRestart(p, TotalUsage(d), "")
    ensures forall i :: 0 <= i < |d.conns| ==> d.conns[i].id !in p.seen
    ensures Delta(p, TotalUsage(d), "").Get(f) == 10
    ensures Bytes(EntriesAt(at, p, Listed(d.conns, order), TotalUsage(d), ""), f) == 20
  {
    var only := Connection("new", 20, 20, "");
    p := Panel(H.Counters(10, 10, 10, 10, "old"), map["gone" := Usage(10, 10)], true);
    d, order := Core("new", [only], {0}), [0];
    OneConnection(only, p.seen, f);
    assert order[..0] == [];
    OvercountedBytes(at, p, d, order, f);
  }

  lemma OneConnection(c: Connection, seen: Seen, f: Field)
    requires !c.Skipped() && c.id !in seen
    ensures Total([c], Up) == c.upload && Total([c], Down) == c.download && Listed([c], [0]) == [c]
    ensures Attributed(seen, [c], f) == Usage(c.upload, c.download).Get(f)
  {
    assert [c][..0] == [] && [0][..0] == [];
  }

  lemma OvercountedBytes(at: Place, p: Panel, d: Core, order: seq<nat>, f: Field)
    requires p.seeded && Bounded(order, |d.conns|) && TotalUsage(d) == Usage(20, 20)
    requires p.counters == H.Counters(10, 10, 10, 10, "old") && Attributed(p.seen, Listed(d.conns, order), f) == 20
    ensures !IsRestart(p, TotalUsage(d), "") && Delta(p, TotalUsage(d), "").Get(f) == 10
    ensures Bytes(EntriesAt(at, p, Listed(d.conns, order), TotalUsage(d), ""), f) == 20
  {
    hide Bytes, SampleEntries, Attributed;
    SampleBytes(at, p.seen, Listed(d.conns, order), false, Delta(p, TotalUsage(d), ""), f);
  }

  lemma TracksAfter(p: Panel, c: Core, d: Core, order: seq<nat>, generation: string)
    requires Tracks(p, c) && Follows(p, c, d, order, generation)
    ensures Tracks(AfterSample(p, Listed(d.conns, order), TotalUsage(d), generation), d)
  {
    RememberedAfter(d, order);
    NonnegativeTotal(d.conns, Up);
    NonnegativeTotal(d.conns, Down);
  }

  lemma {:induction false} NonnegativeTotal(conns: seq<Connection>, f: Field)
    requires forall i :: 0 <= i < |conns| ==> !conns[i].Skipped()
    ensures Total(conns, f) >= 0
  {
    if conns != [] { NonnegativeTotal(conns[..|conns| - 1], f); }
  }

  // The bytes a run books for applications, and for the proxy as a whole.
  ghost function AppBytes(at: Place, p: Panel, c: Core, evs: seq<Event>, f: Field): int
    requires Realistic(p, c, evs)
    decreases |evs|
  {
    if evs == [] then 0
    else match evs[0]
      case Sample(d, order, generation) =>
        var conns := Listed(d.conns, order);
        Bytes(EntriesAt(at, p, conns, TotalUsage(d), generation), f) +
          AppBytes(at, AfterSample(p, conns, TotalUsage(d), generation), d, evs[1..], f)
      case PanelRestart(checkpoint) => AppBytes(at, Panel(checkpoint, map[], false), c, evs[1..], f)
  }

  ghost function ProxyBytes(p: Panel, c: Core, evs: seq<Event>, f: Field): int
    requires Realistic(p, c, evs)
    decreases |evs|
  {
    if evs == [] then 0
    else match evs[0]
      case Sample(d, order, generation) =>
        Delta(p, TotalUsage(d), generation).Get(f) +
          ProxyBytes(AfterSample(p, Listed(d.conns, order), TotalUsage(d), generation), d, evs[1..], f)
      case PanelRestart(checkpoint) => ProxyBytes(Panel(checkpoint, map[], false), c, evs[1..], f)
  }

  /** Over a whole run, through restarts of the panel and of the core and through
      connections that open and close at any time, the applications together get
      exactly the bytes recorded for the proxy. */
  lemma {:induction false} AppsAddUpToProxy(at: Place, p: Panel, c: Core, evs: seq<Event>, f: Field)
    requires Tracks(p, c) && Realistic(p, c, evs)
    ensures AppBytes(at, p, c, evs, f) == ProxyBytes(p, c, evs, f)
    decreases |evs|
  {
    if evs != [] {
      match evs[0]
      case Sample(d, order, generation) =>
        SampleConserves(at, p, c, d, order, generation, f);
        TracksAfter(p, c, d, order, generation);
        AppsAddUpToProxy(at, AfterSample(p, Listed(d.conns, order), TotalUsage(d), generation), d, evs[1..], f);
      case PanelRestart(checkpoint) =>
        AppsAddUpToProxy(at, Panel(checkpoint, map[], false), c, evs[1..], f);
    }
  }
}
