/**
 The log bus: one bounded ring per source, merged by arrival number when several
 sources are asked for, against one unbounded history of every line.
 */
module LogBus {
  import opened Wrappers

  const RING_CAP: nat := 2000

  datatype Source =
    | Serve
    | Worker
    | LocalWorker(worker: nat)
    | RemoteWorker(node: nat, worker: nat)
    | RemoteNode(node: nat)

  /** A line with its arrival number. The source rides along; within a ring it is always the ring's. */
  datatype Line = Line(source: Source, stamp: nat, text: string)

  type Ring = seq<Line>

  /** The exact source, and `Worker` stands for every local worker besides. */
  predicate MatchesFilter(self: Source, filter: Source) {
    self == filter || (filter == Worker && self.LocalWorker?)
  }

  function Passing(filter: Option<Source>): Source -> bool {
    (s: Source) => filter == None || MatchesFilter(s, filter.value)
  }

  function Exactly(source: Source): Source -> bool {
    (s: Source) => s == source
  }

  function LastN<T>(s: seq<T>, n: nat): seq<T> {
    if |s| <= n then s else s[|s| - n..]
  }

  // ---- The history ------------------------------------------------------------

  /** The lines from position `lo` on whose source satisfies `p`. */
  function From(h: seq<Line>, p: Source -> bool, lo: nat): seq<Line>
    requires lo <= |h|
    decreases |h| - lo
  {
    if lo == |h| then []
    else if p(h[lo].source) then [h[lo]] + From(h, p, lo + 1)
    else From(h, p, lo + 1)
  }

  function Select(h: seq<Line>, p: Source -> bool): seq<Line> {
    From(h, p, 0)
  }

  /** Of those, the ones that fewer than `RING_CAP` lines of their own source have followed. */
  function KeptFrom(h: seq<Line>, p: Source -> bool, lo: nat): seq<Line>
    requires lo <= |h|
    decreases |h| - lo
  {
    if lo == |h| then []
    else if p(h[lo].source) && |From(h, Exactly(h[lo].source), lo + 1)| < RING_CAP then
      [h[lo]] + KeptFrom(h, p, lo + 1)
    else KeptFrom(h, p, lo + 1)
  }

  function Kept(h: seq<Line>, p: Source -> bool): seq<Line> {
    KeptFrom(h, p, 0)
  }

  predicate Ascending(s: seq<Line>) {
    forall i, j :: 0 <= i < j < |s| ==> s[i].stamp < s[j].stamp
  }

  predicate Below(s: seq<Line>, bound: nat) {
    forall i :: 0 <= i < |s| ==> s[i].stamp < bound
  }

  /** What a ring of one source holds is exactly what its source's last lines are. */
  lemma {:induction false} KeptOfOne(h: seq<Line>, source: Source, lo: nat)
    requires lo <= |h|
    ensures KeptFrom(h, Exactly(source), lo) == LastN(From(h, Exactly(source), lo), RING_CAP)
    decreases |h| - lo
  {
    if lo < |h| {
      KeptOfOne(h, source, lo + 1);
    }
  }

  lemma {:induction false} FromOfCons(e: Line, t: seq<Line>, p: Source -> bool, lo: nat)
    requires lo <= |t|
    ensures From([e] + t, p, lo + 1) == From(t, p, lo)
    decreases |t| - lo
  {
    if lo < |t| {
      assert ([e] + t)[lo + 1] == t[lo];
      FromOfCons(e, t, p, lo + 1);
    }
  }

  /** How many of the lines are of one source. */
  function CountOf(s: seq<Line>, source: Source): nat {
    |Select(s, Exactly(source))|
  }

  lemma CountOfCons(e: Line, t: seq<Line>, source: Source)
    ensures CountOf([e] + t, source) == (if e.source == source then 1 else 0) + CountOf(t, source)
  {
    FromOfCons(e, t, Exactly(source), 0);
  }

  lemma {:induction false} CountOfEnd(s: seq<Line>, k: nat, source: Source)
    requires k <= |s|
    ensures CountOf(s[k..], source) <= CountOf(s, source)
  {
    if k > 0 {
      CountOfEnd(s[1..], k - 1, source);
      CountOfCons(s[0], s[1..], source);
      assert s == [s[0]] + s[1..] && s[1..][k - 1..] == s[k..];
    } else {
      assert s[0..] == s;
    }
  }

  lemma {:induction false} CountOfFrom(h: seq<Line>, p: Source -> bool, source: Source, lo: nat)
    requires lo <= |h| && p(source)
    ensures CountOf(From(h, p, lo), source) == |From(h, Exactly(source), lo)|
    decreases |h| - lo
  {
    if lo < |h| {
      CountOfFrom(h, p, source, lo + 1);
      if p(h[lo].source) { CountOfCons(h[lo], From(h, p, lo + 1), source); }
    }
  }

  lemma {:induction false} CountOfKeptFrom(h: seq<Line>, p: Source -> bool, source: Source, lo: nat)
    requires lo <= |h|
    ensures CountOf(KeptFrom(h, p, lo), source) <= |KeptFrom(h, Exactly(source), lo)|
    decreases |h| - lo
  {
    if lo < |h| {
      CountOfKeptFrom(h, p, source, lo + 1);
      if p(h[lo].source) && |From(h, Exactly(h[lo].source), lo + 1)| < RING_CAP {
        CountOfCons(h[lo], KeptFrom(h, p, lo + 1), source);
      }
    }
  }

  /** No source has more of these lines than its ring holds. */
  ghost predicate FitsRings(s: seq<Line>) {
    forall source :: CountOf(s, source) <= RING_CAP
  }

  lemma FitsRest(e: Line, t: seq<Line>)
    requires FitsRings([e] + t)
    ensures FitsRings(t)
  {
    forall source ensures CountOf(t, source) <= RING_CAP { CountOfCons(e, t, source); }
  }

  lemma FitsLater(e: Line, rest: seq<Line>, n: nat)
    requires FitsRings(LastN([e] + rest, n))
    ensures FitsRings(LastN(rest, n))
  {
    hide FitsRings;
    if |rest| < n { FitsRest(e, rest); } else { assert LastN([e] + rest, n) == LastN(rest, n); }
  }

  lemma EndsAgree(e: Line, rest: seq<Line>, kept: seq<Line>, n: nat)
    requires LastN(kept, n) == LastN(rest, n)
    ensures LastN([e] + kept, n) == LastN([e] + rest, n)
    ensures |rest| >= n ==> LastN(kept, n) == LastN([e] + rest, n)
  {
    if |rest| < n { assert kept == rest; } else { assert |LastN(kept, n)| == n; }
  }

  lemma {:induction false} FittingIsKept(h: seq<Line>, p: Source -> bool, n: nat, lo: nat)
    requires lo <= |h| && FitsRings(LastN(From(h, p, lo), n))
    ensures LastN(KeptFrom(h, p, lo), n) == LastN(From(h, p, lo), n)
    decreases |h| - lo
  {
    if lo < |h| {
      hide FitsRings, CountOf, LastN;
      if !p(h[lo].source) {
        FittingIsKept(h, p, n, lo + 1);
      } else {
        FitsLater(h[lo], From(h, p, lo + 1), n);
        FittingIsKept(h, p, n, lo + 1);
        EndsAgree(h[lo], From(h, p, lo + 1), KeptFrom(h, p, lo + 1), n);
        if |From(h, p, lo + 1)| < n {
          AllOfShort([h[lo]] + From(h, p, lo + 1), n);
          FirstIsKept(h, p, lo);
        }
      }
    }
  }

  lemma AllOfShort(s: seq<Line>, n: nat)
    requires |s| <= n
    ensures LastN(s, n) == s
  {
  }

  lemma FirstIsKept(h: seq<Line>, p: Source -> bool, lo: nat)
    requires lo < |h| && p(h[lo].source) && FitsRings([h[lo]] + From(h, p, lo + 1))
    ensures |From(h, Exactly(h[lo].source), lo + 1)| < RING_CAP
  {
    CountOfFrom(h, p, h[lo].source, lo + 1);
    CountOfCons(h[lo], From(h, p, lo + 1), h[lo].source);
    assert CountOf([h[lo]] + From(h, p, lo + 1), h[lo].source) <= RING_CAP;
  }

  lemma KeptFits(h: seq<Line>, p: Source -> bool, n: nat)
    ensures FitsRings(LastN(Kept(h, p), n))
  {
    var kept := Kept(h, p);
    forall source ensures CountOf(LastN(kept, n), source) <= RING_CAP {
      CountOfKeptFrom(h, p, source, 0);
      KeptOfOne(h, source, 0);
      if |kept| > n { CountOfEnd(kept, |kept| - n, source); }
    }
  }

  /**
   The merged rings give the last `n` lines that pass exactly when none of the sources has more of those lines than
   its ring holds; so always up to that capacity, and beyond it as the sources share the lines.
   */
  lemma FallsShortExactly(h: seq<Line>, p: Source -> bool, n: nat)
    ensures LastN(Kept(h, p), n) == LastN(Select(h, p), n) <==> FitsRings(LastN(Select(h, p), n))
  {
    hide FitsRings;
    KeptFits(h, p, n);
    if FitsRings(LastN(Select(h, p), n)) {
      FittingIsKept(h, p, n, 0);
    }
  }

  lemma {:induction false} FromWithin(h: seq<Line>, p: Source -> bool, lo: nat)
    requires lo <= |h|
    ensures |From(h, p, lo)| <= |h| - lo
    decreases |h| - lo
  {
    if lo < |h| {
      FromWithin(h, p, lo + 1);
    }
  }

  /** Up to the rings' capacity nothing that a ring dropped is missed, whatever sources are merged. */
  lemma KeptIsEnough(h: seq<Line>, p: Source -> bool, n: nat)
    requires n <= RING_CAP
    ensures LastN(Kept(h, p), n) == LastN(Select(h, p), n)
  {
    var last := LastN(Select(h, p), n);
    forall source ensures CountOf(last, source) <= RING_CAP { FromWithin(last, Exactly(source), 0); }
    FallsShortExactly(h, p, n);
  }

  // ---- How the history and the rings move -------------------------------------

  lemma {:induction false} FromSnoc(h: seq<Line>, e: Line, p: Source -> bool, lo: nat)
    requires lo <= |h|
    ensures From(h + [e], p, lo) == From(h, p, lo) + (if p(e.source) then [e] else [])
    decreases |h| - lo
  {
    if lo == |h| {
      assert From(h + [e], p, lo + 1) == [];
    } else {
      FromSnoc(h, e, p, lo + 1);
      assert (h + [e])[lo] == h[lo];
    }
  }

  lemma KeptSnoc(h: seq<Line>, e: Line, source: Source)
    ensures Kept(h + [e], Exactly(source)) ==
      if e.source == source then LastN(Kept(h, Exactly(source)), RING_CAP - 1) + [e] else Kept(h, Exactly(source))
  {
    KeptOfOne(h, source, 0);
    KeptOfOne(h + [e], source, 0);
    FromSnoc(h, e, Exactly(source), 0);
    LastOfSnoc(Select(h, Exactly(source)), e);
  }

  lemma LastOfSnoc(s: seq<Line>, e: Line)
    ensures LastN(s + [e], RING_CAP) == LastN(LastN(s, RING_CAP), RING_CAP - 1) + [e]
  {
  }

  function Except(gone: Source -> bool): Source -> bool {
    (s: Source) => !gone(s)
  }

  /** Forgetting whole sources takes nothing from the others. */
  lemma {:induction false} SelectAfterEviction(h: seq<Line>, gone: Source -> bool, source: Source)
    ensures Select(Select(h, Except(gone)), Exactly(source)) == if gone(source) then [] else Select(h, Exactly(source))
  {
    if h != [] {
      var h0, e := h[..|h| - 1], h[|h| - 1];
      assert h == h0 + [e];
      SelectAfterEviction(h0, gone, source);
      FromSnoc(h0, e, Except(gone), 0);
      FromSnoc(h0, e, Exactly(source), 0);
      var left := Select(h0, Except(gone));
      FromSnoc(left, e, Exactly(source), 0);
      assert Select(h, Except(gone)) == if gone(e.source) then left else left + [e];
    }
  }

  lemma KeptAfterEviction(h: seq<Line>, gone: Source -> bool, source: Source)
    ensures Kept(Select(h, Except(gone)), Exactly(source)) == if gone(source) then [] else Kept(h, Exactly(source))
  {
    SelectAfterEviction(h, gone, source);
    KeptOfOne(h, source, 0);
    KeptOfOne(Select(h, Except(gone)), source, 0);
  }

  lemma {:induction false} FromAscends(h: seq<Line>, p: Source -> bool, lo: nat, bound: nat)
    requires lo <= |h| && Ascending(h) && Below(h, bound)
    ensures Ascending(From(h, p, lo)) && Below(From(h, p, lo), bound)
    ensures forall i, j :: 0 <= i < |From(h, p, lo)| && 0 <= j < lo ==> h[j].stamp < From(h, p, lo)[i].stamp
    decreases |h| - lo
  {
    if lo < |h| {
      FromAscends(h, p, lo + 1, bound);
    }
  }

  lemma {:induction false} KeptAscends(h: seq<Line>, p: Source -> bool, lo: nat)
    requires lo <= |h| && Ascending(h)
    ensures Ascending(KeptFrom(h, p, lo))
    ensures forall i, j :: 0 <= i < |KeptFrom(h, p, lo)| && 0 <= j < lo ==> h[j].stamp < KeptFrom(h, p, lo)[i].stamp
    decreases |h| - lo
  {
    if lo < |h| {
      KeptAscends(h, p, lo + 1);
    }
  }

  /** A line is kept for a filter exactly when its own ring keeps it and its source passes. */
  lemma {:induction false} KeptMember(h: seq<Line>, p: Source -> bool, x: Line, lo: nat)
    requires lo <= |h|
    ensures x in KeptFrom(h, p, lo) <==> p(x.source) && x in KeptFrom(h, Exactly(x.source), lo)
    decreases |h| - lo
  {
    if lo < |h| {
      KeptMember(h, p, x, lo + 1);
    }
  }

  lemma {:induction false} FromMember(h: seq<Line>, p: Source -> bool, x: Line, lo: nat)
    requires lo <= |h|
    ensures x in From(h, p, lo) <==> x in h[lo..] && p(x.source)
    decreases |h| - lo
  {
    if lo < |h| {
      FromMember(h, p, x, lo + 1);
      assert h[lo..] == [h[lo]] + h[lo + 1..];
    }
  }

  lemma SelectMember(h: seq<Line>, p: Source -> bool, x: Line)
    ensures x in Select(h, p) <==> x in h && p(x.source)
  {
    FromMember(h, p, x, 0);
    assert h[0..] == h;
  }

  /**
   The lines a filter asks for, in order of arrival: without one all of them, for the worker console the unkeyed ones
   and every local worker's, else those of the one source.
   */
  lemma WantedExactly(h: seq<Line>, filter: Option<Source>, x: Line)
    requires Ascending(h)
    ensures Ascending(Select(h, Passing(filter)))
    ensures x in Select(h, Passing(filter)) <==>
      x in h && match filter
                case None => true
                case Some(Worker) => x.source == Worker || x.source.LocalWorker?
                case Some(source) => x.source == source
  {
    SelectMember(h, Passing(filter), x);
    KeptOfAll(h, Passing(filter));
  }

  lemma KeptOfAll(h: seq<Line>, p: Source -> bool)
    requires Ascending(h)
    ensures Ascending(Select(h, p))
  {
    FromAscends(h, p, 0, if h == [] then 0 else h[|h| - 1].stamp + 1);
  }

  // ---- Merging ----------------------------------------------------------------

  predicate NoRepeats(s: seq<Line>) {
    forall i, j :: 0 <= i < j < |s| ==> s[i] != s[j]
  }

  ghost predicate SameLines(a: seq<Line>, b: seq<Line>) {
    forall x :: x in a <==> x in b
  }

  /** A stable insertion by stamp, as the sort by key does. */
  function Insert(s: seq<Line>, e: Line): (r: seq<Line>)
    ensures forall x :: x in r <==> x in s || x == e
  {
    if s == [] || s[|s| - 1].stamp <= e.stamp then s + [e]
    else
      assert s == s[..|s| - 1] + [s[|s| - 1]];
      Insert(s[..|s| - 1], e) + [s[|s| - 1]]
  }

  function SortByStamp(s: seq<Line>): (r: seq<Line>)
    ensures forall x :: x in r <==> x in s
  {
    if s == [] then []
    else
      assert s == s[..|s| - 1] + [s[|s| - 1]];
      Insert(SortByStamp(s[..|s| - 1]), s[|s| - 1])
  }

  lemma {:induction false} InsertAscends(s: seq<Line>, e: Line)
    requires Ascending(s) && forall i :: 0 <= i < |s| ==> s[i].stamp != e.stamp
    ensures Ascending(Insert(s, e))
  {
    if s != [] && s[|s| - 1].stamp > e.stamp {
      var s0, z := s[..|s| - 1], s[|s| - 1];
      InsertAscends(s0, e);
      var r := Insert(s0, e);
      forall i | 0 <= i < |r| ensures r[i].stamp < z.stamp {
        assert r[i] in r;
      }
    }
  }

  /** Lines that never share a stamp come out of the sort in strict order. */
  lemma {:induction false} SortAscends(s: seq<Line>)
    requires forall i, j :: 0 <= i < j < |s| ==> s[i].stamp != s[j].stamp
    ensures Ascending(SortByStamp(s))
  {
    if s != [] {
      var s0, z := s[..|s| - 1], s[|s| - 1];
      SortAscends(s0);
      var r := SortByStamp(s0);
      forall i | 0 <= i < |r| ensures r[i].stamp != z.stamp {
        assert r[i] in r && r[i] in s0;
      }
      InsertAscends(r, z);
    }
  }

  /** Two strictly ordered sequences of the same lines are the same sequence. */
  lemma {:induction false} AscendingIsUnique(a: seq<Line>, b: seq<Line>)
    requires Ascending(a) && Ascending(b) && SameLines(a, b)
    ensures a == b
  {
    if a == [] {
      assert forall i :: 0 <= i < |b| ==> b[i] in a;
    } else {
      assert a[0] in b;
      var a0, b0, x, y := a[..|a| - 1], b[..|b| - 1], a[|a| - 1], b[|b| - 1];
      LastIsGreatest(a, b);
      forall z ensures z in a0 <==> z in b0 {
        InFront(a, z);
        InFront(b, z);
      }
      AscendingIsUnique(a0, b0);
      assert a == a0 + [x] && b == b0 + [y];
    }
  }

  lemma LastIsGreatest(a: seq<Line>, b: seq<Line>)
    requires Ascending(a) && Ascending(b) && SameLines(a, b) && a != [] && b != []
    ensures a[|a| - 1] == b[|b| - 1]
  {
    var x, y := a[|a| - 1], b[|b| - 1];
    assert x in b && y in a;
    var i :| 0 <= i < |b| && b[i] == x;
    var j :| 0 <= j < |a| && a[j] == y;
    assert i < |b| - 1 ==> x.stamp < y.stamp;
    assert j < |a| - 1 ==> y.stamp < x.stamp;
  }

  lemma InFront(s: seq<Line>, z: Line)
    requires Ascending(s) && s != []
    ensures z in s[..|s| - 1] <==> z in s && z != s[|s| - 1]
  {
    var s0 := s[..|s| - 1];
    assert s == s0 + [s[|s| - 1]];
    if z in s0 {
      var i :| 0 <= i < |s0| && s0[i] == z;
      assert s[i].stamp < s[|s| - 1].stamp;
    }
  }

  /** Sorting the rings' lines, in whatever order they were gathered, restores the order of arrival. */
  lemma SortRestores(all: seq<Line>, want: seq<Line>)
    requires Ascending(want) && NoRepeats(all) && SameLines(all, want)
    ensures SortByStamp(all) == want
  {
    forall i, j | 0 <= i < j < |all| ensures all[i].stamp != all[j].stamp {
      assert all[i] in want && all[j] in want;
    }
    SortAscends(all);
    AscendingIsUnique(SortByStamp(all), want);
  }

  // ---- The bus ------------------------------------------------------------------

  function Texts(s: seq<Line>): seq<string> {
    seq(|s|, i requires 0 <= i < |s| => s[i].text)
  }

  lemma TextsOfLast(s: seq<Line>, n: nat)
    ensures var texts := Texts(LastN(s, n));
      && |texts| == (if n < |s| then n else |s|)
      && forall i :: 0 <= i < |texts| ==> texts[i] == s[|s| - |texts| + i].text
  {
  }

  /** The oldest lines go until one more fits. */
  method PushRing(ring: Ring, line: Line) returns (r: Ring)
    ensures r == LastN(ring, RING_CAP - 1) + [line]
  {
    r := ring;
    while |r| >= RING_CAP
      invariant |r| <= |ring| && r == ring[|ring| - |r|..]
      invariant |r| == |ring| || |r| >= RING_CAP - 1
    {
      r := r[1..];
    }
    r := r + [line];
  }

  method Merged(all: seq<Line>, n: nat, ghost want: seq<Line>) returns (texts: seq<string>)
    requires Ascending(want) && NoRepeats(all) && SameLines(all, want)
    ensures texts == Texts(LastN(want, n))
  {
    SortRestores(all, want);
    var sorted := SortByStamp(all);
    texts := Texts(LastN(sorted, n));
  }

  ghost predicate Gathered<K(!new)>(rings: map<K, Ring>, left: set<K>, x: Line) {
    exists k :: k in rings && k !in left && x in rings[k]
  }

  /** Strings the rings of a table together, in the arbitrary order of its iteration. */
  method Gather<K(==, !new)>(rings: map<K, Ring>, ghost tag: K -> Source) returns (all: seq<Line>)
    requires forall k, j :: tag(k) == tag(j) ==> k == j
    requires forall k :: k in rings ==> Ascending(rings[k])
    requires forall k, x :: k in rings && x in rings[k] ==> x.source == tag(k)
    ensures NoRepeats(all)
    ensures forall x :: x in all <==> Gathered(rings, {}, x)
  {
    all := [];
    var left := rings.Keys;
    while left != {}
      invariant left <= rings.Keys
      invariant NoRepeats(all)
      invariant forall x :: x in all <==> Gathered(rings, left, x)
    {
      var k :| k in left;
      ghost var before := left;
      forall x | x in all ensures x !in rings[k] {
        var j :| j in rings && j !in before && x in rings[j];
        assert x.source == tag(j) && j != k;
      }
      NoRepeatsAppend(all, rings[k]);
      all := all + rings[k];
      left := left - {k};
      forall x ensures Gathered(rings, left, x) <==> Gathered(rings, before, x) || x in rings[k] {
        if Gathered(rings, before, x) {
          var j :| j in rings && j !in before && x in rings[j];
          assert j !in left;
        }
      }
    }
  }

  lemma NoRepeatsAppend(a: seq<Line>, b: seq<Line>)
    requires NoRepeats(a) && NoRepeats(b)
    requires forall x :: x in a ==> x !in b
    ensures NoRepeats(a + b)
  {
    var s := a + b;
    forall i, j | 0 <= i < j < |s| ensures s[i] != s[j] {
      if i < |a| <= j {
        assert a[i] in a && b[j - |a|] in b;
      }
    }
  }

  class LogBus {
    var serve: Ring
    var worker: Ring
    var local: map<nat, Ring>
    var remote: map<(nat, nat), Ring>
    var remoteNode: map<nat, Ring>
    var next: nat
    /** Every line pushed, but for those of evicted sources. */
    ghost var history: seq<Line>

    function RingOf(source: Source): Ring
      reads this`serve, this`worker, this`local, this`remote, this`remoteNode
    {
      match source
      case Serve => serve
      case Worker => worker
      case LocalWorker(w) => if w in local then local[w] else []
      case RemoteWorker(n, w) => if (n, w) in remote then remote[(n, w)] else []
      case RemoteNode(n) => if n in remoteNode then remoteNode[n] else []
    }

    ghost predicate Valid()
      reads this
    {
      && Ascending(history) && Below(history, next)
      && forall s :: RingOf(s) == Kept(history, Exactly(s))
    }

    constructor ()
      ensures Valid() && history == []
    {
      serve, worker, local, remote, remoteNode, next, history := [], [], map[], map[], map[], 0, [];
    }

    method Store(source: Source, ring: Ring)
      modifies this`serve, this`worker, this`local, this`remote, this`remoteNode
      ensures forall s :: RingOf(s) == if s == source then ring else old(RingOf(s))
    {
      match source {
        case Serve => serve := ring;
        case Worker => worker := ring;
        case LocalWorker(w) => local := local[w := ring];
        case RemoteWorker(n, w) => remote := remote[(n, w) := ring];
        case RemoteNode(n) => remoteNode := remoteNode[n := ring];
      }
    }

    method Push(source: Source, text: string)
      requires Valid()
      modifies this
      ensures Valid()
      ensures history == old(history) + [Line(source, old(next), text)]
    {
      var line := Line(source, next, text);
      var ring := PushRing(RingOf(source), line);
      Store(source, ring);
      next := next + 1;
      history := history + [line];
      forall s ensures RingOf(s) == Kept(history, Exactly(s)) {
        assert old(RingOf(s)) == Kept(old(history), Exactly(s));
        KeptSnoc(old(history), line, s);
      }
    }

    method EvictLocal(w: nat)
      requires Valid()
      modifies this
      ensures Valid() && next == old(next)
      ensures forall s :: RingOf(s) == if s == LocalWorker(w) then [] else old(RingOf(s))
      ensures forall x :: x in history <==> x in old(history) && x.source != LocalWorker(w)
      ensures history == Select(old(history), Except(Exactly(LocalWorker(w))))
    {
      local := local - {w};
      Forget(Exactly(LocalWorker(w)));
    }

    method EvictRemote(n: nat, w: nat)
      requires Valid()
      modifies this
      ensures Valid() && next == old(next)
      ensures forall s :: RingOf(s) == if s == RemoteWorker(n, w) then [] else old(RingOf(s))
      ensures forall x :: x in history <==> x in old(history) && x.source != RemoteWorker(n, w)
      ensures history == Select(old(history), Except(Exactly(RemoteWorker(n, w))))
    {
      remote := remote - {(n, w)};
      Forget(Exactly(RemoteWorker(n, w)));
    }

    /** Everything of a node: its workers, current or not, and its own log. */
    method EvictNode(n: nat)
      requires Valid()
      modifies this
      ensures Valid() && next == old(next)
      ensures forall s :: RingOf(s) == if (s.RemoteWorker? || s.RemoteNode?) && s.node == n then [] else old(RingOf(s))
      ensures forall x :: x in history <==>
        x in old(history) && !((x.source.RemoteWorker? || x.source.RemoteNode?) && x.source.node == n)
      ensures history == Select(old(history), Except(OfNode(n)))
    {
      hide KeptFrom, From, Ascending, Below, Select;
      remote := map k | k in remote && k.0 != n :: remote[k];
      remoteNode := remoteNode - {n};
      Forget(OfNode(n));
    }

    ghost method Forget(gone: Source -> bool)
      requires Ascending(history) && Below(history, next)
      requires forall s :: RingOf(s) == if gone(s) then [] else Kept(history, Exactly(s))
      modifies this`history
      ensures Valid() && history == Select(old(history), Except(gone))
      ensures forall x :: x in history <==> x in old(history) && !gone(x.source)
    {
      forall x ensures x in Select(history, Except(gone)) <==> x in history && !gone(x.source) {
        SelectMember(history, Except(gone), x);
      }
      FromAscends(history, Except(gone), 0, next);
      history := Select(history, Except(gone));
      forall s ensures RingOf(s) == Kept(history, Exactly(s)) {
        assert old(RingOf(s)) == RingOf(s);
        KeptAfterEviction(old(history), gone, s);
      }
    }

    /** A ring is in order and holds its own source's lines only. */
    lemma RingFacts(s: Source)
      requires Valid()
      ensures Ascending(RingOf(s)) && forall x :: x in RingOf(s) ==> x.source == s
    {
      assert RingOf(s) == Kept(history, Exactly(s));
      KeptAscends(history, Exactly(s), 0);
      forall x | x in RingOf(s) ensures x.source == s {
        KeptMember(history, Exactly(s), x, 0);
      }
    }

    method GatherLocal() returns (all: seq<Line>)
      requires Valid()
      ensures NoRepeats(all)
      ensures forall x :: x in all <==> x.source.LocalWorker? && x in RingOf(x.source)
    {
      forall w | w in local ensures Ascending(local[w]) && forall x :: x in local[w] ==> x.source == LocalWorker(w) {
        RingFacts(LocalWorker(w));
      }
      all := Gather(local, (w: nat) => LocalWorker(w));
      forall x ensures Gathered(local, {}, x) <==> x.source.LocalWorker? && x in RingOf(x.source) {
        if x.source.LocalWorker? && x in RingOf(x.source) {
          assert x.source.worker in local && x in local[x.source.worker];
        }
      }
    }

    method GatherRemote() returns (all: seq<Line>)
      requires Valid()
      ensures NoRepeats(all)
      ensures forall x :: x in all <==> x.source.RemoteWorker? && x in RingOf(x.source)
    {
      forall k | k in remote
        ensures Ascending(remote[k]) && forall x :: x in remote[k] ==> x.source == RemoteWorker(k.0, k.1)
      {
        RingFacts(RemoteWorker(k.0, k.1));
      }
      all := Gather(remote, (k: (nat, nat)) => RemoteWorker(k.0, k.1));
      forall x ensures Gathered(remote, {}, x) <==> x.source.RemoteWorker? && x in RingOf(x.source) {
        if x.source.RemoteWorker? && x in RingOf(x.source) {
          var k := (x.source.node, x.source.worker);
          assert k in remote && x in remote[k];
        }
      }
    }

    method GatherNodes() returns (all: seq<Line>)
      requires Valid()
      ensures NoRepeats(all)
      ensures forall x :: x in all <==> x.source.RemoteNode? && x in RingOf(x.source)
    {
      forall n | n in remoteNode ensures Ascending(remoteNode[n]) && forall x :: x in remoteNode[n] ==> x.source == RemoteNode(n) {
        RingFacts(RemoteNode(n));
      }
      all := Gather(remoteNode, (n: nat) => RemoteNode(n));
      forall x ensures Gathered(remoteNode, {}, x) <==> x.source.RemoteNode? && x in RingOf(x.source) {
        if x.source.RemoteNode? && x in RingOf(x.source) {
          assert x.source.node in remoteNode && x in remoteNode[x.source.node];
        }
      }
    }

    /** What a merge has to produce, and that its ingredients are the rings whose sources pass. */
    lemma KeptIsUnion(p: Source -> bool, all: seq<Line>)
      requires Valid()
      requires forall x :: x in all <==> p(x.source) && x in RingOf(x.source)
      ensures Ascending(Kept(history, p)) && SameLines(all, Kept(history, p))
    {
      KeptAscends(history, p, 0);
      forall x ensures x in all <==> x in Kept(history, p) {
        KeptMember(history, p, x, 0);
        assert RingOf(x.source) == Kept(history, Exactly(x.source));
      }
    }

    lemma KeptIsAscending(filter: Option<Source>)
      requires Valid()
      ensures Ascending(Kept(history, Passing(filter)))
    {
      KeptAscends(history, Passing(filter), 0);
    }

    lemma OneRing(source: Source)
      requires Valid() && source != Worker
      ensures RingOf(source) == Kept(history, Passing(Some(source)))
    {
      RingFacts(source);
      KeptIsUnion(Passing(Some(source)), RingOf(source));
      AscendingIsUnique(RingOf(source), Kept(history, Passing(Some(source))));
    }

    /** The own ring of unkeyed worker lines, and every local worker's. */
    method WorkerUnion() returns (all: seq<Line>)
      requires Valid()
      ensures NoRepeats(all) && SameLines(all, Kept(history, Passing(Some(Worker))))
    {
      RingFacts(Worker);
      var keyed := GatherLocal();
      NoRepeatsAppend(worker, keyed);
      all := worker + keyed;
      KeptIsUnion(Passing(Some(Worker)), all);
    }

    method Everything() returns (all: seq<Line>)
      requires Valid()
      ensures NoRepeats(all) && SameLines(all, Kept(history, Passing(None)))
    {
      RingFacts(Serve);
      RingFacts(Worker);
      var a := GatherLocal();
      var b := GatherRemote();
      var c := GatherNodes();
      NoRepeatsAppend(serve, worker);
      NoRepeatsAppend(serve + worker, a);
      NoRepeatsAppend(serve + worker + a, b);
      NoRepeatsAppend(serve + worker + a + b, c);
      all := serve + worker + a + b + c;
      KeptIsUnion(Passing(None), all);
    }

    /**
     The last `n` lines that pass, oldest first, of those the rings still hold; and up to the rings' capacity, or while no source
     has more of them than its ring holds, simply the last `n` of all that were ever pushed and not evicted.
     */
    method Snapshot(n: nat, filter: Option<Source>) returns (texts: seq<string>)
      requires Valid()
      ensures var kept := Kept(history, Passing(filter));
        && |texts| == (if n < |kept| then n else |kept|)
        && forall i :: 0 <= i < |texts| ==> texts[i] == kept[|kept| - |texts| + i].text
      ensures n <= RING_CAP || FitsRings(LastN(Select(history, Passing(filter)), n)) ==>
        var all := Select(history, Passing(filter));
        && |texts| == (if n < |all| then n else |all|)
        && forall i :: 0 <= i < |texts| ==> texts[i] == all[|all| - |texts| + i].text
    {
      hide Valid, Kept, Select, Passing, LastN, Texts, FitsRings, Ascending, NoRepeats, SameLines;
      match filter {
        case None =>
          var all := Everything();
          KeptIsAscending(None);
          texts := Merged(all, n, Kept(history, Passing(None)));
        case Some(Worker) =>
          var all := WorkerUnion();
          KeptIsAscending(filter);
          texts := Merged(all, n, Kept(history, Passing(filter)));
        case Some(source) =>
          OneRing(source);
          var ring := RingOf(source);
          texts := Texts(LastN(ring, n));
      }
      if n <= RING_CAP { KeptIsEnough(history, Passing(filter), n); }
      FallsShortExactly(history, Passing(filter), n);
      TextsOfLast(Kept(history, Passing(filter)), n);
      TextsOfLast(Select(history, Passing(filter)), n);
    }
  }

  function OfNode(n: nat): Source -> bool {
    (s: Source) => (s.RemoteWorker? || s.RemoteNode?) && s.node == n
  }
}
