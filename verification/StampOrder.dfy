/**
 Pushes, evictions and snapshots of the log bus at once, one lock acquisition or counter read
 at a time. Every ring is behind one of five locks. A push takes its stamp while it holds the
 lock of its ring; a snapshot locks what its filter needs, one after another, and keeps all of
 it until it has merged. `underLock` says whether the stamp is taken before or after the ring
 is locked.
 */
module StampOrder {
  import opened LogBus
  import opened Runs
  import opened Wrappers

  type Thread = nat
  type Lock = nat

  datatype Pc =
    | Entered(source: Source, text: string)
    | LockedOnly(source: Source, text: string)   // the lock, and no stamp yet
    | StampedOnly(line: Line)                    // a stamp, and no lock yet
    | Ready(line: Line)                          // both
    | Inserted(source: Source)                   // the lock is still held
    | Locking(filter: Option<Source>, k: nat)    // a snapshot that holds the first `k` of the locks it needs
    | Done

  /** One table of rings is emptied of one worker or node; a whole node goes in two of these. */
  datatype Eviction = OfLocal(w: nat) | OfRemote(n: nat, w: nat) | OfNodeWorkers(n: nat) | OfNodeLog(n: nat)

  /** `history` are the lines in the order of their stamps, but for those of evicted sources. */
  datatype State = State(
    underLock: bool, rings: map<Source, Ring>, history: seq<Line>, locks: map<Lock, Thread>, counter: nat,
    threads: map<Thread, Pc>)

  datatype Label =
    | Enter(t: Thread, source: Source, text: string) | Ask(t: Thread, filter: Option<Source>)
    | TakeLock(t: Thread) | Stamp(t: Thread) | Store(t: Thread) | Unlock(t: Thread)
    | Evict(e: Eviction)

  function LockOf(source: Source): Lock {
    match source
    case Serve => 0
    case Worker => 1
    case LocalWorker(_) => 2
    case RemoteWorker(_, _) => 3
    case RemoteNode(_) => 4
  }

  /** The locks of a snapshot, in the order in which it takes them. */
  function Needs(filter: Option<Source>): seq<Lock> {
    match filter
    case None => [0, 1, 2, 3, 4]
    case Some(source) => if source == Worker then [1, 2] else [LockOf(source)]
  }

  function Gone(e: Eviction): Source -> bool {
    (s: Source) =>
      match e
      case OfLocal(w) => s == LocalWorker(w)
      case OfRemote(n, w) => s == RemoteWorker(n, w)
      case OfNodeWorkers(n) => s.RemoteWorker? && s.node == n
      case OfNodeLog(n) => s == RemoteNode(n)
  }

  function GuardOf(e: Eviction): Lock {
    match e
    case OfLocal(_) => 2
    case OfRemote(_, _) => 3
    case OfNodeWorkers(_) => 3
    case OfNodeLog(_) => 4
  }

  function Start(underLock: bool): State {
    State(underLock, map[], [], map[], 0, map[])
  }

  function PcOf(s: State, t: Thread): Pc {
    if t in s.threads then s.threads[t] else Done
  }

  function RingOf(s: State, source: Source): Ring {
    if source in s.rings then s.rings[source] else []
  }

  function Move(s: State, t: Thread, pc: Pc): State {
    s.(threads := s.threads[t := pc])
  }

  function LockStep(s: State, t: Thread): State {
    match PcOf(s, t)
    case Entered(source, text) =>
      if s.underLock && LockOf(source) !in s.locks then
        Move(s, t, LockedOnly(source, text)).(locks := s.locks[LockOf(source) := t])
      else s
    case StampedOnly(line) =>
      if LockOf(line.source) !in s.locks then Move(s, t, Ready(line)).(locks := s.locks[LockOf(line.source) := t]) else s
    case Locking(filter, k) =>
      if k < |Needs(filter)| && Needs(filter)[k] !in s.locks then
        Move(s, t, Locking(filter, k + 1)).(locks := s.locks[Needs(filter)[k] := t])
      else s
    case _ => s
  }

  function Stamped(s: State, t: Thread, pc: Pc, line: Line): State {
    Move(s, t, pc).(counter := s.counter + 1, history := s.history + [line])
  }

  function StampStep(s: State, t: Thread): State {
    match PcOf(s, t)
    case Entered(source, text) =>
      var line := Line(source, s.counter, text);
      if s.underLock then s else Stamped(s, t, StampedOnly(line), line)
    case LockedOnly(source, text) =>
      var line := Line(source, s.counter, text);
      Stamped(s, t, Ready(line), line)
    case _ => s
  }

  /** The ring after a push: its newest lines up to the capacity, and the new one. */
  function Grown(ring: Ring, line: Line): Ring {
    LastN(ring, RING_CAP - 1) + [line]
  }

  function StoreStep(s: State, t: Thread): State {
    match PcOf(s, t)
    case Ready(line) =>
      Move(s, t, Inserted(line.source)).(rings := s.rings[line.source := Grown(RingOf(s, line.source), line)])
    case _ => s
  }

  function UnlockStep(s: State, t: Thread): State {
    match PcOf(s, t)
    case Inserted(source) => Move(s, t, Done).(locks := s.locks - {LockOf(source)})
    case Locking(filter, k) =>
      if k == |Needs(filter)| then Move(s, t, Done).(locks := map x | x in s.locks && s.locks[x] != t :: s.locks[x]) else s
    case _ => s
  }

  function EvictStep(s: State, e: Eviction): State {
    if GuardOf(e) in s.locks then s
    else
      s.(rings := map x | x in s.rings && !Gone(e)(x) :: s.rings[x],
         history := Select(s.history, Except(Gone(e))))
  }

  /** A step that cannot be taken changes nothing. */
  function Next(s: State, l: Label): State {
    match l
    case Enter(t, source, text) => if t in s.threads then s else Move(s, t, Entered(source, text))
    case Ask(t, filter) => if t in s.threads then s else Move(s, t, Locking(filter, 0))
    case TakeLock(t) => LockStep(s, t)
    case Stamp(t) => StampStep(s, t)
    case Store(t) => StoreStep(s, t)
    case Unlock(t) => UnlockStep(s, t)
    case Evict(e) => EvictStep(s, e)
  }

  // ---- Who has which lock -------------------------------------------------------------

  /** At this place in the code a thread has lock `l`. */
  predicate Holds(pc: Pc, l: Lock) {
    match pc
    case LockedOnly(source, _) => LockOf(source) == l
    case Ready(line) => LockOf(line.source) == l
    case Inserted(source) => LockOf(source) == l
    case Locking(filter, k) => k <= |Needs(filter)| && l in Needs(filter)[..k]
    case _ => false
  }

  predicate Has(s: State, t: Thread, l: Lock) {
    l in s.locks && s.locks[l] == t
  }

  ghost predicate LocksOk(s: State) {
    && (forall t, l :: Holds(PcOf(s, t), l) <==> Has(s, t, l))
    && (forall t :: PcOf(s, t).Locking? ==> PcOf(s, t).k <= |Needs(PcOf(s, t).filter)|)
  }

  /** A step of thread `t` alone, to a place in the code that says what it now has. */
  lemma Relocked(s: State, t: Thread, pc: Pc, s': State)
    requires LocksOk(s) && s'.threads == s.threads[t := pc]
    requires pc.Locking? ==> pc.k <= |Needs(pc.filter)|
    requires forall l :: Holds(pc, l) <==> Has(s', t, l)
    requires forall u, l :: u != t ==> (Has(s', u, l) <==> Has(s, u, l))
    ensures LocksOk(s')
  {
    forall u, l ensures Holds(PcOf(s', u), l) <==> Has(s', u, l) {
      assert PcOf(s', u) == if u == t then pc else PcOf(s, u);
    }
    forall u ensures PcOf(s', u).Locking? ==> PcOf(s', u).k <= |Needs(PcOf(s', u).filter)| {
      assert u != t ==> PcOf(s', u) == PcOf(s, u);
    }
  }

  /** The locks that a snapshot takes ascend. */
  lemma NeedsAscend(filter: Option<Source>, i: nat, j: nat)
    requires i < j < |Needs(filter)|
    ensures Needs(filter)[i] < Needs(filter)[j]
  {
  }

  lemma NextNeed(filter: Option<Source>, k: nat)
    requires k < |Needs(filter)|
    ensures forall l :: l in Needs(filter)[..k + 1] <==> l in Needs(filter)[..k] || l == Needs(filter)[k]
  {
    assert Needs(filter)[..k + 1] == Needs(filter)[..k] + [Needs(filter)[k]];
  }

  lemma LockKeepsLocks(s: State, t: Thread)
    requires LocksOk(s)
    ensures LocksOk(LockStep(s, t))
  {
    var s' := LockStep(s, t);
    if s' != s {
      var pc := PcOf(s', t);
      if pc.Locking? { NextNeed(pc.filter, pc.k - 1); }
      forall l ensures Holds(pc, l) <==> Has(s', t, l) { assert Holds(PcOf(s, t), l) <==> Has(s, t, l); }
      forall u, l | u != t ensures Has(s', u, l) <==> Has(s, u, l) { assert Holds(PcOf(s, t), l) <==> Has(s, t, l); }
      hide LocksOk;
      Relocked(s, t, pc, s');
    }
  }

  lemma UnlockKeepsLocks(s: State, t: Thread)
    requires LocksOk(s)
    ensures LocksOk(UnlockStep(s, t))
  {
    var s' := UnlockStep(s, t);
    if s' != s {
      forall l ensures Holds(Done, l) <==> Has(s', t, l) { assert Holds(PcOf(s, t), l) <==> Has(s, t, l); }
      forall u, l | u != t ensures Has(s', u, l) <==> Has(s, u, l) { assert Holds(PcOf(s, t), l) <==> Has(s, t, l); }
      hide LocksOk;
      Relocked(s, t, Done, s');
    }
  }

  lemma StepKeepsLocks(s: State, l: Label)
    requires LocksOk(s)
    ensures LocksOk(Next(s, l)) && Next(s, l).underLock == s.underLock
  {
    match l
    case TakeLock(t) => LockKeepsLocks(s, t);
    case Unlock(t) => UnlockKeepsLocks(s, t);
    case Evict(e) => assert forall t :: PcOf(EvictStep(s, e), t) == PcOf(s, t);
    case Enter(t, _, _) => MovesOnly(s, l, t);
    case Ask(t, _) => MovesOnly(s, l, t);
    case Stamp(t) => MovesOnly(s, l, t);
    case Store(t) => MovesOnly(s, l, t);
  }

  lemma MovesOnly(s: State, l: Label, t: Thread)
    requires LocksOk(s) && (l == Stamp(t) || l == Store(t) || ((l.Enter? || l.Ask?) && l.t == t))
    ensures LocksOk(Next(s, l))
  {
    var s' := Next(s, l);
    if s' != s {
      forall l ensures Holds(PcOf(s', t), l) <==> Has(s', t, l) { assert Holds(PcOf(s, t), l) <==> Has(s, t, l); }
      forall u, l | u != t ensures Has(s', u, l) <==> Has(s, u, l) { assert Holds(PcOf(s, t), l) <==> Has(s, t, l); }
      hide LocksOk;
      Relocked(s, t, PcOf(s', t), s');
    }
  }

  lemma {:induction false} RunKeepsLocks(underLock: bool, labels: seq<Label>)
    ensures LocksOk(Run(Next, Start(underLock), labels)) && Run(Next, Start(underLock), labels).underLock == underLock
  {
    if labels != [] {
      hide LocksOk, Next;
      RunKeepsLocks(underLock, labels[..|labels| - 1]);
      StepKeepsLocks(Run(Next, Start(underLock), labels[..|labels| - 1]), labels[|labels| - 1]);
    } else {
      assert LocksOk(Start(underLock));
    }
  }

  predicate OfThread(l: Label) {
    l.TakeLock? || l.Stamp? || l.Store? || l.Unlock?
  }

  /** A lock that somebody has, and nobody a higher one. */
  lemma HighestLock(s: State) returns (m: Lock)
    requires LocksOk(s) && s.locks != map[]
    ensures m in s.locks && forall l :: l in s.locks ==> l <= m
  {
    var l0 :| l0 in s.locks;
    forall l | l in s.locks ensures l < 5 {
      assert Has(s, s.locks[l], l) && Holds(PcOf(s, s.locks[l]), l);
    }
    m := 4;
    while m !in s.locks
      invariant m < 5 && l0 <= m
      invariant forall l :: l in s.locks ==> l <= m
      decreases m
    {
      m := m - 1;
    }
  }

  /** The holder of the highest lock is never kept waiting: what it still needs is higher. */
  lemma HolderMoves(s: State, m: Lock) returns (l: Label)
    requires LocksOk(s) && m in s.locks && forall l :: l in s.locks ==> l <= m
    ensures OfThread(l) && Next(s, l) != s
  {
    var t := s.locks[m];
    assert Has(s, t, m) && Holds(PcOf(s, t), m);
    match PcOf(s, t)
    case LockedOnly(_, _) => l := Stamp(t);
    case Ready(_) => l := Store(t);
    case Inserted(_) => l := Unlock(t);
    case Locking(filter, k) =>
      if k == |Needs(filter)| {
        l := Unlock(t);
      } else {
        var i :| 0 <= i < k && Needs(filter)[i] == m;
        NeedsAscend(filter, i, k);
        l := TakeLock(t);
      }
    assert PcOf(Next(s, l), t) != PcOf(s, t);
  }

  /** In every run, with or without stamps under the lock, while any call is not done some call can go on. */
  lemma NobodyIsStuck(underLock: bool, labels: seq<Label>, t: Thread)
    requires PcOf(Run(Next, Start(underLock), labels), t) != Done
    ensures exists l :: OfThread(l) && Next(Run(Next, Start(underLock), labels), l) != Run(Next, Start(underLock), labels)
  {
    var s := Run(Next, Start(underLock), labels);
    RunKeepsLocks(underLock, labels);
    if s.locks != map[] {
      var m := HighestLock(s);
      var l := HolderMoves(s, m);
    } else {
      var l := FreeMoves(s, t);
    }
  }

  lemma FreeMoves(s: State, t: Thread) returns (l: Label)
    requires LocksOk(s) && s.locks == map[] && PcOf(s, t) != Done
    ensures OfThread(l) && Next(s, l) != s
  {
    var pc := PcOf(s, t);
    forall l ensures !Holds(pc, l) { assert !Has(s, t, l); }
    if pc.LockedOnly? { assert Holds(pc, LockOf(pc.source)); }
    if pc.Ready? { assert Holds(pc, LockOf(pc.line.source)); }
    if pc.Inserted? { assert Holds(pc, LockOf(pc.source)); }
    if pc.Locking? && pc.k > 0 { assert Holds(pc, Needs(pc.filter)[0]); }
    l := if pc.Entered? && !s.underLock then Stamp(t) else TakeLock(t);
    assert PcOf(Next(s, l), t) != PcOf(s, t);
  }

  // ---- What every step keeps, with the stamp taken under the lock ---------------------

  /** The line of `source` that has its stamp and is not in its ring yet. */
  function InHand(s: State, source: Source): Option<Line> {
    if LockOf(source) in s.locks then
      match PcOf(s, s.locks[LockOf(source)])
      case Ready(line) => if line.source == source then Some(line) else None
      case _ => None
    else None
  }

  /** The ring as it is once the line in hand is in. */
  function Coming(s: State, source: Source): Ring {
    match InHand(s, source)
    case Some(line) => Grown(RingOf(s, source), line)
    case None => RingOf(s, source)
  }

  predicate RingOk(s: State, source: Source) {
    Coming(s, source) == Kept(s.history, Exactly(source))
  }

  ghost predicate Inv(s: State) {
    && s.underLock && LocksOk(s)
    && (forall t :: !PcOf(s, t).StampedOnly?)
    && Ascending(s.history) && Below(s.history, s.counter)
    && (forall source :: RingOk(s, source))
  }

  /** With the stamp under the lock nobody has a stamp and no lock. */
  lemma NeverStampedOnly(s: State, l: Label, u: Thread)
    requires s.underLock && !PcOf(s, u).StampedOnly?
    ensures !PcOf(Next(s, l), u).StampedOnly?
  {
  }

  predicate Steady(l: Label) {
    !l.Stamp? && !l.Store? && !l.Evict?
  }

  lemma SameReady(s: State, l: Label, u: Thread)
    requires Steady(l) && !PcOf(s, u).StampedOnly?
    ensures PcOf(Next(s, l), u).Ready? || PcOf(s, u).Ready? ==> PcOf(Next(s, l), u) == PcOf(s, u)
  {
  }

  /** What is in hand for a ring is what the one thread that is ready with a line of its source has. */
  lemma InHandIs(s: State, source: Source)
    requires LocksOk(s)
    ensures forall t :: PcOf(s, t).Ready? && PcOf(s, t).line.source == source ==> InHand(s, source) == Some(PcOf(s, t).line)
    ensures InHand(s, source).Some? ==> exists t :: PcOf(s, t) == Ready(InHand(s, source).value)
    ensures InHand(s, source).Some? ==> InHand(s, source).value.source == source
  {
    forall t | PcOf(s, t).Ready? && PcOf(s, t).line.source == source ensures InHand(s, source) == Some(PcOf(s, t).line) {
      assert Holds(PcOf(s, t), LockOf(source)) && Has(s, t, LockOf(source));
    }
  }

  /** Steps that neither stamp nor store leave what is in hand for every ring as it is. */
  lemma SteadyInHand(s: State, l: Label, source: Source)
    requires Inv(s) && Steady(l)
    ensures InHand(Next(s, l), source) == InHand(s, source)
  {
    hide Next, LocksOk, InHand, RingOk;
    StepKeepsLocks(s, l);
    InHandIs(s, source);
    InHandIs(Next(s, l), source);
    forall u ensures PcOf(Next(s, l), u).Ready? || PcOf(s, u).Ready? ==> PcOf(Next(s, l), u) == PcOf(s, u) {
      SameReady(s, l, u);
    }
  }

  lemma SteadyRings(s: State, l: Label)
    requires Steady(l)
    ensures Next(s, l).rings == s.rings && Next(s, l).history == s.history && Next(s, l).counter == s.counter
  {
  }

  lemma SteadyKeeps(s: State, l: Label)
    requires Inv(s) && Steady(l)
    ensures Inv(Next(s, l))
  {
    hide Next, LocksOk, InHand;
    var s' := Next(s, l);
    StepKeepsLocks(s, l);
    SteadyRings(s, l);
    forall u ensures !PcOf(s', u).StampedOnly? { NeverStampedOnly(s, l, u); }
    forall source ensures RingOk(s', source) {
      SteadyInHand(s, l, source);
      assert RingOk(s, source);
    }
  }

  lemma StampKeeps(s: State, t: Thread)
    requires Inv(s)
    ensures Inv(StampStep(s, t))
  {
    hide LocksOk;
    var s' := StampStep(s, t);
    if s' != s {
      StepKeepsLocks(s, Stamp(t));
      var line := PcOf(s', t).line;
      forall u ensures !PcOf(s', u).StampedOnly? { NeverStampedOnly(s, Stamp(t), u); }
      forall source ensures RingOk(s', source) {
        assert RingOk(s, source);
        KeptSnoc(s.history, line, source);
        StampedInHand(s, t, source);
      }
    }
  }

  lemma StampedInHand(s: State, t: Thread, source: Source)
    requires Inv(s) && StampStep(s, t) != s
    ensures var line := PcOf(StampStep(s, t), t).line;
      InHand(StampStep(s, t), source) == if line.source == source then Some(line) else InHand(s, source)
    ensures PcOf(StampStep(s, t), t).line.source == source ==> InHand(s, source) == None
  {
    assert Holds(PcOf(s, t), LockOf(PcOf(s, t).source)) && Has(s, t, LockOf(PcOf(s, t).source));
  }

  lemma StoreKeeps(s: State, t: Thread)
    requires Inv(s)
    ensures Inv(StoreStep(s, t))
  {
    var s' := StoreStep(s, t);
    if s' != s {
      StepKeepsLocks(s, Store(t));
      forall u ensures !PcOf(s', u).StampedOnly? { NeverStampedOnly(s, Store(t), u); }
      forall source ensures RingOk(s', source) {
        assert RingOk(s, source);
        StoredInHand(s, t, source);
      }
    }
  }

  lemma StoredInHand(s: State, t: Thread, source: Source)
    requires Inv(s) && PcOf(s, t).Ready?
    ensures var line := PcOf(s, t).line;
      if line.source == source then InHand(s, source) == Some(line) && InHand(StoreStep(s, t), source) == None
      else InHand(StoreStep(s, t), source) == InHand(s, source)
  {
    assert Holds(PcOf(s, t), LockOf(PcOf(s, t).line.source)) && Has(s, t, LockOf(PcOf(s, t).line.source));
  }

  lemma EvictKeeps(s: State, e: Eviction)
    requires Inv(s)
    ensures Inv(EvictStep(s, e))
  {
    var s' := EvictStep(s, e);
    if s' != s {
      StepKeepsLocks(s, Evict(e));
      forall u ensures !PcOf(s', u).StampedOnly? { NeverStampedOnly(s, Evict(e), u); }
      FromAscends(s.history, Except(Gone(e)), 0, s.counter);
      forall source ensures RingOk(s', source) {
        assert RingOk(s, source);
        KeptAfterEviction(s.history, Gone(e), source);
        assert Gone(e)(source) ==> LockOf(source) == GuardOf(e);
        assert InHand(s', source) == InHand(s, source);
      }
    }
  }

  lemma StepKeepsInv(s: State, l: Label)
    requires Inv(s)
    ensures Inv(Next(s, l))
  {
    hide Inv, LockStep, StampStep, StoreStep, UnlockStep, EvictStep;
    match l
    case Stamp(t) => StampKeeps(s, t);
    case Store(t) => StoreKeeps(s, t);
    case Evict(e) => EvictKeeps(s, e);
    case Enter(_, _, _) | Ask(_, _) | TakeLock(_) | Unlock(_) => SteadyKeeps(s, l);
  }

  lemma {:induction false} RunKeepsInv(labels: seq<Label>)
    ensures Inv(Run(Next, Start(true), labels))
  {
    if labels != [] {
      hide Inv, Next;
      RunKeepsInv(labels[..|labels| - 1]);
      StepKeepsInv(Run(Next, Start(true), labels[..|labels| - 1]), labels[|labels| - 1]);
    } else {
      RunKeepsLocks(true, []);
      assert forall source :: RingOk(Start(true), source);
    }
  }

  // ---- Main result --------------------------------------------------------------------

  /** The filters under which several rings are merged. */
  predicate Merges(filter: Option<Source>) {
    filter == None || filter == Some(Worker)
  }

  /** What a snapshot gathers: the one ring it is of, or the lines of all rings that pass, in whatever order. */
  ghost predicate Gathers(s: State, filter: Option<Source>, all: seq<Line>) {
    if Merges(filter) then
      NoRepeats(all) && forall x :: x in all <==> Passing(filter)(x.source) && x in RingOf(s, x.source)
    else all == RingOf(s, filter.value)
  }

  /** And what it returns. */
  function Returned(filter: Option<Source>, all: seq<Line>, n: nat): seq<string> {
    Texts(LastN(if Merges(filter) then SortByStamp(all) else all, n))
  }

  /**
   A snapshot that has its last lock returns, for any number of lines, what it would return alone, with the pushes and
   evictions so far done one after another in the order of their stamps: the last of the kept lines, oldest first.
   */
  ghost predicate Sequential(s: State, t: Thread) {
    PcOf(s, t).Locking? && PcOf(s, t).k == |Needs(PcOf(s, t).filter)| ==>
      forall all, n: nat :: Gathers(s, PcOf(s, t).filter, all) ==>
        var texts, kept := Returned(PcOf(s, t).filter, all, n), Kept(s.history, Passing(PcOf(s, t).filter));
        && |texts| == (if n < |kept| then n else |kept|)
        && forall i :: 0 <= i < |texts| ==> texts[i] == kept[|kept| - |texts| + i].text
  }

  lemma PassingIsLocked(s: State, t: Thread, source: Source)
    requires Inv(s) && PcOf(s, t).Locking? && PcOf(s, t).k == |Needs(PcOf(s, t).filter)|
    requires Passing(PcOf(s, t).filter)(source)
    ensures RingOf(s, source) == Kept(s.history, Exactly(source))
  {
    var filter := PcOf(s, t).filter;
    assert Needs(filter)[..|Needs(filter)|] == Needs(filter);
    assert LockOf(source) in Needs(filter) by {
      match source {
        case Serve => assert Needs(filter)[0] == 0;
        case Worker => assert filter == None ==> Needs(filter)[1] == 1;
        case LocalWorker(_) => assert filter == None ==> Needs(filter)[2] == 2;
        case RemoteWorker(_, _) => assert filter == None ==> Needs(filter)[3] == 3;
        case RemoteNode(_) => assert filter == None ==> Needs(filter)[4] == 4;
      }
    }
    assert Holds(PcOf(s, t), LockOf(source)) && Has(s, t, LockOf(source));
    assert RingOk(s, source);
  }

  lemma AllIsSequential(s: State, t: Thread)
    requires Inv(s)
    ensures Sequential(s, t)
  {
    hide Inv, Gathers, Returned, Kept, Passing, Needs;
    if PcOf(s, t).Locking? && PcOf(s, t).k == |Needs(PcOf(s, t).filter)| {
      forall all, n: nat | Gathers(s, PcOf(s, t).filter, all)
        ensures var texts, kept := Returned(PcOf(s, t).filter, all, n), Kept(s.history, Passing(PcOf(s, t).filter));
          && |texts| == (if n < |kept| then n else |kept|)
          && forall i :: 0 <= i < |texts| ==> texts[i] == kept[|kept| - |texts| + i].text
      {
        ReturnsKept(s, t, all, n);
      }
    }
  }

  lemma ReturnsKept(s: State, t: Thread, all: seq<Line>, n: nat)
    requires Inv(s) && PcOf(s, t).Locking? && PcOf(s, t).k == |Needs(PcOf(s, t).filter)|
    requires Gathers(s, PcOf(s, t).filter, all)
    ensures var texts, kept := Returned(PcOf(s, t).filter, all, n), Kept(s.history, Passing(PcOf(s, t).filter));
      && |texts| == (if n < |kept| then n else |kept|)
      && forall i :: 0 <= i < |texts| ==> texts[i] == kept[|kept| - |texts| + i].text
  {
    hide Inv, Gathers, Kept, Passing, Needs, SortByStamp, LastN, Texts;
    GatheredIsKept(s, t, all);
    TextsOfLast(Kept(s.history, Passing(PcOf(s, t).filter)), n);
  }

  lemma GatheredIsKept(s: State, t: Thread, all: seq<Line>)
    requires Inv(s) && PcOf(s, t).Locking? && PcOf(s, t).k == |Needs(PcOf(s, t).filter)|
    requires Gathers(s, PcOf(s, t).filter, all)
    ensures var filter := PcOf(s, t).filter;
      (if Merges(filter) then SortByStamp(all) else all) == Kept(s.history, Passing(filter))
  {
    var filter := PcOf(s, t).filter;
    var want := Kept(s.history, Passing(filter));
    KeptAscends(s.history, Passing(filter), 0);
    if Merges(filter) {
      forall x ensures x in all <==> x in want {
        KeptMember(s.history, Passing(filter), x, 0);
        if Passing(filter)(x.source) { PassingIsLocked(s, t, x.source); }
      }
      SortRestores(all, want);
    } else {
      PassingIsLocked(s, t, filter.value);
      KeptAscends(s.history, Exactly(filter.value), 0);
      forall x ensures x in all <==> x in want {
        KeptMember(s.history, Passing(filter), x, 0);
        KeptMember(s.history, Exactly(filter.value), x, 0);
      }
      AscendingIsUnique(all, want);
    }
  }

  // ---- And only so --------------------------------------------------------------------

  const RACE: seq<Label> := [Enter(0, Serve, "a"), Stamp(0), Enter(1, Serve, "b"), Stamp(1)]
  const OVERTAKE: seq<Label> := [TakeLock(1), Store(1), Unlock(1), Ask(2, Some(Serve)), TakeLock(2)]
  const FIRST: Line := Line(Serve, 0, "a")
  const SECOND: Line := Line(Serve, 1, "b")

  function Raced(): State {
    State(false, map[], [FIRST, SECOND], map[], 2, map[0 := StampedOnly(FIRST), 1 := StampedOnly(SECOND)])
  }

  function Overtaken(): State {
    State(false, map[Serve := [SECOND]], [FIRST, SECOND], map[0 := 2], 2,
      map[0 := StampedOnly(FIRST), 1 := Done, 2 := Locking(Some(Serve), 1)])
  }

  lemma RaceSteps()
    ensures Next(Next(Next(Next(Start(false), Enter(0, Serve, "a")), Stamp(0)), Enter(1, Serve, "b")), Stamp(1)) == Raced()
  {
    var none: seq<Line> := [];
    assert none + [FIRST] == [FIRST] && [FIRST] + [SECOND] == [FIRST, SECOND];
  }

  function Second(ring: Ring, locks: map<Lock, Thread>, pc: Pc): State {
    State(false, map[Serve := ring], [FIRST, SECOND], locks, 2, map[0 := StampedOnly(FIRST), 1 := pc])
  }

  lemma SecondIsStored()
    ensures Next(Next(Next(Raced(), TakeLock(1)), Store(1)), Unlock(1)) == Second([SECOND], map[], Done)
  {
    var none: seq<Line> := [];
    assert Grown(none, SECOND) == [SECOND];
  }

  lemma SnapshotLocks()
    ensures Next(Next(Second([SECOND], map[], Done), Ask(2, Some(Serve))), TakeLock(2)) == Overtaken()
  {
  }

  lemma OvertakenMisses()
    ensures !Sequential(Overtaken(), 2)
  {
    var s, p := Overtaken(), Passing(Some(Serve));
    assert Needs(Some(Serve)) == [0];
    assert Gathers(s, Some(Serve), [SECOND]);
    FromSnoc([], FIRST, p, 0);
    FromSnoc([FIRST], SECOND, p, 0);
    assert [] + [FIRST] == [FIRST] && [FIRST] + [SECOND] == [FIRST, SECOND];
    assert Select(s.history, p) == [FIRST, SECOND];
    KeptIsEnough(s.history, p, 2);
    assert |Returned(Some(Serve), [SECOND], 2)| == 1;
    assert |LastN(Kept(s.history, p), 2)| == 2;
  }

  /** Stamped before its ring is locked, a line can be missing from a snapshot that has a later one. */
  lemma StampFirstMisses()
    ensures !Sequential(Run(Next, Start(false), RACE + OVERTAKE), 2)
  {
    hide Next, Sequential;
    RaceSteps();
    SecondIsStored();
    SnapshotLocks();
    RunFour(Next, Start(false), Enter(0, Serve, "a"), Stamp(0), Enter(1, Serve, "b"), Stamp(1));
    RunFive(Next, Raced(), TakeLock(1), Store(1), Unlock(1), Ask(2, Some(Serve)), TakeLock(2));
    RunConcat(Next, Start(false), RACE, OVERTAKE);
    OvertakenMisses();
  }

  /** Every snapshot of every run, whatever its filter, is a sequential one exactly when stamps are taken under the lock. */
  lemma SequentialExactlyUnderLock(underLock: bool)
    ensures (forall labels, t :: Sequential(Run(Next, Start(underLock), labels), t)) <==> underLock
  {
    hide Next, Inv, Sequential;
    if underLock {
      forall labels, t ensures Sequential(Run(Next, Start(underLock), labels), t) {
        RunKeepsInv(labels);
        AllIsSequential(Run(Next, Start(underLock), labels), t);
      }
    } else {
      StampFirstMisses();
    }
  }

  // ---- One call, left to itself -------------------------------------------------------

  lemma PushLocksAndStamps(s: State, t: Thread, source: Source, text: string)
    requires s.underLock && PcOf(s, t) == Entered(source, text) && LockOf(source) !in s.locks
    ensures var line := Line(source, s.counter, text);
      Next(Next(s, TakeLock(t)), Stamp(t)) ==
        s.(threads := s.threads[t := Ready(line)], locks := s.locks[LockOf(source) := t], counter := s.counter + 1,
           history := s.history + [line])
  {
    assert s.threads[t := LockedOnly(source, text)][t := Ready(Line(source, s.counter, text))] ==
      s.threads[t := Ready(Line(source, s.counter, text))];
  }

  lemma PushStoresAndUnlocks(s: State, t: Thread, line: Line, locks: map<Lock, Thread>)
    requires PcOf(s, t) == Ready(line) && LockOf(line.source) !in locks && s.locks == locks[LockOf(line.source) := t]
    ensures Next(Next(s, Store(t)), Unlock(t)) ==
      s.(threads := s.threads[t := Done], locks := locks,
         rings := s.rings[line.source := LastN(RingOf(s, line.source), RING_CAP - 1) + [line]])
  {
    assert s.threads[t := Inserted(line.source)][t := Done] == s.threads[t := Done];
    assert locks[LockOf(line.source) := t] - {LockOf(line.source)} == locks;
  }

  /**
   A push left to itself stamps one line with the counter, appends it to the ring of its source, whose oldest line goes
   when the ring is full, and gives its lock back; every other ring is as it was.
   */
  lemma PushAddsOne(s: State, t: Thread, source: Source, text: string)
    requires s.underLock && PcOf(s, t) == Entered(source, text) && LockOf(source) !in s.locks
    ensures var n, line := Run(Next, s, [TakeLock(t), Stamp(t), Store(t), Unlock(t)]), Line(source, s.counter, text);
      && n.counter == s.counter + 1 && n.history == s.history + [line] && n.locks == s.locks && PcOf(n, t) == Done
      && RingOf(n, source) == RingOf(s, source)[if |RingOf(s, source)| < RING_CAP then 0 else |RingOf(s, source)| - RING_CAP + 1..] + [line]
      && forall other :: other != source ==> RingOf(n, other) == RingOf(s, other)
  {
    hide Next;
    RunFour(Next, s, TakeLock(t), Stamp(t), Store(t), Unlock(t));
    PushLocksAndStamps(s, t, source, text);
    var line := Line(source, s.counter, text);
    PushStoresAndUnlocks(Next(Next(s, TakeLock(t)), Stamp(t)), t, line, s.locks);
  }

  lemma EvictSteps(s: State, e: Eviction, source: Source)
    requires GuardOf(e) !in s.locks
    ensures RingOf(EvictStep(s, e), source) == if Gone(e)(source) then [] else RingOf(s, source)
    ensures EvictStep(s, e) == s.(rings := EvictStep(s, e).rings, history := Select(s.history, Except(Gone(e))))
  {
  }

  /**
   An eviction left to itself takes the rings and the lines of the one worker, of all workers of the one node, or of that
   node's own log, and nothing else; while somebody has the lock of their table it waits.
   */
  lemma EvictTakesExactly(s: State, e: Eviction, source: Source, x: Line)
    ensures var n := Next(s, Evict(e));
      var gone := (source: Source) =>
        match e
        case OfLocal(w) => source == LocalWorker(w)
        case OfRemote(node, w) => source == RemoteWorker(node, w)
        case OfNodeWorkers(node) => source.RemoteWorker? && source.node == node
        case OfNodeLog(node) => source == RemoteNode(node);
      if (if e.OfLocal? then 2 else if e.OfNodeLog? then 4 else 3) in s.locks then n == s
      else
        && RingOf(n, source) == (if gone(source) then [] else RingOf(s, source))
        && (x in n.history <==> x in s.history && !gone(x.source))
        && n.counter == s.counter && n.threads == s.threads && n.locks == s.locks
  {
    if GuardOf(e) !in s.locks {
      EvictSteps(s, e, source);
      SelectMember(s.history, Except(Gone(e)), x);
    }
  }
}
