/**
 What a reader that outlives its lifetime can do to a later one, run by run: a restart does not look at
 the generation again, the running flag is dropped without a look at it, and a start does not wait for the
 lock on the slot.
 */
module LeftOverReaders {
  import opened Generations
  import opened Runs
  import opened Wrappers

  // ---- The restart does not look at the generation again ------------------------------

  /** Reader `r` is between its decision to restart and the end of that restart. */
  predicate InRestart(s: State, r: nat) {
    r < |s.readers| && s.readers[r].pc in {Restarting, Replacing, Installed, Reaping}
  }

  predicate RestartsLate(s: State, r: nat) {
    InRestart(s, r) && s.readers[r].gen < s.gen
  }

  /** The start that moves the generation catches reader `r` in the middle of a restart. */
  predicate Catches(s: State, l: Label, r: nat) {
    l == Bump && s.starter == Claimed && InRestart(s, r) && s.readers[r].gen == s.gen
  }

  /** Step `i` caught reader `r` so, and it is in that restart still. */
  ghost predicate CaughtAt(c: Config, labels: seq<Label>, r: nat, i: nat) {
    && i < |labels| && Catches(StateAt(c, labels, i), labels[i], r)
    && forall k: nat :: i < k <= |labels| ==> InRestart(StateAt(c, labels, k), r)
  }

  ghost predicate CaughtRestarting(c: Config, labels: seq<Label>, r: nat) {
    exists i: nat :: CaughtAt(c, labels, r, i)
  }

  lemma StartersLeaveReaders(s: State, l: Label, r: nat)
    requires !ByReader(l) && r < |s.readers|
    ensures r < |Next(s, l).readers| && Next(s, l).readers[r] == s.readers[r]
    ensures s.gen <= Next(s, l).gen
  {
  }

  lemma OthersLeaveReader(s: State, l: Label, r: nat)
    requires ByReader(l) && l.r != r
    ensures |Next(s, l).readers| == |s.readers| && (r < |s.readers| ==> Next(s, l).readers[r] == s.readers[r])
  {
    hide DeathStep, RestartStep;
    if Next(s, l) != s {
      var pc := ReaderTouches(s, l);
    }
  }

  lemma RestartBegins(s: State, l: Label, r: nat)
    requires ByReader(l) && !InRestart(s, r) && InRestart(Next(s, l), r)
    ensures l == Wake(r) && Next(s, l).readers[r].gen == s.gen == Next(s, l).gen
  {
    if l.r != r {
      hide Next;
      OthersLeaveReader(s, l, r);
    } else {
      OwnRestartBegins(s, l);
    }
  }

  lemma OwnRestartBegins(s: State, l: Label)
    requires ByReader(l) && !InRestart(s, l.r) && InRestart(Next(s, l), l.r)
    ensures l.Wake? && Next(s, l).readers[l.r].gen == s.gen == Next(s, l).gen
  {
  }

  lemma ReadersKeepGenerations(s: State, l: Label)
    requires ByReader(l)
    ensures Next(s, l).gen == s.gen && Next(s, l).starter == s.starter && |Next(s, l).readers| == |s.readers|
    ensures forall r: nat :: r < |s.readers| ==> Next(s, l).readers[r].gen == s.readers[r].gen
  {
    hide DeathStep, RestartStep, Touches;
    if Next(s, l) != s {
      var pc := ReaderTouches(s, l);
      TouchKeepsGenerations(s, l.r, pc, Next(s, l));
    }
  }

  lemma TouchKeepsGenerations(s: State, r: nat, pc: Pc, n: State)
    requires Touches(s, r, pc, n)
    ensures n.gen == s.gen && n.starter == s.starter && |n.readers| == |s.readers|
    ensures forall i: nat :: i < |s.readers| ==> n.readers[i].gen == s.readers[i].gen
  {
  }

  lemma SpawnedIsReading(s: State, l: Label, r: nat)
    requires !ByReader(l) && |s.readers| <= r < |Next(s, l).readers|
    ensures Next(s, l).readers[r] == Reader(s.gen, Reading) && Next(s, l).gen == s.gen && l == SpawnReader && s.starter == Both
  {
  }

  lemma GenerationMoves(s: State, l: Label)
    requires s.config.bumpFirst && !ByReader(l)
    ensures Next(s, l).gen == if l == Bump && s.starter == Claimed then s.gen + 1 else s.gen
  {
  }

  lemma RestartingStep(s: State, l: Label, r: nat)
    requires Inv(s) && s.config.bumpFirst
    ensures RestartsLate(Next(s, l), r) <==>
      Catches(s, l, r) || (RestartsLate(s, r) && InRestart(Next(s, l), r))
  {
    hide Next, ThingsOk, LockOk;
    if ByReader(l) {
      ReadersKeepGenerations(s, l);
      if !InRestart(s, r) && InRestart(Next(s, l), r) { RestartBegins(s, l, r); }
    } else {
      GenerationMoves(s, l);
      if r < |s.readers| {
        StartersLeaveReaders(s, l, r);
      } else if r < |Next(s, l).readers| {
        SpawnedIsReading(s, l, r);
      }
    }
  }

  /** A reader is in the middle of a restart in a lifetime not its own exactly when a later start caught it there. */
  lemma CaughtExactly(c: Config, labels: seq<Label>, r: nat)
    requires c.bumpFirst
    ensures CaughtRestarting(c, labels, r) <==> RestartsLate(StateAt(c, labels, |labels|), r)
  {
    hide StateAt, Next, Catches, InRestart, Inv;
    var p := (k: nat) => RestartsLate(StateAt(c, labels, k), r);
    var up := (k: nat) => k < |labels| && Catches(StateAt(c, labels, k), labels[k], r);
    var down := (k: nat) => !InRestart(StateAt(c, labels, k + 1), r);
    NobodyAtFirst(c, labels, r);
    forall k: nat | k < |labels| ensures p(k + 1) <==> up(k) || (p(k) && !down(k)) {
      StateStep(c, labels, k);
      StateKeepsInv(c, labels, k);
      RestartingStep(StateAt(c, labels, k), labels[k], r);
    }
    HoldsSince(p, up, down, |labels|);
    if p(|labels|) {
      var i: nat :| i < |labels| && up(i) && forall k: nat :: i < k < |labels| ==> !down(k);
      assert p(i + 1);
      forall k: nat | i < k <= |labels| ensures InRestart(StateAt(c, labels, k), r) { if k > i + 1 { assert !down(k - 1); } }
      assert CaughtAt(c, labels, r, i);
    }
    if i: nat :| CaughtAt(c, labels, r, i) {
      assert up(i) && forall k: nat :: i < k < |labels| ==> !down(k);
    }
  }

  lemma NobodyAtFirst(c: Config, labels: seq<Label>, r: nat)
    ensures StateAt(c, labels, 0) == Start(c) && !InRestart(Start(c), r)
    ensures !RestartsLate(StateAt(c, labels, 0), r)
  {
  }

  /** The channel of a later lifetime gives way to one of an earlier lifetime. */
  predicate Replaces(s: State, l: Label, r: nat) {
    r < |s.readers| && ChannelLater(s, s.readers[r].gen) && Next(s, l).channel == Some(s.readers[r].gen)
  }

  /** The step of reader `r` takes the child of a later lifetime out of the slot. */
  predicate TakesChild(s: State, l: Label, r: nat) {
    r < |s.readers| && s.slot.Some? && s.slot.value > s.readers[r].gen && By(l, r) && Next(s, l).slot != s.slot
  }

  lemma ReplacedByRestart(s: State, l: Label, r: nat)
    requires Inv(s) && Replaces(s, l, r)
    ensures At(s, r, Installed)
  {
    hide LockOk;
    assert l.Reopen? && At(s, l.r, Installed) by { hide ReadersOk; if l == Publish { Newest(s, r); } }
    assert l.r == r;
  }

  lemma Newest(s: State, r: nat)
    requires ReadersOk(s) && r < |s.readers|
    ensures s.readers[r].gen <= LastSpawned(s)
  {
  }

  lemma TakenByRestart(s: State, l: Label, r: nat)
    requires Inv(s) && TakesChild(s, l, r)
    ensures At(s, r, Restarting) && s.lock.None?
  {
  }

  /**
   A channel goes back to an earlier lifetime exactly when a later start caught that lifetime's reader in the
   middle of a restart, and has published its own before the reader did.
   */
  lemma RestartReplacesExactly(c: Config, labels: seq<Label>, r: nat)
    requires c.bumpFirst
    ensures var s := StateAt(c, labels, |labels|);
      (exists l :: Replaces(s, l, r)) <==>
        CaughtRestarting(c, labels, r) && At(s, r, Installed) && ChannelLater(s, s.readers[r].gen)
  {
    hide StateAt;
    var s := StateAt(c, labels, |labels|);
    StateKeepsInv(c, labels, |labels|);
    CaughtExactly(c, labels, r);
    if l :| Replaces(s, l, r) {
      ReplacedByRestart(s, l, r);
    }
    if At(s, r, Installed) && ChannelLater(s, s.readers[r].gen) {
      assert Replaces(s, Reopen(r), r);
    }
  }

  /** And the reader takes the live child of the later lifetime, and reaps it, exactly when it was caught before the lock. */
  lemma RestartTakesChildExactly(c: Config, labels: seq<Label>, r: nat)
    requires c.bumpFirst
    ensures var s := StateAt(c, labels, |labels|);
      (exists l :: TakesChild(s, l, r)) <==>
        && CaughtRestarting(c, labels, r) && At(s, r, Restarting) && s.lock.None?
        && s.slot.Some? && s.slot.value > s.readers[r].gen
  {
    hide StateAt;
    var s := StateAt(c, labels, |labels|);
    StateKeepsInv(c, labels, |labels|);
    CaughtExactly(c, labels, r);
    if l :| TakesChild(s, l, r) {
      TakenByRestart(s, l, r);
    }
    if At(s, r, Restarting) && s.lock.None? && s.slot.Some? && s.slot.value > s.readers[r].gen {
      assert TakesChild(s, GiveUp(r), r);
    }
  }

  // ---- The running flag ----------------------------------------------------------------

  /** The lifetime that the running flag stands for, while it is up. */
  function FlagOf(s: State): nat {
    if s.starter == Idle then s.gen else Starting(s)
  }

  /** The flag is up for a lifetime after reader `r`'s. */
  predicate FlagLater(s: State, r: nat) {
    r < |s.readers| && s.running && s.readers[r].gen < FlagOf(s)
  }

  /** Reader `r` drops the flag of a later lifetime. */
  predicate DropsFlag(s: State, l: Label, r: nat) {
    FlagLater(s, r) && By(l, r) && !Next(s, l).running
  }

  /** The step is a start that takes the flag when reader `r` is there already. */
  predicate ClaimsAfter(s: State, l: Label, r: nat) {
    l == Claim && !s.running && Next(s, l).running && r < |s.readers|
  }

  /** Step `i` was such a start, and the flag has been up ever since. */
  ghost predicate ClaimedAt(c: Config, labels: seq<Label>, r: nat, i: nat) {
    && i < |labels| && ClaimsAfter(StateAt(c, labels, i), labels[i], r)
    && forall k: nat :: i < k <= |labels| ==> StateAt(c, labels, k).running
  }

  lemma FlagKeepsMeaning(s: State, l: Label)
    requires s.config.bumpFirst && s.starter in {Idle, Claimed, Moved, Both}
    requires !ByReader(l) && s.running && Next(s, l).running
    ensures FlagOf(Next(s, l)) == FlagOf(s)
  {
  }

  lemma FlagRises(s: State, l: Label)
    requires !s.running && Next(s, l).running
    ensures l == Claim && FlagOf(Next(s, l)) == s.gen + 1 && Next(s, l).readers == s.readers
  {
  }

  lemma FlagStep(s: State, l: Label, r: nat)
    requires Inv(s)
    ensures FlagLater(Next(s, l), r) <==> ClaimsAfter(s, l, r) || (FlagLater(s, r) && Next(s, l).running)
  {
    hide Next, LockOk, FlagOf;
    if !s.running && Next(s, l).running {
      FlagRises(s, l);
      if r < |s.readers| { Newest(s, r); }
    } else if s.running && Next(s, l).running {
      if ByReader(l) {
        ReadersKeepGenerations(s, l);
        SameFlag(s, Next(s, l));
      } else {
        FlagKeepsMeaning(s, l);
        if r < |s.readers| {
          StartersLeaveReaders(s, l, r);
        } else if r < |Next(s, l).readers| {
          SpawnedIsReading(s, l, r);
          SpawnedHasFlag(s);
        }
      }
    }
  }

  lemma SameFlag(s: State, n: State)
    requires n.gen == s.gen && n.starter == s.starter
    ensures FlagOf(n) == FlagOf(s)
  {
  }

  lemma SpawnedHasFlag(s: State)
    requires s.starter == Both
    ensures FlagOf(s) == s.gen
  {
  }

  /** The flag is a later lifetime's exactly when a start took it after the reader came, and it has been up since. */
  lemma FlagIsLaterExactly(c: Config, labels: seq<Label>, r: nat)
    requires c.bumpFirst
    ensures FlagLater(StateAt(c, labels, |labels|), r) <==> exists i: nat :: ClaimedAt(c, labels, r, i)
  {
    hide StateAt, Next, FlagOf, ClaimsAfter, Inv;
    var p := (k: nat) => FlagLater(StateAt(c, labels, k), r);
    var up := (k: nat) => k < |labels| && ClaimsAfter(StateAt(c, labels, k), labels[k], r);
    var down := (k: nat) => !StateAt(c, labels, k + 1).running;
    NoFlagAtFirst(c, labels, r);
    forall k: nat | k < |labels| ensures p(k + 1) <==> up(k) || (p(k) && !down(k)) {
      StateStep(c, labels, k);
      StateKeepsInv(c, labels, k);
      FlagStep(StateAt(c, labels, k), labels[k], r);
    }
    HoldsSince(p, up, down, |labels|);
    if p(|labels|) {
      var i: nat :| i < |labels| && up(i) && forall k: nat :: i < k < |labels| ==> !down(k);
      assert p(i + 1);
      forall k: nat | i < k <= |labels| ensures StateAt(c, labels, k).running { if k > i + 1 { assert !down(k - 1); } }
      assert ClaimedAt(c, labels, r, i);
    }
    if i: nat :| ClaimedAt(c, labels, r, i) {
      assert up(i) && forall k: nat :: i < k < |labels| ==> !down(k);
    }
  }

  lemma NoFlagAtFirst(c: Config, labels: seq<Label>, r: nat)
    ensures !FlagLater(StateAt(c, labels, 0), r)
  {
    NobodyAtFirst(c, labels, r);
  }

  lemma DroppedByExit(s: State, l: Label, r: nat)
    requires s.running && By(l, r)
    ensures !Next(s, l).running <==> l == Exit(r) && At(s, r, Leaving)
  {
  }

  /**
   The flag of a later lifetime is dropped by a left-over reader exactly when the reader has decided to leave and
   not yet stored, and a start has taken the flag since the reader came: whether the start came between that
   decision and the store, or caught the reader in a restart that then failed or was called off, or found it
   asleep to be woken by the next stop.
   */
  lemma FlagIsDroppedExactly(c: Config, labels: seq<Label>, r: nat)
    requires c.bumpFirst
    ensures var s := StateAt(c, labels, |labels|);
      (exists l :: DropsFlag(s, l, r)) <==> At(s, r, Leaving) && exists i: nat :: ClaimedAt(c, labels, r, i)
  {
    hide StateAt, Next, FlagOf;
    var s := StateAt(c, labels, |labels|);
    FlagIsLaterExactly(c, labels, r);
    if l :| DropsFlag(s, l, r) {
      DroppedByExit(s, l, r);
    }
    if At(s, r, Leaving) && FlagLater(s, r) {
      DroppedByExit(s, Exit(r), r);
      assert DropsFlag(s, Exit(r), r);
    }
  }

  // ---- The lock on the slot --------------------------------------------------------------

  /** Reader `r` gets the lock on the slot. */
  predicate Locks(s: State, l: Label, r: nat) {
    At(s, r, Restarting) && s.lock.None? && ((l == Take(r) && !s.stopped) || l == GiveUp(r))
  }

  /** Reader `r` has the lock, and this step gives it back. */
  predicate HeldEnds(s: State, l: Label, r: nat) {
    (l == Store(r) && At(s, r, Replacing)) || (l == Reaped(r) && At(s, r, Reaping))
  }

  lemma OwnLockStep(s: State, l: Label)
    requires ByReader(l)
    ensures Holding(Next(s, l), l.r) <==> Locks(s, l, l.r) || (Holding(s, l.r) && !HeldEnds(s, l, l.r))
  {
  }

  lemma LockStep(s: State, l: Label, r: nat)
    ensures Holding(Next(s, l), r) <==> Locks(s, l, r) || (Holding(s, r) && !HeldEnds(s, l, r))
  {
    hide Next;
    if By(l, r) {
      OwnLockStep(s, l);
    } else if ByReader(l) {
      OthersLeaveReader(s, l, r);
    } else if r < |s.readers| {
      StartersLeaveReaders(s, l, r);
    } else if r < |Next(s, l).readers| {
      SpawnedIsReading(s, l, r);
    }
  }

  /** A child of lifetime `g` is put in the slot. */
  predicate PutsIn(s: State, l: Label, g: nat) {
    || (l == Publish && CanPublish(s) && Starting(s) == g && s.lock.None?)
    || (l.Store? && At(s, l.r, Replacing) && s.readers[l.r].gen == g)
  }

  /** Whatever child is in the slot leaves it: reaped by a stop or a restart, or replaced. */
  predicate TakesOut(s: State, l: Label) {
    || (l == StopEnd && s.stop == Dropped && s.lock.None?)
    || ((l.Take? || l.GiveUp?) && Locks(s, l, l.r))
    || (l == Publish && CanPublish(s) && s.lock.None?)
    || (l.Store? && At(s, l.r, Replacing))
  }

  lemma SlotStep(s: State, l: Label, g: nat)
    ensures Next(s, l).slot == Some(g) <==> PutsIn(s, l, g) || (s.slot == Some(g) && !TakesOut(s, l))
  {
  }

  predicate Loses(s: State, l: Label, g: nat) {
    l == Publish && CanPublish(s) && if s.lock.Some? then Starting(s) == g else s.slot == Some(g)
  }

  lemma LossStep(s: State, l: Label, g: nat)
    ensures g in Next(s, l).lost <==> g in s.lost || Loses(s, l, g)
  {
  }

  lemma {:induction false} LostBy(c: Config, labels: seq<Label>, g: nat, n: nat)
    requires n <= |labels|
    ensures g in StateAt(c, labels, n).lost <==> exists i: nat :: i < n && Loses(StateAt(c, labels, i), labels[i], g)
  {
    hide StateAt, Next, Loses;
    if n > 0 {
      LostBy(c, labels, g, n - 1);
      StateStep(c, labels, n - 1);
      LossStep(StateAt(c, labels, n - 1), labels[n - 1], g);
    } else {
      NobodyAtFirst(c, labels, 0);
    }
  }

  lemma NoLockAtFirst(c: Config, labels: seq<Label>, r: nat)
    ensures !Holding(StateAt(c, labels, 0), r) && StateAt(c, labels, 0).slot.None? && StateAt(c, labels, 0).lost == {}
  {
    NobodyAtFirst(c, labels, r);
  }

  /** Reader `r` got the lock at step `j` and did not give it back before step `i`. */
  ghost predicate HeldFrom(c: Config, labels: seq<Label>, r: nat, j: nat, i: nat) {
    && j < i <= |labels| && Locks(StateAt(c, labels, j), labels[j], r)
    && (forall k: nat :: j < k < i ==> !HeldEnds(StateAt(c, labels, k), labels[k], r))
  }

  lemma HoldingSince(c: Config, labels: seq<Label>, r: nat, i: nat)
    requires i <= |labels|
    ensures Holding(StateAt(c, labels, i), r) <==> exists j: nat :: HeldFrom(c, labels, r, j, i)
  {
    hide StateAt, Next, Holding, Locks, HeldEnds;
    var p := (k: nat) => Holding(StateAt(c, labels, k), r);
    var up := (k: nat) => k < |labels| && Locks(StateAt(c, labels, k), labels[k], r);
    var down := (k: nat) => k < |labels| && HeldEnds(StateAt(c, labels, k), labels[k], r);
    NoLockAtFirst(c, labels, r);
    forall k: nat | k < i ensures p(k + 1) <==> up(k) || (p(k) && !down(k)) {
      StateStep(c, labels, k);
      LockStep(StateAt(c, labels, k), labels[k], r);
    }
    HoldsSince(p, up, down, i);
    if p(i) {
      var j: nat :| j < i && up(j) && forall k: nat :: j < k < i ==> !down(k);
      forall k: nat | j < k < i ensures !HeldEnds(StateAt(c, labels, k), labels[k], r) { assert !down(k); }
      assert HeldFrom(c, labels, r, j, i);
    }
    if j: nat :| HeldFrom(c, labels, r, j, i) {
      assert up(j) && forall k: nat :: j < k < i ==> !down(k);
    }
  }

  /** A child of lifetime `g` was put in the slot at step `j` and not taken out before step `i`. */
  ghost predicate InFrom(c: Config, labels: seq<Label>, g: nat, j: nat, i: nat) {
    && j < i <= |labels| && PutsIn(StateAt(c, labels, j), labels[j], g)
    && (forall k: nat :: j < k < i ==> !TakesOut(StateAt(c, labels, k), labels[k]))
  }

  lemma InSlotSince(c: Config, labels: seq<Label>, g: nat, i: nat)
    requires i <= |labels|
    ensures StateAt(c, labels, i).slot == Some(g) <==> exists j: nat :: InFrom(c, labels, g, j, i)
  {
    hide StateAt, Next, PutsIn, TakesOut;
    var p := (k: nat) => StateAt(c, labels, k).slot == Some(g);
    var up := (k: nat) => k < |labels| && PutsIn(StateAt(c, labels, k), labels[k], g);
    var down := (k: nat) => k < |labels| && TakesOut(StateAt(c, labels, k), labels[k]);
    NoLockAtFirst(c, labels, 0);
    forall k: nat | k < i ensures p(k + 1) <==> up(k) || (p(k) && !down(k)) {
      StateStep(c, labels, k);
      SlotStep(StateAt(c, labels, k), labels[k], g);
    }
    HoldsSince(p, up, down, i);
    if p(i) {
      var j: nat :| j < i && up(j) && forall k: nat :: j < k < i ==> !down(k);
      forall k: nat | j < k < i ensures !TakesOut(StateAt(c, labels, k), labels[k]) { assert !down(k); }
      assert InFrom(c, labels, g, j, i);
    }
    if j: nat :| InFrom(c, labels, g, j, i) {
      assert up(j) && forall k: nat :: j < k < i ==> !down(k);
    }
  }

  predicate PublishesNow(s: State, l: Label) {
    l == Publish && CanPublish(s)
  }

  /** Step `i` publishes lifetime `g` while reader `r`, of an earlier one, has had the lock on the slot since step `j`. */
  ghost predicate LockedOutAt(c: Config, labels: seq<Label>, g: nat, r: nat, j: nat, i: nat) {
    && i < |labels| && HeldFrom(c, labels, r, j, i)
    && PublishesNow(StateAt(c, labels, i), labels[i]) && StateAt(c, labels, i).gen == g
    && r < |StateAt(c, labels, i).readers| && StateAt(c, labels, i).readers[r].gen < g
  }

  ghost predicate LockedOut(c: Config, labels: seq<Label>, g: nat) {
    exists r: nat, j: nat, i: nat :: LockedOutAt(c, labels, g, r, j, i)
  }

  /** Step `i` publishes with the lock free, and a child of lifetime `g` has been in the slot since step `j`. */
  ghost predicate ReplacedAt(c: Config, labels: seq<Label>, g: nat, j: nat, i: nat) {
    && i < |labels| && InFrom(c, labels, g, j, i)
    && PublishesNow(StateAt(c, labels, i), labels[i]) && StateAt(c, labels, i).lock.None?
  }

  ghost predicate Replaced(c: Config, labels: seq<Label>, g: nat) {
    exists j: nat, i: nat :: ReplacedAt(c, labels, g, j, i)
  }

  lemma LosesMeans(s: State, l: Label, g: nat)
    requires Inv(s) && s.lock.Some?
    ensures Loses(s, l, g) <==> PublishesNow(s, l) && s.gen == g
    ensures Holding(s, s.lock.value)
    ensures PublishesNow(s, l) && s.gen == g ==> s.readers[s.lock.value].gen < g
    ensures forall r: nat :: Holding(s, r) ==> r == s.lock.value
  {
  }

  lemma LostIsFound(c: Config, labels: seq<Label>, g: nat, i: nat)
    requires c.bumpFirst && i < |labels| && Loses(StateAt(c, labels, i), labels[i], g)
    ensures LockedOut(c, labels, g) || Replaced(c, labels, g)
  {
    hide StateAt, Next, Inv, Holding, HeldFrom, InFrom, CanPublish;
    var s := StateAt(c, labels, i);
    StateKeepsInv(c, labels, i);
    if s.lock.Some? {
      LosesMeans(s, labels[i], g);
      HoldingSince(c, labels, s.lock.value, i);
      var j: nat :| HeldFrom(c, labels, s.lock.value, j, i);
      assert LockedOutAt(c, labels, g, s.lock.value, j, i) by { HeldIsThere(s, s.lock.value); }
    } else {
      InSlotSince(c, labels, g, i);
      var j: nat :| InFrom(c, labels, g, j, i);
      assert ReplacedAt(c, labels, g, j, i);
    }
  }

  lemma HeldIsThere(s: State, r: nat)
    requires Holding(s, r)
    ensures r < |s.readers|
  {
  }

  lemma FoundIsLost(c: Config, labels: seq<Label>, g: nat) returns (i: nat)
    requires c.bumpFirst && (LockedOut(c, labels, g) || Replaced(c, labels, g))
    ensures i < |labels| && Loses(StateAt(c, labels, i), labels[i], g)
  {
    hide StateAt, Next, Inv, Holding, HeldFrom, InFrom, CanPublish;
    if LockedOut(c, labels, g) {
      var r: nat, j: nat, i0: nat :| LockedOutAt(c, labels, g, r, j, i0);
      i := i0;
      StateKeepsInv(c, labels, i);
      HoldingSince(c, labels, r, i);
      HolderHasLock(StateAt(c, labels, i), r);
      LosesMeans(StateAt(c, labels, i), labels[i], g);
    } else {
      var j: nat, i0: nat :| ReplacedAt(c, labels, g, j, i0);
      i := i0;
      InSlotSince(c, labels, g, i);
    }
  }

  lemma HolderHasLock(s: State, r: nat)
    requires Inv(s) && Holding(s, r)
    ensures s.lock == Some(r)
  {
  }

  /**
   A child of lifetime `g` is dropped without being reaped exactly when its start found the lock on the slot held by a
   reader of an earlier lifetime, or a later start found it still in the slot.
   */
  lemma ChildIsLostExactly(c: Config, labels: seq<Label>, g: nat)
    requires c.bumpFirst
    ensures g in StateAt(c, labels, |labels|).lost <==> LockedOut(c, labels, g) || Replaced(c, labels, g)
  {
    hide StateAt, Next, Loses, LockedOut, Replaced;
    LostBy(c, labels, g, |labels|);
    if LockedOut(c, labels, g) || Replaced(c, labels, g) {
      var i := FoundIsLost(c, labels, g);
    }
    if i: nat :| i < |labels| && Loses(StateAt(c, labels, i), labels[i], g) {
      LostIsFound(c, labels, g, i);
    }
  }

  // ---- And it happens ------------------------------------------------------------------

  const RESTARTING: seq<Label> := [Eof(0), Wake(0), StopBegin, StopClose, StopEnd]

  /** Lifetime 1 stopped, with its reader somewhere still. */
  function Stopped(pc: Pc): State {
    State(Config(true, true), 1, false, true, NoStop, None, None, None, {}, {}, [Reader(1, pc)], Idle)
  }

  /** Lifetime 2 live beside it. */
  function SecondLive(pc: Pc): State {
    State(Config(true, true), 2, true, false, NoStop, Some(2), Some(2), None, {}, {}, [Reader(1, pc), Reader(2, Reading)], Idle)
  }

  /** Lifetime 1, its worker dead and its reader about to restart it. */
  function Dying(): State {
    OneLive(Config(true, true)).(channel := None, readers := [Reader(1, Restarting)])
  }

  lemma DyingSteps()
    ensures Next(Next(OneLive(Config(true, true)), Eof(0)), Wake(0)) == Dying()
  {
  }

  lemma StoppedWhileRestarting()
    ensures Run(Next, OneLive(Config(true, true)), RESTARTING) == Stopped(Restarting)
  {
    hide Next;
    DyingSteps();
    StopSteps(Dying());
    RunFive(Next, OneLive(Config(true, true)), Eof(0), Wake(0), StopBegin, StopClose, StopEnd);
  }

  lemma StartedMeanwhile(pc: Pc)
    ensures Run(Next, Stopped(pc), PROMPT) == SecondLive(pc)
  {
    RunFour(Next, Stopped(pc), Claim, Bump, Publish, SpawnReader);
  }

  lemma TwoLifetimes()
    ensures Run(Next, Start(Config(true, true)), PROMPT + RESTARTING + PROMPT) == SecondLive(Restarting)
  {
    PromptLifetime(true);
    StoppedWhileRestarting();
    StartedMeanwhile(Restarting);
    RunConcat(Next, Start(Config(true, true)), PROMPT, RESTARTING);
    RunConcat(Next, Start(Config(true, true)), PROMPT + RESTARTING, PROMPT);
  }

  const RESTARTED: seq<Label> := [Take(0), Store(0), Reopen(0)]

  lemma RestartedSteps()
    ensures Next(Next(Next(SecondLive(Restarting), Take(0)), Store(0)), Reopen(0)) ==
      SecondLive(Reading).(slot := Some(1), channel := Some(1))
  {
  }

  lemma RestartsOver()
    ensures Run(Next, SecondLive(Restarting), RESTARTED) == SecondLive(Reading).(slot := Some(1), channel := Some(1))
  {
    hide Next;
    RestartedSteps();
    RunThree(Next, SecondLive(Restarting), Take(0), Store(0), Reopen(0));
  }

  /** The reader of lifetime 1 ends up with its channel and its child in the place of lifetime 2's. */
  lemma RestartReplaces()
    ensures var s := Run(Next, Start(Config(true, true)), PROMPT + RESTARTING + PROMPT + RESTARTED);
      s.gen == 2 && s.channel == s.slot == Some(1) && At(s, 0, Reading) && At(s, 1, Reading)
  {
    TwoLifetimes();
    RestartsOver();
    RunConcat(Next, Start(Config(true, true)), PROMPT + RESTARTING + PROMPT, RESTARTED);
  }

  const LEAVING: seq<Label> := [StopBegin, StopClose, StopEnd, Eof(0)]

  lemma LeavingSteps()
    ensures Next(Next(Next(Next(OneLive(Config(true, true)), StopBegin), StopClose), StopEnd), Eof(0)) == Stopped(Leaving)
  {
  }

  lemma StoppedWhileLeaving()
    ensures Run(Next, OneLive(Config(true, true)), LEAVING) == Stopped(Leaving)
  {
    hide Next;
    LeavingSteps();
    RunFour(Next, OneLive(Config(true, true)), StopBegin, StopClose, StopEnd, Eof(0));
  }

  /** Lifetime 2 live, its flag dropped. */
  function FlagDown(): State {
    SecondLive(Gone).(running := false)
  }

  /**
   A start fits between the decision of a stopped reader to leave and its store, with no restart in sight: the worker
   of lifetime 2 is then live with its flag down. The next start goes ahead beside it and drops the handle of its child.
   */
  lemma FlagIsDropped()
    ensures Run(Next, Start(Config(true, true)), PROMPT + LEAVING + PROMPT + [Exit(0)]) == FlagDown()
    ensures var s := Run(Next, Start(Config(true, true)), PROMPT + LEAVING + PROMPT + [Exit(0)] + PROMPT);
      s.gen == 3 && s.slot == Some(3) && s.lost == {2} && At(s, 1, Reading) && At(s, 2, Reading)
  {
    PromptLifetime(true);
    StoppedWhileLeaving();
    StartedMeanwhile(Leaving);
    RunConcat(Next, Start(Config(true, true)), PROMPT, LEAVING);
    RunConcat(Next, Start(Config(true, true)), PROMPT + LEAVING, PROMPT);
    RunSnoc(Next, Start(Config(true, true)), PROMPT + LEAVING + PROMPT, Exit(0));
    assert [Reader(1, Leaving), Reader(2, Reading)][0 := Reader(1, Gone)] == [Reader(1, Gone), Reader(2, Reading)];
    ThirdStarts();
    RunConcat(Next, Start(Config(true, true)), PROMPT + LEAVING + PROMPT + [Exit(0)], PROMPT);
  }

  lemma ThirdStarts()
    ensures var n := Run(Next, FlagDown(), PROMPT);
      n.gen == 3 && n.slot == Some(3) && n.lost == {2} && At(n, 1, Reading) && At(n, 2, Reading)
  {
    RunFour(Next, FlagDown(), Claim, Bump, Publish, SpawnReader);
  }

  const LOCKED: seq<Label> := [Claim, Take(0), Bump, Publish]

  /** Lifetime 2 published while lifetime 1's reader has the lock. */
  function LockedStart(): State {
    SecondLive(Replacing).(slot := None, lock := Some(0), lost := {2}, readers := [Reader(1, Replacing)], starter := Both)
  }

  lemma LockedSteps()
    ensures Next(Next(Next(Next(Stopped(Restarting), Claim), Take(0)), Bump), Publish) == LockedStart()
  {
  }

  lemma StartedUnderLock()
    ensures Run(Next, Stopped(Restarting), LOCKED) == LockedStart()
  {
    hide Next;
    LockedSteps();
    RunFour(Next, Stopped(Restarting), Claim, Take(0), Bump, Publish);
  }

  /** A left-over restart that has the lock when lifetime 2 is published: the child of lifetime 2 is nowhere. */
  lemma ChildIsLost()
    ensures var s := Run(Next, Start(Config(true, true)), PROMPT + RESTARTING + LOCKED);
      s.lost == {2} && s.slot.None? && s.channel == Some(2) && At(s, 0, Replacing)
  {
    PromptLifetime(true);
    StoppedWhileRestarting();
    StartedUnderLock();
    RunConcat(Next, Start(Config(true, true)), PROMPT, RESTARTING);
    RunConcat(Next, Start(Config(true, true)), PROMPT + RESTARTING, LOCKED);
  }
}
