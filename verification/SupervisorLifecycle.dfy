/**
 The lifetimes of a supervised worker, one after another: a start, any number of crashes and
 restarts, and a stop at any moment, interleaved at every point where another thread can act.
 A start never runs beside a stop; that is the caller's side of the bargain. Nor does it run
 beside a reader that an earlier lifetime left over.
 */
module SupervisorLifecycle {
  import opened Runs
  import opened Wrappers

  type Child = nat

  datatype Holder = Free | ByReader | ByStopper

  datatype Starter = Idle | Bumped | Spawned(child: Child) | Started | StartFailed

  datatype Reader =
    | Absent
    | Reading
    | Sleeping                                // the backoff after an unexpected death
    | Respawning
    | Fresh(child: Child)                     // a replacement nobody else knows of
    | Installing(child: Child)                // waiting for the lock on the slot
    | ReapingOld(dead: Child, child: Child)    // holding that lock
    | Installed(child: Child)
    | GivingUp                                // no replacement: waiting for the lock to reap the old child
    | ReapingLast(dead: Child)
    | Abandoning(child: Child)
    | Exiting
    | Finished

  datatype Stopper = NotCalled | Asking | Locking | ReapingChild(child: Child) | Holding | Cleared | Returned

  /** `released`: since the last start a stop has let go of the slot, so whoever locks it next sees that stop. */
  datatype State = State(
    stopped: bool, running: bool, writeTx: Option<Child>, proc: Option<Child>, lock: Holder,
    spawned: nat, reaped: set<Child>, starter: Starter, reader: Reader, stopper: Stopper, released: bool)

  /** `seen` is what a load of the stop flag returned; a load may miss a store it is not ordered after. */
  datatype Label =
    | Bump | Factory(ok: bool) | Install
    | Eof(seen: bool) | Wake(seen: bool) | Respawn(ok: bool) | Check(seen: bool)
    | LockInstall(seen: bool) | OldReaped | Publish | LockGiveUp | NewReaped | ReaderExit
    | StopBegin | StopClear | StopLock | StopReaped | StopFlag | StopRelease

  const START: State := State(false, false, None, None, Free, 0, {}, Idle, Absent, NotCalled, false)

  predicate MaySee(s: State, seen: bool) {
    seen ==> s.stopped
  }

  predicate Starting(s: State) {
    s.starter.Bumped? || s.starter.Spawned?
  }

  predicate Stopping(s: State) {
    s.stopper !in {NotCalled, Returned}
  }

  /** No start or stop is under way, and no reader is left: at first, after a failed start, and after a lifetime. */
  predicate CanStart(s: State) {
    !Starting(s) && !Stopping(s) && s.reader in {Absent, Finished}
  }

  function StartStep(s: State, l: Label): State {
    match l
    case Bump =>
      if CanStart(s) then
        s.(running := true, stopped := false, released := false, starter := Bumped, reader := Absent, stopper := NotCalled)
      else s
    case Factory(ok) =>
      if s.starter != Bumped then s
      else if ok then s.(starter := Spawned(s.spawned), spawned := s.spawned + 1)
      else s.(starter := StartFailed, running := false)
    case Install =>
      if !s.starter.Spawned? then s
      else s.(proc := if s.lock == Free then Some(s.starter.child) else s.proc,
              writeTx := Some(s.starter.child), starter := Started, reader := Reading)
    case _ => s
  }

  function DeathStep(s: State, l: Label): State {
    match l
    case Eof(seen) =>
      if s.reader == Reading && MaySee(s, seen) then
        s.(writeTx := None, reader := if seen then Exiting else Sleeping)
      else s
    case Wake(seen) =>
      if s.reader == Sleeping && MaySee(s, seen) then s.(reader := if seen then Exiting else Respawning) else s
    case Respawn(ok) =>
      if s.reader != Respawning then s
      else if ok then s.(reader := Fresh(s.spawned), spawned := s.spawned + 1)
      else s.(reader := GivingUp)
    case Check(seen) =>
      if s.reader.Fresh? && MaySee(s, seen) then
        s.(reader := if seen then Abandoning(s.reader.child) else Installing(s.reader.child))
      else s
    case _ => s
  }

  function RestartStep(s: State, l: Label): State {
    match l
    case LockInstall(seen) =>
      if s.reader.Installing? && s.lock == Free && MaySee(s, seen) && (s.released ==> seen) then
        if seen then s.(reader := Abandoning(s.reader.child))
        else if s.proc.Some? then s.(lock := ByReader, proc := None, reader := ReapingOld(s.proc.value, s.reader.child))
        else s.(proc := Some(s.reader.child), reader := Installed(s.reader.child))
      else s
    case OldReaped =>
      if s.reader.ReapingOld? then
        s.(reaped := s.reaped + {s.reader.dead}, proc := Some(s.reader.child), lock := Free,
           reader := Installed(s.reader.child))
      else if s.reader.ReapingLast? then
        s.(reaped := s.reaped + {s.reader.dead}, lock := Free, reader := Exiting)
      else s
    case Publish =>
      if s.reader.Installed? then s.(writeTx := Some(s.reader.child), reader := Reading) else s
    case LockGiveUp =>
      if s.reader == GivingUp && s.lock == Free then
        if s.proc.Some? then s.(lock := ByReader, proc := None, reader := ReapingLast(s.proc.value))
        else s.(reader := Exiting)
      else s
    case NewReaped =>
      if s.reader.Abandoning? then s.(reaped := s.reaped + {s.reader.child}, reader := Exiting) else s
    case ReaderExit =>
      if s.reader == Exiting then s.(running := false, reader := Finished) else s
    case _ => s
  }

  function StopStep(s: State, l: Label): State {
    match l
    case StopBegin =>
      if !Stopping(s) && !Starting(s) then
        s.(stopped := true, stopper := Asking)
      else s
    case StopClear => if s.stopper == Asking then s.(writeTx := None, stopper := Locking) else s
    case StopLock =>
      if s.stopper == Locking && s.lock == Free then
        if s.proc.Some? then s.(lock := ByStopper, proc := None, stopper := ReapingChild(s.proc.value))
        else s.(lock := ByStopper, stopper := Holding)
      else s
    case StopReaped =>
      if s.stopper.ReapingChild? then s.(reaped := s.reaped + {s.stopper.child}, stopper := Holding) else s
    case StopFlag => if s.stopper == Holding then s.(running := false, stopper := Cleared) else s
    case StopRelease => if s.stopper == Cleared then s.(lock := Free, stopper := Returned, released := true) else s
    case _ => s
  }

  /** A step that cannot be taken changes nothing. */
  function Next(s: State, l: Label): State {
    match l
    case Bump | Factory(_) | Install => StartStep(s, l)
    case Eof(_) | Wake(_) | Respawn(_) | Check(_) => DeathStep(s, l)
    case LockInstall(_) | OldReaped | Publish | LockGiveUp | NewReaped | ReaderExit => RestartStep(s, l)
    case StopBegin | StopClear | StopLock | StopReaped | StopFlag | StopRelease => StopStep(s, l)
  }

  // ---- Where a child is -------------------------------------------------------

  function StarterHas(s: Starter): set<Child> {
    if s.Spawned? then {s.child} else {}
  }

  function ReaderHas(r: Reader): set<Child> {
    match r
    case Fresh(c) => {c}
    case Installing(c) => {c}
    case ReapingOld(o, c) => {o, c}
    case ReapingLast(o) => {o}
    case Abandoning(c) => {c}
    case _ => {}
  }

  function StopperHas(s: Stopper): set<Child> {
    if s.ReapingChild? then {s.child} else {}
  }

  function SlotHas(s: State): set<Child> {
    if s.proc.Some? then {s.proc.value} else {}
  }

  function Count(b: bool): nat {
    if b then 1 else 0
  }

  /** In how many places child `c` is: the slot, the starter's, the reader's or the stopper's hands, or reaped. */
  function Places(s: State, c: Child): nat {
    Count(c in SlotHas(s)) + Count(c in StarterHas(s.starter)) + Count(c in ReaderHas(s.reader)) +
    Count(c in StopperHas(s.stopper)) + Count(c in s.reaped)
  }

  predicate OnePlace(s: State, c: Child) {
    Places(s, c) == Count(c < s.spawned)
  }

  ghost predicate ChildrenKept(s: State) {
    && (forall c :: OnePlace(s, c))
    && (s.reader.ReapingOld? ==> s.reader.dead != s.reader.child)
  }

  predicate Control(s: State) {
    && (s.lock == ByReader <==> s.reader.ReapingOld? || s.reader.ReapingLast?)
    && (s.lock == ByReader ==> s.stopper in {NotCalled, Asking, Locking} && !s.released)
    && (s.lock == ByStopper <==> s.stopper.ReapingChild? || s.stopper.Holding? || s.stopper.Cleared?)
    && (s.stopped <==> s.stopper != NotCalled)
    && (s.reader != Absent <==> s.starter == Started)
    && (s.stopper != NotCalled ==> !Starting(s))
    && (s.stopper.ReapingChild? || s.stopper.Holding? || s.stopper.Cleared? || s.released ==> s.proc == None)
    && (s.stopper == Returned ==> s.released) && (s.released ==> s.stopper != NotCalled && !s.stopper.ReapingChild?)
    && (s.reader == Absent ==> s.proc == None)
    && (s.reader in {Exiting, Finished} && !s.stopped ==> s.proc == None)
    && (s.reader.Abandoning? ==> s.stopped)
    && (s.writeTx.Some? ==> s.reader == Reading)
    && (s.reader.ReapingOld? || s.reader.ReapingLast? ==> s.proc == None)
  }

  lemma StartKeepsControl(s: State, l: Label)
    requires Control(s)
    ensures Control(StartStep(s, l)) && Control(DeathStep(s, l))
  {
  }

  lemma StepKeepsControl(s: State, l: Label)
    requires Control(s)
    ensures Control(Next(s, l))
  {
    StartKeepsControl(s, l);
  }

  lemma StartKeepsChildren(s: State, l: Label)
    requires Control(s) && ChildrenKept(s)
    ensures ChildrenKept(StartStep(s, l))
  {
    forall c ensures OnePlace(StartStep(s, l), c) {
      assert OnePlace(s, c);
    }
  }

  lemma DeathKeepsChildren(s: State, l: Label)
    requires Control(s) && ChildrenKept(s)
    ensures ChildrenKept(DeathStep(s, l))
  {
    forall c ensures OnePlace(DeathStep(s, l), c) {
      assert OnePlace(s, c);
    }
  }

  lemma RestartKeepsPlace(s: State, l: Label, c: Child)
    requires Control(s) && OnePlace(s, c)
    requires s.reader.ReapingOld? ==> s.reader.dead != s.reader.child
    ensures OnePlace(RestartStep(s, l), c)
  {
  }

  lemma OldIsNotNew(s: State, l: Label)
    requires ChildrenKept(s) && RestartStep(s, l).reader.ReapingOld?
    ensures RestartStep(s, l).reader.dead != RestartStep(s, l).reader.child
  {
    if s.proc.Some? && s.reader.Installing? {
      assert OnePlace(s, s.proc.value);
    }
  }

  lemma RestartKeepsChildren(s: State, l: Label)
    requires Control(s) && ChildrenKept(s)
    ensures ChildrenKept(RestartStep(s, l))
  {
    hide RestartStep, OnePlace, Control;
    forall c ensures OnePlace(RestartStep(s, l), c) {
      RestartKeepsPlace(s, l, c);
    }
    if RestartStep(s, l).reader.ReapingOld? { OldIsNotNew(s, l); }
  }

  lemma StopKeepsChildren(s: State, l: Label)
    requires Control(s) && ChildrenKept(s)
    ensures ChildrenKept(StopStep(s, l))
  {
    forall c ensures OnePlace(StopStep(s, l), c) {
      assert OnePlace(s, c);
    }
  }

  lemma StepKeepsChildren(s: State, l: Label)
    requires Control(s) && ChildrenKept(s)
    ensures ChildrenKept(Next(s, l))
  {
    StartKeepsChildren(s, l);
    DeathKeepsChildren(s, l);
    RestartKeepsChildren(s, l);
    StopKeepsChildren(s, l);
  }

  /** A child whose channel is published, or about to be, is in the slot or past it. */
  predicate Kept(s: State, c: Child) {
    c in SlotHas(s) || c in StopperHas(s.stopper) || c in s.reaped
  }

  predicate PublishedKept(s: State) {
    && (s.writeTx.Some? ==> Kept(s, s.writeTx.value))
    && (s.reader.Installed? ==> Kept(s, s.reader.child))
  }

  lemma StepKeepsPublished(s: State, l: Label)
    requires Control(s) && PublishedKept(s)
    ensures PublishedKept(Next(s, l))
  {
  }

  ghost predicate Inv(s: State) {
    Control(s) && ChildrenKept(s) && PublishedKept(s)
  }

  lemma {:induction false} RunKeepsInv(labels: seq<Label>)
    ensures Inv(Run(Next, START, labels))
  {
    if labels != [] {
      var s := Run(Next, START, labels[..|labels| - 1]);
      RunKeepsInv(labels[..|labels| - 1]);
      StepKeepsControl(s, labels[|labels| - 1]);
      StepKeepsChildren(s, labels[|labels| - 1]);
      StepKeepsPublished(s, labels[|labels| - 1]);
    }
  }

  // ---- Main results -----------------------------------------------------------

  /** No child is ever lost or held twice. */
  lemma ChildIsInOnePlace(labels: seq<Label>, c: Child)
    ensures var s := Run(Next, START, labels); Places(s, c) == if c < s.spawned then 1 else 0
  {
    RunKeepsInv(labels);
    assert OnePlace(Run(Next, START, labels), c);
  }

  /** Step `i` of the continuation `more` is a start. */
  predicate StartsAt(labels: seq<Label>, more: seq<Label>, i: nat) {
    i < |more| && more[i] == Bump && CanStart(Run(Next, Run(Next, START, labels), more[..i]))
  }

  lemma ReleasedStays(s: State, l: Label)
    requires Control(s) && s.released
    ensures Next(s, l).released || (l == Bump && CanStart(s))
    ensures Next(s, l).released ==> Next(s, l).proc == None
  {
  }

  /** Once a stop has returned nothing but another start ever fills the slot again. */
  lemma {:induction false} StopIsFinal(labels: seq<Label>, more: seq<Label>)
    requires Run(Next, START, labels).stopper == Returned
    ensures var s := Run(Next, Run(Next, START, labels), more);
      (s.released && s.proc == None) || exists i: nat :: StartsAt(labels, more, i)
  {
    hide Next, Inv, CanStart;
    var base := Run(Next, START, labels);
    RunKeepsInv(labels);
    if more == [] {
      ReturnedIsReleased(base);
    } else {
      var front := more[..|more| - 1];
      StopIsFinal(labels, front);
      if i: nat :| StartsAt(labels, front, i) {
        assert front[..i] == more[..i];
        assert StartsAt(labels, more, i);
      } else {
        RunConcat(Next, START, labels, front);
        RunKeepsInv(labels + front);
        ReleasedStays(Run(Next, base, front), more[|more| - 1]);
        if !Run(Next, base, more).released { assert StartsAt(labels, more, |front|); }
      }
    }
  }

  lemma ReturnedIsReleased(s: State)
    requires Inv(s) && s.stopper == Returned
    ensures s.released && s.proc == None
  {
    hide ChildrenKept, PublishedKept;
  }

  lemma LockWaits(s: State, l: Label)
    requires Control(s) && s.lock != Free
    ensures var n := Next(s, l);
      && (n.lock == s.lock || (s.lock == ByReader && l == OldReaped) || (s.lock == ByStopper && l == StopRelease))
      && (n.proc == s.proc || (s.lock == ByReader && l == OldReaped))
      && (s.reader.Installing? || s.reader == GivingUp ==> n.reader == s.reader)
      && (s.stopper == Locking ==> n.stopper == Locking)
  {
  }

  /**
   In every run a lock that is held is let go by its holder alone, and nobody else touches the slot meanwhile: a reader
   that comes to it, to install its child or to give up, waits, and so does a stop.
   */
  lemma LockExcludes(labels: seq<Label>, l: Label)
    requires Run(Next, START, labels).lock != Free
    ensures var s, n := Run(Next, START, labels), Run(Next, START, labels + [l]);
      && (n.lock == s.lock || (s.lock == ByReader && l == OldReaped) || (s.lock == ByStopper && l == StopRelease))
      && (n.proc == s.proc || (s.lock == ByReader && l == OldReaped))
      && (s.reader.Installing? || s.reader == GivingUp ==> n.reader == s.reader)
      && (s.stopper == Locking ==> n.stopper == Locking)
  {
    hide Next;
    RunKeepsInv(labels);
    RunSnoc(Next, START, labels, l);
    LockWaits(Run(Next, START, labels), l);
  }

  predicate AtRest(s: State) {
    s.stopper == Returned && (s.reader == Finished || s.reader == Absent)
  }

  /** When stop and reader are both done, exactly the children ever spawned have been reaped. */
  lemma EveryChildIsReaped(labels: seq<Label>)
    requires AtRest(Run(Next, START, labels))
    ensures var s := Run(Next, START, labels); forall c: Child :: c in s.reaped <==> c < s.spawned
    ensures Run(Next, START, labels).writeTx == None && !Run(Next, START, labels).running
  {
    RunKeepsInv(labels);
    var s := Run(Next, START, labels);
    forall c: Child ensures c in s.reaped <==> c < s.spawned {
      assert OnePlace(s, c);
    }
    NotRunningAtRest(labels);
  }

  /** A reader that gave up on its own, because no replacement could be made, left no child behind. */
  lemma GivingUpReapsAll(labels: seq<Label>)
    requires Run(Next, START, labels).reader == Finished && Run(Next, START, labels).stopper == NotCalled
    ensures var s := Run(Next, START, labels); forall c: Child :: c in s.reaped <==> c < s.spawned
  {
    RunKeepsInv(labels);
    var s := Run(Next, START, labels);
    forall c: Child ensures c in s.reaped <==> c < s.spawned {
      assert OnePlace(s, c);
    }
  }

  /** The running flag drops only with the last step of the stop, the reader, or a start that failed. */
  predicate FlagHonest(s: State) {
    !s.running <==>
      s.released || s.stopper == Cleared || s.reader == Finished || s.starter in {StartFailed, Idle}
  }

  lemma StepKeepsFlag(s: State, l: Label)
    requires Control(s) && FlagHonest(s)
    ensures FlagHonest(Next(s, l))
  {
  }

  lemma {:induction false} NotRunningAtRest(labels: seq<Label>)
    ensures FlagHonest(Run(Next, START, labels))
  {
    if labels != [] {
      NotRunningAtRest(labels[..|labels| - 1]);
      RunKeepsInv(labels[..|labels| - 1]);
      StepKeepsFlag(Run(Next, START, labels[..|labels| - 1]), labels[|labels| - 1]);
    }
  }

  /**
   A channel can be published after the stop returned, but only into a child that the stop has reaped,
   and it lasts only until the reader meets that child's end of file.
   */
  lemma LateChannelIsDead(labels: seq<Label>)
    requires Run(Next, START, labels).stopper == Returned
    ensures var s := Run(Next, START, labels);
      s.writeTx.Some? ==> s.writeTx.value in s.reaped && s.reader == Reading && Next(s, Eof(true)).writeTx == None
  {
    RunKeepsInv(labels);
  }

  /** Since the last start a stop has dropped the channel. */
  predicate Dropped(s: State) {
    s.released || s.stopper !in {NotCalled, Asking}
  }

  /** A restart publishes its channel after the stop has dropped the old one. */
  predicate PublishesLate(s: State, l: Label) {
    l == Publish && s.reader.Installed? && Dropped(s)
  }

  /** The reader meets an end of file, or a stop drops the channel. */
  predicate DropsChannel(s: State, l: Label) {
    (l.Eof? && s.reader == Reading && MaySee(s, l.seen)) || (l == StopClear && s.stopper == Asking)
  }

  predicate LateChannel(s: State) {
    Dropped(s) && s.writeTx.Some?
  }

  lemma LateStep(s: State, l: Label)
    requires Control(s)
    ensures LateChannel(Next(s, l)) <==> PublishesLate(s, l) || (LateChannel(s) && !DropsChannel(s, l))
  {
  }

  function StateAt(labels: seq<Label>, k: nat): State {
    Run(Next, START, if k <= |labels| then labels[..k] else labels)
  }

  lemma StateStep(labels: seq<Label>, k: nat)
    requires k < |labels|
    ensures StateAt(labels, k + 1) == Next(StateAt(labels, k), labels[k])
  {
    RunSnoc(Next, START, labels[..k], labels[k]);
    assert labels[..k + 1] == labels[..k] + [labels[k]];
  }

  /** Step `i` published a channel after the stop's drop; since then the reader met no end of file and no stop dropped it. */
  ghost predicate LateFrom(labels: seq<Label>, i: nat) {
    && i < |labels| && PublishesLate(StateAt(labels, i), labels[i])
    && forall k: nat :: i < k < |labels| ==> !DropsChannel(StateAt(labels, k), labels[k])
  }

  /**
   Once a stop has dropped the channel, and until the next start, there is one exactly in the runs where a restart that
   was under way published another after that, and since then the reader met no end of file and no stop dropped it.
   */
  lemma LateChannelExactly(labels: seq<Label>)
    requires Dropped(Run(Next, START, labels))
    ensures Run(Next, START, labels).writeTx.Some? <==> exists i: nat :: LateFrom(labels, i)
  {
    hide StateAt, Next, PublishesLate, DropsChannel;
    var n := |labels|;
    var p := (k: nat) => LateChannel(StateAt(labels, k));
    var up := (k: nat) => k < n && PublishesLate(StateAt(labels, k), labels[k]);
    var down := (k: nat) => k < n && DropsChannel(StateAt(labels, k), labels[k]);
    StateAtEnds(labels);
    forall k: nat | k < n ensures p(k + 1) <==> up(k) || (p(k) && !down(k)) {
      StateStep(labels, k);
      StateIsControlled(labels, k);
      LateStep(StateAt(labels, k), labels[k]);
    }
    HoldsSince(p, up, down, n);
    if p(n) {
      var i: nat :| i < n && up(i) && forall k: nat :: i < k < n ==> !down(k);
      forall k: nat | i < k < n ensures !DropsChannel(StateAt(labels, k), labels[k]) { assert !down(k); }
      assert LateFrom(labels, i);
    }
    if i: nat :| LateFrom(labels, i) {
      assert up(i) && forall k: nat :: i < k < n ==> !down(k);
    }
  }

  lemma StateAtEnds(labels: seq<Label>)
    ensures StateAt(labels, 0) == START && StateAt(labels, |labels|) == Run(Next, START, labels)
  {
    assert labels[..|labels|] == labels;
  }

  lemma StateIsControlled(labels: seq<Label>, k: nat)
    ensures Control(StateAt(labels, k))
  {
    RunKeepsInv(if k <= |labels| then labels[..k] else labels);
  }

  const CRASH: seq<Label> := [Bump, Factory(true), Install, Eof(false)]
  const RESTART: seq<Label> := [Wake(false), Respawn(true), Check(false), LockInstall(false)]
  const OVERTAKE: seq<Label> := [OldReaped, StopBegin, StopClear, StopLock]
  const LATE: seq<Label> := [StopReaped, StopFlag, StopRelease, Publish]

  const SLEEPING: State := State(false, true, None, Some(0), Free, 1, {}, Started, Sleeping, NotCalled, false)
  const REAPING: State := State(false, true, None, None, ByReader, 2, {}, Started, ReapingOld(0, 1), NotCalled, false)
  const OVERTAKEN: State := State(true, true, None, None, ByStopper, 2, {0}, Started, Installed(1), ReapingChild(1), false)
  const REOPENED: State := State(true, false, Some(1), None, Free, 2, {0, 1}, Started, Reading, Returned, true)

  lemma FirstWorkerDies()
    ensures Next(Next(Next(Next(START, Bump), Factory(true)), Install), Eof(false)) == SLEEPING
  {
  }

  lemma ReplacementIsMade()
    ensures Next(Next(Next(Next(SLEEPING, Wake(false)), Respawn(true)), Check(false)), LockInstall(false)) == REAPING
  {
  }

  lemma StopOvertakes()
    ensures Next(Next(Next(Next(REAPING, OldReaped), StopBegin), StopClear), StopLock) == OVERTAKEN
  {
  }

  lemma ChannelComesLate()
    ensures Next(Next(Next(Next(OVERTAKEN, StopReaped), StopFlag), StopRelease), Publish) == REOPENED
  {
  }

  /** That window is real: the stop overtakes a restart that has stored its child and not yet its channel. */
  lemma LateChannelHappens()
    ensures var s := Run(Next, START, CRASH + RESTART + OVERTAKE + LATE);
      s.stopper == Returned && s.writeTx == Some(1) && 1 in s.reaped
  {
    hide Next;
    FirstWorkerDies();
    ReplacementIsMade();
    StopOvertakes();
    ChannelComesLate();
    RunFour(Next, START, Bump, Factory(true), Install, Eof(false));
    RunFour(Next, SLEEPING, Wake(false), Respawn(true), Check(false), LockInstall(false));
    RunFour(Next, REAPING, OldReaped, StopBegin, StopClear, StopLock);
    RunFour(Next, OVERTAKEN, StopReaped, StopFlag, StopRelease, Publish);
    RunConcat(Next, START, CRASH, RESTART);
    RunConcat(Next, START, CRASH + RESTART, OVERTAKE);
    RunConcat(Next, START, CRASH + RESTART + OVERTAKE, LATE);
  }

  // ---- The stop cannot be wedged ----------------------------------------------

  function ReaderRank(r: Reader): nat {
    match r
    case Absent | Finished => 0
    case Exiting => 1
    case Reading | Sleeping | ReapingLast(_) | Abandoning(_) => 2
    case GivingUp | Fresh(_) | Installing(_) | Installed(_) => 3
    case Respawning | ReapingOld(_, _) => 4
  }

  function StopperRank(p: Stopper): nat {
    match p
    case Returned => 0
    case Cleared => 1
    case Holding => 2
    case ReapingChild(_) => 3
    case Locking => 4
    case Asking => 5
    case NotCalled => 6
  }

  /** What to run next, once a stop was called. */
  function Forward(s: State): Label {
    match s.stopper
    case NotCalled => StopBegin
    case Asking => StopClear
    case Locking => if s.lock == Free then StopLock else OldReaped
    case ReapingChild(_) => StopReaped
    case Holding => StopFlag
    case Cleared => StopRelease
    case Returned =>
      match s.reader
      case Reading => Eof(true)
      case Sleeping => Wake(true)
      case Respawning => Respawn(false)
      case Fresh(_) => Check(true)
      case Installing(_) => LockInstall(true)
      case Installed(_) => Publish
      case GivingUp => LockGiveUp
      case ReapingOld(_, _) | ReapingLast(_) => OldReaped
      case Abandoning(_) => NewReaped
      case Exiting | Absent | Finished => ReaderExit
  }

  lemma ForwardProgresses(s: State)
    requires Control(s) && !Starting(s) && !AtRest(s)
    ensures var n := Next(s, Forward(s));
      ReaderRank(n.reader) + StopperRank(n.stopper) < ReaderRank(s.reader) + StopperRank(s.stopper)
  {
  }

  lemma ForwardLeavesStarter(s: State)
    requires !Starting(s)
    ensures Next(s, Forward(s)).starter == s.starter
  {
  }

  /**
   Whatever has happened, with no start under way a stop can be driven to its end with every child
   reaped: neither side ever holds the lock while waiting for the other.
   */
  lemma {:induction false} StopCanFinish(labels: seq<Label>) returns (more: seq<Label>)
    requires !Starting(Run(Next, START, labels))
    ensures AtRest(Run(Next, START, labels + more))
    decreases ReaderRank(Run(Next, START, labels).reader) + StopperRank(Run(Next, START, labels).stopper)
  {
    var s := Run(Next, START, labels);
    RunKeepsInv(labels);
    if AtRest(s) {
      assert labels + [] == labels;
      more := [];
    } else {
      hide Next;
      ForwardProgresses(s);
      ForwardLeavesStarter(s);
      RunSnoc(Next, START, labels, Forward(s));
      var rest := StopCanFinish(labels + [Forward(s)]);
      more := [Forward(s)] + rest;
      assert labels + more == labels + [Forward(s)] + rest;
    }
  }

  // ---- The supervisor's methods ---------------------------------------------------

  predicate OfReader(l: Label) {
    l.Eof? || l.Wake? || l.Respawn? || l.Check? || l.LockInstall? || l.OldReaped? || l.Publish? || l.LockGiveUp? ||
    l.NewReaped? || l.ReaderExit?
  }

  predicate OfStopper(l: Label) {
    l.StopBegin? || l.StopClear? || l.StopLock? || l.StopReaped? || l.StopFlag? || l.StopRelease?
  }

  ghost predicate Sound(s: State) {
    Inv(s) && FlagHonest(s)
  }

  lemma StepKeepsSound(s: State, l: Label)
    requires Sound(s)
    ensures Sound(Next(s, l))
  {
    hide ChildrenKept, PublishedKept, Next;
    StepKeepsControl(s, l);
    StepKeepsChildren(s, l);
    StepKeepsPublished(s, l);
    StepKeepsFlag(s, l);
  }

  lemma ReaderSparesStopper(s: State, l: Label)
    requires OfReader(l)
    ensures Next(s, l).stopper == s.stopper && Next(s, l).starter == s.starter && Next(s, l).stopped == s.stopped && Next(s, l).released == s.released
    ensures s.reaped <= Next(s, l).reaped && (!s.running ==> !Next(s, l).running)
  {
  }

  lemma StopperSparesReader(s: State, l: Label)
    requires OfStopper(l)
    ensures Next(s, l).reader == s.reader && Next(s, l).starter == s.starter && Next(s, l).spawned == s.spawned
    ensures Next(s, l).proc == None || Next(s, l).proc == s.proc
    ensures Next(s, l).writeTx == None || Next(s, l).writeTx == s.writeTx
    ensures s.reaped <= Next(s, l).reaped && (s.stopped ==> Next(s, l).stopped)
  {
  }

  /** Where a child can be that neither a starter nor a reader holds. */
  /** Nobody has called for a stop, so the stop's later steps cannot be taken. */
  lemma NoStopIsNoStep(s: State, l: Label)
    requires Sound(s) && !s.stopped && OfStopper(l) && l != StopBegin
    ensures Next(s, l) == s
  {
    hide ChildrenKept, PublishedKept, FlagHonest;
  }

  lemma OnlyPublishOpens(s: State, l: Label)
    requires s.writeTx == None && OfReader(l) && l != Publish
    ensures Next(s, l).writeTx == None
  {
  }

  lemma StopStepRaisesFlag(s: State, l: Label)
    requires Sound(s) && s.reader != Absent && OfStopper(l)
    ensures Next(s, l).stopped == (s.stopped || l == StopBegin)
  {
    hide ChildrenKept, PublishedKept, FlagHonest;
  }

  predicate Settled(s: State, c: Child) {
    c in SlotHas(s) || c in StopperHas(s.stopper) || c in s.reaped
  }

  lemma AllSettled(s: State, c: Child)
    requires Sound(s) && c < s.spawned && !Starting(s)
    ensures Settled(s, c) || c in ReaderHas(s.reader)
  {
    assert OnePlace(s, c);
  }

  /** The child that was in the slot when a restart began, once the reader holds none. */
  lemma OldIsSettled(s: State, before: Option<Child>)
    requires Sound(s) && s.reader in {Reading, Exiting} && (before.Some? ==> before.value < s.spawned)
    ensures s.reader == Exiting ==> s.writeTx == None
    ensures before.Some? ==> Settled(s, before.value)
    ensures before.Some? && s.proc != before ==> before.value in s.reaped || before.value in StopperHas(s.stopper)
  {
    LockAndChannel(s);
    if before.Some? { AllSettled(s, before.value); }
  }

  lemma LockAndChannel(s: State)
    requires Sound(s)
    ensures s.lock == ByReader ==> s.reader.ReapingOld? || s.reader.ReapingLast?
    ensures s.writeTx.Some? ==> s.reader == Reading
    ensures s.reader != Absent ==> s.starter == Started
    ensures (s.stopped <==> s.stopper != NotCalled) && (s.stopper == Returned || s.released ==> s.stopped)
    ensures s.lock == ByStopper ==> s.stopper.ReapingChild? || s.stopper.Holding? || s.stopper.Cleared?
  {
  }

  lemma ReturnedHasReaped(s: State)
    requires Sound(s) && s.stopper == Returned
    ensures s.proc == None && forall c: Child :: c < s.spawned ==> c in s.reaped || c in ReaderHas(s.reader)
  {
    forall c: Child | c < s.spawned ensures c in s.reaped || c in ReaderHas(s.reader) {
      assert OnePlace(s, c);
    }
  }

  lemma FinishedHasReaped(s: State)
    requires Sound(s) && s.reader == Finished && !s.stopped
    ensures forall c: Child :: c < s.spawned ==> c in s.reaped
  {
    forall c: Child | c < s.spawned ensures c in s.reaped {
      assert OnePlace(s, c);
    }
  }

  lemma KnownChild(s: State, c: Child)
    requires Sound(s) && c in SlotHas(s)
    ensures c < s.spawned
  {
    assert OnePlace(s, c);
  }

  // What the steps of the methods below lead to.

  lemma StopBegins(s: State)
    requires Sound(s) && !Stopping(s) && !Starting(s)
    ensures Sound(s.(stopped := true, stopper := Asking))
  {
    hide Sound;
    StepKeepsSound(s, StopBegin);
  }

  lemma StopCloses(s: State)
    requires Sound(s) && s.stopper == Asking
    ensures Sound(s.(writeTx := None, stopper := Locking))
  {
    hide Sound;
    StepKeepsSound(s, StopClear);
  }

  lemma FlagDrops(s: State)
    requires Sound(s) && s.stopper == Holding
    ensures Sound(s.(running := false, stopper := Cleared))
  {
    hide Sound;
    StepKeepsSound(s, StopFlag);
  }

  lemma SlotReleases(s: State)
    requires Sound(s) && s.stopper == Cleared
    ensures Sound(s.(lock := Free, stopper := Returned, released := true))
  {
    hide Sound;
    StepKeepsSound(s, StopRelease);
  }

  lemma OldReapedFrees(s: State)
    requires Sound(s) && s.lock == ByReader
    ensures Next(s, OldReaped).lock == Free
  {
    hide ChildrenKept, PublishedKept, FlagHonest;
  }

  /** The flag and one child, in the slot and published; or neither. */
  function AfterSpawn(s: State, ok: bool): State {
    var clean := s.(stopped := false, released := false, stopper := NotCalled);
    if !ok then clean.(running := false, starter := StartFailed, reader := Absent)
    else clean.(running := true, spawned := s.spawned + 1, starter := Started, reader := Reading,
                proc := Some(s.spawned), writeTx := Some(s.spawned))
  }

  lemma SpawnSteps(s: State, ok: bool)
    requires CanStart(s) && s.lock == Free
    ensures Next(Next(Next(s, Bump), Factory(ok)), Install) == AfterSpawn(s, ok)
  {
  }

  lemma SpawnKeeps(s: State, ok: bool)
    requires Sound(s) && CanStart(s)
    ensures s.lock == Free && s.proc == None && s.writeTx == None && !s.running && Sound(AfterSpawn(s, ok))
  {
    UnstartedIsEmpty(s);
    hide Sound, Next;
    SpawnSteps(s, ok);
    StepKeepsSound(s, Bump);
    StepKeepsSound(Next(s, Bump), Factory(ok));
    StepKeepsSound(Next(Next(s, Bump), Factory(ok)), Install);
  }

  lemma UnstartedIsEmpty(s: State)
    requires Sound(s) && CanStart(s)
    ensures s.lock == Free && s.proc == None && s.writeTx == None && !s.running
  {
    hide ChildrenKept, PublishedKept;
  }

  lemma EofKeeps(s: State, seen: bool)
    requires Sound(s) && s.reader == Reading && MaySee(s, seen)
    ensures Sound(s.(writeTx := None, reader := if seen then Exiting else Sleeping))
  {
    hide Sound;
    StepKeepsSound(s, Eof(seen));
  }

  lemma WakeKeeps(s: State, seen: bool)
    requires Sound(s) && s.reader == Sleeping && MaySee(s, seen)
    ensures Sound(s.(reader := if seen then Exiting else Respawning))
  {
    hide Sound;
    StepKeepsSound(s, Wake(seen));
  }

  lemma RespawnFails(s: State)
    requires Sound(s) && s.reader == Respawning
    ensures Sound(s.(reader := GivingUp))
  {
    hide Sound;
    StepKeepsSound(s, Respawn(false));
  }

  lemma PublishKeeps(s: State)
    requires Sound(s) && s.reader.Installed?
    ensures Sound(s.(writeTx := Some(s.reader.child), reader := Reading))
  {
    hide Sound;
    StepKeepsSound(s, Publish);
  }

  lemma GiveUpLocks(s: State)
    requires Sound(s) && s.reader == GivingUp && s.lock == Free
    ensures Sound(if s.proc.Some? then s.(lock := ByReader, reader := ReapingLast(s.proc.value), proc := None) else s.(reader := Exiting))
  {
    hide Sound;
    StepKeepsSound(s, LockGiveUp);
  }

  lemma LastIsReaped(s: State)
    requires Sound(s) && s.reader.ReapingLast?
    ensures Sound(s.(reaped := s.reaped + {s.reader.dead}, lock := Free, reader := Exiting)) && s.proc == None
  {
    SlotIsTaken(s);
    hide Sound;
    StepKeepsSound(s, OldReaped);
  }

  lemma SlotIsTaken(s: State)
    requires Sound(s) && (s.reader.ReapingLast? || s.reader.ReapingOld?)
    ensures s.proc == None
  {
    hide ChildrenKept, PublishedKept, FlagHonest;
  }

  lemma InstallLocks(s: State)
    requires Sound(s) && s.reader.Installing? && s.lock == Free && !s.released
    ensures Sound(
      if s.proc.Some? then s.(lock := ByReader, reader := ReapingOld(s.proc.value, s.reader.child), proc := None)
      else s.(proc := Some(s.reader.child), reader := Installed(s.reader.child)))
  {
    hide Sound;
    StepKeepsSound(s, LockInstall(false));
  }

  lemma OldIsReaped(s: State)
    requires Sound(s) && s.reader.ReapingOld?
    ensures Sound(s.(reaped := s.reaped + {s.reader.dead}, proc := Some(s.reader.child), lock := Free,
                     reader := Installed(s.reader.child)))
  {
    hide Sound;
    StepKeepsSound(s, OldReaped);
  }

  /** How a load of the stop flag may miss its store, and what a restart meets at each of its awaits. */
  datatype Restart = Restart(
    factoryOk: bool, staleCheck: bool, staleInstall: bool,
    beforeCheck: seq<Label>, beforeLock: seq<Label>, whileReaping: seq<Label>, beforePublish: seq<Label>)

  datatype Death = Death(
    before: seq<Label>, staleAtEof: bool, asleep: seq<Label>, staleAtWake: bool, restart: Restart)

  ghost predicate StopperOnly(d: Restart) {
    forall l :: l in d.beforeCheck || l in d.beforeLock || l in d.whileReaping || l in d.beforePublish ==> OfStopper(l)
  }

  /** No stop is called while the restart is under way. */
  predicate Undisturbed(d: Restart) {
    StopBegin !in d.beforeCheck && StopBegin !in d.beforeLock && StopBegin !in d.whileReaping && StopBegin !in d.beforePublish
  }

  predicate NoStop(d: Death) {
    StopBegin !in d.before && StopBegin !in d.asleep && Undisturbed(d.restart)
  }

  ghost predicate MetByStopper(d: Death) {
    StopperOnly(d.restart) && forall l :: l in d.before || l in d.asleep ==> OfStopper(l)
  }

  /** The factory fails at the `i`-th restart and at none before it. */
  predicate FirstFailure(deaths: seq<Death>, i: nat) {
    i < |deaths| && !deaths[i].restart.factoryOk && forall j :: 0 <= j < i ==> deaths[j].restart.factoryOk
  }

  /**
   The fields that the supervisor's methods and its reader task share. Each method is a whole function of the
   source; what the other side does meanwhile is given by the labels for each point where it can act.
   */
  class Inner {
    var stopped: bool
    var running: bool
    var writeTx: Option<Child>
    var proc: Option<Child>
    var procLock: Holder
    var children: nat
    var reaped: set<Child>
    var starter: Starter
    var reader: Reader
    var stopper: Stopper
    var released: bool

    function Abs(): State
      reads this
    {
      State(stopped, running, writeTx, proc, procLock, children, reaped, starter, reader, stopper, released)
    }

    ghost predicate Valid()
      reads this
    {
      Sound(Abs())
    }

    constructor ()
      ensures Valid() && Abs() == START
    {
      stopped, running, writeTx, proc, procLock, children, reaped := false, false, None, None, Free, 0, {};
      starter, reader, stopper, released := Idle, Absent, NotCalled, false;
    }

    method Become(s: State)
      modifies this
      ensures Abs() == s
    {
      stopped, running, writeTx, proc, procLock := s.stopped, s.running, s.writeTx, s.proc, s.lock;
      children, reaped, starter, reader, stopper := s.spawned, s.reaped, s.starter, s.reader, s.stopper;
      released := s.released;
    }

    /** One step, of whoever's it is. */
    method Act(l: Label)
      requires Valid()
      modifies this
      ensures Valid() && Abs() == Next(old(Abs()), l)
    {
      StepKeepsSound(Abs(), l);
      Become(Next(Abs(), l));
    }

    method ReaderActs(labels: seq<Label>)
      requires Valid() && forall l :: l in labels ==> OfReader(l)
      modifies this
      ensures Valid() && stopper == old(stopper) && starter == old(starter)
      ensures stopped == old(stopped) && released == old(released)
      ensures old(reaped) <= reaped && (!old(running) ==> !running)
      ensures labels == [] ==> Abs() == old(Abs())
      ensures old(writeTx) == None && Publish !in labels ==> writeTx == None
    {
      hide Sound, Next;
      for i := 0 to |labels|
        invariant Valid() && stopper == old(stopper) && starter == old(starter)
        invariant stopped == old(stopped) && released == old(released)
        invariant old(reaped) <= reaped && (!old(running) ==> !running)
        invariant i == 0 ==> Abs() == old(Abs())
        invariant old(writeTx) == None && Publish !in labels ==> writeTx == None
      {
        if writeTx == None && labels[i] != Publish { OnlyPublishOpens(Abs(), labels[i]); }
        ReaderSparesStopper(Abs(), labels[i]);
        Act(labels[i]);
      }
    }

    method StopperActs(labels: seq<Label>)
      requires Valid() && forall l :: l in labels ==> OfStopper(l)
      modifies this
      ensures Valid() && reader == old(reader) && starter == old(starter) && children == old(children)
      ensures proc == None || proc == old(proc)
      ensures writeTx == None || writeTx == old(writeTx)
      ensures old(reaped) <= reaped && (old(stopped) ==> stopped)
      ensures reader != Absent ==> stopped == (old(stopped) || StopBegin in labels)
      ensures !old(stopped) && StopBegin !in labels ==> Abs() == old(Abs())
    {
      hide Sound, Next;
      for i := 0 to |labels|
        invariant Valid() && reader == old(reader) && starter == old(starter) && children == old(children)
        invariant proc == None || proc == old(proc)
        invariant writeTx == None || writeTx == old(writeTx)
        invariant old(reaped) <= reaped && (old(stopped) ==> stopped)
        invariant reader != Absent ==> stopped == (old(stopped) || StopBegin in labels[..i])
        invariant !old(stopped) && StopBegin !in labels[..i] ==> Abs() == old(Abs())
      {
        StopperSparesReader(Abs(), labels[i]);
        if reader != Absent { StopStepRaisesFlag(Abs(), labels[i]); }
        if !stopped && labels[i] != StopBegin { NoStopIsNoStep(Abs(), labels[i]); }
        assert labels[..i + 1] == labels[..i] + [labels[i]];
        Act(labels[i]);
      }
      assert labels[..|labels|] == labels;
    }

    /**
     A start: beside neither a stop nor a left-over reader it makes one child, stores it and publishes its channel, or
     gives the flag back when the factory fails; while a worker is running it does nothing.
     */
    method DoSpawn(factoryOk: bool) returns (ok: bool)
      requires Valid() && (running || CanStart(Abs()))
      modifies this
      ensures Valid()
      ensures old(running) ==> ok && Abs() == old(Abs())
      ensures !old(running) && factoryOk ==>
        && ok && children == old(children) + 1 && proc == writeTx == Some(old(children))
        && running && !stopped && reader == Reading && reaped == old(reaped)
      ensures !old(running) && !factoryOk ==>
        && !ok && children == old(children) && proc == writeTx == None && !running && reader == Absent
    {
      if running {
        return true;
      }
      hide Sound, Next, CanStart;
      SpawnKeeps(Abs(), factoryOk);
      running, stopped, released, starter := true, false, false, Bumped;
      reader, stopper := Absent, NotCalled;
      if !factoryOk {
        running, starter := false, StartFailed;
        return false;
      }
      var child := children;
      children := children + 1;
      if procLock == Free {
        proc := Some(child);
      }
      writeTx := Some(child);
      starter, reader := Started, Reading;
      return true;
    }

    /** The first half of a stop: the flag, the request, the channel, and the wait for the lock on the slot. */
    method AskAndClose(asking: seq<Label>, locking: seq<Label>)
      requires Valid() && !Stopping(Abs()) && !Starting(Abs())
      requires forall l :: l in asking || l in locking ==> OfReader(l)
      modifies this
      ensures Valid() && stopper == Locking && procLock == Free && stopped && starter == old(starter)
      ensures asking == locking == [] && old(procLock) == Free ==> proc == old(proc)
      ensures Publish !in locking ==> writeTx == None
    {
      hide Sound, Next;
      LockAndChannel(Abs());
      StopBegins(Abs());
      stopped, stopper := true, Asking;
      ReaderActs(asking);
      StopCloses(Abs());
      writeTx, stopper := None, Locking;
      ReaderActs(locking);
      LockAndChannel(Abs());
      if procLock != Free {
        ReaderSparesStopper(Abs(), OldReaped);
        OldReapedFrees(Abs());
        if writeTx == None { OnlyPublishOpens(Abs(), OldReaped); }
        Act(OldReaped);  // the reader lets go of the lock
      }
    }

    /** The second half: the child is taken and reaped under the lock. */
    method TakeAndReap(reaping: seq<Label>, leaving: seq<Label>) returns (taken: Option<Child>)
      requires Valid() && stopper == Locking && procLock == Free && stopped
      requires forall l :: l in reaping || l in leaving ==> OfReader(l)
      modifies this
      ensures Valid() && stopper == Returned && !running && stopped && starter == old(starter)
      ensures taken == old(proc) && (taken.Some? ==> taken.value in reaped)
      ensures old(writeTx) == None && Publish !in reaping && Publish !in leaving ==> writeTx == None
    {
      hide Sound;
      StepKeepsSound(Abs(), StopLock);
      taken := proc;
      procLock := ByStopper;
      stopper := if proc.Some? then ReapingChild(proc.value) else Holding;
      proc := None;
      ReapTaken(reaping);
      FinishStop(leaving);
    }

    method FinishStop(leaving: seq<Label>)
      requires Valid() && stopper == Holding && stopped && forall l :: l in leaving ==> OfReader(l)
      modifies this
      ensures Valid() && stopper == Returned && !running && stopped && starter == old(starter) && old(reaped) <= reaped
      ensures old(writeTx) == None && Publish !in leaving ==> writeTx == None
    {
      hide Sound, Next;
      FlagDrops(Abs());
      running, stopper := false, Cleared;
      ReaderActs(leaving);
      SlotReleases(Abs());
      procLock, stopper, released := Free, Returned, true;
    }

    method ReapTaken(reaping: seq<Label>)
      requires Valid() && (stopper.ReapingChild? || stopper == Holding) && stopped
      requires forall l :: l in reaping ==> OfReader(l)
      modifies this
      ensures Valid() && stopper == Holding && stopped && starter == old(starter)
      ensures old(stopper).ReapingChild? ==> old(stopper).child in reaped
      ensures old(writeTx) == None && Publish !in reaping ==> writeTx == None
    {
      hide Sound;
      ReaderActs(reaping);
      if stopper.ReapingChild? {
        StepKeepsSound(Abs(), StopReaped);
        reaped, stopper := reaped + {stopper.child}, Holding;
      }
    }

    /**
     A stop, beside whatever the reader does: when it returns the slot is empty, the child it found there is
     reaped, and so is every child ever made that the reader does not hold itself.
     */
    method Stop(asking: seq<Label>, locking: seq<Label>, reaping: seq<Label>, leaving: seq<Label>)
      returns (taken: Option<Child>)
      requires Valid() && !Stopping(Abs()) && !Starting(Abs())
      requires forall l :: l in asking || l in locking || l in reaping || l in leaving ==> OfReader(l)
      modifies this
      ensures Valid() && stopper == Returned
      ensures stopped && !running && proc == None
      ensures taken.Some? ==> taken.value in reaped
      ensures Publish !in locking && Publish !in reaping && Publish !in leaving ==> writeTx == None
      ensures asking == locking == [] && old(procLock) == Free ==> taken == old(proc)
      ensures forall c: Child :: c < children ==> c in reaped || c in ReaderHas(reader)
    {
      hide Sound;
      AskAndClose(asking, locking);
      taken := TakeAndReap(reaping, leaving);
      ReturnedHasReaped(Abs());
    }

    /** Waits for the lock on the slot, which the stop holds only while it finishes. */
    method AwaitLock()
      requires Valid() && procLock != ByReader
      modifies this
      ensures Valid() && procLock == Free
      ensures reader == old(reader) && starter == old(starter) && children == old(children)
      ensures proc == None || proc == old(proc)
      ensures old(reaped) <= reaped && (old(stopped) ==> stopped)
      ensures old(procLock) == Free ==> Abs() == old(Abs())
    {
      if procLock == ByStopper {
        StopperSparesReader(Abs(), StopReaped);
        Act(StopReaped);
        StopperSparesReader(Abs(), StopFlag);
        Act(StopFlag);
        StopperSparesReader(Abs(), StopRelease);
        Act(StopRelease);
      }
    }

    /**
     One restart, beside whatever the stop does. Either a new child is in place and its channel published, or
     none is and the reader leaves; a child made in vain is reaped. The old child leaves the slot and is reaped,
     by the restart or by the stop, unless the restart was called off.
     */
    method AttemptRestart(d: Restart) returns (installed: Option<Child>)
      requires Valid() && reader == Respawning && StopperOnly(d)
      modifies this
      ensures Valid() && children == old(children) + (if d.factoryOk then 1 else 0)
      ensures installed.Some? ==>
        && d.factoryOk && installed.value == old(children) && writeTx == installed && reader == Reading
        && Settled(Abs(), old(children)) && (proc == None || proc == installed)
      ensures installed == None ==> reader == Exiting && writeTx == None
      ensures installed == None && d.factoryOk ==> stopped && old(children) in reaped
      ensures installed == None && !d.factoryOk ==> proc == None
      ensures old(proc).Some? && (installed.Some? || !d.factoryOk) ==>
        old(proc).value in reaped || old(proc).value in StopperHas(stopper)
      ensures old(proc).Some? ==> Settled(Abs(), old(proc).value)
      ensures (old(stopped) || StopBegin in d.beforeCheck) && !d.staleCheck ==> installed == None
      ensures !old(stopped) && Undisturbed(d) ==>
        !stopped && (d.factoryOk ==> installed == proc == Some(old(children)))
    {
      hide Sound, Next, Settled;
      ghost var before := proc;
      LockAndChannel(Abs());
      if before.Some? { KnownChild(Abs(), before.value); }
      if !d.factoryOk {
        RespawnFails(Abs());
        reader := GivingUp;
        ReapOldChild(d.beforeLock, d.whileReaping);
        OldIsSettled(Abs(), before);
        return None;
      }
      var child := children;
      var go := MakeReplacement(d.beforeCheck, d.staleCheck);
      if !go {
        OldIsSettled(Abs(), before);
        return None;
      }
      var ok := InstallChild(d.beforeLock, d.staleInstall, d.whileReaping);
      if !ok {
        OldIsSettled(Abs(), before);
        return None;
      }
      StopperActs(d.beforePublish);
      PublishKeeps(Abs());
      writeTx, reader := Some(child), Reading;
      AllSettled(Abs(), child);
      OldIsSettled(Abs(), before);
      return Some(child);
    }

    /** A new child is made, and reaped at once when the stop is seen. */
    method MakeReplacement(beforeCheck: seq<Label>, stale: bool) returns (go: bool)
      requires Valid() && reader == Respawning && forall l :: l in beforeCheck ==> OfStopper(l)
      modifies this
      ensures Valid() && children == old(children) + 1 && starter == old(starter)
      ensures proc == None || proc == old(proc)
      ensures go ==> reader == Installing(old(children))
      ensures go <==> !(old(stopped) || StopBegin in beforeCheck) || stale
      ensures !old(stopped) && StopBegin !in beforeCheck ==> !stopped && proc == old(proc) && procLock == old(procLock)
      ensures !go ==> stopped && reader == Exiting && old(children) in reaped
    {
      hide Sound;
      var child := children;
      StepKeepsSound(Abs(), Respawn(true));
      children, reader := children + 1, Fresh(child);
      StopperActs(beforeCheck);
      var seen := stopped && !stale;
      StepKeepsSound(Abs(), Check(seen));
      if seen {
        reader := Abandoning(child);
        ReapChild();
        return false;
      }
      reader := Installing(child);
      return true;
    }

    /** An abandoned child is killed and reaped. */
    method ReapChild()
      requires Valid() && reader.Abandoning?
      modifies this`reaped, this`reader
      ensures Valid() && reader == Exiting && reaped == old(reaped) + {old(reader).child}
    {
      StepKeepsSound(Abs(), NewReaped);
      reaped, reader := reaped + {reader.child}, Exiting;
    }

    /** The old child is taken out of the slot under the lock and reaped, unless the stop already has it. */
    method ReapOldChild(beforeLock: seq<Label>, whileReaping: seq<Label>)
      requires Valid() && reader == GivingUp
      requires forall l :: l in beforeLock || l in whileReaping ==> OfStopper(l)
      modifies this
      ensures Valid() && reader == Exiting && proc == None && writeTx == None
      ensures children == old(children) && starter == old(starter)
      ensures !old(stopped) && StopBegin !in beforeLock && StopBegin !in whileReaping ==> !stopped
    {
      hide Sound, Next;
      StopperActs(beforeLock);
      LockAndChannel(Abs());
      AwaitLock();
      GiveUpLocks(Abs());
      if proc.Some? {
        var dead := proc.value;
        procLock, reader, proc := ByReader, ReapingLast(dead), None;
        StopperActs(whileReaping);
        LastIsReaped(Abs());
        reaped, procLock, reader := reaped + {dead}, Free, Exiting;
      } else {
        reader := Exiting;
      }
      LockAndChannel(Abs());
    }

    /** Under the lock: the new child is put in place of the old one, or reaped when the stop is seen. */
    method InstallChild(beforeLock: seq<Label>, stale: bool, whileReaping: seq<Label>) returns (ok: bool)
      requires Valid() && reader.Installing?
      requires forall l :: l in beforeLock || l in whileReaping ==> OfStopper(l)
      modifies this
      ensures Valid() && children == old(children) && starter == old(starter) && writeTx == None
      ensures ok ==> reader == Installed(old(reader).child) && proc == Some(old(reader).child)
      ensures !ok ==> stopped && reader == Exiting && old(reader).child in reaped
      ensures !old(stopped) && StopBegin !in beforeLock && StopBegin !in whileReaping ==> !stopped
    {
      hide Sound;
      LockAndChannel(Abs());
      StopperActs(beforeLock);
      LockAndChannel(Abs());
      AwaitLock();
      LockAndChannel(Abs());
      var child := reader.child;
      var seen := stopped && (!stale || released);
      if seen {
        StepKeepsSound(Abs(), LockInstall(true));
        reader := Abandoning(child);
        ReapChild();
        LockAndChannel(Abs());
        return false;
      }
      ReplaceChild(whileReaping);
      return true;
    }

    /** The old child, if there is one, is taken out and reaped with the lock held. */
    method ReplaceChild(whileReaping: seq<Label>)
      requires Valid() && reader.Installing? && procLock == Free && !released
      requires forall l :: l in whileReaping ==> OfStopper(l)
      modifies this
      ensures Valid() && children == old(children) && starter == old(starter) && writeTx == None
      ensures reader == Installed(old(reader).child) && proc == Some(old(reader).child)
      ensures !old(stopped) && StopBegin !in whileReaping ==> !stopped
    {
      hide Sound, Next;
      InstallLocks(Abs());
      var child := reader.child;
      if proc.Some? {
        var dead := proc.value;
        procLock, reader, proc := ByReader, ReapingOld(dead, child), None;
        StopperActs(whileReaping);
        OldIsReaped(Abs());
        reaped, proc, procLock, reader := reaped + {dead}, Some(child), Free, Installed(child);
      } else {
        proc, reader := Some(child), Installed(child);
      }
      LockAndChannel(Abs());
    }

    /**
     The reader over any number of deaths and restarts, beside whatever the stop does. When it leaves, the flag
     is down, the channel gone, and every child ever made is reaped or is where the stop will find it.
     */
    method ReaderTask(deaths: seq<Death>) returns (left: bool)
      requires Valid() && reader == Reading && forall i :: 0 <= i < |deaths| ==> MetByStopper(deaths[i])
      modifies this
      ensures Valid()
      ensures left ==> reader == Finished && !running && writeTx == None
      ensures left ==> forall c: Child :: c < children ==> Settled(Abs(), c)
      ensures left && !stopped ==> forall c: Child :: c < children ==> c in reaped
      ensures !left ==>
        && reader == Reading && children == old(children) + |deaths| && (deaths != [] ==> writeTx == Some(children - 1))
        && forall i :: 0 <= i < |deaths| ==> deaths[i].restart.factoryOk
      ensures left ==> stopped || exists i :: 0 <= i < |deaths| && !deaths[i].restart.factoryOk
      ensures !old(stopped) && (forall i :: 0 <= i < |deaths| ==> NoStop(deaths[i])) ==>
        && !stopped
        && (!left && deaths != [] ==> proc == writeTx)
        && (left ==> exists i :: FirstFailure(deaths, i) && children == old(children) + i)
      ensures deaths != [] && (old(stopped) || StopBegin in deaths[0].before) && !deaths[0].staleAtEof ==>
        left && children == old(children)
    {
      hide Sound, Next, Settled, MetByStopper, NoStop;
      for i := 0 to |deaths|
        invariant Valid() && reader == Reading && children == old(children) + i
        invariant i > 0 ==> writeTx == Some(children - 1)
        invariant forall j :: 0 <= j < i ==> deaths[j].restart.factoryOk
        invariant i == 0 ==> Abs() == old(Abs())
        invariant i > 0 && (old(stopped) || StopBegin in deaths[0].before) ==> deaths[0].staleAtEof
        invariant !old(stopped) && (forall j :: 0 <= j < |deaths| ==> NoStop(deaths[j])) ==>
          !stopped && (i > 0 ==> proc == writeTx)
      {
        var goesOn := MeetDeath(deaths[i]);
        if !goesOn {
          assert !deaths[i].restart.factoryOk ==> FirstFailure(deaths, i);
          Leave();
          return true;
        }
      }
      return false;
    }

    /** One round of the reader: an end of file, the backoff and the restart; unless it is to leave. */
    method MeetDeath(d: Death) returns (goesOn: bool)
      requires Valid() && reader == Reading && MetByStopper(d)
      modifies this
      ensures Valid() && reader == if goesOn then Reading else Exiting
      ensures goesOn ==> d.restart.factoryOk && children == old(children) + 1 && writeTx == Some(old(children))
      ensures !goesOn ==> stopped || !d.restart.factoryOk
      ensures (old(stopped) || StopBegin in d.before) && !d.staleAtEof ==> !goesOn && children == old(children)
      ensures (old(stopped) || StopBegin in d.before || StopBegin in d.asleep) && !d.staleAtWake ==>
        !goesOn && children == old(children)
      ensures !old(stopped) && NoStop(d) ==>
        && !stopped && goesOn == d.restart.factoryOk
        && if goesOn then proc == writeTx else children == old(children)
    {
      hide Sound, Next, Settled, StopperOnly;
      StopperActs(d.before);
      var deliberate := stopped && !d.staleAtEof;
      EofKeeps(Abs(), deliberate);
      writeTx, reader := None, if deliberate then Exiting else Sleeping;
      if deliberate {
        return false;
      }
      StopperActs(d.asleep);
      var seen := stopped && !d.staleAtWake;
      WakeKeeps(Abs(), seen);
      reader := if seen then Exiting else Respawning;
      if seen {
        return false;
      }
      var installed := AttemptRestart(d.restart);
      return installed.Some?;
    }

    /** The one way out of the reader's loop. */
    method Leave()
      requires Valid() && reader == Exiting
      modifies this`running, this`reader
      ensures Valid() && reader == Finished && !running && writeTx == None
      ensures forall c: Child :: c < children ==> Settled(Abs(), c)
      ensures !stopped ==> forall c: Child :: c < children ==> c in reaped
    {
      StepKeepsSound(Abs(), ReaderExit);
      running, reader := false, Finished;
      forall c: Child | c < children ensures Settled(Abs(), c) {
        AllSettled(Abs(), c);
      }
      if !stopped { FinishedHasReaped(Abs()); }
    }
  }
}
