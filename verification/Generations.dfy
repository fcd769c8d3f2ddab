/**
 Many lifetimes of one supervisor: each start takes the next generation and spawns one
 reader for it, and a reader may outlive its lifetime. Two choices of the code are
 parameters, so that what depends on them shows: whether a start moves the generation
 before it publishes its channel, and whether a reader that met end of file compares
 generations and clears in one step.
 */
module Generations {
  import opened Runs
  import opened Wrappers

  datatype Config = Config(bumpFirst: bool, atomic: bool)

  /**
   Where a reader is. `Restarting` is from the decision to restart to the lock on the slot, `Replacing` has that lock
   with the old child taken out, `Installed` has put the new child in; `Reaping` has the lock after a failed factory;
   `Leaving` has yet to drop the running flag.
   */
  datatype Pc = Reading | Matched | Sleeping | Restarting | Replacing | Installed | Reaping | Leaving | Gone

  datatype Reader = Reader(gen: nat, pc: Pc)

  /** A start under way: nothing done, the flag taken, the generation moved or the channel published. */
  datatype Starter = Idle | Claimed | Moved | Published | Both

  /** A stop under way: the flag set, and then the channel dropped; the lock on the slot is still to be had. */
  datatype Stop = NoStop | Asked | Dropped

  /**
   `channel`, `slot` and `pending` name the generations that the channel, the child and the requests belong to;
   `lock` is the reader that has the lock on the slot, and `lost` the generations of children nothing refers to any more.
   */
  datatype State = State(
    config: Config, gen: nat, running: bool, stopped: bool, stop: Stop,
    channel: Option<nat>, slot: Option<nat>, lock: Option<nat>, lost: set<nat>,
    pending: set<nat>, readers: seq<Reader>, starter: Starter)

  /** Readers go by their position. */
  datatype Label =
    | Claim | Bump | Publish | SpawnReader | FactoryFails
    | Request
    | Eof(r: nat) | Clear(r: nat) | Wake(r: nat) | Exit(r: nat)
    | Abandon(r: nat) | Take(r: nat) | Store(r: nat) | Reopen(r: nat) | GiveUp(r: nat) | Reaped(r: nat)
    | StopBegin | StopClose | StopEnd

  function Start(c: Config): State {
    State(c, 0, false, false, NoStop, None, None, None, {}, {}, [], Idle)
  }

  predicate At(s: State, r: nat, pc: Pc) {
    r < |s.readers| && s.readers[r].pc == pc
  }

  function Move(s: State, r: nat, pc: Pc): State
    requires r < |s.readers|
  {
    s.(readers := s.readers[r := s.readers[r].(pc := pc)])
  }

  /** The generation that the start under way is for. */
  function Starting(s: State): nat {
    if s.starter == Moved || s.starter == Both then s.gen else s.gen + 1
  }

  predicate CanPublish(s: State) {
    s.starter == (if s.config.bumpFirst then Moved else Claimed)
  }

  /** The child is stored unless a reader has the lock on the slot; a handle that is not stored, or replaced, is dropped. */
  function Published(s: State): State {
    var g := Starting(s);
    s.(channel := Some(g),
       slot := if s.lock.Some? then s.slot else Some(g),
       lost := if s.lock.Some? then s.lost + {g} else if s.slot.Some? then s.lost + {s.slot.value} else s.lost,
       starter := if s.starter == Claimed then Starter.Published else Both)
  }

  function StartStep(s: State, l: Label): State {
    match l
    case Claim =>
      if s.starter == Idle && !s.running && s.stop == NoStop then s.(running := true, stopped := false, starter := Claimed) else s
    case Bump =>
      if s.starter == (if s.config.bumpFirst then Claimed else Starter.Published) then
        s.(gen := s.gen + 1, starter := if s.starter == Claimed then Moved else Both)
      else s
    case Publish => if CanPublish(s) then Published(s) else s
    case SpawnReader =>
      if s.starter == Both then s.(readers := s.readers + [Reader(s.gen, Reading)], starter := Idle) else s
    case FactoryFails => if CanPublish(s) then s.(running := false, starter := Idle) else s
    case Request => if s.channel.Some? then s.(pending := s.pending + {s.channel.value}) else s
    case _ => s
  }

  /** Channel gone, requests failed, and the reader sleeps or leaves. */
  function Buried(s: State, r: nat): State
    requires r < |s.readers|
  {
    Move(s, r, if s.stopped then Leaving else Sleeping).(channel := None, pending := {})
  }

  function DeathStep(s: State, l: Label): State {
    match l
    case Eof(r) =>
      if !At(s, r, Reading) then s
      else if s.gen != s.readers[r].gen then Move(s, r, Gone)
      else if s.config.atomic then Buried(s, r)
      else Move(s, r, Matched)
    case Clear(r) => if At(s, r, Matched) then Buried(s, r) else s
    case Wake(r) =>
      if !At(s, r, Sleeping) then s
      else if s.stopped then Move(s, r, Leaving)
      else if s.gen != s.readers[r].gen then Move(s, r, Gone)
      else Move(s, r, Restarting)
    case Exit(r) => if At(s, r, Leaving) then Move(s, r, Gone).(running := false) else s
    case _ => s
  }

  function RestartStep(s: State, l: Label): State {
    match l
    case Abandon(r) => if At(s, r, Restarting) && s.stopped then Move(s, r, Leaving) else s
    case Take(r) =>
      // whatever child is in the slot is taken out and reaped, with the lock held
      if At(s, r, Restarting) && s.lock.None? && !s.stopped then Move(s, r, Replacing).(lock := Some(r), slot := None) else s
    case Store(r) => if At(s, r, Replacing) then Move(s, r, Installed).(lock := None, slot := Some(s.readers[r].gen)) else s
    case Reopen(r) => if At(s, r, Installed) then Move(s, r, Reading).(channel := Some(s.readers[r].gen)) else s
    case GiveUp(r) =>
      if At(s, r, Restarting) && s.lock.None? then Move(s, r, Reaping).(lock := Some(r), slot := None) else s
    case Reaped(r) => if At(s, r, Reaping) then Move(s, r, Leaving).(lock := None) else s
    case _ => s
  }

  function StopStep(s: State, l: Label): State {
    match l
    case StopBegin => if s.starter == Idle && s.stop == NoStop then s.(stopped := true, stop := Asked) else s
    case StopClose => if s.stop == Asked then s.(channel := None, stop := Dropped) else s
    case StopEnd =>
      // takes the lock, reaps the child and drops the flag with the lock held
      if s.stop == Dropped && s.lock.None? then s.(slot := None, running := false, stop := NoStop) else s
    case _ => s
  }

  function Next(s: State, l: Label): State {
    match l
    case Claim | Bump | Publish | SpawnReader | FactoryFails | Request => StartStep(s, l)
    case Eof(_) | Clear(_) | Wake(_) | Exit(_) => DeathStep(s, l)
    case Abandon(_) | Take(_) | Store(_) | Reopen(_) | GiveUp(_) | Reaped(_) => RestartStep(s, l)
    case StopBegin | StopClose | StopEnd => StopStep(s, l)
  }

  predicate ByReader(l: Label) {
    || l.Eof? || l.Clear? || l.Wake? || l.Exit?
    || l.Abandon? || l.Take? || l.Store? || l.Reopen? || l.GiveUp? || l.Reaped?
  }

  /** The step is reader `r`'s. */
  predicate By(l: Label, r: nat) {
    ByReader(l) && l.r == r
  }

  // ---- What every step keeps, when the generation moves first -----------------------

  /** The channel, the child and the requests belong to the current generation or an earlier one. */
  ghost predicate ThingsOk(s: State) {
    && s.config.bumpFirst
    && (s.channel.Some? ==> s.channel.value <= s.gen)
    && (s.slot.Some? ==> s.slot.value <= s.gen)
    && (forall o :: o in s.pending ==> o <= s.gen)
    && s.starter in {Idle, Claimed, Moved, Both}
    && (s.starter != Idle ==> !s.stopped)
  }

  /** The generation of the last reader there can be. */
  function LastSpawned(s: State): int {
    s.gen - (if s.starter == Moved || s.starter == Both then 1 else 0)
  }

  /** Readers are of ever later generations, up to the current one, which has none while its start is under way. */
  ghost predicate ReadersOk(s: State) {
    && (forall i :: 0 <= i < |s.readers| ==>
          s.readers[i].gen <= LastSpawned(s))
    && (forall i, j :: 0 <= i < j < |s.readers| ==> s.readers[i].gen < s.readers[j].gen)
    && (s.config.atomic ==> forall i :: 0 <= i < |s.readers| ==> s.readers[i].pc != Matched)
  }

  predicate Holding(s: State, r: nat) {
    At(s, r, Replacing) || At(s, r, Reaping)
  }

  /** The readers that say they have the lock are the one that has it, and the slot is empty then. */
  ghost predicate LockOk(s: State) {
    && (s.lock.Some? ==> s.lock.value < |s.readers| && s.slot.None?)
    && (forall i: nat :: i < |s.readers| ==> (s.readers[i].pc in {Replacing, Reaping} <==> s.lock == Some(i)))
  }

  ghost predicate Inv(s: State) {
    ThingsOk(s) && ReadersOk(s) && LockOk(s)
  }

  lemma StartKeepsThings(s: State, l: Label)
    requires ThingsOk(s)
    ensures ThingsOk(StartStep(s, l)) && ThingsOk(StopStep(s, l))
  {
  }

  lemma SpawnKeepsReaders(s: State, s': State)
    requires ReadersOk(s) && s.starter == Both && s'.starter == Idle && s'.gen == s.gen && s'.config == s.config
    requires s'.readers == s.readers + [Reader(s.gen, Reading)]
    ensures ReadersOk(s')
  {
  }

  lemma SameKeepsReaders(s: State, s': State)
    requires ReadersOk(s) && s'.readers == s.readers && s'.config == s.config && LastSpawned(s) <= LastSpawned(s')
    ensures ReadersOk(s')
  {
  }

  lemma StartKeepsReaders(s: State, l: Label)
    requires ThingsOk(s) && ReadersOk(s)
    ensures ReadersOk(StartStep(s, l)) && ReadersOk(StopStep(s, l))
  {
    hide ReadersOk;
    SameKeepsReaders(s, StopStep(s, l));
    if l == SpawnReader && s.starter == Both {
      SpawnKeepsReaders(s, StartStep(s, l));
    } else {
      SameKeepsReaders(s, StartStep(s, l));
    }
  }

  lemma StartKeepsLock(s: State, l: Label)
    requires LockOk(s)
    ensures LockOk(StartStep(s, l)) && LockOk(StopStep(s, l))
  {
  }

  /** What a reader's step may do: it leaves start and generation alone, and touches the rest for itself alone. */
  ghost predicate Touches(s: State, r: nat, pc: Pc, n: State) {
    && r < |s.readers| && n.readers == s.readers[r := s.readers[r].(pc := pc)]
    && n.gen == s.gen && n.starter == s.starter && n.config == s.config && n.stopped == s.stopped
    && (s.config.atomic ==> pc != Matched)
    && (pc in {Replacing, Reaping} ==> s.lock.None?)
    && n.lock == (if pc in {Replacing, Reaping} then Some(r) else if Holding(s, r) then None else s.lock)
    && n.channel in {s.channel, None, Some(s.readers[r].gen)}
    && n.slot in {s.slot, None, Some(s.readers[r].gen)}
    && (n.slot.Some? && n.slot != s.slot ==> n.lock.None?) && (pc in {Replacing, Reaping} ==> n.slot.None?)
    && n.pending <= s.pending
  }

  lemma DeathTouches(s: State, l: Label)
    requires ByReader(l) && DeathStep(s, l) != s
    ensures l.r < |s.readers| && l.r < |DeathStep(s, l).readers|
    ensures Touches(s, l.r, DeathStep(s, l).readers[l.r].pc, DeathStep(s, l))
  {
  }

  lemma RestartTouches(s: State, l: Label)
    requires ByReader(l) && RestartStep(s, l) != s
    ensures l.r < |s.readers| && l.r < |RestartStep(s, l).readers|
    ensures Touches(s, l.r, RestartStep(s, l).readers[l.r].pc, RestartStep(s, l))
  {
  }

  lemma ReaderTouches(s: State, l: Label) returns (pc: Pc)
    requires ByReader(l) && Next(s, l) != s
    ensures Touches(s, l.r, pc, Next(s, l))
  {
    hide DeathStep, RestartStep, Touches;
    if Next(s, l) == DeathStep(s, l) { DeathTouches(s, l); } else { RestartTouches(s, l); }
    pc := Next(s, l).readers[l.r].pc;
  }

  lemma TouchKeepsThings(s: State, r: nat, pc: Pc, n: State)
    requires ThingsOk(s) && ReadersOk(s) && Touches(s, r, pc, n)
    ensures ThingsOk(n)
  {
  }

  lemma TouchKeepsReaders(s: State, r: nat, pc: Pc, n: State)
    requires ReadersOk(s) && Touches(s, r, pc, n)
    ensures ReadersOk(n)
  {
  }

  lemma TouchKeepsLock(s: State, r: nat, pc: Pc, n: State)
    requires LockOk(s) && Touches(s, r, pc, n)
    ensures LockOk(n)
  {
  }

  lemma ReaderKeepsInv(s: State, l: Label)
    requires Inv(s) && ByReader(l)
    ensures Inv(Next(s, l)) && Next(s, l).config == s.config
  {
    hide ThingsOk, ReadersOk, LockOk, Next;
    if Next(s, l) != s {
      var pc := ReaderTouches(s, l);
      TouchKeepsThings(s, l.r, pc, Next(s, l));
      TouchKeepsReaders(s, l.r, pc, Next(s, l));
      TouchKeepsLock(s, l.r, pc, Next(s, l));
    }
  }

  lemma StartKeepsConfig(s: State, l: Label)
    ensures StartStep(s, l).config == s.config && StopStep(s, l).config == s.config
  {
  }

  lemma StepKeepsInv(s: State, l: Label)
    requires Inv(s)
    ensures Inv(Next(s, l)) && Next(s, l).config == s.config
  {
    hide ThingsOk, ReadersOk, LockOk, StartStep, DeathStep, RestartStep, StopStep;
    if ByReader(l) {
      ReaderKeepsInv(s, l);
    } else {
      StartKeepsConfig(s, l);
      StartKeepsThings(s, l);
      StartKeepsReaders(s, l);
      StartKeepsLock(s, l);
    }
  }

  lemma {:induction false} RunKeepsInv(c: Config, labels: seq<Label>)
    requires c.bumpFirst
    ensures Inv(Run(Next, Start(c), labels)) && Run(Next, Start(c), labels).config == c
  {
    if labels != [] {
      hide Inv, Next;
      RunKeepsInv(c, labels[..|labels| - 1]);
      StepKeepsInv(Run(Next, Start(c), labels[..|labels| - 1]), labels[|labels| - 1]);
    } else {
      assert Inv(Start(c));
    }
  }

  /** In every run, whatever readers earlier lifetimes left behind, no generation has two readers. */
  lemma OneReaderPerGeneration(c: Config, labels: seq<Label>, i: nat, j: nat)
    requires c.bumpFirst && i < j < |Run(Next, Start(c), labels).readers|
    ensures var s := Run(Next, Start(c), labels); s.readers[i].gen != s.readers[j].gen
  {
    RunKeepsInv(c, labels);
  }

  // ---- End of file ------------------------------------------------------------------

  predicate ChannelLater(s: State, g: nat) {
    s.channel.Some? && s.channel.value > g
  }

  ghost predicate PendingLater(s: State, g: nat) {
    exists o :: o in s.pending && o > g
  }

  /** Clearing for a reader of generation `g` would take what belongs to a later lifetime. */
  ghost predicate TakesLater(s: State, g: nat) {
    ChannelLater(s, g) || PendingLater(s, g)
  }

  /** The step with label `l` clears for reader `r`. */
  predicate Clears(s: State, l: Label, r: nat) {
    || (l == Eof(r) && At(s, r, Reading) && s.gen == s.readers[r].gen && s.config.atomic)
    || (l == Clear(r) && At(s, r, Matched))
  }

  ghost predicate EofHarms(c: Config, labels: seq<Label>, l: Label, r: nat) {
    var s := Run(Next, Start(c), labels);
    Clears(s, l, r) && TakesLater(s, s.readers[r].gen)
  }

  ghost predicate EofIsSafe(c: Config) {
    forall labels, l, r :: !EofHarms(c, labels, l, r)
  }

  lemma AtomicIsSafe(s: State, l: Label, r: nat)
    requires Inv(s) && s.config.atomic && Clears(s, l, r)
    ensures !TakesLater(s, s.readers[r].gen)
  {
  }

  const FIRST: seq<Label> := [Claim, Publish, Bump, SpawnReader]
  const SECOND: seq<Label> := [StopBegin, StopClose, StopEnd, Claim, Publish]

  function OneLive(c: Config): State {
    State(c, 1, true, false, NoStop, Some(1), Some(1), None, {}, {}, [Reader(1, Reading)], Idle)
  }

  lemma FirstLifetime(atomic: bool)
    ensures Run(Next, Start(Config(false, atomic)), FIRST) == OneLive(Config(false, atomic))
  {
    RunFour(Next, Start(Config(false, atomic)), Claim, Publish, Bump, SpawnReader);
  }

  /** Lifetime 2 has its channel and not yet its generation. */
  function SecondPublished(atomic: bool): State {
    State(Config(false, atomic), 1, true, false, NoStop, Some(2), Some(2), None, {}, {}, [Reader(1, Reading)], Starter.Published)
  }

  /** A stop with nothing in its way. */
  lemma StopSteps(s: State)
    requires s.starter == Idle && s.stop == NoStop && s.lock.None?
    ensures Next(Next(Next(s, StopBegin), StopClose), StopEnd) ==
      s.(stopped := true, channel := None, slot := None, running := false)
  {
  }

  lemma PublishesEarly(s: State, atomic: bool)
    requires s == OneLive(Config(false, atomic)).(stopped := true, channel := None, slot := None, running := false)
    ensures Next(Next(s, Claim), Publish) == SecondPublished(atomic)
  {
  }

  lemma SecondLifetime(atomic: bool)
    ensures Run(Next, OneLive(Config(false, atomic)), SECOND) == SecondPublished(atomic)
  {
    hide Next;
    var s := OneLive(Config(false, atomic));
    StopSteps(s);
    PublishesEarly(s.(stopped := true, channel := None, slot := None, running := false), atomic);
    RunFive(Next, s, StopBegin, StopClose, StopEnd, Claim, Publish);
  }

  lemma LateBumpSteps(atomic: bool)
    ensures var s := SecondPublished(atomic);
      if atomic then Clears(s, Eof(0), 0) && TakesLater(s, 1)
      else var n := Next(s, Eof(0)); At(n, 0, Matched) && n.readers[0].gen == 1 && Clears(n, Clear(0), 0) && TakesLater(n, 1)
  {
  }

  lemma LateBumpHarms(atomic: bool)
    ensures !EofIsSafe(Config(false, atomic))
  {
    hide Next, Clears, TakesLater;
    var c := Config(false, atomic);
    FirstLifetime(atomic);
    SecondLifetime(atomic);
    RunConcat(Next, Start(c), FIRST, SECOND);
    LateBumpSteps(atomic);
    if atomic {
      assert EofHarms(c, FIRST + SECOND, Eof(0), 0);
    } else {
      RunSnoc(Next, Start(c), FIRST + SECOND, Eof(0));
      assert EofHarms(c, FIRST + SECOND + [Eof(0)], Clear(0), 0);
    }
  }

  const PROMPT: seq<Label> := [Claim, Bump, Publish, SpawnReader]
  const OVERTAKEN: seq<Label> := [Eof(0), StopBegin, StopClose, StopEnd, Claim]

  lemma PromptLifetime(atomic: bool)
    ensures Run(Next, Start(Config(true, atomic)), PROMPT) == OneLive(Config(true, atomic))
  {
    RunFour(Next, Start(Config(true, atomic)), Claim, Bump, Publish, SpawnReader);
  }

  lemma OvertakingSteps()
    ensures Next(Next(Next(Next(Next(OneLive(Config(true, false)), Eof(0)), StopBegin), StopClose), StopEnd), Claim) ==
      State(Config(true, false), 1, true, false, NoStop, None, None, None, {}, {}, [Reader(1, Matched)], Claimed)
  {
  }

  lemma OvertakenReader()
    ensures Run(Next, OneLive(Config(true, false)), OVERTAKEN) ==
      State(Config(true, false), 1, true, false, NoStop, None, None, None, {}, {}, [Reader(1, Matched)], Claimed)
  {
    hide Next;
    OvertakingSteps();
    RunFive(Next, OneLive(Config(true, false)), Eof(0), StopBegin, StopClose, StopEnd, Claim);
  }

  lemma SplitCheckHarms()
    ensures !EofIsSafe(Config(true, false))
  {
    var c := Config(true, false);
    PromptLifetime(false);
    OvertakenReader();
    RunConcat(Next, Start(c), PROMPT, OVERTAKEN);
    RunSnoc(Next, Start(c), PROMPT + OVERTAKEN, Bump);
    RunSnoc(Next, Start(c), PROMPT + OVERTAKEN + [Bump], Publish);
    assert EofHarms(c, PROMPT + OVERTAKEN + [Bump] + [Publish], Clear(0), 0);
  }

  /**
   No reader's end of file ever takes the channel or the requests of a later lifetime, in any run; and that
   takes both: the generation moved before the channel is published, and no gap between a reader's
   comparison and its clearing.
   */
  lemma EofIsSafeExactlyWhen(c: Config)
    ensures EofIsSafe(c) <==> c.bumpFirst && c.atomic
  {
    if !c.bumpFirst {
      LateBumpHarms(c.atomic);
    } else if !c.atomic {
      SplitCheckHarms();
    } else {
      hide Inv, TakesLater, Clears, Next;
      forall labels, l, r ensures !EofHarms(c, labels, l, r) {
        RunKeepsInv(c, labels);
        var s := Run(Next, Start(c), labels);
        if Clears(s, l, r) { AtomicIsSafe(s, l, r); }
      }
    }
  }

  // ---- The gap between comparison and clearing, run by run ----------------------------

  /** The state after the first `k` steps, or after all of them. */
  function StateAt(c: Config, labels: seq<Label>, k: nat): State {
    Run(Next, Start(c), if k <= |labels| then labels[..k] else labels)
  }

  lemma StateStep(c: Config, labels: seq<Label>, k: nat)
    requires k < |labels|
    ensures StateAt(c, labels, k + 1) == Next(StateAt(c, labels, k), labels[k])
  {
    RunSnoc(Next, Start(c), labels[..k], labels[k]);
    assert labels[..k + 1] == labels[..k] + [labels[k]];
  }

  lemma StateKeepsInv(c: Config, labels: seq<Label>, k: nat)
    requires c.bumpFirst
    ensures Inv(StateAt(c, labels, k)) && StateAt(c, labels, k).config == c
  {
    RunKeepsInv(c, if k <= |labels| then labels[..k] else labels);
  }

  /** The state after reader `r` compared generations and `k` more steps were made. */
  function After(labels: seq<Label>, r: nat, more: seq<Label>, k: nat): State {
    Run(Next, Start(Config(true, false)), labels + [Eof(r)] + more[..if k <= |more| then k else |more|])
  }

  lemma AfterStep(labels: seq<Label>, r: nat, more: seq<Label>, k: nat)
    requires k < |more|
    ensures After(labels, r, more, k + 1) == Next(After(labels, r, more, k), more[k])
  {
    RunSnoc(Next, Start(Config(true, false)), labels + [Eof(r)] + more[..k], more[k]);
    assert labels + [Eof(r)] + more[..k + 1] == labels + [Eof(r)] + more[..k] + [more[k]];
  }

  lemma NothingLaterYet(labels: seq<Label>, r: nat, more: seq<Label>)
    requires At(Run(Next, Start(Config(true, false)), labels), r, Reading)
    requires var s := Run(Next, Start(Config(true, false)), labels); s.gen == s.readers[r].gen
    ensures !TakesLater(After(labels, r, more, 0), Run(Next, Start(Config(true, false)), labels).gen)
  {
    RunKeepsInv(Config(true, false), labels);
    RunSnoc(Next, Start(Config(true, false)), labels, Eof(r));
    assert labels + [Eof(r)] + more[..0] == labels + [Eof(r)];
  }

  /** The step publishes the channel of a lifetime after `g`. */
  predicate PublishesLater(s: State, l: Label, g: nat) {
    || (l == Publish && CanPublish(s) && Starting(s) > g)
    || (l.Reopen? && At(s, l.r, Installed) && s.readers[l.r].gen > g)
  }

  /** The step ends whatever channel there is, or puts that of lifetime `g` or an earlier one in its place. */
  predicate EndsChannel(s: State, l: Label, g: nat) {
    || (l == StopClose && s.stop == Asked)
    || Buries(s, l)
    || (l == Publish && CanPublish(s) && Starting(s) <= g)
    || (l.Reopen? && At(s, l.r, Installed) && s.readers[l.r].gen <= g)
  }

  /** The step is a reader's clearing. */
  predicate Buries(s: State, l: Label) {
    ByReader(l) && Clears(s, l, l.r)
  }

  lemma ChannelStep(s: State, l: Label, g: nat)
    ensures ChannelLater(Next(s, l), g) <==> PublishesLater(s, l, g) || (ChannelLater(s, g) && !EndsChannel(s, l, g))
  {
  }

  lemma PendingStep(s: State, l: Label, g: nat)
    ensures PendingLater(Next(s, l), g) <==>
      (l == Request && ChannelLater(s, g)) || (PendingLater(s, g) && !Buries(s, l))
  {
    if l == Request && ChannelLater(s, g) { assert s.channel.value in Next(s, l).pending; }
    if PendingLater(s, g) && !Buries(s, l) {
      var o :| o in s.pending && o > g;
      assert o in Next(s, l).pending;
    }
  }

  /** Step `j` published a channel of a lifetime after `g`, and no step since ended it. */
  ghost predicate ChannelCame(labels: seq<Label>, r: nat, more: seq<Label>, g: nat, j: nat) {
    && j < |more| && PublishesLater(After(labels, r, more, j), more[j], g)
    && forall k: nat :: j < k < |more| ==> !EndsChannel(After(labels, r, more, k), more[k], g)
  }

  /** Step `j` was a request on such a channel, and no reader has cleared since. */
  ghost predicate RequestCame(labels: seq<Label>, r: nat, more: seq<Label>, g: nat, j: nat) {
    && j < |more| && more[j] == Request && ChannelLater(After(labels, r, more, j), g)
    && forall k: nat :: j < k < |more| ==> !Buries(After(labels, r, more, k), more[k])
  }

  lemma ChannelCameExactly(labels: seq<Label>, r: nat, more: seq<Label>, g: nat)
    requires !ChannelLater(After(labels, r, more, 0), g)
    ensures ChannelLater(After(labels, r, more, |more|), g) <==> exists j: nat :: ChannelCame(labels, r, more, g, j)
  {
    hide After, Next, PublishesLater, EndsChannel, ChannelLater;
    var p := (k: nat) => ChannelLater(After(labels, r, more, k), g);
    var up := (k: nat) => k < |more| && PublishesLater(After(labels, r, more, k), more[k], g);
    var down := (k: nat) => k < |more| && EndsChannel(After(labels, r, more, k), more[k], g);
    forall k: nat | k < |more| ensures p(k + 1) <==> up(k) || (p(k) && !down(k)) {
      AfterStep(labels, r, more, k);
      ChannelStep(After(labels, r, more, k), more[k], g);
    }
    HoldsSince(p, up, down, |more|);
    if p(|more|) {
      var j: nat :| j < |more| && up(j) && forall k: nat :: j < k < |more| ==> !down(k);
      forall k: nat | j < k < |more| ensures !EndsChannel(After(labels, r, more, k), more[k], g) { assert !down(k); }
      assert ChannelCame(labels, r, more, g, j);
    }
    if j: nat :| ChannelCame(labels, r, more, g, j) {
      assert up(j) && forall k: nat :: j < k < |more| ==> !down(k);
    }
  }

  lemma RequestCameExactly(labels: seq<Label>, r: nat, more: seq<Label>, g: nat)
    requires !PendingLater(After(labels, r, more, 0), g)
    ensures PendingLater(After(labels, r, more, |more|), g) <==> exists j: nat :: RequestCame(labels, r, more, g, j)
  {
    hide After, Next, PendingLater, ChannelLater, Buries;
    var p := (k: nat) => PendingLater(After(labels, r, more, k), g);
    var up := (k: nat) => k < |more| && more[k] == Request && ChannelLater(After(labels, r, more, k), g);
    var down := (k: nat) => k < |more| && Buries(After(labels, r, more, k), more[k]);
    forall k: nat | k < |more| ensures p(k + 1) <==> up(k) || (p(k) && !down(k)) {
      AfterStep(labels, r, more, k);
      PendingStep(After(labels, r, more, k), more[k], g);
    }
    HoldsSince(p, up, down, |more|);
    if p(|more|) {
      var j: nat :| j < |more| && up(j) && forall k: nat :: j < k < |more| ==> !down(k);
      forall k: nat | j < k < |more| ensures !Buries(After(labels, r, more, k), more[k]) { assert !down(k); }
      assert RequestCame(labels, r, more, g, j);
    }
    if j: nat :| RequestCame(labels, r, more, g, j) {
      assert up(j) && forall k: nat :: j < k < |more| ==> !down(k);
    }
  }

  /**
   With comparison and clearing apart, as they are between two threads, the clearing harms exactly when since
   the comparison a later lifetime's channel was published that no stop, clearing or restart has ended, or a
   request was made on one that no clearing has failed.
   */
  lemma SplitClearHarmsExactly(labels: seq<Label>, r: nat, more: seq<Label>)
    requires At(Run(Next, Start(Config(true, false)), labels), r, Reading)
    requires var s := Run(Next, Start(Config(true, false)), labels); s.gen == s.readers[r].gen
    ensures var g := Run(Next, Start(Config(true, false)), labels).gen;
      TakesLater(After(labels, r, more, |more|), g) <==>
        exists j: nat :: ChannelCame(labels, r, more, g, j) || RequestCame(labels, r, more, g, j)
  {
    hide After, Next;
    var g := Run(Next, Start(Config(true, false)), labels).gen;
    NothingLaterYet(labels, r, more);
    ChannelCameExactly(labels, r, more, g);
    RequestCameExactly(labels, r, more, g);
  }

  const ASKED: seq<Label> := [Request, StopBegin, StopClose, StopEnd, Claim]
  const OUTLIVED: seq<Label> := [Bump, Publish, SpawnReader, Eof(0)]

  /** A request of a stopped lifetime is not failed when its reader finds itself replaced: it is left to its own time limit. */
  lemma OldRequestIsLeft()
    ensures var s := Run(Next, Start(Config(true, true)), PROMPT + ASKED + OUTLIVED);
      1 in s.pending && s.gen == 2 && At(s, 0, Gone) && At(s, 1, Reading)
  {
    PromptLifetime(true);
    var asked := State(Config(true, true), 1, true, false, NoStop, None, None, None, {}, {1}, [Reader(1, Reading)], Claimed);
    AskedAndStopped(asked);
    RequestOutlives(asked);
    RunConcat(Next, Start(Config(true, true)), PROMPT, ASKED);
    RunConcat(Next, Start(Config(true, true)), PROMPT + ASKED, OUTLIVED);
  }

  lemma AskedAndStopped(s: State)
    requires s == State(Config(true, true), 1, true, false, NoStop, None, None, None, {}, {1}, [Reader(1, Reading)], Claimed)
    ensures Run(Next, OneLive(Config(true, true)), ASKED) == s
  {
    RunFive(Next, OneLive(Config(true, true)), Request, StopBegin, StopClose, StopEnd, Claim);
  }

  lemma OutlivingSteps(s: State)
    requires s == State(Config(true, true), 1, true, false, NoStop, None, None, None, {}, {1}, [Reader(1, Reading)], Claimed)
    ensures var n := Next(Next(Next(Next(s, Bump), Publish), SpawnReader), Eof(0));
      1 in n.pending && n.gen == 2 && At(n, 0, Gone) && At(n, 1, Reading)
  {
  }

  lemma RequestOutlives(s: State)
    requires s == State(Config(true, true), 1, true, false, NoStop, None, None, None, {}, {1}, [Reader(1, Reading)], Claimed)
    ensures var n := Run(Next, s, OUTLIVED); 1 in n.pending && n.gen == 2 && At(n, 0, Gone) && At(n, 1, Reading)
  {
    hide Next;
    OutlivingSteps(s);
    RunFour(Next, s, Bump, Publish, SpawnReader, Eof(0));
  }

  // ---- One lifetime, left to itself -------------------------------------------------

  lemma StartSteps(s: State)
    requires s.config.bumpFirst && s.starter == Idle && !s.running && s.stop == NoStop && s.lock == None
    ensures var n := Next(Next(Next(Next(s, Claim), Bump), Publish), SpawnReader);
      var g := s.gen + 1;
      n == s.(gen := g, running := true, stopped := false, channel := Some(g), slot := Some(g),
              lost := if s.slot.Some? then s.lost + {s.slot.value} else s.lost,
              readers := s.readers + [Reader(g, Reading)])
    ensures Next(Next(Next(s, Claim), Bump), FactoryFails) == s.(gen := s.gen + 1, stopped := false)
  {
  }

  /**
   A start left to itself makes one worker of the next generation, its channel published, its child in the slot and one
   reader reading it; one whose factory fails gives the flag back and leaves everything else.
   */
  lemma StartMakesOne(s: State)
    requires s.config.bumpFirst && s.starter == Idle && !s.running && s.stop == NoStop && s.lock == None
    ensures var n, g := Run(Next, s, [Claim, Bump, Publish, SpawnReader]), s.gen + 1;
      && n.running && !n.stopped && n.gen == g && n.channel == n.slot == Some(g) && n.pending == s.pending
      && n.readers == s.readers + [Reader(g, Reading)] && n.starter == Idle
    ensures Run(Next, s, [Claim, Bump, FactoryFails]) == s.(gen := s.gen + 1, stopped := false)
  {
    hide Next;
    RunFour(Next, s, Claim, Bump, Publish, SpawnReader);
    RunThree(Next, s, Claim, Bump, FactoryFails);
    StartSteps(s);
  }

  lemma CrashSteps(s: State, r: nat)
    requires At(s, r, Reading) && s.readers[r].gen == s.gen && !s.stopped
    ensures Next(Next(s, Eof(r)), Clear(r)) == Buried(s, r)
    ensures Next(Buried(s, r), Wake(r)) == Move(Buried(s, r), r, Restarting)
  {
  }

  lemma RestartSteps(s: State, r: nat)
    requires At(s, r, Restarting) && s.lock == None && !s.stopped
    ensures var n, g := Next(Next(Next(s, Take(r)), Store(r)), Reopen(r)), s.readers[r].gen;
      n.channel == n.slot == Some(g) && n.lock == None && At(n, r, Reading) && n.readers[r].gen == g
      && n.running == s.running && n.pending == s.pending && |n.readers| == |s.readers|
  {
  }

  /** A reader left to itself after an end of file fails the requests of its worker and is reading the next one, of its own generation. */
  lemma CrashRestarts(s: State, r: nat)
    requires At(s, r, Reading) && s.readers[r].gen == s.gen && !s.stopped && s.lock == None
    ensures var n := Run(Next, s, [Eof(r), Clear(r), Wake(r)] + [Take(r), Store(r), Reopen(r)]);
      && n.channel == n.slot == Some(s.gen) && n.lock == None && n.pending == {} && n.running == s.running
      && At(n, r, Reading) && n.readers[r].gen == s.gen && |n.readers| == |s.readers|
  {
    hide Next;
    RunThree(Next, s, Eof(r), Clear(r), Wake(r));
    CrashSteps(s, r);
    var w := Move(Buried(s, r), r, Restarting);
    RunThree(Next, w, Take(r), Store(r), Reopen(r));
    RestartSteps(w, r);
    RunConcat(Next, s, [Eof(r), Clear(r), Wake(r)], [Take(r), Store(r), Reopen(r)]);
  }

  lemma CallingOffSteps(s: State, r: nat)
    requires At(s, r, Restarting)
    ensures if s.stopped then
        var n := Next(Next(s, Abandon(r)), Exit(r));
        At(n, r, Gone) && !n.running && n == s.(running := false, readers := n.readers) && Next(s, Take(r)) == s
      else Next(s, Abandon(r)) == s
  {
  }

  /**
   A restart that has yet to take the lock is called off exactly by a stop: then it takes no child out of the slot, and
   its reader drops the flag and leaves.
   */
  lemma StopCallsOffRestart(c: Config, labels: seq<Label>, r: nat)
    requires At(Run(Next, Start(c), labels), r, Restarting)
    ensures var s := Run(Next, Start(c), labels);
      if s.stopped then
        var n := Run(Next, Start(c), labels + [Abandon(r)] + [Exit(r)]);
        && At(n, r, Gone) && !n.running && n.slot == s.slot && n.channel == s.channel && n.lost == s.lost
        && Run(Next, Start(c), labels + [Take(r)]) == s
      else Run(Next, Start(c), labels + [Abandon(r)]) == s
  {
    hide Next;
    RunSnoc(Next, Start(c), labels, Abandon(r));
    RunSnoc(Next, Start(c), labels, Take(r));
    RunSnoc(Next, Start(c), labels + [Abandon(r)], Exit(r));
    CallingOffSteps(Run(Next, Start(c), labels), r);
  }

  lemma StopEnds(s: State)
    requires s.starter == Idle && s.stop == NoStop && s.lock == None
    ensures Next(Next(Next(s, StopBegin), StopClose), StopEnd) ==
      s.(stopped := true, channel := None, slot := None, running := false)
  {
  }

  lemma StoppedReaderLeaves(s: State, r: nat)
    requires At(s, r, Reading) && s.readers[r].gen == s.gen && s.stopped
    ensures var n := Next(Next(Next(s, Eof(r)), Clear(r)), Exit(r));
      At(n, r, Gone) && !n.running && n.pending == {} && n.channel == None && n.slot == s.slot && n.stopped
  {
  }

  /** A stop left to itself, and its reader after it: no channel, no child, no request and no flag is left, and the reader is gone. */
  lemma StopLeavesNothing(s: State, r: nat)
    requires s.starter == Idle && s.stop == NoStop && s.lock == None && At(s, r, Reading) && s.readers[r].gen == s.gen
    ensures var n := Run(Next, s, [StopBegin, StopClose, StopEnd] + [Eof(r), Clear(r), Exit(r)]);
      At(n, r, Gone) && !n.running && n.stopped && n.channel == None && n.slot == None && n.pending == {}
  {
    hide Next;
    RunThree(Next, s, StopBegin, StopClose, StopEnd);
    StopEnds(s);
    var w := s.(stopped := true, channel := None, slot := None, running := false);
    RunThree(Next, w, Eof(r), Clear(r), Exit(r));
    StoppedReaderLeaves(w, r);
    RunConcat(Next, s, [StopBegin, StopClose, StopEnd], [Eof(r), Clear(r), Exit(r)]);
  }
}
