/**
 The phases a load announces and the slot that shows it in flight: any number of loads
 and of other holders of the lifecycle lock, each step up to the next await or the drop
 of one guard, and each await a place to be cancelled. Then the body of one load alone.
 */
module LoadPhases {
  import opened Runs
  import opened Wrappers
  import opened LoadRobustness

  type Task = nat
  type Model = string

  datatype Phase = Queued | Preparing | LoadingWeights | Finalizing | Ready | Failed

  datatype Pc =
    | Waiting                  // for the lifecycle lock
    | Locked                   // gate, id and residence are checked
    | Working                  // parameters and anchors are resolved
    | Slotted | Weights | Final
    | ClearingSlot(ok: bool)   // leaving: the slot's guard, then the lock's, then the terminal
    | Unlocking(ok: bool)
    | Closing(ok: bool)
    | Closed
    | OtherWaiting | OtherHolding | OtherDone

  /** `log` is what this load has announced. */
  datatype Load = Load(model: Model, pc: Pc, log: seq<Phase>)

  datatype State = State(lock: Option<Task>, slot: Option<Model>, loads: map<Task, Load>)

  datatype Label =
    | Call(task: Task, model: Model) | CallOther(task: Task)
    | Lock(task: Task)
    | Refuse(task: Task) | FindResident(task: Task)
    | Prepare(task: Task) | PrepareFails(task: Task)
    | SetSlot(task: Task) | StartWeights(task: Task)
    | WeightsEnd(task: Task, ok: bool)
    | Finish(task: Task)
    | ClearSlot(task: Task) | Unlock(task: Task) | Close(task: Task)
    | Cancel(task: Task)

  const START: State := State(None, None, map[])

  function PcOf(s: State, t: Task): Pc {
    if t in s.loads then s.loads[t].pc else Closed
  }

  function Move(s: State, t: Task, pc: Pc, announced: seq<Phase>): State
    requires t in s.loads
  {
    var l := s.loads[t];
    s.(loads := s.loads[t := Load(l.model, pc, l.log + announced)])
  }

  function LockStep(s: State, t: Task): State {
    if s.lock.Some? then s
    else
      match PcOf(s, t)
      case Waiting => Move(s, t, Locked, []).(lock := Some(t))
      case OtherWaiting => Move(s, t, OtherHolding, []).(lock := Some(t))
      case _ => s
  }

  function CheckStep(s: State, t: Task, l: Label): State {
    if PcOf(s, t) == Locked then
      match l
      case Refuse(_) => Move(s, t, Unlocking(false), [])
      case FindResident(_) => Move(s, t, Unlocking(true), [])
      case Prepare(_) => Move(s, t, Working, [Preparing])
      case _ => s
    else s
  }

  function WorkStep(s: State, t: Task, l: Label): State {
    match PcOf(s, t)
    case Working =>
      if l.PrepareFails? then Move(s, t, Unlocking(false), [])
      else if l.SetSlot? then Move(s, t, Slotted, []).(slot := Some(s.loads[t].model))
      else s
    case Slotted => if l.StartWeights? then Move(s, t, Weights, [LoadingWeights]) else s
    case Weights =>
      if !l.WeightsEnd? then s
      else if l.ok then Move(s, t, Final, [Finalizing])
      else Move(s, t, ClearingSlot(false), [])
    case Final => if l.Finish? then Move(s, t, ClearingSlot(true), []) else s
    case _ => s
  }

  function LeaveStep(s: State, t: Task, l: Label): State {
    match PcOf(s, t)
    case ClearingSlot(ok) => if l.ClearSlot? then Move(s, t, Unlocking(ok), []).(slot := None) else s
    case Unlocking(ok) => if l.Unlock? then Move(s, t, Closing(ok), []).(lock := None) else s
    case OtherHolding => if l.Unlock? then Move(s, t, OtherDone, []).(lock := None) else s
    case Closing(ok) => if l.Close? then Move(s, t, Closed, [if ok then Ready else Failed]) else s
    case _ => s
  }

  /** The future is dropped at an await; its guards are yet to run. */
  function CancelStep(s: State, t: Task): State {
    match PcOf(s, t)
    case Waiting => Move(s, t, Closing(false), [])
    case Locked | Working => Move(s, t, Unlocking(false), [])
    case Weights | Final => Move(s, t, ClearingSlot(false), [])
    case OtherWaiting => Move(s, t, OtherDone, [])
    case _ => s
  }

  /** A step that cannot be taken changes nothing. */
  function Next(s: State, l: Label): State {
    match l
    case Call(t, m) => if t in s.loads then s else s.(loads := s.loads[t := Load(m, Waiting, [Queued])])
    case CallOther(t) => if t in s.loads then s else s.(loads := s.loads[t := Load("", OtherWaiting, [])])
    case Lock(t) => LockStep(s, t)
    case Refuse(t) => CheckStep(s, t, l)
    case FindResident(t) => CheckStep(s, t, l)
    case Prepare(t) => CheckStep(s, t, l)
    case PrepareFails(t) => WorkStep(s, t, l)
    case SetSlot(t) => WorkStep(s, t, l)
    case StartWeights(t) => WorkStep(s, t, l)
    case WeightsEnd(t, _) => WorkStep(s, t, l)
    case Finish(t) => WorkStep(s, t, l)
    case ClearSlot(t) => LeaveStep(s, t, l)
    case Unlock(t) => LeaveStep(s, t, l)
    case Close(t) => LeaveStep(s, t, l)
    case Cancel(t) => CancelStep(s, t)
  }

  // ---- What a load announces ------------------------------------------------------

  /** The announcements before the terminal, `k` of the middle ones. */
  function Opening(k: nat): seq<Phase> {
    if k == 0 then [Queued]
    else if k == 1 then [Queued, Preparing]
    else if k == 2 then [Queued, Preparing, LoadingWeights]
    else [Queued, Preparing, LoadingWeights, Finalizing]
  }

  predicate Opens(log: seq<Phase>, ok: bool) {
    log == Opening(0) || log == Opening(3) || (!ok && (log == Opening(1) || log == Opening(2)))
  }

  /** A complete announcement: queued, a prefix of the middle phases, and one terminal; ready only with none or all. */
  predicate Complete(log: seq<Phase>) {
    && log != []
    && (log[|log| - 1] == Ready || log[|log| - 1] == Failed)
    && Opens(log[..|log| - 1], log[|log| - 1] == Ready)
  }

  predicate LogOk(l: Load) {
    match l.pc
    case Waiting | Locked => l.log == Opening(0)
    case Working | Slotted => l.log == Opening(1)
    case Weights => l.log == Opening(2)
    case Final => l.log == Opening(3)
    case ClearingSlot(ok) => Opens(l.log, ok)
    case Unlocking(ok) => Opens(l.log, ok)
    case Closing(ok) => Opens(l.log, ok)
    case Closed => Complete(l.log)
    case _ => true
  }

  predicate Holds(pc: Pc) {
    pc.Locked? || pc.Working? || pc.Slotted? || pc.Weights? || pc.Final? || pc.ClearingSlot? || pc.Unlocking? || pc.OtherHolding?
  }

  predicate HasSlot(pc: Pc) {
    pc.Slotted? || pc.Weights? || pc.Final? || pc.ClearingSlot?
  }

  ghost predicate Inv(s: State) {
    && (forall t :: t in s.loads ==> LogOk(s.loads[t]))
    && (forall t :: t in s.loads ==> (Holds(s.loads[t].pc) <==> s.lock == Some(t)))
    && (forall t :: t in s.loads && HasSlot(s.loads[t].pc) ==> s.slot == Some(s.loads[t].model))
    && (s.lock.Some? ==> s.lock.value in s.loads)
    && (s.slot.Some? ==> s.lock.Some? && HasSlot(s.loads[s.lock.value].pc))
  }

  /** A step of one load that announces `a` and moves lock and slot accordingly. */
  lemma Moved(s: State, t: Task, pc: Pc, a: seq<Phase>, s': State)
    requires Inv(s) && t in s.loads
    requires s' == Move(s, t, pc, a).(lock := s'.lock, slot := s'.slot)
    requires LogOk(s'.loads[t])
    requires s'.lock == if Holds(pc) then Some(t) else if s.lock == Some(t) then None else s.lock
    requires Holds(pc) ==> s.lock == None || s.lock == Some(t)
    requires s'.slot == if HasSlot(pc) then Some(s.loads[t].model) else if HasSlot(s.loads[t].pc) then None else s.slot
    ensures Inv(s')
  {
  }

  lemma LockKeeps(s: State, t: Task)
    requires Inv(s)
    ensures Inv(LockStep(s, t)) && Inv(CancelStep(s, t))
  {
    if t in s.loads {
      assert LogOk(s.loads[t]);
      match s.loads[t].pc
      case Waiting =>
        if s.lock == None { Moved(s, t, Locked, [], LockStep(s, t)); }
        Moved(s, t, Closing(false), [], CancelStep(s, t));
      case OtherWaiting =>
        if s.lock == None { Moved(s, t, OtherHolding, [], LockStep(s, t)); }
        Moved(s, t, OtherDone, [], CancelStep(s, t));
      case Locked | Working => Moved(s, t, Unlocking(false), [], CancelStep(s, t));
      case Weights | Final => Moved(s, t, ClearingSlot(false), [], CancelStep(s, t));
      case _ =>
    }
  }

  lemma CheckKeeps(s: State, t: Task, l: Label)
    requires Inv(s)
    ensures Inv(CheckStep(s, t, l))
  {
    if PcOf(s, t) == Locked {
      match l
      case Refuse(_) => Moved(s, t, Unlocking(false), [], CheckStep(s, t, l));
      case FindResident(_) => Moved(s, t, Unlocking(true), [], CheckStep(s, t, l));
      case Prepare(_) => Moved(s, t, Working, [Preparing], CheckStep(s, t, l));
      case _ =>
    }
  }

  lemma WorkKeeps(s: State, t: Task, l: Label)
    requires Inv(s)
    ensures Inv(WorkStep(s, t, l))
  {
    match PcOf(s, t)
    case Working =>
      if l.PrepareFails? { Moved(s, t, Unlocking(false), [], WorkStep(s, t, l)); }
      if l.SetSlot? { Moved(s, t, Slotted, [], WorkStep(s, t, l)); }
    case Slotted => if l.StartWeights? { Moved(s, t, Weights, [LoadingWeights], WorkStep(s, t, l)); }
    case Weights =>
      if l.WeightsEnd? && l.ok { Moved(s, t, Final, [Finalizing], WorkStep(s, t, l)); }
      if l.WeightsEnd? && !l.ok { Moved(s, t, ClearingSlot(false), [], WorkStep(s, t, l)); }
    case Final => if l.Finish? { Moved(s, t, ClearingSlot(true), [], WorkStep(s, t, l)); }
    case _ =>
  }

  lemma LeaveKeeps(s: State, t: Task, l: Label)
    requires Inv(s)
    ensures Inv(LeaveStep(s, t, l))
  {
    match PcOf(s, t)
    case ClearingSlot(ok) => if l.ClearSlot? { Moved(s, t, Unlocking(ok), [], LeaveStep(s, t, l)); }
    case Unlocking(ok) => if l.Unlock? { Moved(s, t, Closing(ok), [], LeaveStep(s, t, l)); }
    case OtherHolding => if l.Unlock? { Moved(s, t, OtherDone, [], LeaveStep(s, t, l)); }
    case Closing(ok) =>
      if l.Close? {
        var terminal := if ok then Ready else Failed;
        var log := s.loads[t].log;
        assert (log + [terminal])[..|log|] == log;
        Moved(s, t, Closed, [terminal], LeaveStep(s, t, l));
      }
    case _ =>
  }

  lemma CallKeeps(s: State, t: Task, called: Load)
    requires Inv(s) && t !in s.loads
    requires called.pc in {Waiting, OtherWaiting} && LogOk(called)
    ensures Inv(s.(loads := s.loads[t := called]))
  {
  }

  lemma StepKeepsInv(s: State, l: Label)
    requires Inv(s)
    ensures Inv(Next(s, l))
  {
    hide Inv, LockStep, CheckStep, WorkStep, LeaveStep, CancelStep;
    match l
    case Call(t, m) => if t !in s.loads { CallKeeps(s, t, Load(m, Waiting, [Queued])); }
    case CallOther(t) => if t !in s.loads { CallKeeps(s, t, Load("", OtherWaiting, [])); }
    case Lock(t) => LockKeeps(s, t);
    case Cancel(t) => LockKeeps(s, t);
    case Refuse(t) => CheckKeeps(s, t, l);
    case FindResident(t) => CheckKeeps(s, t, l);
    case Prepare(t) => CheckKeeps(s, t, l);
    case PrepareFails(t) => WorkKeeps(s, t, l);
    case SetSlot(t) => WorkKeeps(s, t, l);
    case StartWeights(t) => WorkKeeps(s, t, l);
    case WeightsEnd(t, _) => WorkKeeps(s, t, l);
    case Finish(t) => WorkKeeps(s, t, l);
    case ClearSlot(t) => LeaveKeeps(s, t, l);
    case Unlock(t) => LeaveKeeps(s, t, l);
    case Close(t) => LeaveKeeps(s, t, l);
  }

  lemma {:induction false} RunKeepsInv(labels: seq<Label>)
    ensures Inv(Run(Next, START, labels))
  {
    if labels != [] {
      RunKeepsInv(labels[..|labels| - 1]);
      StepKeepsInv(Run(Next, START, labels[..|labels| - 1]), labels[|labels| - 1]);
    }
  }

  // ---- Main results ---------------------------------------------------------------

  predicate IsOther(pc: Pc) {
    pc.OtherWaiting? || pc.OtherHolding? || pc.OtherDone?
  }

  /**
   Whatever way a load goes, cancellation included: it announces Queued first, then a prefix of the middle
   phases, and a terminal exactly once and last, when it is closed; Ready only after none or all of them.
   */
  lemma PhasesAreInOrder(labels: seq<Label>, t: Task)
    requires t in Run(Next, START, labels).loads && !IsOther(Run(Next, START, labels).loads[t].pc)
    ensures var l := Run(Next, START, labels).loads[t];
      if l.pc == Closed then Complete(l.log) else exists k :: 0 <= k <= 3 && l.log == Opening(k)
  {
    RunKeepsInv(labels);
    var l := Run(Next, START, labels).loads[t];
    assert LogOk(l);
    assert l.pc != Closed ==> l.log in [Opening(0), Opening(1), Opening(2), Opening(3)];
  }

  /** What a load needs to be ready: a resident model, or weights that loaded and bookkeeping that finished. */
  predicate Earned(labels: seq<Label>, t: Task) {
    FindResident(t) in labels || (WeightsEnd(t, true) in labels && Finish(t) in labels)
  }

  /** `weights`: the weights loaded; `earned`: ready may be announced. */
  predicate Due(l: Load, weights: bool, earned: bool) {
    && (l.pc == Final ==> weights)
    && (l.pc == ClearingSlot(true) || l.pc == Unlocking(true) || l.pc == Closing(true) ==> earned)
    && (l.pc == Closed && l.log != [] && l.log[|l.log| - 1] == Ready ==> earned)
  }

  predicate Deserved(l: Load, labels: seq<Label>, t: Task) {
    Due(l, WeightsEnd(t, true) in labels, Earned(labels, t))
  }

  lemma OthersStay(s: State, l: Label, t: Task)
    requires t in s.loads && l.task != t
    ensures t in Next(s, l).loads && Next(s, l).loads[t] == s.loads[t]
  {
  }

  lemma EarnedStays(labels: seq<Label>, l: Label, t: Task)
    ensures Earned(labels, t) ==> Earned(labels + [l], t)
    ensures WeightsEnd(t, true) in labels ==> WeightsEnd(t, true) in labels + [l]
    ensures l == FindResident(t) ==> Earned(labels + [l], t)
    ensures l == Finish(t) && WeightsEnd(t, true) in labels ==> Earned(labels + [l], t)
    ensures l == WeightsEnd(t, true) ==> WeightsEnd(t, true) in labels + [l]
  {
    assert forall x :: x in labels ==> x in labels + [l];
    assert l in labels + [l];
  }

  lemma OwnStepIsDue(s: State, l: Label, t: Task, weights: bool, earned: bool)
    requires t in s.loads && l.task == t && Due(s.loads[t], weights, earned)
    ensures t in Next(s, l).loads
    ensures Due(Next(s, l).loads[t], weights || l == WeightsEnd(t, true),
                earned || l == FindResident(t) || (l == Finish(t) && weights))
  {
  }

  lemma DueGrows(l: Load, weights: bool, earned: bool, weights': bool, earned': bool)
    requires Due(l, weights, earned) && (weights ==> weights') && (earned ==> earned')
    ensures Due(l, weights', earned')
  {
  }

  lemma StepDeserves(s: State, l: Label, labels: seq<Label>, t: Task)
    requires t in Next(s, l).loads
    requires t in s.loads ==> Deserved(s.loads[t], labels, t)
    ensures Deserved(Next(s, l).loads[t], labels + [l], t)
  {
    hide Due, Earned;
    var weights, earned := WeightsEnd(t, true) in labels, Earned(labels, t);
    var weights', earned' := WeightsEnd(t, true) in labels + [l], Earned(labels + [l], t);
    EarnedStays(labels, l, t);
    if t !in s.loads {
      CalledIsDue(s, l, t, weights', earned');
    } else if l.task == t {
      hide Next;
      OwnStepIsDue(s, l, t, weights, earned);
      DueGrows(Next(s, l).loads[t], weights || l == WeightsEnd(t, true),
        earned || l == FindResident(t) || (l == Finish(t) && weights), weights', earned');
    } else {
      hide Next;
      OthersStay(s, l, t);
      DueGrows(s.loads[t], weights, earned, weights', earned');
    }
  }

  lemma CalledIsDue(s: State, l: Label, t: Task, weights: bool, earned: bool)
    requires t !in s.loads && t in Next(s, l).loads
    ensures Due(Next(s, l).loads[t], weights, earned)
  {
  }

  /** Ready is never announced for nothing. */
  lemma {:induction false} ReadyIsEarned(labels: seq<Label>, t: Task)
    requires t in Run(Next, START, labels).loads
    ensures Deserved(Run(Next, START, labels).loads[t], labels, t)
  {
    if labels != [] {
      hide Deserved, Next;
      var front, l := labels[..|labels| - 1], labels[|labels| - 1];
      assert labels == front + [l];
      var s := Run(Next, START, front);
      if t in s.loads { ReadyIsEarned(front, t); }
      StepDeserves(s, l, front, t);
    }
  }

  /**
   The slot shows a model exactly while the holder of the lifecycle lock is a load of it between setting the
   slot and its guard: through the weights, and through the bookkeeping after them.
   */
  lemma SlotFollowsTheHolder(labels: seq<Label>, m: Model)
    ensures var s := Run(Next, START, labels);
      s.slot == Some(m) <==> s.lock.Some? && HasSlot(PcOf(s, s.lock.value)) && s.loads[s.lock.value].model == m
  {
    RunKeepsInv(labels);
  }

  /** Only the load whose slot it is can change a slot that is set; no other load's guard ever clears it. */
  lemma SlotIsNotClearedByOthers(labels: seq<Label>, l: Label)
    requires var s := Run(Next, START, labels); s.slot.Some? && s.lock != Some(l.task)
    ensures var s := Run(Next, START, labels); Next(s, l).slot == s.slot && Next(s, l).lock == s.lock
  {
    RunKeepsInv(labels);
    var s := Run(Next, START, labels);
    assert l.task in s.loads ==> !Holds(s.loads[l.task].pc);
  }

  lemma CancelLeaves(s: State, t: Task)
    requires PcOf(s, t) in {Waiting, Locked, Working, Weights, Final}
    ensures Leaves(Next(s, Cancel(t)), t, s.loads[t].log)
  {
  }

  /** The load failed and has its guards yet to run. */
  predicate Leaves(s: State, t: Task, log: seq<Phase>) {
    && t in s.loads && s.loads[t].log == log
    && s.loads[t].pc in {ClearingSlot(false), Unlocking(false), Closing(false)}
  }

  lemma ClearLeaves(s: State, t: Task, log: seq<Phase>)
    requires Leaves(s, t, log)
    ensures var n := Next(s, ClearSlot(t)); Leaves(n, t, log) && t in n.loads && n.loads[t].pc != ClearingSlot(false)
  {
  }

  lemma UnlockLeaves(s: State, t: Task, log: seq<Phase>)
    requires Leaves(s, t, log) && t in s.loads && s.loads[t].pc != ClearingSlot(false)
    ensures var n := Next(s, Unlock(t)); Leaves(n, t, log) && t in n.loads && n.loads[t].pc == Closing(false)
  {
  }

  lemma ClosesAsFailed(s: State, t: Task, log: seq<Phase>)
    requires Leaves(s, t, log) && t in s.loads && s.loads[t].pc == Closing(false)
    ensures var n := Next(s, Close(t)); t in n.loads && n.loads[t].pc == Closed && n.loads[t].log == log + [Failed]
  {
  }

  lemma GuardsClose(s: State, t: Task)
    requires PcOf(s, t) in {Waiting, Locked, Working, Weights, Final}
    ensures t in s.loads
    ensures var c := Next(Next(Next(Next(s, Cancel(t)), ClearSlot(t)), Unlock(t)), Close(t));
      t in c.loads && c.loads[t].pc == Closed && c.loads[t].log == s.loads[t].log + [Failed]
  {
    hide Next, Leaves;
    var log := s.loads[t].log;
    CancelLeaves(s, t);
    var a := Next(s, Cancel(t));
    ClearLeaves(a, t, log);
    var b := Next(a, ClearSlot(t));
    UnlockLeaves(b, t, log);
    ClosesAsFailed(Next(b, Unlock(t)), t, log);
  }

  /** A cancelled load is closed by its guards alone, and as failed. */
  lemma CancelledLoadCloses(labels: seq<Label>, t: Task)
    requires PcOf(Run(Next, START, labels), t) in {Waiting, Locked, Working, Weights, Final}
    ensures var s := Run(Next, START, labels + [Cancel(t), ClearSlot(t), Unlock(t), Close(t)]);
      t in s.loads && s.loads[t].pc == Closed && s.loads[t].log == Run(Next, START, labels).loads[t].log + [Failed]
  {
    var s := Run(Next, START, labels);
    GuardsClose(s, t);
    RunFour(Next, s, Cancel(t), ClearSlot(t), Unlock(t), Close(t));
    RunConcat(Next, START, labels, [Cancel(t), ClearSlot(t), Unlock(t), Close(t)]);
  }

  /** Load `t` at `pc` with `log` announced, holding what it holds there; nobody holds anything else. */
  function At(s: State, t: Task, m: Model, pc: Pc, log: seq<Phase>): State {
    State(if Holds(pc) then Some(t) else None, if HasSlot(pc) then Some(m) else None, s.loads[t := Load(m, pc, log)])
  }

  lemma AtMoves(s: State, t: Task, m: Model, a: Pc, log: seq<Phase>, b: Pc, announced: seq<Phase>)
    ensures var n := Move(At(s, t, m, a, log), t, b, announced);
      n.loads == At(s, t, m, b, log + announced).loads
    ensures At(s, t, m, b, log + []) == At(s, t, m, b, log) && PcOf(At(s, t, m, a, log), t) == a
  {
    assert s.loads[t := Load(m, a, log)][t := Load(m, b, log + announced)] == s.loads[t := Load(m, b, log + announced)];
    assert log + [] == log;
  }

  lemma TakesLock(s: State, t: Task)
    requires s.lock == None && s.slot == None && PcOf(s, t) == Waiting
    ensures Next(s, Lock(t)) == At(s, t, s.loads[t].model, Locked, s.loads[t].log)
  {
    assert s.loads[t].log + [] == s.loads[t].log;
  }

  lemma Begins(s: State, t: Task, m: Model, log: seq<Phase>)
    ensures Next(At(s, t, m, Locked, log), Prepare(t)) == At(s, t, m, Working, log + [Preparing])
    ensures Next(At(s, t, m, Locked, log), FindResident(t)) == At(s, t, m, Unlocking(true), log)
    ensures Next(At(s, t, m, Locked, log), Refuse(t)) == At(s, t, m, Unlocking(false), log)
  {
    AtMoves(s, t, m, Locked, log, Working, [Preparing]);
    AtMoves(s, t, m, Locked, log, Unlocking(true), []);
    AtMoves(s, t, m, Locked, log, Unlocking(false), []);
  }

  lemma ShowsSlot(s: State, t: Task, m: Model, log: seq<Phase>)
    ensures Next(At(s, t, m, Working, log), SetSlot(t)) == At(s, t, m, Slotted, log)
    ensures Next(At(s, t, m, Slotted, log), StartWeights(t)) == At(s, t, m, Weights, log + [LoadingWeights])
  {
    AtMoves(s, t, m, Working, log, Slotted, []);
    AtMoves(s, t, m, Slotted, log, Weights, [LoadingWeights]);
  }

  lemma WeightsCome(s: State, t: Task, m: Model, log: seq<Phase>, ok: bool)
    ensures Next(At(s, t, m, Weights, log), WeightsEnd(t, ok)) ==
      if ok then At(s, t, m, Final, log + [Finalizing]) else At(s, t, m, ClearingSlot(false), log)
    ensures Next(At(s, t, m, Final, log), Finish(t)) == At(s, t, m, ClearingSlot(true), log)
  {
    AtMoves(s, t, m, Weights, log, Final, [Finalizing]);
    AtMoves(s, t, m, Weights, log, ClearingSlot(false), []);
    AtMoves(s, t, m, Final, log, ClearingSlot(true), []);
  }

  lemma GuardsGo(s: State, t: Task, m: Model, log: seq<Phase>, ok: bool)
    ensures Next(At(s, t, m, ClearingSlot(ok), log), ClearSlot(t)) == At(s, t, m, Unlocking(ok), log)
    ensures Next(At(s, t, m, Unlocking(ok), log), Unlock(t)) == At(s, t, m, Closing(ok), log)
    ensures Next(At(s, t, m, Closing(ok), log), Close(t)) == At(s, t, m, Closed, log + [if ok then Ready else Failed])
  {
    AtMoves(s, t, m, ClearingSlot(ok), log, Unlocking(ok), []);
    AtMoves(s, t, m, Unlocking(ok), log, Closing(ok), []);
    AtMoves(s, t, m, Closing(ok), log, Closed, [if ok then Ready else Failed]);
  }

  /** The steps of a load that finds its model resident or is refused, and of one whose weights load or do not. */
  function Answer(t: Task, resident: bool): seq<Label> {
    [Lock(t), if resident then FindResident(t) else Refuse(t), Unlock(t), Close(t)]
  }

  function Opened(t: Task): seq<Label> {
    [Lock(t), Prepare(t), SetSlot(t), StartWeights(t)]
  }

  function Done(t: Task, ok: bool): seq<Label> {
    [WeightsEnd(t, ok), if ok then Finish(t) else ClearSlot(t), if ok then ClearSlot(t) else Unlock(t),
     if ok then Unlock(t) else Close(t)]
  }

  lemma AnswerCloses(s: State, t: Task, resident: bool)
    requires s.lock == None && s.slot == None && PcOf(s, t) == Waiting
    ensures Run(Next, s, Answer(t, resident)) ==
      At(s, t, s.loads[t].model, Closed, s.loads[t].log + [if resident then Ready else Failed])
  {
    hide Next;
    var m, log := s.loads[t].model, s.loads[t].log;
    RunFour(Next, s, Lock(t), if resident then FindResident(t) else Refuse(t), Unlock(t), Close(t));
    TakesLock(s, t);
    Begins(s, t, m, log);
    GuardsGo(s, t, m, log, resident);
  }

  lemma OpenedLoads(s: State, t: Task)
    requires s.lock == None && s.slot == None && PcOf(s, t) == Waiting
    ensures Run(Next, s, Opened(t)) ==
      At(s, t, s.loads[t].model, Weights, s.loads[t].log + [Preparing] + [LoadingWeights])
  {
    hide Next;
    var m, log := s.loads[t].model, s.loads[t].log;
    RunFour(Next, s, Lock(t), Prepare(t), SetSlot(t), StartWeights(t));
    TakesLock(s, t);
    Begins(s, t, m, log);
    ShowsSlot(s, t, m, log + [Preparing]);
  }

  lemma DoneCloses(s: State, t: Task, m: Model, log: seq<Phase>)
    ensures Run(Next, At(s, t, m, Weights, log), Done(t, false)) == At(s, t, m, Closed, log + [Failed])
    ensures Next(Run(Next, At(s, t, m, Weights, log), Done(t, true)), Close(t)) == At(s, t, m, Closed, log + [Finalizing] + [Ready])
  {
    hide Next;
    var w := At(s, t, m, Weights, log);
    RunFour(Next, w, WeightsEnd(t, false), ClearSlot(t), Unlock(t), Close(t));
    RunFour(Next, w, WeightsEnd(t, true), Finish(t), ClearSlot(t), Unlock(t));
    WeightsCome(s, t, m, log, true);
    WeightsCome(s, t, m, log, false);
    WeightsCome(s, t, m, log + [Finalizing], true);
    GuardsGo(s, t, m, log, false);
    GuardsGo(s, t, m, log + [Finalizing], true);
  }

  /** How a load can end that is left to itself. */
  datatype Ending = Found | Turned | Broken | Loaded

  function StepsTo(t: Task, e: Ending): seq<Label> {
    match e
    case Found => Answer(t, true)
    case Turned => Answer(t, false)
    case Broken => Opened(t) + Done(t, false)
    case Loaded => Opened(t) + Done(t, true) + [Close(t)]
  }

  /** What it has announced then. */
  function Announced(e: Ending): seq<Phase> {
    match e
    case Found => [Ready]
    case Turned => [Failed]
    case Broken => [Preparing] + [LoadingWeights] + [Failed]
    case Loaded => [Preparing] + [LoadingWeights] + [Finalizing] + [Ready]
  }

  lemma StepsClose(s: State, t: Task, e: Ending)
    requires s.lock == None && s.slot == None && PcOf(s, t) == Waiting
    ensures Run(Next, s, StepsTo(t, e)) == At(s, t, s.loads[t].model, Closed, s.loads[t].log + Announced(e))
  {
    hide Next, Answer, Opened, Done, At;
    var m, log := s.loads[t].model, s.loads[t].log;
    var weighing := log + [Preparing] + [LoadingWeights];
    assert log + Announced(Broken) == weighing + [Failed];
    assert log + Announced(Loaded) == weighing + [Finalizing] + [Ready];
    match e
    case Found => AnswerCloses(s, t, true);
    case Turned => AnswerCloses(s, t, false);
    case Broken =>
      OpenedLoads(s, t);
      RunConcat(Next, s, Opened(t), Done(t, false));
      DoneCloses(s, t, m, weighing);
    case Loaded =>
      OpenedLoads(s, t);
      RunConcat(Next, s, Opened(t), Done(t, true));
      RunSnoc(Next, s, Opened(t) + Done(t, true), Close(t));
      DoneCloses(s, t, m, weighing);
  }

  /**
   A waiting load left to itself, in any run: with a resident model it closes as ready at once, refused it closes as
   failed, and else it announces every phase it comes to, in order, and the terminal its weights deserve. Lock and
   slot are free again, and no other load has moved.
   */
  lemma LoadLeftAlone(labels: seq<Label>, t: Task, e: Ending)
    requires var s := Run(Next, START, labels); s.lock == None && PcOf(s, t) == Waiting
    ensures var s, n := Run(Next, START, labels), Run(Next, START, labels + StepsTo(t, e));
      && n.lock == None && n.slot == None && n.loads.Keys == s.loads.Keys
      && (forall u :: u in s.loads && u != t ==> n.loads[u] == s.loads[u])
      && n.loads[t] == Load(s.loads[t].model, Closed,
           match e
           case Found => [Queued, Ready]
           case Turned => [Queued, Failed]
           case Broken => [Queued, Preparing, LoadingWeights, Failed]
           case Loaded => [Queued, Preparing, LoadingWeights, Finalizing, Ready])
  {
    hide Next, Answer, Opened, Done;
    var s := Run(Next, START, labels);
    RunKeepsInv(labels);
    assert LogOk(s.loads[t]) && s.slot == None;
    RunConcat(Next, START, labels, StepsTo(t, e));
    StepsClose(s, t, e);
    assert t in s.loads;
  }

  // ---- One load on its own --------------------------------------------------------

  datatype Persist = Explicit | ReuseSaved | Ephemeral

  datatype Refusal = BenchInProgress | BadId | EphemeralResident | ProfileStale | NotLoaded(error: LoadError)

  /** The hardware as its fingerprint, and the signature of the model's file; none when the scan does not list the model. */
  datatype Machine = Machine(hardware: string, file: Option<string>)

  /** A saved profile with what it was saved against; an empty anchor was not recorded. */
  datatype Saved = Saved(profile: EngineParams, hardware: string, file: string)

  predicate Outdated(saved: Saved, hardware: string, file: string) {
    (saved.hardware != "" && saved.hardware != hardware) || (saved.file != "" && saved.file != file)
  }

  /**
   A load as it is asked for, and what it meets: a malformed id, a profile store that cannot be read or
   written, a record that cannot be written, and the machine as it is when a saved profile is looked at and when a new one is anchored.
   */
  datatype Request = Request(
    model: Model, persist: Persist, params: Option<EngineParams>, layerCount: Option<u32>,
    validId: bool, storeOpens: bool, storeWrites: bool, recordOk: bool, seen: Machine, anchored: Machine)

  function SavedFor(q: Request, profiles: map<Model, Saved>): Option<Saved> {
    if q.storeOpens && q.model in profiles then Some(profiles[q.model]) else None
  }

  /** Explicit parameters win; else the saved profile. */
  function Chosen(q: Request, profiles: map<Model, Saved>): Option<EngineParams> {
    if q.params.Some? then q.params
    else match SavedFor(q, profiles) case Some(saved) => Some(saved.profile) case None => None
  }

  /** A saved profile is about to be reused for a model that the scan lists, and it is outdated. */
  predicate Stale(q: Request, profiles: map<Model, Saved>) {
    && q.params == None && SavedFor(q, profiles).Some? && q.seen.file.Some?
    && Outdated(SavedFor(q, profiles).value, q.seen.hardware, q.seen.file.value)
  }

  /** A profile as it is saved: with the machine as it was before the load. */
  function Anchored(q: Request, profile: EngineParams): Saved {
    Saved(profile, q.anchored.hardware, match q.anchored.file case Some(file) => file case None => "")
  }

  /** What the node is asked for; a load by default leaves the context to the node. */
  function Asked(q: Request, profiles: map<Model, Saved>, byDefault: EngineParams): NodeParams {
    match Chosen(q, profiles)
    case Some(p) => Requested(q.model, p)
    case None => Requested(q.model, byDefault).(ctxLen := None)
  }

  /** A load is saved when it was explicit, or reused a profile and had to degrade it. */
  predicate WritesBack(q: Request, profiles: map<Model, Saved>, asked: NodeParams, loaded: NodeParams) {
    q.storeWrites && (q.persist == Explicit || (q.persist == ReuseSaved && Chosen(q, profiles).Some? && loaded != asked))
  }

  /** The node is asked for exactly the parameters `p` of model `m`. */
  predicate AsksFor(np: NodeParams, m: Model, p: EngineParams) {
    && np.id == m && np.gpuLayers == Some(p.gpuLayers) && np.threads == Some(p.threads)
    && (match np.ctxLen case Some(n) => p.ctxLen == Fixed(n) case None => p.ctxLen == Auto)
    && (np.params == Some(p) || (np.params == None && p.offloadKqv == None && p.other == map[]))
  }

  /** And here for the default ones, but for the context, which is the node's to choose. */
  predicate AsksByDefault(np: NodeParams, m: Model, p: EngineParams) {
    && np.id == m && np.ctxLen == None && np.gpuLayers == Some(p.gpuLayers) && np.threads == Some(p.threads)
    && (np.params == Some(p) || (np.params == None && p.offloadKqv == None && p.other == map[]))
  }

  lemma AskedExactly(q: Request, profiles: map<Model, Saved>, byDefault: EngineParams)
    ensures var asked := Asked(q, profiles, byDefault);
      && (q.params.Some? ==> AsksFor(asked, q.model, q.params.value))
      && (q.params == None && q.storeOpens && q.model in profiles ==> AsksFor(asked, q.model, profiles[q.model].profile))
      && (q.params == None && !(q.storeOpens && q.model in profiles) ==>
            AsksByDefault(asked, q.model, byDefault))
  {
  }

  lemma SomeIsChosen(q: Request, profiles: map<Model, Saved>)
    ensures Chosen(q, profiles).Some? <==> q.params.Some? || (q.storeOpens && q.model in profiles)
  {
  }

  predicate Reaches(q: Request, benchmarking: set<Model>, resident: set<Model>, profiles: map<Model, Saved>) {
    q.model !in benchmarking && q.validId && q.model !in resident && !Stale(q, profiles)
  }

  /** How far a load that ended in `r` got. */
  function Stage(r: Result<(), Refusal>, wasResident: bool): nat {
    match r
    case Ok(_) => if wasResident then 0 else 3
    case Err(ProfileStale) => 1
    case Err(NotLoaded(_)) => 2
    case Err(_) => 0
  }

  /** The announcements of a body that got that far. */
  function Middle(stage: nat): seq<Phase> {
    if stage == 0 then []
    else if stage == 1 then [Preparing]
    else if stage == 2 then [Preparing, LoadingWeights]
    else [Preparing, LoadingWeights, Finalizing]
  }

  lemma OpeningIsMiddle(stage: nat)
    ensures Opening(stage) == [Queued] + Middle(stage)
  {
  }

  lemma TerminalCompletes(stage: nat, ok: bool)
    requires ok ==> stage == 0 || stage == 3
    ensures Complete(Opening(stage) + [if ok then Ready else Failed])
  {
    var mine := Opening(stage) + [if ok then Ready else Failed];
    assert mine[..|mine| - 1] == Opening(stage);
    assert Opens(Opening(stage), ok);
  }

  lemma Brackets(before: seq<Phase>, stage: nat, ok: bool, all: seq<Phase>)
    requires all == before + [Queued] + Middle(stage) + [if ok then Ready else Failed]
    requires ok ==> stage == 0 || stage == 3
    ensures before <= all
    ensures var mine := all[|before|..];
      && Complete(mine) && mine == Opening(stage) + [if ok then Ready else Failed]
  {
    TerminalCompletes(stage, ok);
    OpeningIsMiddle(stage);
    hide Complete, Opening, Middle;
    var mine := Opening(stage) + [if ok then Ready else Failed];
    assert all == before + mine;
    assert all[|before|..] == mine;
  }

  /** An ephemeral load is tried once, as it is; any other may fall back on the ladder. */
  method LoadOnNode(persist: Persist, asked: NodeParams, layerCount: Option<u32>, outcomes: nat -> Result<(), LoadError>)
    returns (loaded: Result<NodeParams, LoadError>, used: seq<NodeParams>)
    ensures used != [] && used[0] == asked && (loaded.Ok? ==> loaded.value == used[|used| - 1])
    ensures persist == Ephemeral ==> |used| == 1 && loaded == match outcomes(0) case Ok(_) => Ok(asked) case Err(e) => Err(e)
    ensures persist != Ephemeral ==> IsWalk(asked, OomLadder(asked, layerCount), outcomes, loaded, used)
  {
    hide OomReason, OomLadder;
    if persist == Ephemeral {
      used := [asked];
      loaded := match outcomes(0) case Ok(_) => Ok(asked) case Err(e) => Err(e);
    } else {
      loaded, used := RunOomLadder(asked, layerCount, outcomes);
    }
  }

  class Facade {
    var benchmarking: set<Model>
    var resident: set<Model>
    var loading: Option<Model>
    var announced: seq<Phase>
    var profiles: map<Model, Saved>
    var lastLoads: map<Model, EngineParams>
    const defaultLoad: EngineParams

    constructor (byDefault: EngineParams)
      ensures benchmarking == {} && resident == {} && loading == None && announced == []
      ensures profiles == map[] && lastLoads == map[] && defaultLoad == byDefault
    {
      benchmarking, resident, loading, announced := {}, {}, None, [];
      profiles, lastLoads, defaultLoad := map[], map[], byDefault;
    }

    /** Saves what loaded: the last load, and the profile of an explicit load or of a reuse that had to degrade. */
    method Remember(q: Request, reusable: bool, asked: NodeParams, np: NodeParams)
      modifies this`profiles, this`lastLoads
      ensures lastLoads ==
        if q.persist != Ephemeral && q.recordOk then old(lastLoads)[q.model := Effective(np)] else old(lastLoads)
      ensures profiles ==
        if q.storeWrites && (q.persist == Explicit || (q.persist == ReuseSaved && reusable && np != asked))
        then old(profiles)[q.model := Anchored(q, Effective(np))] else old(profiles)
    {
      hide Effective;
      if q.persist != Ephemeral && q.recordOk {
        lastLoads := lastLoads[q.model := Effective(np)];
      }
      var anchored := q.persist == Explicit || (q.persist == ReuseSaved && reusable);
      if anchored && (q.persist == Explicit || np != asked) && q.storeWrites {
        profiles := profiles[q.model := Anchored(q, Effective(np))];
      }
    }

    /**
     The body of a load. Its refusals come in this order; a resident model is a success that loads nothing;
     an ephemeral load is tried once, any other walks the ladder of cheaper parameters. What is saved is what
     loaded, and only when it was explicit or had to be degraded; what failed saves nothing.
     */
    method LoadInnerImpl(q: Request, outcomes: nat -> Result<(), LoadError>)
      returns (r: Result<(), Refusal>, used: seq<NodeParams>)
      requires loading == None
      modifies this`resident, this`loading, this`announced, this`profiles, this`lastLoads
      ensures loading == None
      ensures resident == if r.Ok? then old(resident) + {q.model} else old(resident)
      ensures announced == old(announced) + Middle(Stage(r, q.model in old(resident)))
      ensures r == Err(BenchInProgress) <==> q.model in benchmarking
      ensures r == Err(BadId) <==> q.model !in benchmarking && !q.validId
      ensures r == Err(EphemeralResident) <==>
        q.model !in benchmarking && q.validId && q.model in old(resident) && q.persist == Ephemeral
      ensures r == Err(ProfileStale) <==>
        q.model !in benchmarking && q.validId && q.model !in old(resident) && Stale(q, old(profiles))
      ensures used != [] <==> Reaches(q, benchmarking, old(resident), old(profiles))
      ensures used != [] ==> used[0] == Asked(q, old(profiles), defaultLoad)
      ensures used != [] && q.params.Some? ==> AsksFor(used[0], q.model, q.params.value)
      ensures used != [] && q.params == None && q.storeOpens && q.model in old(profiles) ==>
        AsksFor(used[0], q.model, old(profiles)[q.model].profile)
      ensures used != [] && q.params == None && !(q.storeOpens && q.model in old(profiles)) ==>
        AsksByDefault(used[0], q.model, defaultLoad)
      ensures used != [] && q.persist == Ephemeral ==>
        |used| == 1 && r == match outcomes(0) case Ok(_) => Ok(()) case Err(e) => Err(NotLoaded(e))
      ensures used != [] && q.persist != Ephemeral ==>
        var asked := Asked(q, old(profiles), defaultLoad);
        exists walk :: IsWalk(asked, OomLadder(asked, q.layerCount), outcomes, walk, used) &&
          r == match walk case Ok(_) => Ok(()) case Err(e) => Err(NotLoaded(e))
      ensures profiles ==
        if r.Ok? && used != [] && q.storeWrites
          && (|| q.persist == Explicit
              || (q.persist == ReuseSaved && (q.params.Some? || (q.storeOpens && q.model in old(profiles)))
                  && used[|used| - 1] != used[0]))
        then old(profiles)[q.model := Anchored(q, Effective(used[|used| - 1]))] else old(profiles)
      ensures lastLoads ==
        if r.Ok? && used != [] && q.persist != Ephemeral && q.recordOk
        then old(lastLoads)[q.model := Effective(used[|used| - 1])] else old(lastLoads)
    {
      hide OomReason, OomLadder, Effective, IsWalk, Asked, Anchored, Stale, Chosen, AsksFor, AsksByDefault, WritesBack;
      used := [];
      if q.model in benchmarking {
        return Err(BenchInProgress), used;
      }
      if !q.validId {
        return Err(BadId), used;
      }
      if q.model in resident {
        if q.persist == Ephemeral {
          return Err(EphemeralResident), used;
        }
        assert resident + {q.model} == resident;
        return Ok(()), used;
      }
      announced := announced + [Preparing];
      if Stale(q, profiles) {
        return Err(ProfileStale), used;
      }
      var chosen := Chosen(q, profiles);
      var asked := Asked(q, profiles, defaultLoad);
      AskedExactly(q, profiles, defaultLoad);
      SomeIsChosen(q, profiles);
      loading := Some(q.model);
      announced := announced + [LoadingWeights];
      var loaded;
      loaded, used := LoadOnNode(q.persist, asked, q.layerCount, outcomes);
      match loaded {
        case Err(e) =>
          loading := None;  // the slot's guard
          return Err(NotLoaded(e)), used;
        case Ok(np) =>
          resident := resident + {q.model};
          announced := announced + [Finalizing];
          Remember(q, chosen.Some?, asked, np);
          loading := None;
          return Ok(()), used;
      }
    }

    /** The body between its brackets: what is announced is complete, and ready exactly on success. */
    method LoadInner(q: Request, outcomes: nat -> Result<(), LoadError>)
      returns (r: Result<(), Refusal>, used: seq<NodeParams>)
      requires loading == None
      modifies this`resident, this`loading, this`announced, this`profiles, this`lastLoads
      ensures loading == None && resident == if r.Ok? then old(resident) + {q.model} else old(resident)
      ensures old(announced) <= announced
      ensures var mine := announced[|old(announced)|..];
        && Complete(mine)
        && mine == match r
                   case Ok(_) =>
                     if q.model in old(resident) then [Queued, Ready]
                     else [Queued, Preparing, LoadingWeights, Finalizing, Ready]
                   case Err(ProfileStale) => [Queued, Preparing, Failed]
                   case Err(NotLoaded(_)) => [Queued, Preparing, LoadingWeights, Failed]
                   case Err(_) => [Queued, Failed]
    {
      hide IsWalk, Asked, WritesBack, Stale, Complete, Middle;
      announced := announced + [Queued];
      r, used := LoadInnerImpl(q, outcomes);
      var terminal := if r.Ok? then Ready else Failed;
      announced := announced + [terminal];
      Brackets(old(announced), Stage(r, q.model in old(resident)), r.Ok?, announced);
    }
  }

  /**
   A reload after a reload that had to degrade asks for what loaded then, one link further down the chain of
   degraded requests: the ladder is not walked again from the top, and the chain has an end. It is refused exactly
   when the scan lists the model and the hardware or the file is no longer what was recorded.
   */
  lemma ReloadGoesOnFromWhatLoaded(q: Request, profiles: map<Model, Saved>, byDefault: EngineParams,
                                   outcomes: nat -> Result<(), LoadError>, loaded: NodeParams, used: seq<NodeParams>,
                                   now: Machine)
    requires var asked := Asked(q, profiles, byDefault);
      && IsWalk(asked, OomLadder(asked, q.layerCount), outcomes, Ok(loaded), used)
      && q.persist == ReuseSaved && WritesBack(q, profiles, asked, loaded)
    ensures var asked := Asked(q, profiles, byDefault);
      var kept := profiles[q.model := Anchored(q, Effective(loaded))];
      var again := Asked(q.(params := None, seen := now, storeOpens := true), kept, byDefault);
      && Linked(asked, again) && Effective(again) == Effective(loaded) && Rank(again) < Rank(asked)
      && (Stale(q.(params := None, seen := now, storeOpens := true), kept) <==>
           && now.file.Some?
           && (|| (q.anchored.hardware != "" && now.hardware != q.anchored.hardware)
               || (q.anchored.file.Some? && q.anchored.file.value != "" && now.file != q.anchored.file)))
  {
    hide OomLadder, OomReason, IsWalk;
    var asked := Asked(q, profiles, byDefault);
    DegradedWalkIsLinked(asked, q.layerCount, outcomes, loaded, used);
    var again := Requested(asked.id, Effective(loaded));
    SameIdOnLadder(asked, q.layerCount, outcomes, loaded, used);
    RememberingKeepsRank(loaded);
    var c :| Degrades(asked, again, c);
    DegradeRanksLower(asked, again, c);
  }

  lemma SameIdOnLadder(np: NodeParams, layerCount: Option<u32>, outcomes: nat -> Result<(), LoadError>,
                       loaded: NodeParams, used: seq<NodeParams>)
    requires IsWalk(np, OomLadder(np, layerCount), outcomes, Ok(loaded), used)
    ensures loaded.id == np.id
  {
    hide OomReason;
    if |used| > 1 {
      RungsAreHonest(np, layerCount, |used| - 2);
    }
  }
}
