/**
 Loads, benchmarks, unloads and chats of one facade, interleaved at every await and
 cancelled at any of them. A benchmark loads candidate workers that nobody else may
 reach; a flag per model keeps them apart. The node is its registry: ids only grow, a
 load whose caller is gone is not committed, and leasing an unregistered id fails.
 `split` says whether a commit and the caller's learning of it are two steps.
 */
module BenchExclusivity {
  import opened Runs
  import opened Wrappers

  type Model = nat
  type Id = nat       // a worker
  type Task = nat

  datatype Kind = Public | Candidate(owner: Task)

  datatype Worker = Worker(model: Model, kind: Kind)

  datatype Pc =
    | LoadQueued(model: Model) | LoadGate(model: Model) | LoadCheck(model: Model) | LoadPending(model: Model)
    | LoadSent(model: Model)
    | BenchQueued(model: Model) | BenchGate(model: Model) | BenchCheck(model: Model)
    | BenchReady(model: Model) | BenchPending(model: Model) | BenchSent(model: Model, id: Id)
    | BenchLive(model: Model, id: Id)                 // the guard knows the candidate
    | Cleanup(model: Model, id: Id) | CleanupFlag(model: Model)
    | DrainQueued | DrainGate | DrainCheck | Draining(left: set<Id>)
    | EjectQueued(model: Model) | EjectGate(model: Model) | EjectCheck | EjectFound(id: Id, model: Model) | EjectGo(id: Id)
    | ChatNew | ChatResolved(id: Id, model: Model) | ChatPassed(id: Id) | Leased(id: Id, kind: Kind)
    | Ended

  /** `owner` remembers, for the proofs only, which benchmark last set the flag of a model. */
  datatype State = State(
    split: bool, registry: map<Id, Worker>, next: Id, flagged: set<Model>, owner: map<Model, Task>,
    lock: Option<Task>, tasks: map<Task, Pc>)

  datatype Call = Load(model: Model) | Bench(model: Model) | Drain | Eject(model: Model) | Chat

  datatype Label =
    | Call(task: Task, call: Call)
    | Lock(task: Task)
    | Gate(task: Task)                 // look at the flags
    | Look(task: Task)                 // look at the registry
    | Resolve(task: Task, id: Id)      // a served name leads to a worker
    | Commit(task: Task)
    | Receive(task: Task)
    | LoadFails(task: Task)
    | BenchLoad(task: Task)
    | BenchEvict(task: Task, id: Id)
    | BenchMeasured(task: Task)
    | BenchFinish(task: Task)
    | Unload(task: Task, id: Id)
    | Lease(task: Task)
    | ChatEnds(task: Task)
    | Cancel(task: Task)
    | IdleReap(id: Id)

  function Start(split: bool): State {
    State(split, map[], 0, {}, map[], None, map[])
  }

  function PcOf(s: State, t: Task): Pc {
    if t in s.tasks then s.tasks[t] else Ended
  }

  function Move(s: State, t: Task, pc: Pc): State {
    s.(tasks := s.tasks[t := pc])
  }

  /** The task is over, and with it its hold on the lifecycle lock. */
  function End(s: State, t: Task): State {
    Move(s, t, Ended).(lock := if s.lock == Some(t) then None else s.lock)
  }

  function Remove(s: State, id: Id): State {
    s.(registry := s.registry - {id})
  }

  function Unflag(s: State, m: Model): State {
    s.(flagged := s.flagged - {m})
  }

  predicate Resident(s: State, m: Model) {
    exists id :: id in s.registry && s.registry[id].model == m
  }

  function Entry(c: Call): Pc {
    match c
    case Load(m) => LoadQueued(m)
    case Bench(m) => BenchQueued(m)
    case Drain => DrainQueued
    case Eject(m) => EjectQueued(m)
    case Chat => ChatNew
  }

  function LockStep(s: State, t: Task): State {
    if s.lock.Some? then s
    else
      match PcOf(s, t)
      case LoadQueued(m) => Move(s, t, LoadGate(m)).(lock := Some(t))
      case BenchQueued(m) => Move(s, t, BenchGate(m)).(lock := Some(t))
      case DrainQueued => Move(s, t, DrainGate).(lock := Some(t))
      case EjectQueued(m) => Move(s, t, EjectGate(m)).(lock := Some(t))
      case _ => s
  }

  function GateStep(s: State, t: Task): State
  {
    match PcOf(s, t)
    case LoadGate(m) => if m in s.flagged then End(s, t) else Move(s, t, LoadCheck(m))
    case BenchGate(m) => if m in s.flagged then End(s, t) else Move(s, t, BenchCheck(m))
    case DrainGate => if s.flagged != {} then End(s, t) else Move(s, t, DrainCheck)
    case EjectGate(m) => if m in s.flagged then End(s, t) else Move(s, t, EjectCheck)
    case EjectFound(id, m) => if m in s.flagged then End(s, t) else Move(s, t, EjectGo(id))
    case ChatResolved(id, m) => if m in s.flagged then End(s, t) else Move(s, t, ChatPassed(id))
    case _ => s
  }

  function LookStep(s: State, t: Task): State
  {
    match PcOf(s, t)
    case LoadCheck(m) => if Resident(s, m) then End(s, t) else Move(s, t, LoadPending(m))
    case BenchCheck(m) =>
      if Resident(s, m) then End(s, t)
      else Move(s, t, BenchReady(m)).(flagged := s.flagged + {m}, owner := s.owner[m := t], lock := None)
    case DrainCheck => Move(s, t, Draining(s.registry.Keys))
    case EjectCheck => End(s, t)
    case _ => s
  }

  function ResolveStep(s: State, t: Task, id: Id): State
  {
    if id !in s.registry then s
    else
      match PcOf(s, t)
      case EjectCheck => Move(s, t, EjectFound(id, s.registry[id].model))
      case ChatNew => Move(s, t, ChatResolved(id, s.registry[id].model))
      case _ => s
  }

  function Register(s: State, w: Worker): State {
    s.(registry := s.registry[s.next := w], next := s.next + 1)
  }

  function CommitStep(s: State, t: Task): State
  {
    match PcOf(s, t)
    case LoadPending(m) =>
      var r := Register(s, Worker(m, Public)); if s.split then Move(r, t, LoadSent(m)) else End(r, t)
    case BenchPending(m) =>
      var r := Register(s, Worker(m, Candidate(t)));
      Move(r, t, if s.split then BenchSent(m, s.next) else BenchLive(m, s.next))
    case _ => s
  }

  function ReceiveStep(s: State, t: Task): State
  {
    match PcOf(s, t)
    case LoadSent(m) => End(s, t)
    case BenchSent(m, id) => Move(s, t, BenchLive(m, id))
    case _ => s
  }

  function FailStep(s: State, t: Task): State {
    match PcOf(s, t)
    case LoadPending(m) => End(s, t)
    case BenchPending(m) => Move(s, t, BenchReady(m))
    case _ => s
  }

  function BenchLoadStep(s: State, t: Task): State {
    match PcOf(s, t)
    case BenchReady(m) => Move(s, t, BenchPending(m))
    case _ => s
  }

  /** Before a load and after a measurement every worker of the model goes. */
  function EvictStep(s: State, t: Task, id: Id): State {
    var pc := PcOf(s, t);
    if (pc.BenchReady? || pc.BenchLive?) && id in s.registry && s.registry[id].model == pc.model then Remove(s, id) else s
  }

  function MeasuredStep(s: State, t: Task): State {
    match PcOf(s, t)
    case BenchLive(m, id) => if id in s.registry then s else Move(s, t, BenchReady(m))
    case _ => s
  }

  function FinishStep(s: State, t: Task): State {
    match PcOf(s, t)
    case BenchReady(m) => Unflag(End(s, t), m)
    case _ => s
  }

  function UnloadStep(s: State, t: Task, id: Id): State
  {
    match PcOf(s, t)
    case Draining(left) =>
      if left == {} then End(s, t) else if id in left then Remove(Move(s, t, Draining(left - {id})), id) else s
    case EjectGo(w) => Remove(End(s, t), w)
    case Cleanup(m, w) => Remove(Move(s, t, CleanupFlag(m)), w)
    case CleanupFlag(m) => Unflag(End(s, t), m)
    case _ => s
  }

  function LeaseStep(s: State, t: Task): State {
    match PcOf(s, t)
    case ChatPassed(id) => if id in s.registry then Move(s, t, Leased(id, s.registry[id].kind)) else End(s, t)
    case _ => s
  }

  function ChatEndStep(s: State, t: Task): State {
    match PcOf(s, t)
    case Leased(_, _) => End(s, t)
    case _ => s
  }

  /** The future is dropped: locks are released, and the guard of a benchmark does its part. */
  function CancelStep(s: State, t: Task): State
  {
    match PcOf(s, t)
    case BenchReady(m) => Unflag(End(s, t), m)
    case BenchPending(m) => Unflag(End(s, t), m)
    case BenchSent(m, id) => Unflag(End(s, t), m)
    case BenchLive(m, id) => Move(s, t, Cleanup(m, id))
    case Cleanup(_, _) | CleanupFlag(_) | Leased(_, _) | Ended => s
    case _ => End(s, t)
  }

  predicate InUse(s: State, id: Id) {
    exists t :: t in s.tasks && s.tasks[t].Leased? && s.tasks[t].id == id
  }

  /** A step that cannot be taken changes nothing. */
  function Next(s: State, l: Label): State {
    match l
    case Call(t, c) => if t in s.tasks then s else Move(s, t, Entry(c))
    case Lock(t) => LockStep(s, t)
    case Gate(t) => GateStep(s, t)
    case Look(t) => LookStep(s, t)
    case Resolve(t, id) => ResolveStep(s, t, id)
    case Commit(t) => CommitStep(s, t)
    case Receive(t) => ReceiveStep(s, t)
    case LoadFails(t) => FailStep(s, t)
    case BenchLoad(t) => BenchLoadStep(s, t)
    case BenchEvict(t, id) => EvictStep(s, t, id)
    case BenchMeasured(t) => MeasuredStep(s, t)
    case BenchFinish(t) => FinishStep(s, t)
    case Unload(t, id) => UnloadStep(s, t, id)
    case Lease(t) => LeaseStep(s, t)
    case ChatEnds(t) => ChatEndStep(s, t)
    case Cancel(t) => CancelStep(s, t)
    case IdleReap(id) => if InUse(s, id) then s else Remove(s, id)
  }

  // ---- What every step keeps ----------------------------------------------------

  predicate Holds(pc: Pc) {
    pc.LoadGate? || pc.LoadCheck? || pc.LoadPending? || pc.LoadSent? || pc.BenchGate? || pc.BenchCheck? ||
    pc.DrainGate? || pc.DrainCheck? || pc.Draining? || pc.EjectGate? || pc.EjectCheck? || pc.EjectFound? || pc.EjectGo?
  }

  /** The flag of its model is this task's to clear. */
  predicate Owns(pc: Pc) {
    pc.BenchReady? || pc.BenchPending? || pc.BenchSent? || pc.BenchLive? || pc.Cleanup? || pc.CleanupFlag?
  }

  predicate Carries(pc: Pc, id: Id, m: Model) {
    pc == BenchSent(m, id) || pc == BenchLive(m, id) || pc == Cleanup(m, id)
  }

  predicate TaskOk(s: State, t: Task, gone: set<Id>)
    requires t in s.tasks
  {
    var pc := s.tasks[t];
    && (Holds(pc) ==> s.lock == Some(t))
    && (Owns(pc) ==> pc.model in s.flagged && pc.model in s.owner && s.owner[pc.model] == t)
    && (pc.LoadCheck? || pc.LoadPending? || pc.BenchCheck? ==> pc.model !in s.flagged)
    && (pc.DrainCheck? || pc.Draining? ==> s.flagged == {})
    && (pc.Draining? ==> s.registry.Keys <= pc.left)
    && (pc.ChatResolved? || pc.EjectFound? ==>
          pc.id < s.next && (pc.id in s.registry ==> s.registry[pc.id].model == pc.model))
    && (pc.ChatPassed? || pc.EjectGo? ==>
          pc.id < s.next && (pc.id in s.registry ==> s.registry[pc.id].kind == Public || pc.id in gone))
    && (pc.Leased? ==> pc.kind == Public || pc.id in gone)
    && (pc.BenchSent? ==>
          pc.id < s.next && (pc.id in s.registry ==> s.registry[pc.id] == Worker(pc.model, Candidate(t))))
  }

  predicate WorkerOk(s: State, id: Id, gone: set<Id>)
    requires id in s.registry
  {
    var w := s.registry[id];
    && id < s.next
    && match w.kind
       case Public => w.model !in s.flagged && id !in gone
       case Candidate(t) => Carries(PcOf(s, t), id, w.model) <==> id !in gone
  }

  /** A flag is some task's to clear. */
  predicate FlagOk(s: State, m: Model) {
    m in s.owner && Owns(PcOf(s, s.owner[m])) && PcOf(s, s.owner[m]).model == m
  }

  ghost predicate Inv(s: State, gone: set<Id>) {
    && (forall t :: t in s.tasks ==> TaskOk(s, t, gone))
    && (forall id :: id in s.registry ==> WorkerOk(s, id, gone))
    && (forall m :: m in s.flagged ==> FlagOk(s, m))
    && (s.lock.Some? ==> Holds(PcOf(s, s.lock.value)))
    && (forall id :: id in gone ==> id < s.next)
  }

  /** A step of task `t` that leaves the flags, the lock of others and the registry as they are. */
  predicate Shifts(s: State, t: Task, pc: Pc, s': State) {
    s' == Move(s, t, pc).(lock := s'.lock) && (s'.lock == s.lock || (s.lock == Some(t) && s'.lock == None))
  }

  lemma ShiftedTask(s: State, t: Task, pc: Pc, s': State, u: Task, gone: set<Id>)
    requires Shifts(s, t, pc, s') && u != t && u in s.tasks && TaskOk(s, u, gone)
    ensures TaskOk(s', u, gone)
  {
  }

  lemma ShiftedWorker(s: State, t: Task, pc: Pc, s': State, id: Id, gone: set<Id>)
    requires Shifts(s, t, pc, s') && id in s.registry && WorkerOk(s, id, gone)
    requires forall m :: Carries(pc, id, m) <==> Carries(PcOf(s, t), id, m)
    ensures WorkerOk(s', id, gone)
  {
  }

  lemma ShiftedFlag(s: State, t: Task, pc: Pc, s': State, m: Model)
    requires Shifts(s, t, pc, s') && FlagOk(s, m)
    requires Owns(PcOf(s, t)) ==> Owns(pc) && pc.model == s.tasks[t].model
    ensures FlagOk(s', m)
  {
  }

  lemma Moved(s: State, t: Task, pc: Pc, s': State, gone: set<Id>)
    requires Inv(s, gone) && Shifts(s, t, pc, s')
    requires s'.lock == Some(t) ==> Holds(pc)
    requires TaskOk(s', t, gone)
    requires Owns(PcOf(s, t)) ==> Owns(pc) && pc.model == s.tasks[t].model
    requires forall id, m :: t in s.tasks && Carries(s.tasks[t], id, m) ==> Carries(pc, id, m) || id !in s.registry
    requires forall id, m :: Carries(pc, id, m) ==> Carries(PcOf(s, t), id, m)
    ensures Inv(s', gone)
  {
    hide TaskOk, WorkerOk, FlagOk, Carries;
    forall u | u in s'.tasks ensures TaskOk(s', u, gone) {
      if u != t { ShiftedTask(s, t, pc, s', u, gone); }
    }
    forall id | id in s'.registry ensures WorkerOk(s', id, gone) {
      EndedCarriesNothing(id);
      ShiftedWorker(s, t, pc, s', id, gone);
    }
    forall m | m in s'.flagged ensures FlagOk(s', m) {
      ShiftedFlag(s, t, pc, s', m);
    }
  }

  lemma EndedCarriesNothing(id: Id)
    ensures forall m :: !Carries(Ended, id, m)
  {
  }

  /** Taking a worker out of the registry. */
  lemma Removed(s: State, id: Id, gone: set<Id>)
    requires Inv(s, gone)
    ensures Inv(Remove(s, id), gone)
  {
    var s' := Remove(s, id);
    forall u | u in s'.tasks ensures TaskOk(s', u, gone) {
      assert TaskOk(s, u, gone);
    }
    forall w | w in s'.registry ensures WorkerOk(s', w, gone) {
      assert WorkerOk(s, w, gone);
    }
    forall x | x in s'.flagged ensures FlagOk(s', x) {
      assert x in s.flagged ==> FlagOk(s, x);
    }
  }

  lemma UnflaggedTask(s: State, t: Task, m: Model, u: Task, gone: set<Id>)
    requires t in s.tasks && Owns(s.tasks[t]) && s.tasks[t].model == m && TaskOk(s, t, gone)
    requires u in s.tasks && TaskOk(s, u, gone)
    ensures TaskOk(Unflag(End(s, t), m), u, gone)
  {
  }

  lemma UnflaggedWorker(s: State, t: Task, m: Model, id: Id, gone: set<Id>)
    requires t in s.tasks && Owns(s.tasks[t]) && s.tasks[t].model == m && !Carries(s.tasks[t], id, m)
    requires id in s.registry && WorkerOk(s, id, gone)
    ensures WorkerOk(Unflag(End(s, t), m), id, gone)
  {
  }

  lemma UnflaggedFlag(s: State, t: Task, m: Model, x: Model)
    requires t in s.tasks && Owns(s.tasks[t]) && s.tasks[t].model == m && x != m && FlagOk(s, x)
    ensures FlagOk(Unflag(End(s, t), m), x)
  {
  }

  /** Clearing a flag: its owner leaves, and left no candidate behind. */
  lemma Unflagged(s: State, t: Task, m: Model, gone: set<Id>)
    requires Inv(s, gone) && Owns(PcOf(s, t)) && s.tasks[t].model == m
    requires forall id :: id in s.registry ==> !Carries(s.tasks[t], id, m)
    ensures Inv(Unflag(End(s, t), m), gone)
  {
    hide TaskOk, WorkerOk, FlagOk, Carries;
    var s' := Unflag(End(s, t), m);
    assert TaskOk(s, t, gone);
    forall u | u in s'.tasks ensures TaskOk(s', u, gone) {
      UnflaggedTask(s, t, m, u, gone);
    }
    forall w | w in s'.registry ensures WorkerOk(s', w, gone) {
      UnflaggedWorker(s, t, m, w, gone);
    }
    forall x | x in s'.flagged ensures FlagOk(s', x) {
      UnflaggedFlag(s, t, m, x);
    }
  }

  lemma FlaggedTask(s: State, t: Task, m: Model, u: Task, gone: set<Id>)
    requires PcOf(s, t) == BenchCheck(m) && !Resident(s, m) && t in s.tasks && TaskOk(s, t, gone) && u in s.tasks && TaskOk(s, u, gone)
    ensures TaskOk(LookStep(s, t), u, gone)
  {
  }

  lemma FlaggedWorker(s: State, t: Task, m: Model, id: Id, gone: set<Id>)
    requires PcOf(s, t) == BenchCheck(m) && !Resident(s, m) && id in s.registry && WorkerOk(s, id, gone)
    ensures WorkerOk(LookStep(s, t), id, gone)
  {
  }

  /** Setting one, under the lock and with no worker of the model resident. */
  lemma Flagged(s: State, t: Task, m: Model, gone: set<Id>)
    requires Inv(s, gone) && PcOf(s, t) == BenchCheck(m) && !Resident(s, m)
    ensures Inv(LookStep(s, t), gone)
  {
    hide TaskOk, WorkerOk, Resident;
    var s' := LookStep(s, t);
    assert TaskOk(s, t, gone);
    forall u | u in s'.tasks ensures TaskOk(s', u, gone) {
      FlaggedTask(s, t, m, u, gone);
    }
    forall w | w in s'.registry ensures WorkerOk(s', w, gone) {
      FlaggedWorker(s, t, m, w, gone);
    }
    CheckerIsOwned(s, t, m, gone);
    forall x | x in s'.flagged ensures FlagOk(s', x) {
      assert x in s.flagged ==> FlagOk(s, x);
    }
  }

  lemma CheckerIsOwned(s: State, t: Task, m: Model, gone: set<Id>)
    requires PcOf(s, t) == BenchCheck(m) && t in s.tasks && TaskOk(s, t, gone)
    ensures s.lock == Some(t) && m !in s.flagged
  {
  }

  /** Task `t` adds worker `w` to the registry. */
  predicate Registers(s: State, t: Task, w: Worker, pc: Pc, s': State) {
    && t in s.tasks
    && s' == Move(Register(s, w), t, pc).(lock := s'.lock)
    && (s'.lock == s.lock || (s.lock == Some(t) && s'.lock == None))
  }

  lemma RegisteredTask(s: State, t: Task, w: Worker, pc: Pc, s': State, u: Task, gone: set<Id>)
    requires Registers(s, t, w, pc, s') && u != t && u in s.tasks && TaskOk(s, u, gone) && !s.tasks[u].Draining?
    requires s.lock == Some(t) || s'.lock == s.lock
    ensures TaskOk(s', u, gone)
  {
  }

  lemma RegisteredWorker(s: State, t: Task, w: Worker, pc: Pc, s': State, id: Id, gone: set<Id>)
    requires Registers(s, t, w, pc, s') && id in s.registry && WorkerOk(s, id, gone)
    requires forall x, m :: Carries(pc, x, m) ==> x == s.next
    requires Owns(s.tasks[t]) ==> s.tasks[t].BenchPending?
    ensures id in s'.registry && WorkerOk(s', id, gone)
  {
  }

  lemma RegisteredFlag(s: State, t: Task, w: Worker, pc: Pc, s': State, m: Model)
    requires Registers(s, t, w, pc, s') && FlagOk(s, m)
    requires Owns(s.tasks[t]) ==> Owns(pc) && pc.model == s.tasks[t].model
    ensures FlagOk(s', m)
  {
  }

  lemma RegistersOne(s: State, t: Task, w: Worker, pc: Pc, s': State)
    requires Registers(s, t, w, pc, s')
    ensures s'.flagged == s.flagged && s'.tasks.Keys == s.tasks.Keys && s'.registry.Keys == s.registry.Keys + {s.next}
    ensures PcOf(s', t) == pc && forall u :: u != t ==> PcOf(s', u) == PcOf(s, u)
    ensures s'.lock == s.lock || (s.lock == Some(t) && s'.lock == None)
  {
  }

  lemma Registered(s: State, t: Task, w: Worker, pc: Pc, s': State, gone: set<Id>)
    requires Inv(s, gone) && Registers(s, t, w, pc, s')
    requires TaskOk(s', t, gone) && WorkerOk(s', s.next, gone)
    requires forall x, m :: Carries(pc, x, m) ==> x == s.next
    requires s'.lock == Some(t) ==> Holds(pc)
    requires Owns(s.tasks[t]) ==> s.tasks[t].BenchPending? && Owns(pc) && pc.model == s.tasks[t].model
    requires forall u :: u in s.tasks ==> !s.tasks[u].Draining?
    ensures Inv(s', gone)
  {
    RegistersOne(s, t, w, pc, s');
    hide TaskOk, WorkerOk, FlagOk, Registers, Carries;
    forall u | u in s'.tasks ensures TaskOk(s', u, gone) {
      if u != t { RegisteredTask(s, t, w, pc, s', u, gone); }
    }
    forall id | id in s'.registry ensures WorkerOk(s', id, gone) {
      if id in s.registry { RegisteredWorker(s, t, w, pc, s', id, gone); }
    }
    forall m | m in s'.flagged ensures FlagOk(s', m) {
      RegisteredFlag(s, t, w, pc, s', m);
    }
  }

  /** While everything is being unloaded nobody else holds the lock or owns a flag. */
  lemma NoDrainBeside(s: State, t: Task, gone: set<Id>)
    requires Inv(s, gone) && t in s.tasks && (s.tasks[t].LoadPending? || s.tasks[t].BenchPending?)
    ensures forall u :: u in s.tasks ==> !s.tasks[u].Draining?
  {
    assert TaskOk(s, t, gone);
    forall u | u in s.tasks ensures !s.tasks[u].Draining? {
      assert TaskOk(s, u, gone);
    }
  }

  lemma EndKeeps(s: State, t: Task, gone: set<Id>)
    requires Inv(s, gone) && t in s.tasks && !Owns(s.tasks[t])
    ensures Inv(End(s, t), gone)
  {
    Moved(s, t, Ended, End(s, t), gone);
  }

  /** Taking the free lock, with nothing known yet. */
  lemma Locked(s: State, t: Task, pc: Pc, gone: set<Id>)
    requires Inv(s, gone) && t in s.tasks && s.lock == None && !Owns(s.tasks[t])
    requires pc.LoadGate? || pc.BenchGate? || pc.DrainGate? || pc.EjectGate?
    ensures Inv(Move(s, t, pc).(lock := Some(t)), gone)
  {
    var s' := Move(s, t, pc).(lock := Some(t));
    forall u | u in s'.tasks ensures TaskOk(s', u, gone) {
      assert TaskOk(s, u, gone);
    }
    forall id | id in s'.registry ensures WorkerOk(s', id, gone) {
      assert WorkerOk(s, id, gone);
    }
    forall m | m in s'.flagged ensures FlagOk(s', m) {
      assert FlagOk(s, m);
    }
  }

  lemma LockKeeps(s: State, t: Task, gone: set<Id>)
    requires Inv(s, gone)
    ensures Inv(LockStep(s, t), gone)
  {
    if s.lock == None {
      match PcOf(s, t)
      case LoadQueued(m) => Locked(s, t, LoadGate(m), gone);
      case BenchQueued(m) => Locked(s, t, BenchGate(m), gone);
      case DrainQueued => Locked(s, t, DrainGate, gone);
      case EjectQueued(m) => Locked(s, t, EjectGate(m), gone);
      case _ =>
    }
  }

  lemma GateKeeps(s: State, t: Task, gone: set<Id>)
    requires Inv(s, gone)
    ensures Inv(GateStep(s, t), gone)
  {
    match PcOf(s, t)
    case LoadGate(m) => CallerGateKeeps(s, t, m in s.flagged, LoadCheck(m), gone);
    case BenchGate(m) => CallerGateKeeps(s, t, m in s.flagged, BenchCheck(m), gone);
    case DrainGate => CallerGateKeeps(s, t, s.flagged != {}, DrainCheck, gone);
    case EjectGate(m) => CallerGateKeeps(s, t, m in s.flagged, EjectCheck, gone);
    case EjectFound(_, _) => PassedKeeps(s, t, gone);
    case ChatResolved(_, _) => PassedKeeps(s, t, gone);
    case _ =>
  }

  lemma CallerGateKeeps(s: State, t: Task, refused: bool, pc: Pc, gone: set<Id>)
    requires Inv(s, gone) && t in s.tasks && Holds(s.tasks[t])
    requires pc == EjectCheck || (pc == DrainCheck && (refused || s.flagged == {}))
      || ((pc.LoadCheck? || pc.BenchCheck?) && (refused || pc.model !in s.flagged))
    ensures Inv(if refused then End(s, t) else Move(s, t, pc), gone)
  {
    assert TaskOk(s, t, gone);
    if refused { EndKeeps(s, t, gone); } else { Moved(s, t, pc, Move(s, t, pc), gone); }
  }

  /** What an unflagged model leads to is no candidate, now or later: its kind is settled for good. */
  lemma PassedKeeps(s: State, t: Task, gone: set<Id>)
    requires Inv(s, gone) && t in s.tasks && (s.tasks[t].EjectFound? || s.tasks[t].ChatResolved?)
    ensures Inv(GateStep(s, t), gone)
  {
    if s.tasks[t].model in s.flagged {
      hide Inv;
      EndKeeps(s, t, gone);
    } else {
      var pc := PassedIsOk(s, t, gone);
      hide TaskOk, WorkerOk, GateStep;
      Moved(s, t, pc, Move(s, t, pc), gone);
    }
  }

  lemma PassedIsOk(s: State, t: Task, gone: set<Id>) returns (pc: Pc)
    requires Inv(s, gone) && t in s.tasks && (s.tasks[t].EjectFound? || s.tasks[t].ChatResolved?)
    requires s.tasks[t].model !in s.flagged
    ensures GateStep(s, t) == Move(s, t, pc) && (pc.EjectGo? || pc.ChatPassed?)
    ensures TaskOk(Move(s, t, pc), t, gone) && (Holds(pc) <==> Holds(s.tasks[t]))
  {
    pc := PcOf(GateStep(s, t), t);
    assert TaskOk(s, t, gone);
    if s.tasks[t].id in s.registry { NotCandidate(s, s.tasks[t].id, gone); }
  }

  lemma NotCandidate(s: State, id: Id, gone: set<Id>)
    requires Inv(s, gone) && id in s.registry
    ensures id !in gone ==> (s.registry[id].kind == Public <==> s.registry[id].model !in s.flagged)
  {
    assert WorkerOk(s, id, gone);
    if s.registry[id].kind.Candidate? {
      var t := s.registry[id].kind.owner;
      if id !in gone { assert TaskOk(s, t, gone); }
    }
  }

  /** What a look at the registry lets through: a load of a model that is not resident, or an unload of what is. */
  predicate Checked(s: State, t: Task, pc: Pc) {
    || (PcOf(s, t).LoadCheck? && pc == LoadPending(PcOf(s, t).model))
    || (PcOf(s, t).DrainCheck? && pc == Draining(s.registry.Keys))
  }

  lemma CheckedIsOk(s: State, t: Task, pc: Pc, gone: set<Id>)
    requires Checked(s, t, pc) && t in s.tasks && TaskOk(s, t, gone)
    ensures TaskOk(Move(s, t, pc), t, gone) && Holds(pc) && !Owns(PcOf(s, t))
    ensures forall id, m :: !Carries(PcOf(s, t), id, m) && !Carries(pc, id, m)
  {
  }

  lemma CheckedKeeps(s: State, t: Task, pc: Pc, gone: set<Id>)
    requires Inv(s, gone) && Checked(s, t, pc)
    ensures Inv(Move(s, t, pc), gone)
  {
    assert TaskOk(s, t, gone);
    CheckedIsOk(s, t, pc, gone);
    hide TaskOk, WorkerOk, Inv, Checked, Carries;
    Moved(s, t, pc, Move(s, t, pc), gone);
  }

  lemma LookKeeps(s: State, t: Task, gone: set<Id>)
    requires Inv(s, gone)
    ensures Inv(LookStep(s, t), gone)
  {
    hide Inv, Move, End;
    match PcOf(s, t)
    case BenchCheck(m) => if Resident(s, m) { EndKeeps(s, t, gone); } else { Flagged(s, t, m, gone); }
    case LoadCheck(m) => if Resident(s, m) { EndKeeps(s, t, gone); } else { CheckedKeeps(s, t, LoadPending(m), gone); }
    case DrainCheck => CheckedKeeps(s, t, Draining(s.registry.Keys), gone);
    case EjectCheck => EndKeeps(s, t, gone);
    case _ =>
  }

  lemma ResolvedIsOk(s: State, t: Task, id: Id, gone: set<Id>) returns (pc: Pc)
    requires ResolveStep(s, t, id) != s && t in s.tasks && TaskOk(s, t, gone) && id in s.registry && id < s.next
    ensures ResolveStep(s, t, id) == Move(s, t, pc) && (pc.EjectFound? || pc.ChatResolved?)
    ensures TaskOk(Move(s, t, pc), t, gone) && (Holds(pc) <==> Holds(s.tasks[t])) && !Owns(s.tasks[t])
    ensures s.tasks[t] == EjectCheck || s.tasks[t] == ChatNew
  {
    pc := PcOf(ResolveStep(s, t, id), t);
  }

  lemma ResolveKeeps(s: State, t: Task, id: Id, gone: set<Id>)
    requires Inv(s, gone)
    ensures Inv(ResolveStep(s, t, id), gone)
  {
    if ResolveStep(s, t, id) != s {
      assert TaskOk(s, t, gone) && WorkerOk(s, id, gone);
      var pc := ResolvedIsOk(s, t, id, gone);
      LockHeld(s, t, gone);
      hide TaskOk, WorkerOk, ResolveStep, Inv;
      Moved(s, t, pc, Move(s, t, pc), gone);
    }
  }

  lemma LockHeld(s: State, t: Task, gone: set<Id>)
    requires Inv(s, gone)
    ensures s.lock == Some(t) ==> Holds(PcOf(s, t))
  {
  }

  lemma LoadCommits(s: State, t: Task, m: Model, gone: set<Id>)
    requires t in s.tasks && s.tasks[t] == LoadPending(m) && TaskOk(s, t, gone) && s.next !in gone
    ensures var n := CommitStep(s, t);
      && Registers(s, t, Worker(m, Public), PcOf(n, t), n) && t in n.tasks && TaskOk(n, t, gone)
      && (forall x, m :: Carries(PcOf(n, t), x, m) ==> x == s.next)
      && s.next in n.registry && WorkerOk(n, s.next, gone) && (n.lock == Some(t) ==> Holds(PcOf(n, t)))
  {
  }

  lemma BenchCommits(s: State, t: Task, m: Model, gone: set<Id>)
    requires t in s.tasks && s.tasks[t] == BenchPending(m) && TaskOk(s, t, gone) && s.next !in gone
    requires s.lock == Some(t) ==> Holds(s.tasks[t])
    ensures var n := CommitStep(s, t);
      && Registers(s, t, Worker(m, Candidate(t)), PcOf(n, t), n) && t in n.tasks && TaskOk(n, t, gone)
      && (forall x, m :: Carries(PcOf(n, t), x, m) ==> x == s.next)
      && s.next in n.registry && WorkerOk(n, s.next, gone) && n.lock != Some(t)
      && Owns(PcOf(n, t)) && PcOf(n, t).model == m
  {
  }

  lemma CommitKeeps(s: State, t: Task, gone: set<Id>)
    requires Inv(s, gone)
    ensures Inv(CommitStep(s, t), gone)
  {
    if t in s.tasks {
      assert TaskOk(s, t, gone);
      if s.tasks[t].LoadPending? || s.tasks[t].BenchPending? { NoDrainBeside(s, t, gone); }
      hide TaskOk, WorkerOk, Registers;
      match s.tasks[t]
      case LoadPending(m) =>
        LoadCommits(s, t, m, gone);
        Registered(s, t, Worker(m, Public), PcOf(CommitStep(s, t), t), CommitStep(s, t), gone);
      case BenchPending(m) =>
        BenchCommits(s, t, m, gone);
        Registered(s, t, Worker(m, Candidate(t)), PcOf(CommitStep(s, t), t), CommitStep(s, t), gone);
      case _ =>
    }
  }

  lemma ReceiveKeeps(s: State, t: Task, gone: set<Id>)
    requires Inv(s, gone)
    ensures Inv(ReceiveStep(s, t), gone)
  {
    if t in s.tasks {
      assert TaskOk(s, t, gone);
      match s.tasks[t]
      case LoadSent(m) => EndKeeps(s, t, gone);
      case BenchSent(m, id) => Moved(s, t, BenchLive(m, id), ReceiveStep(s, t), gone);
      case _ =>
    }
  }

  /** A benchmark between its loads: asking for one, or told that it failed. */
  lemma RetryKeeps(s: State, t: Task, m: Model, pc: Pc, gone: set<Id>)
    requires Inv(s, gone) && (PcOf(s, t) == BenchPending(m) || PcOf(s, t) == BenchReady(m))
    requires pc == BenchPending(m) || pc == BenchReady(m)
    ensures Inv(Move(s, t, pc), gone)
  {
    RetryIsOk(s, t, m, pc, gone);
    LockHeld(s, t, gone);
    hide TaskOk, WorkerOk, Inv;
    Moved(s, t, pc, Move(s, t, pc), gone);
  }

  lemma RetryIsOk(s: State, t: Task, m: Model, pc: Pc, gone: set<Id>)
    requires Inv(s, gone) && (PcOf(s, t) == BenchPending(m) || PcOf(s, t) == BenchReady(m))
    requires pc == BenchPending(m) || pc == BenchReady(m)
    ensures TaskOk(Move(s, t, pc), t, gone)
  {
    assert TaskOk(s, t, gone);
  }

  lemma FailKeeps(s: State, t: Task, gone: set<Id>)
    requires Inv(s, gone)
    ensures Inv(FailStep(s, t), gone) && Inv(BenchLoadStep(s, t), gone)
  {
    hide Inv, Move, End;
    if t in s.tasks {
      match s.tasks[t]
      case LoadPending(m) => EndKeeps(s, t, gone);
      case BenchPending(m) => RetryKeeps(s, t, m, BenchReady(m), gone);
      case BenchReady(m) => RetryKeeps(s, t, m, BenchPending(m), gone);
      case _ =>
    }
  }

  lemma MeasuredKeeps(s: State, t: Task, gone: set<Id>)
    requires Inv(s, gone)
    ensures Inv(MeasuredStep(s, t), gone)
  {
    match PcOf(s, t)
    case BenchLive(m, w) =>
      assert TaskOk(s, t, gone);
      if w !in s.registry { Moved(s, t, BenchReady(m), MeasuredStep(s, t), gone); }
    case _ =>
  }

  lemma BenchKeeps(s: State, t: Task, id: Id, gone: set<Id>)
    requires Inv(s, gone)
    ensures Inv(EvictStep(s, t, id), gone) && Inv(MeasuredStep(s, t), gone) && Inv(FinishStep(s, t), gone)
  {
    hide Inv, MeasuredStep, Remove, Unflag, End;
    Removed(s, id, gone);
    MeasuredKeeps(s, t, gone);
    match PcOf(s, t)
    case BenchReady(m) => Unflagged(s, t, m, gone);
    case _ =>
  }

  lemma DrainKeeps(s: State, t: Task, left: set<Id>, id: Id, gone: set<Id>)
    requires Inv(s, gone) && t in s.tasks && s.tasks[t] == Draining(left) && id in left
    ensures Inv(Remove(Move(s, t, Draining(left - {id})), id), gone)
  {
    assert TaskOk(s, t, gone);
    Removed(s, id, gone);
    assert TaskOk(Remove(s, id), t, gone);
    Moved(Remove(s, id), t, Draining(left - {id}), Move(Remove(s, id), t, Draining(left - {id})), gone);
  }

  lemma CleanupKeeps(s: State, t: Task, m: Model, w: Id, gone: set<Id>)
    requires Inv(s, gone) && t in s.tasks && s.tasks[t] == Cleanup(m, w)
    ensures Inv(Remove(Move(s, t, CleanupFlag(m)), w), gone)
  {
    assert TaskOk(s, t, gone);
    Removed(s, w, gone);
    assert TaskOk(Remove(s, w), t, gone);
    Moved(Remove(s, w), t, CleanupFlag(m), Move(Remove(s, w), t, CleanupFlag(m)), gone);
    assert Move(Remove(s, w), t, CleanupFlag(m)) == Remove(Move(s, t, CleanupFlag(m)), w);
  }

  lemma UnloadKeeps(s: State, t: Task, id: Id, gone: set<Id>)
    requires Inv(s, gone)
    ensures Inv(UnloadStep(s, t, id), gone)
  {
    hide Inv, Remove, Move, End, Unflag;
    if t in s.tasks {
      match s.tasks[t]
      case Draining(left) => if left == {} { EndKeeps(s, t, gone); } else if id in left { DrainKeeps(s, t, left, id, gone); }
      case EjectGo(w) =>
        EndKeeps(s, t, gone);
        Removed(End(s, t), w, gone);
      case Cleanup(m, w) => CleanupKeeps(s, t, m, w, gone);
      case CleanupFlag(m) => Unflagged(s, t, m, gone);
      case _ =>
    }
  }

  lemma LeaseIsOk(s: State, t: Task, id: Id, gone: set<Id>)
    requires t in s.tasks && s.tasks[t] == ChatPassed(id) && TaskOk(s, t, gone) && id in s.registry
    ensures TaskOk(Move(s, t, Leased(id, s.registry[id].kind)), t, gone)
  {
  }

  lemma LeaseKeeps(s: State, t: Task, id: Id, gone: set<Id>)
    requires Inv(s, gone) && t in s.tasks && s.tasks[t] == ChatPassed(id) && id in s.registry
    ensures Inv(Move(s, t, Leased(id, s.registry[id].kind)), gone)
  {
    assert TaskOk(s, t, gone);
    LeaseIsOk(s, t, id, gone);
    LockHeld(s, t, gone);
    hide TaskOk, WorkerOk, Inv;
    Moved(s, t, Leased(id, s.registry[id].kind), Move(s, t, Leased(id, s.registry[id].kind)), gone);
  }

  lemma ChatKeeps(s: State, t: Task, gone: set<Id>)
    requires Inv(s, gone)
    ensures Inv(LeaseStep(s, t), gone) && Inv(ChatEndStep(s, t), gone)
  {
    hide Inv, Move, End;
    if t in s.tasks {
      match s.tasks[t]
      case ChatPassed(id) => if id in s.registry { LeaseKeeps(s, t, id, gone); } else { EndKeeps(s, t, gone); }
      case Leased(_, _) => EndKeeps(s, t, gone);
      case _ =>
    }
  }

  /** A cancellation between a candidate's commit and its receipt, while that candidate is still resident. */
  predicate Abandons(s: State, l: Label) {
    l.Cancel? && PcOf(s, l.task).BenchSent? && PcOf(s, l.task).id in s.registry
  }

  /** The candidate that the step abandons, if it does. */
  function Lost(s: State, l: Label): set<Id> {
    if Abandons(s, l) then {PcOf(s, l.task).id} else {}
  }

  lemma LiveCancelKeeps(s: State, t: Task, m: Model, id: Id, gone: set<Id>)
    requires Inv(s, gone) && PcOf(s, t) == BenchLive(m, id)
    ensures Inv(CancelStep(s, t), gone)
  {
    assert TaskOk(s, t, gone);
    Moved(s, t, Cleanup(m, id), CancelStep(s, t), gone);
  }

  lemma SentIsOwn(s: State, t: Task, gone: set<Id>)
    requires t in s.tasks && s.tasks[t].BenchSent? && TaskOk(s, t, gone)
    ensures var pc := s.tasks[t]; pc.id < s.next && pc.model in s.owner && s.owner[pc.model] == t
    ensures var pc := s.tasks[t]; pc.id in s.registry ==> s.registry[pc.id] == Worker(pc.model, Candidate(t))
  {
  }

  lemma AbandonedTask(s: State, t: Task, gone: set<Id>, u: Task)
    requires t in s.tasks && s.tasks[t].BenchSent? && TaskOk(s, t, gone) && u in s.tasks && TaskOk(s, u, gone)
    ensures TaskOk(CancelStep(s, t), u, gone + {s.tasks[t].id})
  {
  }

  lemma AbandonedWorker(s: State, t: Task, gone: set<Id>, w: Id)
    requires t in s.tasks && s.tasks[t].BenchSent? && TaskOk(s, t, gone) && w in s.registry && WorkerOk(s, w, gone)
    ensures w in CancelStep(s, t).registry && WorkerOk(CancelStep(s, t), w, gone + {s.tasks[t].id})
  {
  }

  /** In the gap the flag goes and the candidate stays, carried by nobody from now on. */
  lemma AbandonKeeps(s: State, t: Task, gone: set<Id>)
    requires Inv(s, gone) && PcOf(s, t).BenchSent?
    ensures Inv(CancelStep(s, t), gone + {PcOf(s, t).id})
  {
    var s', id := CancelStep(s, t), s.tasks[t].id;
    assert TaskOk(s, t, gone);
    SentIsOwn(s, t, gone);
    hide TaskOk, WorkerOk;
    forall u | u in s'.tasks ensures TaskOk(s', u, gone + {id}) {
      AbandonedTask(s, t, gone, u);
    }
    forall w | w in s'.registry ensures WorkerOk(s', w, gone + {id}) {
      AbandonedWorker(s, t, gone, w);
    }
    forall x | x in s'.flagged ensures FlagOk(s', x) {
      assert x in s.flagged ==> FlagOk(s, x);
    }
  }

  /**
   Cancellation is safe everywhere but between a candidate's commit and the benchmark's learning of it, and
   there too once the candidate is gone; in that gap it abandons that one candidate and breaks nothing else.
   */
  lemma CancelKeeps(s: State, t: Task, gone: set<Id>)
    requires Inv(s, gone)
    ensures Inv(CancelStep(s, t), gone + Lost(s, Cancel(t)))
  {
    hide Inv, TaskOk, WorkerOk;
    var pc := PcOf(s, t);
    assert gone + {} == gone;
    if Abandons(s, Cancel(t)) {
      AbandonKeeps(s, t, gone);
    } else if pc.BenchReady? || pc.BenchPending? || pc.BenchSent? {
      Unflagged(s, t, pc.model, gone);
    } else if pc.BenchLive? {
      LiveCancelKeeps(s, t, pc.model, pc.id, gone);
    } else if t in s.tasks && !Owns(pc) {
      EndKeeps(s, t, gone);
    }
  }

  lemma CallKeeps(s: State, t: Task, c: Call, gone: set<Id>)
    requires Inv(s, gone) && t !in s.tasks
    ensures Inv(Move(s, t, Entry(c)), gone)
  {
    Moved(s, t, Entry(c), Move(s, t, Entry(c)), gone);
  }

  lemma StepKeepsInv(s: State, l: Label, gone: set<Id>)
    requires Inv(s, gone)
    ensures Inv(Next(s, l), gone + Lost(s, l))
  {
    hide Inv, TaskOk, WorkerOk, LockStep, GateStep, LookStep, ResolveStep, CommitStep, CancelStep, UnloadStep;
    assert gone + {} == gone;
    match l
    case Call(t, c) => if t !in s.tasks { CallKeeps(s, t, c, gone); }
    case Lock(t) => LockKeeps(s, t, gone);
    case Gate(t) => GateKeeps(s, t, gone);
    case Look(t) => LookKeeps(s, t, gone);
    case Resolve(t, id) => ResolveKeeps(s, t, id, gone);
    case Commit(t) => CommitKeeps(s, t, gone);
    case Receive(t) => ReceiveKeeps(s, t, gone);
    case LoadFails(t) => FailKeeps(s, t, gone);
    case BenchLoad(t) => FailKeeps(s, t, gone);
    case BenchEvict(t, id) => BenchKeeps(s, t, id, gone);
    case BenchMeasured(t) => BenchKeeps(s, t, 0, gone);
    case BenchFinish(t) => BenchKeeps(s, t, 0, gone);
    case Unload(t, id) => UnloadKeeps(s, t, id, gone);
    case Lease(t) => ChatKeeps(s, t, gone);
    case ChatEnds(t) => ChatKeeps(s, t, gone);
    case Cancel(t) => CancelKeeps(s, t, gone);
    case IdleReap(id) => Removed(s, id, gone);
  }

  /** The state before step `i`, or at the end of the run. */
  function StateAt(split: bool, labels: seq<Label>, i: nat): State
    requires i <= |labels|
  {
    Run(Next, Start(split), labels[..i])
  }

  /** The candidates that the steps of a run abandon. */
  function Abandoned(split: bool, labels: seq<Label>): set<Id> {
    if labels == [] then {}
    else
      var front := labels[..|labels| - 1];
      Abandoned(split, front) + Lost(Run(Next, Start(split), front), labels[|labels| - 1])
  }

  /** Step `i` abandons candidate `id`. */
  predicate AbandonedAt(split: bool, labels: seq<Label>, id: Id, i: nat) {
    i < |labels| && id in Lost(StateAt(split, labels, i), labels[i])
  }

  lemma AtFront(split: bool, labels: seq<Label>, id: Id, i: nat)
    requires labels != []
    ensures var front := labels[..|labels| - 1];
      AbandonedAt(split, labels, id, i) <==>
        if i == |front| then id in Lost(Run(Next, Start(split), front), labels[i]) else AbandonedAt(split, front, id, i)
  {
    hide Lost, Run;
    var front := labels[..|labels| - 1];
    if i <= |front| { assert front[..i] == labels[..i]; }
    assert front[..|front|] == front;
  }

  lemma {:induction false} AbandonedMeans(split: bool, labels: seq<Label>, id: Id)
    ensures id in Abandoned(split, labels) <==> exists i: nat :: AbandonedAt(split, labels, id, i)
  {
    if labels != [] {
      hide AbandonedAt, Lost, Next;
      var front := labels[..|labels| - 1];
      AbandonedMeans(split, front, id);
      AtFront(split, labels, id, |front|);
      if i: nat :| AbandonedAt(split, labels, id, i) { AtFront(split, labels, id, i); }
      if i: nat :| AbandonedAt(split, front, id, i) {
        OnlySteps(split, front, id, i);
        AtFront(split, labels, id, i);
      }
    }
  }

  lemma OnlySteps(split: bool, labels: seq<Label>, id: Id, i: nat)
    requires AbandonedAt(split, labels, id, i)
    ensures i < |labels|
  {
  }

  lemma {:induction false} RunKeepsInv(split: bool, labels: seq<Label>)
    ensures Inv(Run(Next, Start(split), labels), Abandoned(split, labels))
  {
    if labels != [] {
      hide Next, Inv, Lost;
      var front, l := labels[..|labels| - 1], labels[|labels| - 1];
      RunKeepsInv(split, front);
      StepKeepsInv(Run(Next, Start(split), front), l, Abandoned(split, front));
    }
  }

  // ---- Main results -------------------------------------------------------------

  /** No benchmark is cancelled, in this run, between a commit and its receipt with its candidate resident. */
  ghost predicate NeverAbandons(split: bool, labels: seq<Label>) {
    forall i :: 0 <= i < |labels| ==> !Abandons(StateAt(split, labels, i), labels[i])
  }

  lemma NothingAbandoned(split: bool, labels: seq<Label>)
    requires NeverAbandons(split, labels)
    ensures Abandoned(split, labels) == {}
  {
    hide Next, Abandons, Abandoned;
    forall id ensures id !in Abandoned(split, labels) { AbandonedMeans(split, labels, id); }
  }

  /** What everyone relies on while benchmarks run. */
  ghost predicate Isolated(s: State) {
    // a resident candidate's model is flagged
    && (forall id :: id in s.registry && s.registry[id].kind.Candidate? ==> s.registry[id].model in s.flagged)
    // a candidate and a public worker of one model are never resident together
    && (forall a, b :: a in s.registry && b in s.registry && s.registry[a].model == s.registry[b].model ==>
          (s.registry[a].kind.Candidate? <==> s.registry[b].kind.Candidate?))
    // no public chat holds a lease on a candidate
    && (forall t :: t in s.tasks && s.tasks[t].Leased? ==> s.tasks[t].kind == Public)
  }

  lemma InvIsolates(s: State)
    requires Inv(s, {})
    ensures Isolated(s)
  {
    forall id | id in s.registry ensures s.registry[id].kind.Candidate? <==> s.registry[id].model in s.flagged {
      NotCandidate(s, id, {});
    }
    forall t | t in s.tasks && s.tasks[t].Leased? ensures s.tasks[t].kind == Public {
      assert TaskOk(s, t, {});
    }
  }

  lemma LockNeverSends(s: State, u: Task, t: Task)
    requires !s.split && !PcOf(s, t).BenchSent?
    ensures !LockStep(s, u).split && !PcOf(LockStep(s, u), t).BenchSent?
  {
  }

  lemma GateNeverSends(s: State, u: Task, t: Task)
    requires !s.split && !PcOf(s, t).BenchSent?
    ensures !GateStep(s, u).split && !PcOf(GateStep(s, u), t).BenchSent?
  {
  }

  lemma LookNeverSends(s: State, u: Task, t: Task)
    requires !s.split && !PcOf(s, t).BenchSent?
    ensures !LookStep(s, u).split && !PcOf(LookStep(s, u), t).BenchSent?
  {
  }

  lemma CommitsNeverSend(s: State, l: Label, t: Task)
    requires l.Resolve? || l.Commit? || l.Receive?
    requires !s.split && !PcOf(s, t).BenchSent?
    ensures !Next(s, l).split && !PcOf(Next(s, l), t).BenchSent?
  {
  }

  lemma BenchStepsNeverSend(s: State, l: Label, t: Task)
    requires l.LoadFails? || l.BenchLoad? || l.BenchEvict? || l.BenchMeasured? || l.BenchFinish?
    requires !s.split && !PcOf(s, t).BenchSent?
    ensures !Next(s, l).split && !PcOf(Next(s, l), t).BenchSent?
  {
  }

  lemma NeverSent(s: State, l: Label, t: Task)
    requires !s.split && !PcOf(s, t).BenchSent?
    ensures !Next(s, l).split && !PcOf(Next(s, l), t).BenchSent?
  {
    hide LockStep, GateStep, LookStep;
    if l.Lock? {
      LockNeverSends(s, l.task, t);
    } else if l.Gate? {
      GateNeverSends(s, l.task, t);
    } else if l.Look? {
      LookNeverSends(s, l.task, t);
    } else if l.Resolve? || l.Commit? || l.Receive? {
      CommitsNeverSend(s, l, t);
    } else if l.LoadFails? || l.BenchLoad? || l.BenchEvict? || l.BenchMeasured? || l.BenchFinish? {
      BenchStepsNeverSend(s, l, t);
    }
  }

  /** With a commit and its receipt as one step there is no gap to be cancelled in. */
  lemma {:induction false} OneStepHasNoGap(labels: seq<Label>, t: Task)
    ensures var s := Run(Next, Start(false), labels); !s.split && !PcOf(s, t).BenchSent?
  {
    if labels != [] {
      OneStepHasNoGap(labels[..|labels| - 1], t);
      NeverSent(Run(Next, Start(false), labels[..|labels| - 1]), labels[|labels| - 1], t);
    }
  }

  /** The cancelled benchmark's flag goes and its candidate stays. */
  lemma AbandonLeaks(s: State, t: Task)
    requires Inv(s, {}) && Abandons(s, Cancel(t))
    ensures !Isolated(CancelStep(s, t))
  {
    assert TaskOk(s, t, {});
    var id := s.tasks[t].id;
    assert id in CancelStep(s, t).registry && CancelStep(s, t).registry[id].kind.Candidate?;
  }

  /** Isolation at every moment of a run. */
  ghost predicate AlwaysIsolated(split: bool, labels: seq<Label>) {
    forall i :: 0 <= i <= |labels| ==> Isolated(Run(Next, Start(split), labels[..i]))
  }

  /**
   Isolation holds at every moment of a run exactly when the run abandons no candidate, whatever else is
   loaded, unloaded, benchmarked, chatted with, reaped or cancelled.
   */
  lemma {:induction false} IsolatedExactly(split: bool, labels: seq<Label>)
    ensures AlwaysIsolated(split, labels) <==> NeverAbandons(split, labels)
  {
    hide Next, Inv, Isolated, Abandons;
    if NeverAbandons(split, labels) {
      forall i | 0 <= i <= |labels| ensures Isolated(Run(Next, Start(split), labels[..i])) {
        assert forall j :: 0 <= j < i ==> labels[..i][..j] == labels[..j];
        assert NeverAbandons(split, labels[..i]);
        IsolatedOutsideTheGap(split, labels[..i]);
      }
    } else {
      var front, l := labels[..|labels| - 1], labels[|labels| - 1];
      assert forall j :: 0 <= j < |labels| ==> front[..j] == labels[..j];
      if NeverAbandons(split, front) {
        assert labels[..|labels|] == labels;
        LastAbandonLeaks(split, labels);
      } else {
        IsolatedExactly(split, front);
        var i :| 0 <= i <= |front| && !Isolated(Run(Next, Start(split), front[..i]));
        assert !Isolated(Run(Next, Start(split), labels[..i]));
      }
    }
  }

  lemma LastAbandonLeaks(split: bool, labels: seq<Label>)
    requires labels != [] && NeverAbandons(split, labels[..|labels| - 1])
    requires Abandons(Run(Next, Start(split), labels[..|labels| - 1]), labels[|labels| - 1])
    ensures !Isolated(Run(Next, Start(split), labels))
  {
    hide Inv, Isolated;
    RunKeepsInv(split, labels[..|labels| - 1]);
    NothingAbandoned(split, labels[..|labels| - 1]);
    AbandonLeaks(Run(Next, Start(split), labels[..|labels| - 1]), labels[|labels| - 1].task);
  }

  lemma IsolatedOutsideTheGap(split: bool, labels: seq<Label>)
    requires NeverAbandons(split, labels)
    ensures Isolated(Run(Next, Start(split), labels))
  {
    hide Next, Inv, Isolated;
    RunKeepsInv(split, labels);
    NothingAbandoned(split, labels);
    InvIsolates(Run(Next, Start(split), labels));
  }

  /** Worker `id` is a candidate that its benchmark, or the cleanup after it, still knows of. */
  predicate Carried(s: State, id: Id) {
    && id in s.registry && s.registry[id].kind.Candidate?
    && Carries(PcOf(s, s.registry[id].kind.owner), id, s.registry[id].model)
  }

  lemma CarriedOrGone(s: State, id: Id, gone: set<Id>)
    requires Inv(s, gone) && id in s.registry
    ensures id in gone <==> s.registry[id].kind.Candidate? && !Carried(s, id)
  {
    assert WorkerOk(s, id, gone);
  }

  /** In every run the resident candidates that no benchmark carries are those that some step abandoned. */
  lemma AbandonedExactly(split: bool, labels: seq<Label>, id: Id)
    requires id in Run(Next, Start(split), labels).registry
    ensures var s := Run(Next, Start(split), labels);
      s.registry[id].kind.Candidate? && !Carried(s, id) <==> exists i: nat :: AbandonedAt(split, labels, id, i)
  {
    hide Next, Inv, AbandonedAt, Abandoned, Carried;
    RunKeepsInv(split, labels);
    CarriedOrGone(Run(Next, Start(split), labels), id, Abandoned(split, labels));
    AbandonedMeans(split, labels, id);
  }

  lemma UnloadSpares(s: State, t: Task, id: Id, w: Id, gone: set<Id>)
    requires Inv(s, gone) && t in s.tasks && (s.tasks[t].Draining? || s.tasks[t].EjectGo?)
    requires Carried(s, w)
    ensures w in UnloadStep(s, t, id).registry
  {
    assert TaskOk(s, t, gone);
    CarriedOrGone(s, w, gone);
    NotCandidate(s, w, gone);
  }

  /** In every run a public unload, of everything or of one model, leaves every candidate that a benchmark carries. */
  lemma PublicUnloadSparesCandidates(split: bool, labels: seq<Label>, t: Task, id: Id, w: Id)
    requires var pc := PcOf(Run(Next, Start(split), labels), t); pc.Draining? || pc.EjectGo?
    requires Carried(Run(Next, Start(split), labels), w)
    ensures w in UnloadStep(Run(Next, Start(split), labels), t, id).registry
  {
    hide Next, Inv, Carried;
    RunKeepsInv(split, labels);
    UnloadSpares(Run(Next, Start(split), labels), t, id, w, Abandoned(split, labels));
  }

  lemma DrainedIsEmpty(s: State, t: Task, gone: set<Id>)
    requires Inv(s, gone) && PcOf(s, t) == Draining({})
    ensures s.registry == map[]
  {
    assert TaskOk(s, t, gone);
    assert s.registry.Keys == {};
  }

  /** When an unload of everything comes to its end, nothing at all is resident, abandoned candidates included. */
  lemma UnloadLeavesNothing(split: bool, labels: seq<Label>, t: Task)
    requires PcOf(Run(Next, Start(split), labels), t) == Draining({})
    ensures Run(Next, Start(split), labels).registry == map[]
  {
    hide Next, Inv;
    RunKeepsInv(split, labels);
    DrainedIsEmpty(Run(Next, Start(split), labels), t, Abandoned(split, labels));
  }

  lemma OwnersDiffer(s: State, t: Task, u: Task, gone: set<Id>)
    requires Inv(s, gone) && t != u && Owns(PcOf(s, t)) && Owns(PcOf(s, u))
    ensures PcOf(s, t).model != PcOf(s, u).model
  {
    assert TaskOk(s, t, gone) && TaskOk(s, u, gone);
  }

  /** A model is benchmarked by one benchmark at a time, its cleanup after a cancellation included, in every run. */
  lemma OneBenchPerModel(split: bool, labels: seq<Label>, t: Task, u: Task)
    requires t != u
    requires var s := Run(Next, Start(split), labels); Owns(PcOf(s, t)) && Owns(PcOf(s, u))
    ensures var s := Run(Next, Start(split), labels); PcOf(s, t).model != PcOf(s, u).model
  {
    hide Next, Inv;
    RunKeepsInv(split, labels);
    OwnersDiffer(Run(Next, Start(split), labels), t, u, Abandoned(split, labels));
  }

  predicate AtRest(pc: Pc) {
    pc.Ended? || pc.Leased?
  }

  lemma RestIsClean(s: State, gone: set<Id>)
    requires Inv(s, gone) && forall t :: t in s.tasks ==> AtRest(s.tasks[t])
    ensures s.flagged == {} && s.lock == None
    ensures forall id :: !Carried(s, id)
  {
    forall m ensures m !in s.flagged {
      assert m in s.flagged ==> FlagOk(s, m);
    }
  }

  /**
   With all calls over no model is flagged and the lock is free, in every run; and the candidates that are still
   resident are exactly those that some step of the run abandoned.
   */
  lemma NothingElseIsLeftBehind(split: bool, labels: seq<Label>)
    requires var s := Run(Next, Start(split), labels); forall t :: t in s.tasks ==> AtRest(s.tasks[t])
    ensures var s := Run(Next, Start(split), labels);
      && s.flagged == {} && s.lock == None
      && forall id :: id in s.registry ==>
           (s.registry[id].kind.Candidate? <==> exists i: nat :: AbandonedAt(split, labels, id, i))
  {
    hide Next, Inv, Carried, AbandonedAt;
    RunKeepsInv(split, labels);
    var s := Run(Next, Start(split), labels);
    RestIsClean(s, Abandoned(split, labels));
    forall id | id in s.registry
      ensures s.registry[id].kind.Candidate? <==> exists i: nat :: AbandonedAt(split, labels, id, i)
    {
      AbandonedExactly(split, labels, id);
    }
  }

  const BENCH: seq<Label> := [Call(0, Bench(5)), Lock(0), Gate(0), Look(0)]
  const ABANDON: seq<Label> := [BenchLoad(0), Commit(0), Cancel(0), Call(1, Chat)]
  const ADOPT: seq<Label> := [Resolve(1, 0), Gate(1), Lease(1), Call(2, Chat)]

  function Benching(pc: Pc): State {
    State(true, map[], 0, {5}, map[5 := 0], None, map[0 := pc])
  }

  function Left(pc: Pc, flagged: set<Model>): State {
    State(true, map[0 := Worker(5, Candidate(0))], 1, flagged, map[5 := 0], None, map[0 := pc])
  }

  function Chatting(pc: Pc): State {
    State(true, map[0 := Worker(5, Candidate(0))], 1, {}, map[5 := 0], None, map[0 := Ended, 1 := pc])
  }

  lemma BenchBegins()
    ensures Run(Next, Start(true), BENCH) == Benching(BenchReady(5))
  {
    RunFour(Next, Start(true), Call(0, Bench(5)), Lock(0), Gate(0), Look(0));
  }

  lemma CandidateCommits()
    ensures Next(Benching(BenchReady(5)), BenchLoad(0)) == Benching(BenchPending(5))
    ensures Next(Benching(BenchPending(5)), Commit(0)) == Left(BenchSent(5, 0), {5})
  {
  }

  lemma BenchIsCancelled()
    ensures Next(Left(BenchSent(5, 0), {5}), Cancel(0)) == Left(Ended, {})
  {
  }

  lemma ChatComes()
    ensures Next(Left(Ended, {}), Call(1, Chat)) == Chatting(ChatNew)
  {
  }

  lemma CandidateIsAbandoned()
    ensures Run(Next, Benching(BenchReady(5)), ABANDON) == Chatting(ChatNew)
  {
    hide Next;
    RunFour(Next, Benching(BenchReady(5)), BenchLoad(0), Commit(0), Cancel(0), Call(1, Chat));
    CandidateCommits();
    BenchIsCancelled();
    ChatComes();
  }

  lemma ChatPasses()
    ensures Next(Chatting(ChatNew), Resolve(1, 0)) == Chatting(ChatResolved(0, 5))
    ensures Next(Chatting(ChatResolved(0, 5)), Gate(1)) == Chatting(ChatPassed(0))
  {
  }

  lemma ChatLeases()
    ensures Next(Chatting(ChatPassed(0)), Lease(1)) == Chatting(Leased(0, Candidate(0)))
    ensures PcOf(Next(Chatting(Leased(0, Candidate(0))), Call(2, Chat)), 1) == Leased(0, Candidate(0))
  {
  }

  lemma ChatAdopts()
    ensures PcOf(Run(Next, Chatting(ChatNew), ADOPT), 1) == Leased(0, Candidate(0))
  {
    hide Next;
    RunFour(Next, Chatting(ChatNew), Resolve(1, 0), Gate(1), Lease(1), Call(2, Chat));
    ChatPasses();
    ChatLeases();
  }

  /** Cancelled in the gap, a benchmark leaves a candidate that a public chat can lease. */
  lemma GapLeaksACandidate()
    ensures !Isolated(Run(Next, Start(true), BENCH + ABANDON + ADOPT))
  {
    BenchBegins();
    CandidateIsAbandoned();
    ChatAdopts();
    RunConcat(Next, Start(true), BENCH, ABANDON);
    RunConcat(Next, Start(true), BENCH + ABANDON, ADOPT);
  }

  /** So isolation holds in every run exactly when a commit and its receipt are one step. */
  lemma IsolatedExactlyWhenOneStep(split: bool)
    ensures (forall labels :: Isolated(Run(Next, Start(split), labels))) <==> !split
  {
    if split {
      GapLeaksACandidate();
    } else {
      forall labels: seq<Label> ensures Isolated(Run(Next, Start(split), labels)) {
        forall i | 0 <= i < |labels| ensures !Abandons(StateAt(split, labels, i), labels[i]) {
          if labels[i].Cancel? { OneStepHasNoGap(labels[..i], labels[i].task); }
        }
        IsolatedOutsideTheGap(split, labels);
      }
    }
  }
}
