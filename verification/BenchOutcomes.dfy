/**
 What the calls of the facade get done: a worker that an unload takes never comes back, and each call,
 left to itself, ends with exactly what it is for.
 */
module BenchOutcomes {
  import opened BenchExclusivity
  import opened Runs
  import opened Wrappers

  // ---- An unload is for good ------------------------------------------------------

  /** A task that is about to take worker `w`, or has it on its list. */
  predicate Takes(pc: Pc, w: Id) {
    pc == EjectGo(w) || (pc.Cleanup? && pc.id == w) || (pc.Draining? && w in pc.left)
  }

  /** The workers that a task may come to take. */
  predicate Knows(pc: Pc, w: Id) {
    Takes(pc, w) || ((pc.BenchSent? || pc.BenchLive? || pc.EjectFound?) && pc.id == w)
  }

  ghost predicate IdsAreOld(s: State) {
    && (forall w :: w in s.registry ==> w < s.next)
    && (forall t: Task, w: Id :: Knows(PcOf(s, t), w) ==> w < s.next)
  }

  lemma CallersBringNothing(s: State, l: Label)
    requires l.Call? || l.Lock? || l.Gate?
    ensures Next(s, l).next == s.next && Next(s, l).registry == s.registry
  {
    hide Entry;
  }

  lemma LookersBringNothing(s: State, l: Label)
    requires l.Look? || l.Resolve? || l.Receive? || l.Cancel?
    ensures Next(s, l).next == s.next && Next(s, l).registry == s.registry
  {
    hide Resident;
  }

  lemma OthersBringNothing(s: State, l: Label)
    requires !l.Call? && !l.Lock? && !l.Gate? && !l.Look? && !l.Resolve? && !l.Receive? && !l.Cancel? && !l.Commit?
    ensures Next(s, l).next == s.next && Next(s, l).registry.Keys <= s.registry.Keys
  {
    hide InUse;
  }

  lemma CommitBringsNext(s: State, t: Task)
    ensures
      || (CommitStep(s, t).next == s.next && CommitStep(s, t).registry == s.registry)
      || (CommitStep(s, t).next == s.next + 1 && CommitStep(s, t).registry.Keys == s.registry.Keys + {s.next})
  {
  }

  /** Ids only grow, and the only worker a step can bring is the next one. */
  lemma StepBringsNext(s: State, l: Label, w: Id)
    ensures Next(s, l).next >= s.next
    ensures w in Next(s, l).registry && w !in s.registry ==> w == s.next && Next(s, l).next == s.next + 1
  {
    if l.Commit? {
      hide CommitStep;
      assert Next(s, l) == CommitStep(s, l.task);
      CommitBringsNext(s, l.task);
    } else {
      hide Next;
      match l
      case Call(_, _) | Lock(_) | Gate(_) => CallersBringNothing(s, l);
      case Look(_) | Resolve(_, _) | Receive(_) | Cancel(_) => LookersBringNothing(s, l);
      case _ => OthersBringNothing(s, l);
    }
  }

  lemma CallersKnowOld(s: State, l: Label, t: Task, w: Id)
    requires l.Call? || l.Lock?
    requires Knows(PcOf(Next(s, l), t), w)
    ensures Knows(PcOf(s, t), w)
  {
  }

  lemma GateIsItsStep(s: State, g: Task)
    ensures Next(s, Gate(g)) == GateStep(s, g)
  {
    hide GateStep;
  }

  lemma GatesKnowOld(s: State, g: Task, t: Task, w: Id)
    requires Knows(PcOf(GateStep(s, g), t), w)
    ensures Knows(PcOf(s, t), w)
  {
  }

  lemma LookersKnowOld(s: State, l: Label, t: Task, w: Id)
    requires l.Look? || l.Resolve?
    requires Knows(PcOf(Next(s, l), t), w)
    ensures Knows(PcOf(s, t), w) || w in s.registry
  {
    hide Resident;
  }

  lemma CommitsKnowOld(s: State, l: Label, t: Task, w: Id)
    requires l.Commit? || l.Receive? || l.LoadFails? || l.BenchLoad?
    requires Knows(PcOf(Next(s, l), t), w)
    ensures Knows(PcOf(s, t), w) || (w == s.next && Next(s, l).next == s.next + 1)
  {
  }

  lemma UnloadsKnowOld(s: State, l: Label, t: Task, w: Id)
    requires l.Unload? || l.Cancel?
    requires Knows(PcOf(Next(s, l), t), w)
    ensures Knows(PcOf(s, t), w)
  {
  }

  lemma OthersKnowOld(s: State, l: Label, t: Task, w: Id)
    requires l.BenchEvict? || l.BenchMeasured? || l.BenchFinish? || l.Lease? || l.ChatEnds? || l.IdleReap?
    requires Knows(PcOf(Next(s, l), t), w)
    ensures Knows(PcOf(s, t), w)
  {
    hide InUse;
  }

  lemma StepKnowsOld(s: State, l: Label, t: Task, w: Id)
    requires Knows(PcOf(Next(s, l), t), w)
    ensures Knows(PcOf(s, t), w) || w in s.registry || (w == s.next && Next(s, l).next == s.next + 1)
  {
    hide Next, Knows;
    match l
    case Call(_, _) | Lock(_) => CallersKnowOld(s, l, t, w);
    case Gate(g) =>
      GateIsItsStep(s, g);
      GatesKnowOld(s, g, t, w);
    case Look(_) | Resolve(_, _) => LookersKnowOld(s, l, t, w);
    case Commit(_) | Receive(_) | LoadFails(_) | BenchLoad(_) => CommitsKnowOld(s, l, t, w);
    case Unload(_, _) | Cancel(_) => UnloadsKnowOld(s, l, t, w);
    case _ => OthersKnowOld(s, l, t, w);
  }

  lemma StepKeepsIdsOld(s: State, l: Label)
    requires IdsAreOld(s)
    ensures IdsAreOld(Next(s, l))
  {
    hide Next, Knows;
    forall w | w in Next(s, l).registry ensures w < Next(s, l).next {
      StepBringsNext(s, l, w);
    }
    forall t: Task, w: Id | Knows(PcOf(Next(s, l), t), w) ensures w < Next(s, l).next {
      StepBringsNext(s, l, w);
      StepKnowsOld(s, l, t, w);
    }
  }

  lemma {:induction false} RunKeepsIdsOld(split: bool, labels: seq<Label>)
    ensures IdsAreOld(Run(Next, Start(split), labels))
  {
    hide Next, IdsAreOld;
    if labels == [] {
      NothingIsKnown(split);
    } else {
      RunKeepsIdsOld(split, labels[..|labels| - 1]);
      StepKeepsIdsOld(Run(Next, Start(split), labels[..|labels| - 1]), labels[|labels| - 1]);
    }
  }

  lemma NothingIsKnown(split: bool)
    ensures IdsAreOld(Start(split))
  {
  }

  lemma {:induction false} UsedIdsStayAway(s: State, w: Id, more: seq<Label>)
    requires w < s.next && w !in s.registry
    ensures w < Run(Next, s, more).next && w !in Run(Next, s, more).registry
  {
    hide Next;
    if more != [] {
      UsedIdsStayAway(s, w, more[..|more| - 1]);
      StepBringsNext(Run(Next, s, more[..|more| - 1]), more[|more| - 1], w);
    }
  }

  lemma UnloadTakes(s: State, t: Task, id: Id, w: Id)
    requires Takes(PcOf(s, t), w) && (PcOf(s, t).Draining? ==> id == w)
    ensures w !in Next(s, Unload(t, id)).registry && Next(s, Unload(t, id)).next == s.next
  {
  }

  /**
   In every run the unload of a worker takes it out for good: the one a public unload has picked, the candidate that a
   cancelled benchmark cleans up, each worker that a drain has left. No continuation brings it back.
   */
  lemma UnloadIsForGood(split: bool, labels: seq<Label>, t: Task, id: Id, w: Id, more: seq<Label>)
    requires var pc := PcOf(Run(Next, Start(split), labels), t);
      pc == EjectGo(w) || (pc.Cleanup? && pc.id == w) || (pc.Draining? && w in pc.left && id == w)
    ensures w !in Run(Next, Start(split), labels + [Unload(t, id)] + more).registry
  {
    hide Next, IdsAreOld;
    var s := Run(Next, Start(split), labels);
    RunKeepsIdsOld(split, labels);
    KnownIsOld(s, t, w);
    UnloadTakes(s, t, id, w);
    RunSnoc(Next, Start(split), labels, Unload(t, id));
    UsedIdsStayAway(Next(s, Unload(t, id)), w, more);
    RunConcat(Next, Start(split), labels + [Unload(t, id)], more);
  }

  lemma ReapTakesUnused(s: State, id: Id)
    ensures id in Next(s, IdleReap(id)).registry <==> id in s.registry && exists t, kind :: PcOf(s, t) == Leased(id, kind)
    ensures Next(s, IdleReap(id)).next == s.next
  {
    if t, kind :| PcOf(s, t) == Leased(id, kind) {
      assert t in s.tasks;
    }
    if InUse(s, id) {
      var t :| t in s.tasks && s.tasks[t].Leased? && s.tasks[t].id == id;
      assert PcOf(s, t) == Leased(id, s.tasks[t].kind);
    }
  }

  /** In every run the idle reaper takes a resident worker exactly when no chat leases it, and then for good. */
  lemma ReapedExactly(split: bool, labels: seq<Label>, id: Id, more: seq<Label>)
    requires id in Run(Next, Start(split), labels).registry
    ensures id in Run(Next, Start(split), labels + [IdleReap(id)]).registry <==>
      exists t, kind :: PcOf(Run(Next, Start(split), labels), t) == Leased(id, kind)
    ensures id !in Run(Next, Start(split), labels + [IdleReap(id)]).registry ==>
      id !in Run(Next, Start(split), labels + [IdleReap(id)] + more).registry
  {
    hide Next;
    var s := Run(Next, Start(split), labels);
    RunKeepsIdsOld(split, labels);
    ReapTakesUnused(s, id);
    RunSnoc(Next, Start(split), labels, IdleReap(id));
    if id !in Next(s, IdleReap(id)).registry { UsedIdsStayAway(Next(s, IdleReap(id)), id, more); }
    RunConcat(Next, Start(split), labels + [IdleReap(id)], more);
  }

  lemma KnownIsOld(s: State, t: Task, w: Id)
    requires IdsAreOld(s) && Takes(PcOf(s, t), w)
    ensures w < s.next
  {
    assert Knows(PcOf(s, t), w);
  }

  /** The step takes worker `w`: reaps it unused, unloads it, or evicts it for the benchmark of its model. */
  predicate TakenBy(s: State, l: Label, w: Id)
    requires w in s.registry
  {
    || (l == IdleReap(w) && !InUse(s, w))
    || (l.Unload? && Takes(PcOf(s, l.task), w))
    || (l.BenchEvict? && l.id == w && (PcOf(s, l.task).BenchReady? || PcOf(s, l.task).BenchLive?)
        && PcOf(s, l.task).model == s.registry[w].model)
  }

  lemma UnloadsTakeTheirOwn(s: State, l: Label, w: Id)
    requires l.Unload? && w in s.registry && w !in Next(s, l).registry
    ensures Takes(PcOf(s, l.task), w)
  {
  }

  lemma EvictsTakeTheirOwn(s: State, l: Label, w: Id)
    requires l.BenchEvict? && w in s.registry && w !in Next(s, l).registry
    ensures TakenBy(s, l, w)
  {
  }

  lemma StepsTakeTheirOwn(s: State, l: Label, w: Id)
    requires w in s.registry && w !in Next(s, l).registry
    ensures TakenBy(s, l, w)
  {
    match l
    case Unload(_, _) => UnloadsTakeTheirOwn(s, l, w);
    case BenchEvict(_, _) => EvictsTakeTheirOwn(s, l, w);
    case Call(_, _) | Lock(_) | Gate(_) => CallersBringNothing(s, l);
    case Look(_) | Resolve(_, _) | Receive(_) | Cancel(_) => LookersBringNothing(s, l);
    case Commit(t) => CommitBringsNext(s, t);
    case _ =>
  }

  lemma BenchOwnsIts(s: State, t: Task, m: Model, gone: set<Id>)
    requires Inv(s, gone) && Owns(PcOf(s, t)) && PcOf(s, t).model == m
    ensures m in s.flagged
  {
    assert TaskOk(s, t, gone);
  }

  /**
   In every run a resident worker goes only when the idle reaper finds it unused, when an unload has picked it, has it on
   its list or cleans it up, or when the benchmark that has its model flagged makes room: no step takes a bystander.
   */
  lemma NoBystanderGoes(split: bool, labels: seq<Label>, l: Label, w: Id)
    requires w in Run(Next, Start(split), labels).registry && w !in Run(Next, Start(split), labels + [l]).registry
    ensures var s := Run(Next, Start(split), labels);
      || (l == IdleReap(w) && !exists t, kind :: PcOf(s, t) == Leased(w, kind))
      || (l.Unload? && (var pc := PcOf(s, l.task);
            pc == EjectGo(w) || (pc.Cleanup? && pc.id == w) || (pc.Draining? && w in pc.left && w == l.id)))
      || (l.BenchEvict? && l.id == w && (var pc := PcOf(s, l.task);
            (pc.BenchReady? || pc.BenchLive?) && pc.model == s.registry[w].model && pc.model in s.flagged))
  {
    hide Next, Inv;
    var s := Run(Next, Start(split), labels);
    RunSnoc(Next, Start(split), labels, l);
    StepsTakeTheirOwn(s, l, w);
    if l.IdleReap? { ReapTakesUnused(s, w); }
    if l.Unload? && PcOf(s, l.task).Draining? { DrainTakesOne(s, l.task, l.id, w); }
    if l.BenchEvict? {
      BenchExclusivity.RunKeepsInv(split, labels);
      BenchOwnsIts(s, l.task, s.registry[w].model, Abandoned(split, labels));
    }
  }

  lemma DrainTakesOne(s: State, t: Task, id: Id, w: Id)
    requires w in s.registry && w !in Next(s, Unload(t, id)).registry && PcOf(s, t).Draining?
    ensures w == id
  {
  }

  // ---- A call that is dropped -------------------------------------------------------

  /** The places of a call at which dropping it is not the end of it. */
  predicate Outlives(pc: Pc) {
    pc.BenchLive? || pc.Cleanup? || pc.CleanupFlag? || pc.Leased?
  }

  lemma GuardGoesOn(s: State, t: Task)
    requires t in s.tasks && Outlives(s.tasks[t])
    ensures var n := CancelStep(s, t);
      Outlives(PcOf(n, t)) && n.registry == s.registry && n.lock == s.lock && n.flagged == s.flagged
  {
  }

  lemma CancelEnds(s: State, t: Task)
    requires t in s.tasks && !Outlives(s.tasks[t])
    ensures var n, pc := CancelStep(s, t), s.tasks[t];
      && PcOf(n, t) == Ended && n.registry == s.registry
      && n.lock == (if s.lock == Some(t) && pc != Ended then None else s.lock)
      && n.flagged == s.flagged - (if pc.BenchReady? || pc.BenchPending? || pc.BenchSent? then {pc.model} else {})
  {
  }

  lemma CancelIsItsStep(s: State, t: Task)
    ensures Next(s, Cancel(t)) == CancelStep(s, t)
  {
    hide CancelStep;
  }

  lemma HolderIsNotOver(s: State, t: Task, gone: set<Id>)
    requires Inv(s, gone) && s.lock == Some(t)
    ensures t in s.tasks && s.tasks[t] != Ended && !Outlives(s.tasks[t])
  {
  }

  /**
   In every run a call that is dropped is over and holds the lock no more, unless a candidate is known to it, whose
   guard goes on; dropping it takes no worker, and no flag but its own.
   */
  lemma DroppedCallIsOver(split: bool, labels: seq<Label>, t: Task)
    requires t in Run(Next, Start(split), labels).tasks
    ensures var s, n := Run(Next, Start(split), labels), Run(Next, Start(split), labels + [Cancel(t)]);
      var pc := s.tasks[t];
      && n.registry == s.registry && n.lock != Some(t) && (s.lock != Some(t) ==> n.lock == s.lock)
      && (PcOf(n, t) == Ended <==> !(pc.BenchLive? || pc.Cleanup? || pc.CleanupFlag? || pc.Leased?))
      && n.flagged == s.flagged - (if pc.BenchReady? || pc.BenchPending? || pc.BenchSent? then {pc.model} else {})
  {
    hide Next, Inv;
    var s := Run(Next, Start(split), labels);
    BenchExclusivity.RunKeepsInv(split, labels);
    RunSnoc(Next, Start(split), labels, Cancel(t));
    CancelIsItsStep(s, t);
    if Outlives(s.tasks[t]) { GuardGoesOn(s, t); } else { CancelEnds(s, t); }
    if s.lock == Some(t) { HolderIsNotOver(s, t, Abandoned(split, labels)); }
  }

  // ---- What one call does, left to itself -------------------------------------------

  /** Task `t` at `pc`, with or without the lock; all else as in `s`. */
  function At(s: State, t: Task, pc: Pc, locked: bool): State {
    Move(s, t, pc).(lock := if locked then Some(t) else None)
  }

  lemma AtTwice(s: State, t: Task, a: Pc, x: bool, b: Pc, y: bool)
    ensures At(At(s, t, a, x), t, b, y) == At(s, t, b, y) && PcOf(At(s, t, a, x), t) == a
  {
    assert s.tasks[t := a][t := b] == s.tasks[t := b];
  }

  lemma EndedRests(s: State, t: Task)
    requires PcOf(s, t) == Ended
    ensures forall id :: Next(s, Unload(t, id)) == s && Next(s, Resolve(t, id)) == s
    ensures Next(s, Gate(t)) == s && Next(s, Look(t)) == s && Next(s, Commit(t)) == s
    ensures Next(s, Receive(t)) == s && Next(s, Lease(t)) == s && Next(s, LoadFails(t)) == s && Next(s, ChatEnds(t)) == s
  {
  }

  lemma LoadLocks(s: State, t: Task, m: Model)
    requires s.lock == None && PcOf(s, t) == LoadQueued(m)
    ensures Next(s, Lock(t)) == At(s, t, LoadGate(m), true)
  {
  }

  lemma LoadPassesGate(s: State, t: Task, m: Model)
    ensures Next(At(s, t, LoadGate(m), true), Gate(t)) ==
      if m in s.flagged then At(s, t, Ended, false) else At(s, t, LoadCheck(m), true)
  {
    AtTwice(s, t, LoadGate(m), true, Ended, false);
    AtTwice(s, t, LoadGate(m), true, LoadCheck(m), true);
  }

  lemma LoadLooks(s: State, t: Task, m: Model)
    ensures Next(At(s, t, LoadCheck(m), true), Look(t)) ==
      if Resident(s, m) then At(s, t, Ended, false) else At(s, t, LoadPending(m), true)
  {
    AtTwice(s, t, LoadCheck(m), true, Ended, false);
    AtTwice(s, t, LoadCheck(m), true, LoadPending(m), true);
  }

  lemma LoadIsCommitted(s: State, t: Task, m: Model)
    ensures Next(At(s, t, LoadPending(m), true), Commit(t)) ==
      var r := Register(s, Worker(m, Public));
      if s.split then At(r, t, LoadSent(m), true) else At(r, t, Ended, false)
  {
    var r := Register(s, Worker(m, Public));
    AtTwice(s, t, LoadPending(m), true, LoadSent(m), true);
    AtTwice(r, t, LoadPending(m), true, LoadSent(m), true);
    AtTwice(r, t, LoadPending(m), true, Ended, false);
  }

  lemma LoadIsReceived(s: State, t: Task, m: Model)
    ensures Next(At(s, t, LoadSent(m), true), Receive(t)) == At(s, t, Ended, false)
  {
    AtTwice(s, t, LoadSent(m), true, Ended, false);
  }

  lemma LoadGivesUp(s: State, t: Task, m: Model)
    ensures Next(At(s, t, LoadPending(m), true), LoadFails(t)) == At(s, t, Ended, false)
  {
    AtTwice(s, t, LoadPending(m), true, Ended, false);
  }

  /**
   A load left to itself ends with one more public worker of its model, under the next id, and the lock given back;
   a model that is flagged or resident already has it refused, and then, as when the node fails it, nothing has changed.
   */
  lemma LoadAddsOne(s: State, t: Task, m: Model)
    requires s.lock == None && PcOf(s, t) == LoadQueued(m)
    ensures Run(Next, s, [Lock(t), Gate(t), Look(t), Commit(t), Receive(t)]) ==
      if m in s.flagged || Resident(s, m) then s.(tasks := s.tasks[t := Ended])
      else s.(registry := s.registry[s.next := Worker(m, Public)], next := s.next + 1, tasks := s.tasks[t := Ended])
    ensures Run(Next, s, [Lock(t), Gate(t), Look(t), LoadFails(t)]) == s.(tasks := s.tasks[t := Ended])
  {
    hide Next, Resident;
    RunFour(Next, s, Lock(t), Gate(t), Look(t), LoadFails(t));
    LoadGivesUp(s, t, m);
    RunFive(Next, s, Lock(t), Gate(t), Look(t), Commit(t), Receive(t));
    LoadLocks(s, t, m);
    LoadPassesGate(s, t, m);
    LoadLooks(s, t, m);
    LoadIsCommitted(s, t, m);
    LoadIsReceived(Register(s, Worker(m, Public)), t, m);
    EndedRests(At(s, t, Ended, false), t);
    EndedRests(At(Register(s, Worker(m, Public)), t, Ended, false), t);
  }

  lemma EjectLocks(s: State, t: Task, m: Model)
    requires s.lock == None && PcOf(s, t) == EjectQueued(m)
    ensures Next(s, Lock(t)) == At(s, t, EjectGate(m), true)
  {
  }

  lemma EjectPassesGate(s: State, t: Task, m: Model)
    ensures Next(At(s, t, EjectGate(m), true), Gate(t)) ==
      if m in s.flagged then At(s, t, Ended, false) else At(s, t, EjectCheck, true)
  {
    AtTwice(s, t, EjectGate(m), true, Ended, false);
    AtTwice(s, t, EjectGate(m), true, EjectCheck, true);
  }

  lemma EjectResolves(s: State, t: Task, w: Id)
    requires w in s.registry
    ensures Next(At(s, t, EjectCheck, true), Resolve(t, w)) == At(s, t, EjectFound(w, s.registry[w].model), true)
  {
    AtTwice(s, t, EjectCheck, true, EjectFound(w, s.registry[w].model), true);
  }

  lemma EjectPassesAgain(s: State, t: Task, w: Id, m: Model)
    ensures Next(At(s, t, EjectFound(w, m), true), Gate(t)) ==
      if m in s.flagged then At(s, t, Ended, false) else At(s, t, EjectGo(w), true)
  {
    AtTwice(s, t, EjectFound(w, m), true, Ended, false);
    AtTwice(s, t, EjectFound(w, m), true, EjectGo(w), true);
  }

  lemma EjectUnloads(s: State, t: Task, w: Id)
    ensures Next(At(s, t, EjectGo(w), true), Unload(t, w)) == At(Remove(s, w), t, Ended, false)
  {
    AtTwice(Remove(s, w), t, EjectGo(w), true, Ended, false);
  }

  /**
   An unload of one model left to itself takes the worker its name leads to, and that worker alone; a model that is
   being benchmarked, by the name asked for or by that worker's own, has it refused.
   */
  lemma EjectTakesOne(s: State, t: Task, m: Model, w: Id)
    requires s.lock == None && PcOf(s, t) == EjectQueued(m) && w in s.registry
    ensures Run(Next, s, [Lock(t), Gate(t), Resolve(t, w), Gate(t), Unload(t, w)]) ==
      if m in s.flagged || s.registry[w].model in s.flagged then s.(tasks := s.tasks[t := Ended])
      else s.(registry := s.registry - {w}, tasks := s.tasks[t := Ended])
  {
    hide Next;
    RunFive(Next, s, Lock(t), Gate(t), Resolve(t, w), Gate(t), Unload(t, w));
    EjectLocks(s, t, m);
    EjectPassesGate(s, t, m);
    EjectResolves(s, t, w);
    EjectPassesAgain(s, t, w, s.registry[w].model);
    EjectUnloads(s, t, w);
    EndedRests(At(s, t, Ended, false), t);
  }

  lemma EjectFindsNobody(s: State, t: Task)
    ensures Next(At(s, t, EjectCheck, true), Look(t)) == At(s, t, Ended, false)
  {
    AtTwice(s, t, EjectCheck, true, Ended, false);
  }

  /** And where its name leads nowhere, it ends without any of that. */
  lemma EjectOfNobody(s: State, t: Task, m: Model)
    requires s.lock == None && PcOf(s, t) == EjectQueued(m)
    ensures Run(Next, s, [Lock(t), Gate(t), Look(t)]) == s.(tasks := s.tasks[t := Ended])
  {
    hide Next;
    RunThree(Next, s, Lock(t), Gate(t), Look(t));
    EjectLocks(s, t, m);
    EjectPassesGate(s, t, m);
    EjectFindsNobody(s, t);
    EndedRests(At(s, t, Ended, false), t);
  }

  lemma ChatResolves(s: State, t: Task, w: Id)
    requires PcOf(s, t) == ChatNew && w in s.registry
    ensures Next(s, Resolve(t, w)) == Move(s, t, ChatResolved(w, s.registry[w].model))
  {
  }

  lemma ChatPassesGate(s: State, t: Task, w: Id, m: Model)
    ensures Next(Move(s, t, ChatResolved(w, m)), Gate(t)) ==
      if m in s.flagged then End(s, t) else Move(s, t, ChatPassed(w))
  {
    MoveTwice(s, t, ChatResolved(w, m), Ended);
    MoveTwice(s, t, ChatResolved(w, m), ChatPassed(w));
  }

  lemma MoveTwice(s: State, t: Task, a: Pc, b: Pc)
    ensures Move(Move(s, t, a), t, b) == Move(s, t, b) && PcOf(Move(s, t, a), t) == a
  {
    assert s.tasks[t := a][t := b] == s.tasks[t := b];
  }

  lemma ChatTakesLease(s: State, t: Task, w: Id)
    requires w in s.registry
    ensures Next(Move(s, t, ChatPassed(w)), Lease(t)) == Move(s, t, Leased(w, s.registry[w].kind))
  {
    MoveTwice(s, t, ChatPassed(w), Leased(w, s.registry[w].kind));
  }

  lemma ChatIsOver(s: State, t: Task, w: Id, kind: Kind)
    ensures Next(Move(s, t, Leased(w, kind)), ChatEnds(t)) == End(s, t)
  {
    MoveTwice(s, t, Leased(w, kind), Ended);
  }

  /**
   A chat left to itself leases the worker its name leads to, unless that worker's model is being benchmarked, and gives
   the lease back at its end.
   */
  lemma ChatLeasesOne(s: State, t: Task, w: Id)
    requires PcOf(s, t) == ChatNew && w in s.registry && s.lock != Some(t)
    ensures Run(Next, s, [Resolve(t, w), Gate(t), Lease(t)]) ==
      s.(tasks := s.tasks[t := if s.registry[w].model in s.flagged then Ended else Leased(w, s.registry[w].kind)])
    ensures Run(Next, s, [Resolve(t, w), Gate(t), Lease(t), ChatEnds(t)]) == s.(tasks := s.tasks[t := Ended])
  {
    hide Next;
    RunThree(Next, s, Resolve(t, w), Gate(t), Lease(t));
    RunFour(Next, s, Resolve(t, w), Gate(t), Lease(t), ChatEnds(t));
    ChatIsOver(s, t, w, s.registry[w].kind);
    ChatResolves(s, t, w);
    ChatPassesGate(s, t, w, s.registry[w].model);
    ChatTakesLease(s, t, w);
    EndedRests(End(s, t), t);
  }

  // ---- A benchmark, and the cleanup after it ----------------------------------------

  /** The benchmark of `m` by task `t` at `pc`, the model flagged as its own. */
  function Bench(s: State, t: Task, m: Model, pc: Pc): State {
    Move(s, t, pc).(flagged := s.flagged + {m}, owner := s.owner[m := t])
  }

  lemma BenchLocks(s: State, t: Task, m: Model)
    requires s.lock == None && PcOf(s, t) == BenchQueued(m)
    ensures Next(s, Lock(t)) == At(s, t, BenchGate(m), true)
  {
  }

  lemma BenchPassesGate(s: State, t: Task, m: Model)
    ensures Next(At(s, t, BenchGate(m), true), Gate(t)) ==
      if m in s.flagged then At(s, t, Ended, false) else At(s, t, BenchCheck(m), true)
  {
    AtTwice(s, t, BenchGate(m), true, Ended, false);
    AtTwice(s, t, BenchGate(m), true, BenchCheck(m), true);
  }

  lemma BenchLooks(s: State, t: Task, m: Model)
    requires s.lock == None
    ensures Next(At(s, t, BenchCheck(m), true), Look(t)) ==
      if Resident(s, m) then At(s, t, Ended, false) else Bench(s, t, m, BenchReady(m))
  {
    AtTwice(s, t, BenchCheck(m), true, Ended, false);
    AtTwice(s, t, BenchCheck(m), true, BenchReady(m), false);
  }

  /** A benchmark left to itself flags its model and gives the lock back, or is refused where a load would be. */
  lemma BenchFlags(s: State, t: Task, m: Model)
    requires s.lock == None && PcOf(s, t) == BenchQueued(m)
    ensures Run(Next, s, [Lock(t), Gate(t), Look(t)]) ==
      if m in s.flagged || Resident(s, m) then s.(tasks := s.tasks[t := Ended])
      else s.(tasks := s.tasks[t := BenchReady(m)], flagged := s.flagged + {m}, owner := s.owner[m := t])
  {
    hide Next, Resident;
    RunThree(Next, s, Lock(t), Gate(t), Look(t));
    BenchLocks(s, t, m);
    BenchPassesGate(s, t, m);
    BenchLooks(s, t, m);
    EndedRests(At(s, t, Ended, false), t);
  }

  /** The candidate of task `t` for model `m`, at stage `pc` of its benchmark. */
  function Trying(s: State, t: Task, m: Model, pc: Pc): State {
    Move(Register(s, Worker(m, Candidate(t))), t, pc)
  }

  lemma TryingTwice(s: State, t: Task, m: Model, a: Pc, b: Pc)
    ensures Move(Trying(s, t, m, a), t, b) == Trying(s, t, m, b) && PcOf(Trying(s, t, m, a), t) == a
  {
    MoveTwice(Register(s, Worker(m, Candidate(t))), t, a, b);
  }

  /** From the flag on, one candidate is loaded under the next id, and the benchmark knows of it. */
  lemma BenchLoadsCandidate(s: State, t: Task, m: Model)
    requires PcOf(s, t) == BenchReady(m)
    ensures Run(Next, s, [BenchLoad(t), Commit(t), Receive(t)]) ==
      s.(registry := s.registry[s.next := Worker(m, Candidate(t))], next := s.next + 1,
         tasks := s.tasks[t := BenchLive(m, s.next)])
  {
    hide Next;
    RunThree(Next, s, BenchLoad(t), Commit(t), Receive(t));
    BenchAsks(s, t, m);
    CandidateIsCommitted(s, t, m);
    CandidateIsKnown(s, t, m);
  }

  lemma BenchAsks(s: State, t: Task, m: Model)
    requires PcOf(s, t) == BenchReady(m)
    ensures Next(s, BenchLoad(t)) == Move(s, t, BenchPending(m))
  {
  }

  lemma CandidateIsCommitted(s: State, t: Task, m: Model)
    ensures Next(Move(s, t, BenchPending(m)), Commit(t)) ==
      Trying(s, t, m, if s.split then BenchSent(m, s.next) else BenchLive(m, s.next))
  {
    MoveTwice(Register(s, Worker(m, Candidate(t))), t, BenchPending(m), BenchSent(m, s.next));
    MoveTwice(Register(s, Worker(m, Candidate(t))), t, BenchPending(m), BenchLive(m, s.next));
  }

  lemma CandidateIsKnown(s: State, t: Task, m: Model)
    ensures forall pc | pc == BenchSent(m, s.next) || pc == BenchLive(m, s.next) ::
      Next(Trying(s, t, m, pc), Receive(t)) == Trying(s, t, m, BenchLive(m, s.next))
  {
    TryingTwice(s, t, m, BenchSent(m, s.next), BenchLive(m, s.next));
    TryingTwice(s, t, m, BenchLive(m, s.next), BenchLive(m, s.next));
  }

  lemma CandidateFails(s: State, t: Task, m: Model)
    requires PcOf(s, t) == BenchReady(m)
    ensures Next(Move(s, t, BenchPending(m)), LoadFails(t)) == s
  {
    MoveTwice(s, t, BenchPending(m), BenchReady(m));
    assert s.tasks[t := BenchReady(m)] == s.tasks;
  }

  /** A candidate that fails to load leaves the benchmark where it was, to go on with the next or to finish. */
  lemma BenchGoesOn(s: State, t: Task, m: Model)
    requires PcOf(s, t) == BenchReady(m) && s.lock != Some(t)
    ensures Run(Next, s, [BenchLoad(t), LoadFails(t), BenchFinish(t)]) ==
      s.(flagged := s.flagged - {m}, tasks := s.tasks[t := Ended])
  {
    hide Next;
    RunThree(Next, s, BenchLoad(t), LoadFails(t), BenchFinish(t));
    BenchAsks(s, t, m);
    CandidateFails(s, t, m);
    assert Move(s, t, BenchReady(m)) == s by { assert s.tasks[t := BenchReady(m)] == s.tasks; }
    BenchFinishes(s, t, m);
  }

  /** Measured, evicted and finished, or cancelled and cleaned up: either way candidate and flag are gone, and only they. */
  lemma BenchLeavesNothing(s: State, t: Task, m: Model, w: Id)
    requires PcOf(s, t) == BenchLive(m, w) && s.lock != Some(t)
    requires w in s.registry ==> s.registry[w].model == m
    ensures Run(Next, s, [BenchEvict(t, w), BenchMeasured(t), BenchFinish(t)]) ==
      s.(registry := s.registry - {w}, flagged := s.flagged - {m}, tasks := s.tasks[t := Ended])
    ensures Run(Next, s, [Cancel(t), Unload(t, w), Unload(t, w)]) ==
      s.(registry := s.registry - {w}, flagged := s.flagged - {m}, tasks := s.tasks[t := Ended])
  {
    hide Next;
    RunThree(Next, s, BenchEvict(t, w), BenchMeasured(t), BenchFinish(t));
    RunThree(Next, s, Cancel(t), Unload(t, w), Unload(t, w));
    CandidateIsEvicted(s, t, m, w);
    BenchMoves(Remove(s, w), t, m, w);
    BenchFinishes(Remove(s, w), t, m);
    GuardTakesOver(s, t, m, w);
    GuardUnloads(s, t, m, w);
  }

  lemma CandidateIsEvicted(s: State, t: Task, m: Model, w: Id)
    requires PcOf(s, t) == BenchLive(m, w) && (w in s.registry ==> s.registry[w].model == m)
    ensures Next(s, BenchEvict(t, w)) == Remove(s, w)
  {
    assert w !in s.registry ==> s.registry - {w} == s.registry;
  }

  lemma BenchMoves(s: State, t: Task, m: Model, w: Id)
    requires PcOf(s, t) == BenchLive(m, w) && w !in s.registry
    ensures Next(s, BenchMeasured(t)) == Move(s, t, BenchReady(m))
  {
  }

  lemma BenchFinishes(s: State, t: Task, m: Model)
    requires s.lock != Some(t)
    ensures Next(Move(s, t, BenchReady(m)), BenchFinish(t)) == Unflag(Move(s, t, Ended), m)
  {
    MoveTwice(s, t, BenchReady(m), Ended);
  }

  lemma GuardTakesOver(s: State, t: Task, m: Model, w: Id)
    requires PcOf(s, t) == BenchLive(m, w)
    ensures Next(s, Cancel(t)) == Move(s, t, Cleanup(m, w))
  {
  }

  lemma GuardUnloads(s: State, t: Task, m: Model, w: Id)
    requires s.lock != Some(t)
    ensures Next(Next(Move(s, t, Cleanup(m, w)), Unload(t, w)), Unload(t, w)) == Unflag(Remove(Move(s, t, Ended), w), m)
  {
    MoveTwice(s, t, Cleanup(m, w), CleanupFlag(m));
    MoveTwice(s, t, CleanupFlag(m), Ended);
  }

  // ---- A drain ------------------------------------------------------------------------

  lemma DrainLocks(s: State, t: Task)
    requires s.lock == None && PcOf(s, t) == DrainQueued
    ensures Next(s, Lock(t)) == At(s, t, DrainGate, true)
  {
  }

  lemma DrainPassesGate(s: State, t: Task)
    ensures Next(At(s, t, DrainGate, true), Gate(t)) ==
      if s.flagged != {} then At(s, t, Ended, false) else At(s, t, DrainCheck, true)
  {
    AtTwice(s, t, DrainGate, true, Ended, false);
    AtTwice(s, t, DrainGate, true, DrainCheck, true);
  }

  lemma DrainLooks(s: State, t: Task)
    ensures Next(At(s, t, DrainCheck, true), Look(t)) == At(s, t, Draining(s.registry.Keys), true)
  {
    AtTwice(s, t, DrainCheck, true, Draining(s.registry.Keys), true);
  }

  lemma DrainTakes(s: State, t: Task, left: set<Id>, w: Id)
    requires w in left
    ensures Next(At(s, t, Draining(left), true), Unload(t, w)) == At(Remove(s, w), t, Draining(left - {w}), true)
  {
    AtTwice(s, t, Draining(left), true, Draining(left - {w}), true);
  }

  lemma DrainEnds(s: State, t: Task)
    ensures Next(At(s, t, Draining({}), true), Unload(t, 0)) == At(s, t, Ended, false)
  {
    AtTwice(s, t, Draining({}), true, Ended, false);
  }

  /** The steps by which a drain takes all workers of `left`, in some order, and ends. */
  lemma {:induction false} DrainGoesOn(s: State, t: Task, left: set<Id>) returns (more: seq<Label>)
    ensures forall l :: l in more ==> l.Unload? && l.task == t
    ensures Run(Next, At(s, t, Draining(left), true), more) == At(s.(registry := s.registry - left), t, Ended, false)
    decreases left
  {
    hide Next;
    if left == {} {
      more := [Unload(t, 0)];
      DrainEnds(s, t);
      RunSnoc(Next, At(s, t, Draining({}), true), [], Unload(t, 0));
      assert s.registry - left == s.registry;
    } else {
      var w :| w in left;
      var rest := DrainGoesOn(Remove(s, w), t, left - {w});
      more := [Unload(t, w)] + rest;
      DrainTakes(s, t, left, w);
      RunSnoc(Next, At(s, t, Draining(left), true), [], Unload(t, w));
      RunConcat(Next, At(s, t, Draining(left), true), [Unload(t, w)], rest);
      assert s.registry - {w} - (left - {w}) == s.registry - left;
    }
  }

  /** An unload of everything left to itself empties the registry, unless some model is being benchmarked. */
  lemma DrainTakesAll(s: State, t: Task) returns (more: seq<Label>)
    requires s.lock == None && PcOf(s, t) == DrainQueued
    ensures forall l :: l in more ==> l.Unload? && l.task == t
    ensures Run(Next, s, [Lock(t), Gate(t), Look(t)] + more) ==
      if s.flagged != {} then s.(tasks := s.tasks[t := Ended]) else s.(registry := map[], tasks := s.tasks[t := Ended])
  {
    hide Next;
    RunThree(Next, s, Lock(t), Gate(t), Look(t));
    DrainLocks(s, t);
    DrainPassesGate(s, t);
    if s.flagged != {} {
      more := [];
      EndedRests(At(s, t, Ended, false), t);
      assert [Lock(t), Gate(t), Look(t)] + more == [Lock(t), Gate(t), Look(t)];
    } else {
      DrainLooks(s, t);
      more := DrainGoesOn(s, t, s.registry.Keys);
      RunConcat(Next, s, [Lock(t), Gate(t), Look(t)], more);
      assert s.registry - s.registry.Keys == map[];
    }
  }
}
