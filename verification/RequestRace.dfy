/**
 Requests against a worker that dies: every step is one lock acquisition. A request
 registers its waiter and only then sends; a death clears the channel and only then
 fails the waiters. `txFirst` says in which order the death does its two clears.
 */
module RequestRace {
  import opened Runs
  import opened Wrappers

  type Id = nat

  /** What the waiter's receiver holds: a reply, or the news that its sender was dropped. */
  datatype Mail = Reply | Dropped

  datatype Request = Registered | Refused | Waiting | Answered | FoundDead | GaveUp | Abandoned

  /** The reader of worker `w`; between `Dying` and `Down` lie the two clears. */
  datatype Phase = Reading | Dying | Halfway | Down

  datatype State = State(
    txFirst: bool, writeTx: Option<nat>, pending: set<Id>, mail: map<Id, Mail>,
    requests: map<Id, Request>, accepted: map<Id, nat>, worker: nat, phase: Phase)

  datatype Label =
    | Register(id: Id)
    | Send(id: Id, open: bool)    // a channel may refuse although it is still installed
    | Withdraw(id: Id)
    | Correlate(id: Id)
    | TimeOut(id: Id)
    | Drop(id: Id)                // the caller's future is dropped at its one await; no guard withdraws it
    | Await(id: Id)
    | Eof | FirstClear | SecondClear | Restart
    | StopClear                   // a stop drops the channel too, whenever it comes

  function Start(txFirst: bool): State {
    State(txFirst, Some(0), {}, map[], map[], map[], 0, Reading)
  }

  predicate Is(s: State, id: Id, r: Request) {
    id in s.requests && s.requests[id] == r
  }

  function Become(s: State, id: Id, r: Request): State {
    s.(requests := s.requests[id := r])
  }

  function FailAll(s: State): State {
    s.(mail := map id | id in s.mail.Keys + s.pending :: if id in s.mail then s.mail[id] else Dropped, pending := {})
  }

  function RequestStep(s: State, l: Label): State {
    match l
    case Register(id) =>
      if id in s.requests then s else Become(s, id, Registered).(pending := s.pending + {id})
    case Send(id, open) =>
      if !Is(s, id, Registered) then s
      else if s.writeTx.Some? && open then Become(s, id, Waiting).(accepted := s.accepted[id := s.writeTx.value])
      else Become(s, id, Refused)
    case Withdraw(id) => if Is(s, id, Refused) then Become(s, id, FoundDead).(pending := s.pending - {id}) else s
    case Correlate(id) =>
      if id in s.pending && id in s.accepted && s.accepted[id] == s.worker && s.phase == Reading then
        s.(pending := s.pending - {id}, mail := s.mail[id := Reply])
      else s
    case TimeOut(id) => if Is(s, id, Waiting) then Become(s, id, GaveUp).(pending := s.pending - {id}) else s
    case Drop(id) => if Is(s, id, Waiting) then Become(s, id, Abandoned) else s
    case Await(id) =>
      if Is(s, id, Waiting) && id in s.mail then Become(s, id, if s.mail[id] == Reply then Answered else FoundDead) else s
    case _ => s
  }

  function WorkerStep(s: State, l: Label): State {
    match l
    case Eof => if s.phase == Reading then s.(phase := Dying) else s
    case FirstClear =>
      if s.phase != Dying then s
      else if s.txFirst then s.(writeTx := None, phase := Halfway)
      else FailAll(s).(phase := Halfway)
    case SecondClear =>
      if s.phase != Halfway then s
      else if s.txFirst then FailAll(s).(phase := Down)
      else s.(writeTx := None, phase := Down)
    case Restart =>
      if s.phase == Down then s.(worker := s.worker + 1, writeTx := Some(s.worker + 1), phase := Reading) else s
    case StopClear => s.(writeTx := None)
    case _ => s
  }

  function Next(s: State, l: Label): State {
    match l
    case Register(_) | Send(_, _) | Withdraw(_) | Correlate(_) | TimeOut(_) | Drop(_) | Await(_) => RequestStep(s, l)
    case Eof | FirstClear | SecondClear | Restart | StopClear => WorkerStep(s, l)
  }

  // ---- What every step keeps, when the channel is cleared first -----------------

  predicate RequestOk(s: State, id: Id)
    requires id in s.requests
  {
    match s.requests[id]
    case Registered | Refused => id !in s.accepted && (id in s.pending || id in s.mail)
    case Waiting | Abandoned =>
      && id in s.accepted && s.accepted[id] <= s.worker
      && (id in s.pending <==> id !in s.mail)
      && (id in s.pending ==> s.accepted[id] == s.worker && s.phase != Down)
    case Answered | FoundDead | GaveUp => id !in s.pending
  }

  ghost predicate Inv(s: State) {
    && s.txFirst
    && (s.writeTx.Some? ==> s.writeTx.value == s.worker && (s.phase == Reading || s.phase == Dying))
    && (forall id :: id in s.pending ==> id in s.requests && id !in s.mail)
    && (forall id :: id in s.mail ==> id in s.requests)
    && (forall id :: id in s.accepted ==> id in s.requests)
    && (forall id :: id in s.requests ==> RequestOk(s, id))
  }

  lemma SendKeepsInv(s: State, l: Label)
    requires Inv(s) && (l.Register? || l.Send? || l.Withdraw?)
    ensures Inv(RequestStep(s, l))
  {
    var n := RequestStep(s, l);
    forall id | id in n.requests ensures RequestOk(n, id) {
      assert id in s.requests ==> RequestOk(s, id);
    }
  }

  lemma AnswerKeepsInv(s: State, l: Label)
    requires Inv(s) && (l.Correlate? || l.TimeOut? || l.Drop? || l.Await?)
    ensures Inv(RequestStep(s, l))
  {
    var n := RequestStep(s, l);
    forall id | id in n.requests ensures RequestOk(n, id) {
      assert id in s.requests ==> RequestOk(s, id);
    }
  }

  lemma WorkerKeepsInv(s: State, l: Label)
    requires Inv(s)
    ensures Inv(WorkerStep(s, l))
  {
    var n := WorkerStep(s, l);
    forall id | id in n.requests ensures RequestOk(n, id) {
      assert RequestOk(s, id);
    }
  }

  lemma StepKeepsInv(s: State, l: Label)
    requires Inv(s)
    ensures Inv(Next(s, l))
  {
    hide Inv, RequestStep, WorkerStep;
    match l
    case Register(_) | Send(_, _) | Withdraw(_) => SendKeepsInv(s, l);
    case Correlate(_) | TimeOut(_) | Drop(_) | Await(_) => AnswerKeepsInv(s, l);
    case Eof | FirstClear | SecondClear | Restart | StopClear => WorkerKeepsInv(s, l);
  }

  lemma {:induction false} RunKeepsInv(labels: seq<Label>)
    ensures Inv(Run(Next, Start(true), labels))
  {
    if labels != [] {
      var l := labels[|labels| - 1];
      RunKeepsInv(labels[..|labels| - 1]);
      StepKeepsInv(Run(Next, Start(true), labels[..|labels| - 1]), l);
    }
  }

  // ---- Main results -----------------------------------------------------------

  /** Both clears are done for worker `w`. */
  predicate Buried(s: State, w: nat) {
    w < s.worker || (w == s.worker && s.phase == Down)
  }

  /** No waiter is left whose line went to a buried worker. */
  ghost predicate NobodyWaitsOnTheDead(s: State) {
    forall id :: id in s.pending && id in s.accepted ==> !Buried(s, s.accepted[id])
  }

  lemma BuriedHaveNoWaiters(labels: seq<Label>)
    ensures NobodyWaitsOnTheDead(Run(Next, Start(true), labels))
  {
    var s := Run(Next, Start(true), labels);
    RunKeepsInv(labels);
    forall id | id in s.pending && id in s.accepted ensures !Buried(s, s.accepted[id]) {
      assert RequestOk(s, id);
    }
  }

  lemma AwaitEnds(s: State, id: Id)
    requires Is(s, id, Waiting) && id in s.mail
    ensures Is(Next(s, Await(id)), id, if s.mail[id] == Reply then Answered else FoundDead)
  {
  }

  /**
   A request that is still waiting either hangs on the worker that is current and not yet buried, or its
   wait is over: awaiting it now answers it or finds the worker dead.
   */
  lemma WaitingIsHonest(labels: seq<Label>, id: Id)
    requires Is(Run(Next, Start(true), labels), id, Waiting)
    ensures var s := Run(Next, Start(true), labels);
      && id in s.accepted
      && (id !in s.mail ==> id in s.pending && s.accepted[id] == s.worker && s.phase != Down)
      && (Buried(s, s.accepted[id]) ==> id in s.mail)
      && (id in s.mail ==> Is(Next(s, Await(id)), id, if s.mail[id] == Reply then Answered else FoundDead))
  {
    hide Next;
    if id in Run(Next, Start(true), labels).mail { AwaitEnds(Run(Next, Start(true), labels), id); }
    RunKeepsInv(labels);
    assert RequestOk(Run(Next, Start(true), labels), id);
  }

  lemma AwaitAfterReply(s: State, id: Id)
    requires Is(s, id, Waiting) && RequestOk(s, id) && s.phase == Reading
    ensures Is(Next(Next(s, Correlate(id)), Await(id)), id, Answered) <==>
      id in s.pending || (id in s.mail && s.mail[id] == Reply)
  {
  }

  /** A reply that arrives while its worker is read is what the caller gets, and a removed waiter is not answered. */
  lemma ReplyReachesCaller(labels: seq<Label>, id: Id)
    requires var s := Run(Next, Start(true), labels); Is(s, id, Waiting) && s.phase == Reading
    ensures var s := Run(Next, Start(true), labels);
      Is(Next(Next(s, Correlate(id)), Await(id)), id, Answered) <==>
        id in s.pending || (id in s.mail && s.mail[id] == Reply)
  {
    hide Next;
    RunKeepsInv(labels);
    assert RequestOk(Run(Next, Start(true), labels), id);
    AwaitAfterReply(Run(Next, Start(true), labels), id);
  }

  // ---- A request left to itself ---------------------------------------------------

  lemma SentWaits(s: State, id: Id)
    requires id !in s.requests && s.writeTx.Some?
    ensures var n := Next(Next(s, Register(id)), Send(id, true));
      && Is(n, id, Waiting) && n.pending == s.pending + {id} && n.mail == s.mail && n.phase == s.phase
      && id in n.accepted && n.accepted[id] == s.writeTx.value && n.worker == s.worker && n.txFirst == s.txFirst
  {
  }

  lemma ReplyAnswers(s: State, id: Id)
    requires Is(s, id, Waiting) && id in s.pending && id in s.accepted && s.accepted[id] == s.worker && s.phase == Reading
    ensures var n := Next(Next(s, Correlate(id)), Await(id)); Is(n, id, Answered) && n.pending == s.pending - {id}
  {
  }

  lemma DeathFails(s: State, id: Id)
    requires Is(s, id, Waiting) && id in s.pending && id !in s.mail && s.phase == Reading && s.txFirst
    ensures var n := Next(Next(Next(Next(s, Eof), FirstClear), SecondClear), Await(id));
      Is(n, id, FoundDead) && n.pending == {}
  {
  }

  lemma RefusedLeaves(s: State, id: Id, open: bool)
    requires id !in s.requests && id !in s.pending && (s.writeTx == None || !open)
    ensures var n := Next(Next(Next(s, Register(id)), Send(id, open)), Withdraw(id));
      Is(n, id, FoundDead) && n.pending == s.pending && n.mail == s.mail && n.accepted == s.accepted
  {
  }

  /**
   A new request, in any run: with the channel open it is sent, and then the worker's reply answers it and its death
   fails it; with the channel closed it finds the worker dead. Each way its waiter is gone in the end.
   */
  lemma RequestLeftAlone(labels: seq<Label>, id: Id)
    requires id !in Run(Next, Start(true), labels).requests
    ensures var s := Run(Next, Start(true), labels);
      if s.writeTx.Some? then
        s.phase == Reading ==>
          var answered := Run(Next, Start(true), labels + [Register(id), Send(id, true), Correlate(id), Await(id)]);
          var failed := Run(Next, Start(true), labels + [Register(id), Send(id, true)] + [Eof, FirstClear, SecondClear, Await(id)]);
          && Is(answered, id, Answered) && answered.pending == s.pending
          && Is(failed, id, FoundDead) && failed.pending == {}
      else
        var n := Run(Next, Start(true), labels + [Register(id), Send(id, true), Withdraw(id)]);
        Is(n, id, FoundDead) && n.pending == s.pending
  {
    hide Next;
    var s := Run(Next, Start(true), labels);
    RunKeepsInv(labels);
    assert id !in s.pending && id !in s.mail;
    if s.writeTx == None {
      RunThree(Next, s, Register(id), Send(id, true), Withdraw(id));
      RunConcat(Next, Start(true), labels, [Register(id), Send(id, true), Withdraw(id)]);
      RefusedLeaves(s, id, true);
    } else if s.phase == Reading {
      ServedOrFailed(s, id);
      RunConcat(Next, Start(true), labels, [Register(id), Send(id, true), Correlate(id), Await(id)]);
      RunConcat(Next, Start(true), labels, [Register(id), Send(id, true)]);
      RunConcat(Next, Start(true), labels + [Register(id), Send(id, true)], [Eof, FirstClear, SecondClear, Await(id)]);
    }
  }

  lemma ServedOrFailed(s: State, id: Id)
    requires Inv(s) && id !in s.requests && s.writeTx.Some? && s.phase == Reading
    ensures var n := Run(Next, s, [Register(id), Send(id, true), Correlate(id), Await(id)]);
      Is(n, id, Answered) && n.pending == s.pending
    ensures var n := Run(Next, Run(Next, s, [Register(id), Send(id, true)]), [Eof, FirstClear, SecondClear, Await(id)]);
      Is(n, id, FoundDead) && n.pending == {}
  {
    hide Next;
    SentWaits(s, id);
    var w := Next(Next(s, Register(id)), Send(id, true));
    RunSnoc(Next, s, [], Register(id));
    RunSnoc(Next, s, [Register(id)], Send(id, true));
    assert [] + [Register(id)] == [Register(id)] && [Register(id)] + [Send(id, true)] == [Register(id), Send(id, true)];
    RunFour(Next, s, Register(id), Send(id, true), Correlate(id), Await(id));
    RunFour(Next, w, Eof, FirstClear, SecondClear, Await(id));
    assert id !in s.mail && id !in s.pending;
    ReplyAnswers(w, id);
    DeathFails(w, id);
    assert s.pending + {id} - {id} == s.pending;
  }

  // ---- What ends a request, and what replaces its worker -------------------------------

  /** Step `i` of the run is a reply for `id` from the worker that has its line, while that worker is read. */
  predicate RepliedAt(labels: seq<Label>, id: Id, i: nat) {
    i < |labels| && labels[i] == Correlate(id) &&
    var s := Run(Next, Start(true), labels[..i]);
    id in s.pending && id in s.accepted && s.accepted[id] == s.worker && s.phase == Reading
  }

  predicate HasReply(s: State, id: Id) {
    Is(s, id, Answered) || (id in s.mail && s.mail[id] == Reply)
  }

  lemma ReplyComes(s: State, l: Label, id: Id)
    requires HasReply(Next(s, l), id) && !HasReply(s, id)
    ensures l == Correlate(id) && id in s.pending && id in s.accepted && s.accepted[id] == s.worker && s.phase == Reading
  {
  }

  /** In every run a request that was answered had its reply from the worker it was sent to, while that worker was read. */
  lemma {:induction false} AnswersAreReplies(labels: seq<Label>, id: Id)
    requires HasReply(Run(Next, Start(true), labels), id)
    ensures exists i: nat :: RepliedAt(labels, id, i)
  {
    hide Next, HasReply, RepliedAt;
    if labels == [] {
      NothingAtFirst(id);
    } else {
      var front, l := labels[..|labels| - 1], labels[|labels| - 1];
      var s := Run(Next, Start(true), front);
      if HasReply(s, id) {
        AnswersAreReplies(front, id);
        var i: nat :| RepliedAt(front, id, i);
        RepliedBefore(labels, id, i);
      } else {
        ReplyComes(s, l, id);
        RepliedNow(labels, id);
      }
    }
  }

  lemma NothingAtFirst(id: Id)
    ensures !HasReply(Start(true), id)
  {
  }

  lemma RepliedBefore(labels: seq<Label>, id: Id, i: nat)
    requires labels != [] && RepliedAt(labels[..|labels| - 1], id, i)
    ensures RepliedAt(labels, id, i)
  {
    assert labels[..|labels| - 1][..i] == labels[..i];
  }

  lemma RepliedNow(labels: seq<Label>, id: Id)
    requires labels != [] && labels[|labels| - 1] == Correlate(id)
    requires var s := Run(Next, Start(true), labels[..|labels| - 1]);
      id in s.pending && id in s.accepted && s.accepted[id] == s.worker && s.phase == Reading
    ensures RepliedAt(labels, id, |labels| - 1)
  {
  }

  predicate Over(s: State, id: Id) {
    Is(s, id, Answered) || Is(s, id, FoundDead) || Is(s, id, GaveUp)
  }

  lemma OverStays(s: State, l: Label, id: Id)
    requires Over(s, id)
    ensures Over(Next(s, l), id) && Next(s, l).requests[id] == s.requests[id]
  {
  }

  lemma TimeOutEnds(s: State, id: Id)
    requires Is(s, id, Waiting)
    ensures var n := Next(s, TimeOut(id)); Is(n, id, GaveUp) && n.pending == s.pending - {id} && n.mail == s.mail
  {
  }

  lemma {:induction false} OverForGood(s: State, id: Id, more: seq<Label>)
    requires Over(s, id)
    ensures var n := Run(Next, s, more); Over(n, id) && n.requests[id] == s.requests[id]
  {
    hide Next;
    if more != [] {
      OverForGood(s, id, more[..|more| - 1]);
      OverStays(Run(Next, s, more[..|more| - 1]), more[|more| - 1], id);
    }
  }

  /** A waiting request that runs out of time gives up and withdraws its waiter, and stays so in every continuation. */
  lemma GivingUpIsFinal(labels: seq<Label>, id: Id, more: seq<Label>)
    requires Is(Run(Next, Start(true), labels), id, Waiting)
    ensures var s, n := Run(Next, Start(true), labels), Run(Next, Start(true), labels + [TimeOut(id)]);
      Is(n, id, GaveUp) && n.pending == s.pending - {id}
    ensures var n := Run(Next, Start(true), labels + [TimeOut(id)] + more); Is(n, id, GaveUp) && id !in n.pending
  {
    hide Next;
    var s := Run(Next, Start(true), labels);
    RunSnoc(Next, Start(true), labels, TimeOut(id));
    TimeOutEnds(s, id);
    OverForGood(Next(s, TimeOut(id)), id, more);
    RunConcat(Next, Start(true), labels + [TimeOut(id)], more);
    RunKeepsInv(labels + [TimeOut(id)] + more);
    assert RequestOk(Run(Next, Start(true), labels + [TimeOut(id)] + more), id);
  }

  lemma DeathSteps(s: State)
    requires s.phase == Reading
    ensures var n := Next(Next(Next(s, Eof), FirstClear), SecondClear);
      && n.writeTx == None && n.pending == {} && n.phase == Down && n.worker == s.worker && n.requests == s.requests
      && Next(n, Restart) == n.(worker := s.worker + 1, writeTx := Some(s.worker + 1), phase := Reading)
    ensures Next(s, StopClear) == s.(writeTx := None)
  {
  }

  /**
   In either order of its clears a death closes the channel and fails every waiter, and a restart then opens the channel
   of the next worker; a stop closes the channel and fails nobody.
   */
  lemma DeathAndRestart(txFirst: bool, labels: seq<Label>)
    requires Run(Next, Start(txFirst), labels).phase == Reading
    ensures var s, n := Run(Next, Start(txFirst), labels), Run(Next, Start(txFirst), labels + [Eof, FirstClear, SecondClear]);
      n.writeTx == None && n.pending == {} && n.requests == s.requests
    ensures var s, n := Run(Next, Start(txFirst), labels), Run(Next, Start(txFirst), labels + [Eof, FirstClear, SecondClear, Restart]);
      n.worker == s.worker + 1 && n.writeTx == Some(n.worker) && n.phase == Reading && n.pending == {}
    ensures var s := Run(Next, Start(txFirst), labels);
      Run(Next, Start(txFirst), labels + [StopClear]) == s.(writeTx := None)
  {
    hide Next;
    var s := Run(Next, Start(txFirst), labels);
    DeathSteps(s);
    RunThree(Next, s, Eof, FirstClear, SecondClear);
    RunFour(Next, s, Eof, FirstClear, SecondClear, Restart);
    RunConcat(Next, Start(txFirst), labels, [Eof, FirstClear, SecondClear]);
    RunConcat(Next, Start(txFirst), labels, [Eof, FirstClear, SecondClear, Restart]);
    RunSnoc(Next, Start(txFirst), labels, StopClear);
  }

  // ---- What an abandoned request leaves behind ------------------------------------

  /** The step delivers a reply to the waiter of `id`. */
  predicate RepliesNow(s: State, l: Label, id: Id) {
    l == Correlate(id) && id !in s.mail && id in Next(s, Correlate(id)).mail
  }

  /** The step is a death that fails the waiter of `id` before its line was sent. */
  predicate FailsUnsentNow(s: State, l: Label, id: Id) {
    l == SecondClear && s.phase == Halfway && id in s.pending && id !in s.accepted
  }

  /** In some step of the run a reply was delivered to the waiter of `id`. */
  predicate Replied(labels: seq<Label>, id: Id) {
    labels != [] &&
    var front := labels[..|labels| - 1];
    var s := Run(Next, Start(true), front);
    Replied(front, id) || RepliesNow(s, labels[|labels| - 1], id)
  }

  /** In some step of the run a death failed the waiter of `id` before its line was sent. */
  predicate FailedUnsent(labels: seq<Label>, id: Id) {
    labels != [] &&
    var front := labels[..|labels| - 1];
    var s := Run(Next, Start(true), front);
    FailedUnsent(front, id) || FailsUnsentNow(s, labels[|labels| - 1], id)
  }

  predicate Open(s: State, id: Id) {
    id in s.requests && s.requests[id] in {Registered, Refused, Waiting, Abandoned}
  }

  /** Why the receiver of an open request holds something: a reply, a death before it was sent, or one after. */
  predicate MailOk(s: State, id: Id, replied: bool, failedUnsent: bool) {
    && (id !in s.requests ==> !replied && !failedUnsent && id !in s.mail && id !in s.pending && id !in s.accepted)
    && (Open(s, id) ==>
          (id in s.mail <==> replied || failedUnsent || (id in s.accepted && Buried(s, s.accepted[id]))))
    && (id !in s.accepted ==> !replied)
  }

  lemma WorkerMailStep(s: State, l: Label, id: Id, replied: bool, failedUnsent: bool)
    requires s.txFirst && (id in s.requests ==> RequestOk(s, id)) && (id in s.pending ==> id in s.requests && id !in s.mail)
    requires MailOk(s, id, replied, failedUnsent)
    ensures MailOk(WorkerStep(s, l), id, replied, failedUnsent || FailsUnsentNow(s, l, id))
  {
  }

  lemma RequestMailStep(s: State, l: Label, id: Id, replied: bool, failedUnsent: bool)
    requires id in s.requests ==> RequestOk(s, id)
    requires s.writeTx.Some? ==> s.writeTx.value == s.worker && s.phase != Down
    requires MailOk(s, id, replied, failedUnsent) && (l.Register? || l.Send? || l.Withdraw? || l.TimeOut? || l.Drop? || l.Await?)
    ensures MailOk(RequestStep(s, l), id, replied, failedUnsent)
  {
  }

  lemma ReplyMailStep(s: State, x: Id, id: Id, replied: bool, failedUnsent: bool)
    requires id in s.requests ==> RequestOk(s, id)
    requires MailOk(s, id, replied, failedUnsent)
    ensures MailOk(RequestStep(s, Correlate(x)), id, replied || RepliesNow(s, Correlate(x), id), failedUnsent)
  {
  }

  lemma MailStep(s: State, l: Label, id: Id, replied: bool, failedUnsent: bool)
    requires Inv(s) && MailOk(s, id, replied, failedUnsent)
    ensures MailOk(Next(s, l), id, replied || RepliesNow(s, l, id), failedUnsent || FailsUnsentNow(s, l, id))
  {
    assert id in s.requests ==> RequestOk(s, id);
    hide MailOk, RequestOk, RequestStep, WorkerStep;
    match l
    case Correlate(x) => ReplyMailStep(s, x, id, replied, failedUnsent);
    case Register(_) | Send(_, _) | Withdraw(_) | TimeOut(_) | Drop(_) | Await(_) =>
      RequestMailStep(s, l, id, replied, failedUnsent);
    case Eof | FirstClear | SecondClear | Restart | StopClear => WorkerMailStep(s, l, id, replied, failedUnsent);
  }

  lemma {:induction false} MailExactly(labels: seq<Label>, id: Id)
    ensures MailOk(Run(Next, Start(true), labels), id, Replied(labels, id), FailedUnsent(labels, id))
  {
    if labels != [] {
      hide Next, MailOk, Inv;
      var front := labels[..|labels| - 1];
      RunKeepsInv(front);
      MailExactly(front, id);
      MailStep(Run(Next, Start(true), front), labels[|labels| - 1], id, Replied(front, id), FailedUnsent(front, id));
    } else {
      assert MailOk(Start(true), id, false, false);
    }
  }

  /** No caller is left: each was answered, found the worker dead, gave up in time, or was dropped. */
  ghost predicate AllOver(s: State) {
    forall id :: id in s.requests ==> s.requests[id] in {Answered, FoundDead, GaveUp, Abandoned}
  }

  /** Dropping a caller's future leaves its waiter registered, for as long as the worker lives. */
  lemma DroppedCallerLingers()
    ensures var s := Run(Next, Start(true), [Register(7), Send(7, true), Drop(7), Drop(7)]);
      AllOver(s) && 7 in s.pending && s.phase == Reading
  {
    RunFour(Next, Start(true), Register(7), Send(7, true), Drop(7), Drop(7));
  }

  lemma OverOrAbandoned(s: State, id: Id)
    requires Inv(s) && AllOver(s)
    ensures id in s.pending <==> Is(s, id, Abandoned) && id !in s.mail
  {
    assert id in s.requests ==> RequestOk(s, id);
  }

  /**
   With every caller gone, a waiter is left registered exactly when its caller was dropped, no reply came
   for it, no death failed it before it was sent, and the worker that has its line is not buried.
   */
  lemma LeftoversExactly(labels: seq<Label>, id: Id)
    requires AllOver(Run(Next, Start(true), labels))
    ensures var s := Run(Next, Start(true), labels);
      id in s.pending <==>
        && Is(s, id, Abandoned) && id in s.accepted && !Buried(s, s.accepted[id])
        && !Replied(labels, id) && !FailedUnsent(labels, id)
  {
    hide Replied, FailedUnsent, Next;
    var s := Run(Next, Start(true), labels);
    RunKeepsInv(labels);
    MailExactly(labels, id);
    OverOrAbandoned(s, id);
    assert id in s.requests ==> RequestOk(s, id);
  }

  /** So no waiter outlives its worker, and without a dropped caller none is ever left behind. */
  lemma NoLeftovers(labels: seq<Label>)
    requires var s := Run(Next, Start(true), labels);
      AllOver(s) && (s.phase == Down || forall id :: !Is(s, id, Abandoned))
    ensures Run(Next, Start(true), labels).pending == {}
  {
    hide Next;
    var s := Run(Next, Start(true), labels);
    RunKeepsInv(labels);
    forall id ensures id !in s.pending {
      OverOrAbandoned(s, id);
      assert id in s.requests ==> RequestOk(s, id);
    }
  }

  const STRANDED: seq<Label> := [Eof, FirstClear, Register(7), Send(7, true)]

  /** Registered and sent between the clears. */
  function Between(): State {
    Next(Next(Next(Next(Start(false), Eof), FirstClear), Register(7)), Send(7, true))
  }

  lemma StrandedSteps()
    ensures var s := Next(Between(), SecondClear);
      Is(s, 7, Waiting) && 7 in s.accepted && s.accepted[7] == 0 && Buried(s, 0) && 7 in s.pending && !NobodyWaitsOnTheDead(s)
  {
    assert Next(Next(Start(false), Eof), FirstClear).phase == Halfway;
  }

  /** In the other order a request can slip between the clears and wait for a worker that is buried. */
  lemma OtherOrderStrands()
    ensures var s := Run(Next, Start(false), STRANDED + [SecondClear]);
      Is(s, 7, Waiting) && 7 in s.accepted && s.accepted[7] == 0 && Buried(s, 0) && 7 in s.pending && !NobodyWaitsOnTheDead(s)
  {
    hide Next;
    StrandedSteps();
    RunFour(Next, Start(false), Eof, FirstClear, Register(7), Send(7, true));
    RunSnoc(Next, Start(false), STRANDED, SecondClear);
  }
}
