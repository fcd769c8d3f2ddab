/**
 The reply demux shared by the callers of a worker and the task that reads its
 output: responses go to the waiter of their id, chat chunks to the sink of theirs.

 A waiter or a sink is known by its ticket, its position in the order of
 registration. A ticket outlives its entry in the maps: it stands for the half
 that the caller holds.
 */
module ReplyDemux {
  import opened Wrappers
  import opened RpcFrames
  import opened Runs
  import DQ = DeltaQueue

  /** What the caller's half of a one-shot reply channel has seen. */
  datatype Waiter = Waiting | Resolved(resp: Reply) | Cancelled

  datatype Reply = Reply(id: u64, result: Option<Json>, error: Option<RpcError>)

  /** The waiters and the map from a request id to the ticket of its open waiter. */
  datatype Waiters = Waiters(pending: map<u64, nat>, all: seq<Waiter>)

  /** The queues and the map from a request id to the ticket of its open sink. */
  datatype Sinks = Sinks(open: map<u64, nat>, queues: seq<DQ.Queue>)

  datatype Demux = Demux(w: Waiters, s: Sinks)

  const EMPTY: Demux := Demux(Waiters(map[], []), Sinks(map[], []))

  datatype Op =
    | RegisterPending(id: u64)
    | RemovePending(id: u64)
    | Correlate(resp: Reply)
    | FailAllPending
    | RegisterSink(id: u64)
    | RemoveSink(id: u64)
    | RouteChunk(id: u64, delta: DQ.Delta)
    | ClearSinks
    | TakeDelta(ticket: nat)     // the consumer of a sink pops one delta
    | DropSinkReceiver(ticket: nat)

  /** No entry of `m` has ticket `k`. */
  predicate Free(m: map<u64, nat>, k: nat) {
    forall id :: id in m ==> m[id] != k
  }

  /** Replaces the waiter that `id` has open, if any. */
  function Settle(w: Waiters, id: u64, value: Waiter): seq<Waiter> {
    if id in w.pending && w.pending[id] < |w.all| then w.all[w.pending[id] := value] else w.all
  }

  function ApplyToWaiters(w: Waiters, op: Op): Waiters {
    match op
    case RegisterPending(id) =>  // an entry that is replaced drops its sender
      Waiters(w.pending[id := |w.all|], Settle(w, id, Cancelled) + [Waiting])
    case RemovePending(id) => Waiters(w.pending - {id}, Settle(w, id, Cancelled))
    case Correlate(resp) => Waiters(w.pending - {resp.id}, Settle(w, resp.id, Resolved(resp)))
    case FailAllPending =>
      Waiters(map[], seq(|w.all|, i requires 0 <= i < |w.all| => if Free(w.pending, i) then w.all[i] else Cancelled))
    case _ => w
  }

  /** Closes the sink that `id` has open, if any. */
  function CloseSink(s: Sinks, id: u64): seq<DQ.Queue> {
    if id in s.open && s.open[id] < |s.queues|
    then s.queues[s.open[id] := DQ.CloseSender(s.queues[s.open[id]])] else s.queues
  }

  function ApplyToSinks(s: Sinks, op: Op): Sinks {
    match op
    case RegisterSink(id) => Sinks(s.open[id := |s.queues|], CloseSink(s, id) + [DQ.EMPTY])
    case RemoveSink(id) => Sinks(s.open - {id}, CloseSink(s, id))
    case RouteChunk(id, delta) =>
      if id in s.open && s.open[id] < |s.queues|
      then s.(queues := s.queues[s.open[id] := DQ.Send(s.queues[s.open[id]], delta)])
      else s
    case ClearSinks =>
      Sinks(map[], seq(|s.queues|, i requires 0 <= i < |s.queues| =>
                     if Free(s.open, i) then s.queues[i] else DQ.CloseSender(s.queues[i])))
    case TakeDelta(k) =>
      if k < |s.queues| then s.(queues := s.queues[k := DQ.Pop(s.queues[k]).1]) else s
    case DropSinkReceiver(k) =>
      if k < |s.queues| then s.(queues := s.queues[k := DQ.DropReceiver(s.queues[k])]) else s
    case _ => s
  }

  function Apply(d: Demux, op: Op): Demux {
    Demux(ApplyToWaiters(d.w, op), ApplyToSinks(d.s, op))
  }

  /** Every entry has a ticket below `n`, and no two the same one. */
  predicate Distinct(m: map<u64, nat>, n: nat) {
    && (forall id :: id in m ==> m[id] < n)
    && (forall a, b :: a in m && b in m && a != b ==> m[a] != m[b])
  }

  /** The entries of the map are exactly the waiters that still wait. */
  predicate WaitersInv(w: Waiters) {
    && Distinct(w.pending, |w.all|)
    && (forall id :: id in w.pending ==> w.all[w.pending[id]] == Waiting)
  }

  predicate SinksInv(s: Sinks) {
    Distinct(s.open, |s.queues|)
  }

  predicate Inv(d: Demux) {
    WaitersInv(d.w) && SinksInv(d.s)
  }

  lemma WaitersStep(w: Waiters, op: Op)
    requires WaitersInv(w)
    ensures WaitersInv(ApplyToWaiters(w, op)) && |ApplyToWaiters(w, op).all| >= |w.all|
  {
  }

  lemma SinksStep(s: Sinks, op: Op)
    requires SinksInv(s)
    ensures SinksInv(ApplyToSinks(s, op)) && |ApplyToSinks(s, op).queues| >= |s.queues|
  {
  }

  lemma ApplyKeepsInv(d: Demux, op: Op)
    requires Inv(d)
    ensures Inv(Apply(d, op))
  {
    WaitersStep(d.w, op);
    SinksStep(d.s, op);
  }

  /** Every entry of either map keeps owning one open half, over whole runs. */
  lemma {:induction false} RunKeepsInv(d: Demux, ops: seq<Op>)
    requires Inv(d)
    ensures Inv(Run(Apply, d, ops))
  {
    if ops != [] {
      RunKeepsInv(d, ops[..|ops| - 1]);
      ApplyKeepsInv(Run(Apply, d, ops[..|ops| - 1]), ops[|ops| - 1]);
    }
  }

  // ---- The shared object ------------------------------------------------------

  class ReplyDemuxTable {
    var pending: map<u64, nat>
    var waiters: seq<Waiter>
    var chatSinks: map<u64, nat>
    var queues: seq<DQ.Queue>

    function State(): Demux
      reads this
    {
      Demux(Waiters(pending, waiters), Sinks(chatSinks, queues))
    }

    constructor ()
      ensures State() == EMPTY
    {
      pending, waiters, chatSinks, queues := map[], [], map[], [];
    }

    method RegisterPendingId(id: u64) returns (ticket: nat)
      requires Inv(State())
      modifies this`pending, this`waiters
      ensures ticket == |old(waiters)| && State() == Apply(old(State()), RegisterPending(id)) && Inv(State())
      ensures pending == old(pending)[id := ticket] && |waiters| == ticket + 1 && waiters[ticket] == Waiting
      ensures forall k :: 0 <= k < ticket ==>
        waiters[k] == if id in old(pending) && old(pending)[id] == k then Cancelled else old(waiters)[k]
    {
      WaitersStep(State().w, RegisterPending(id));
      ticket := |waiters|;
      if id in pending {
        waiters := waiters[pending[id] := Cancelled];  // the replaced sender is dropped
      }
      waiters := waiters + [Waiting];
      pending := pending[id := ticket];
    }

    method RemovePendingId(id: u64)
      requires Inv(State())
      modifies this`pending, this`waiters
      ensures State() == Apply(old(State()), RemovePending(id)) && Inv(State())
      ensures pending == old(pending) - {id}
      ensures waiters == if id in old(pending) then old(waiters)[old(pending)[id] := Cancelled] else old(waiters)
    {
      WaitersStep(State().w, RemovePending(id));
      if id in pending {
        waiters := waiters[pending[id] := Cancelled];
      }
      pending := pending - {id};
    }

    method CorrelateReply(resp: Reply)
      requires Inv(State())
      modifies this`pending, this`waiters
      ensures State() == Apply(old(State()), Correlate(resp)) && Inv(State())
      ensures pending == old(pending) - {resp.id}
      ensures waiters == if resp.id in old(pending) then old(waiters)[old(pending)[resp.id] := Resolved(resp)] else old(waiters)
    {
      WaitersStep(State().w, Correlate(resp));
      if resp.id in pending {
        waiters := waiters[pending[resp.id] := Resolved(resp)];
      }
      pending := pending - {resp.id};
    }

    /** Clearing the map drops its senders. */
    method FailAll()
      requires Inv(State())
      modifies this`pending, this`waiters
      ensures State() == Apply(old(State()), FailAllPending) && Inv(State())
      ensures pending == map[] && |waiters| == |old(waiters)|
      ensures forall id :: id in old(pending) ==> waiters[old(pending)[id]] == Cancelled
      ensures forall k :: 0 <= k < |waiters| && Free(old(pending), k) ==> waiters[k] == old(waiters)[k]
    {
      WaitersStep(State().w, FailAllPending);
      var dropped, all := pending, waiters;
      waiters := seq(|all|, i requires 0 <= i < |all| => if Free(dropped, i) then all[i] else Cancelled);
      pending := map[];
    }

    method RegisterSinkId(id: u64) returns (ticket: nat)
      requires Inv(State())
      modifies this`chatSinks, this`queues
      ensures ticket == |old(queues)| && State() == Apply(old(State()), RegisterSink(id)) && Inv(State())
      ensures chatSinks == old(chatSinks)[id := ticket] && |queues| == ticket + 1
      ensures queues[ticket] == DQ.Queue([], 0, false, false)
      ensures forall k :: 0 <= k < ticket ==>
        queues[k] == if id in old(chatSinks) && old(chatSinks)[id] == k then old(queues)[k].(closed := true) else old(queues)[k]
    {
      SinksStep(State().s, RegisterSink(id));
      ticket := |queues|;
      if id in chatSinks {
        queues := queues[chatSinks[id] := DQ.CloseSender(queues[chatSinks[id]])];
      }
      queues := queues + [DQ.EMPTY];
      chatSinks := chatSinks[id := ticket];
    }

    method RemoveSinkId(id: u64)
      requires Inv(State())
      modifies this`chatSinks, this`queues
      ensures State() == Apply(old(State()), RemoveSink(id)) && Inv(State())
      ensures chatSinks == old(chatSinks) - {id} && |queues| == |old(queues)|
      ensures forall k :: 0 <= k < |queues| ==>
        queues[k] == if id in old(chatSinks) && old(chatSinks)[id] == k then old(queues)[k].(closed := true) else old(queues)[k]
    {
      SinksStep(State().s, RemoveSink(id));
      if id in chatSinks {
        queues := queues[chatSinks[id] := DQ.CloseSender(queues[chatSinks[id]])];
      }
      chatSinks := chatSinks - {id};
    }

    method ClearAllSinks()
      requires Inv(State())
      modifies this`chatSinks, this`queues
      ensures State() == Apply(old(State()), ClearSinks) && Inv(State())
      ensures chatSinks == map[] && |queues| == |old(queues)|
      ensures forall id :: id in old(chatSinks) ==> queues[old(chatSinks)[id]] == old(queues)[old(chatSinks)[id]].(closed := true)
      ensures forall k :: 0 <= k < |queues| && Free(old(chatSinks), k) ==> queues[k] == old(queues)[k]
    {
      SinksStep(State().s, ClearSinks);
      var dropped, all := chatSinks, queues;
      queues := seq(|all|, i requires 0 <= i < |all| =>
        if Free(dropped, i) then all[i] else DQ.CloseSender(all[i]));
      chatSinks := map[];
    }

    method Route(id: u64, delta: DQ.Delta)
      requires Inv(State())
      modifies this`queues
      ensures State() == Apply(old(State()), RouteChunk(id, delta)) && Inv(State())
      ensures |queues| == |old(queues)|
      ensures forall k :: 0 <= k < |queues| ==>
        queues[k] == if id in old(chatSinks) && old(chatSinks)[id] == k then DQ.Send(old(queues)[k], delta) else old(queues)[k]
    {
      SinksStep(State().s, RouteChunk(id, delta));
      if id in chatSinks {
        queues := queues[chatSinks[id] := DQ.Send(queues[chatSinks[id]], delta)];
      }
    }
  }

  // ---- One waiter over a whole run --------------------------------------------

  /** What one operation decides for the open waiter of `id`. */
  function Verdict(op: Op, id: u64): Waiter {
    match op
    case Correlate(resp) => if resp.id == id then Resolved(resp) else Waiting
    case RemovePending(x) => if x == id then Cancelled else Waiting
    case RegisterPending(x) => if x == id then Cancelled else Waiting
    case FailAllPending => Cancelled
    case _ => Waiting
  }

  /** What a caller sees who registered `id` and then lets `ops` happen, from the operations alone. */
  function Outcome(ops: seq<Op>, id: u64): Waiter {
    if ops == [] then Waiting
    else
      var before := Outcome(ops[..|ops| - 1], id);
      if before != Waiting then before else Verdict(ops[|ops| - 1], id)
  }

  /** Ticket `k` is the open entry of `id` exactly while it waits. */
  predicate TicketInv(w: Waiters, id: u64, k: nat) {
    && k < |w.all|
    && (w.all[k] == Waiting ==> id in w.pending && w.pending[id] == k)
    && (w.all[k] != Waiting ==> Free(w.pending, k))
  }

  lemma TicketStep(w: Waiters, op: Op, id: u64, k: nat)
    requires WaitersInv(w) && TicketInv(w, id, k)
    ensures TicketInv(ApplyToWaiters(w, op), id, k)
    ensures ApplyToWaiters(w, op).all[k] == if w.all[k] == Waiting then Verdict(op, id) else w.all[k]
  {
  }

  lemma {:induction false} TicketFollowsOutcome(d: Demux, id: u64, ops: seq<Op>)
    requires Inv(d)
    ensures var d' := Run(Apply, Apply(d, RegisterPending(id)), ops);
      Inv(d') && TicketInv(d'.w, id, |d.w.all|) && d'.w.all[|d.w.all|] == Outcome(ops, id)
  {
    var start := Apply(d, RegisterPending(id));
    ApplyKeepsInv(d, RegisterPending(id));
    if ops != [] {
      var front, op := ops[..|ops| - 1], ops[|ops| - 1];
      TicketFollowsOutcome(d, id, front);
      var before := Run(Apply, start, front);
      ApplyKeepsInv(before, op);
      TicketStep(before.w, op, id, |d.w.all|);
    }
  }

  /** The operations that end the wait of `id`. */
  predicate Ends(op: Op, id: u64) {
    (op.Correlate? && op.resp.id == id) || op == RemovePending(id) || op == RegisterPending(id) || op == FailAllPending
  }

  /** Operation `i` is the first of `ops` to end the wait of `id`. */
  predicate FirstEnd(ops: seq<Op>, id: u64, i: nat) {
    i < |ops| && Ends(ops[i], id) && forall j :: 0 <= j < i ==> !Ends(ops[j], id)
  }

  lemma {:induction false} OutcomeIsFirstEnd(ops: seq<Op>, id: u64)
    ensures Outcome(ops, id) == Waiting <==> forall j :: 0 <= j < |ops| ==> !Ends(ops[j], id)
    ensures forall i: nat :: FirstEnd(ops, id, i) ==>
      Outcome(ops, id) == if ops[i].Correlate? then Resolved(ops[i].resp) else Cancelled
  {
    if ops != [] {
      var front := ops[..|ops| - 1];
      OutcomeIsFirstEnd(front, id);
      forall i: nat | FirstEnd(ops, id, i)
        ensures Outcome(ops, id) == if ops[i].Correlate? then Resolved(ops[i].resp) else Cancelled
      {
        if i < |front| {
          assert front[i] == ops[i] && FirstEnd(front, id, i);
        } else {
          assert forall j :: 0 <= j < |front| ==> !Ends(front[j], id);
        }
      }
      assert forall j :: 0 <= j < |front| ==> front[j] == ops[j];
    }
  }

  /**
   Correlation is exact: whatever else happens to the table, a waiter ends as the operations on
   its own id say: it waits until the first that ends it, and that one resolves it with its own
   response or cancels it, once and for all.
   */
  lemma WaiterResolvesOnce(d: Demux, id: u64, ops: seq<Op>, more: seq<Op>)
    requires Inv(d)
    ensures var k := |d.w.all|;
      var w := Run(Apply, Apply(d, RegisterPending(id)), ops).w.all;
      var w' := Run(Apply, Apply(d, RegisterPending(id)), ops + more).w.all;
      && k < |w| && k < |w'| && w[k] == Outcome(ops, id)
      && (w[k] != Waiting ==> w'[k] == w[k])
      && (w[k] == Waiting <==> forall j :: 0 <= j < |ops| ==> !Ends(ops[j], id))
      && (forall i: nat :: FirstEnd(ops, id, i) ==>
           w[k] == if ops[i].Correlate? then Resolved(ops[i].resp) else Cancelled)
  {
    TicketFollowsOutcome(d, id, ops);
    TicketFollowsOutcome(d, id, ops + more);
    OutcomeIsFinal(ops, more, id);
    OutcomeIsFirstEnd(ops, id);
  }

  lemma {:induction false} OutcomeIsFinal(ops: seq<Op>, more: seq<Op>, id: u64)
    ensures Outcome(ops, id) != Waiting ==> Outcome(ops + more, id) == Outcome(ops, id)
  {
    if more == [] {
      assert ops + more == ops;
    } else {
      OutcomeIsFinal(ops, more[..|more| - 1], id);
      assert (ops + more)[..|ops + more| - 1] == ops + more[..|more| - 1];
    }
  }

  // ---- One sink over a whole run ----------------------------------------------

  predicate Closes(op: Op, id: u64) {
    op == RemoveSink(id) || op == RegisterSink(id) || op.ClearSinks?
  }

  predicate ClosedBy(ops: seq<Op>, id: u64) {
    exists i :: 0 <= i < |ops| && Closes(ops[i], id)
  }

  /** The chunks tagged with `id` that come before its sink is removed. */
  function Routed(ops: seq<Op>, id: u64): seq<DQ.Delta> {
    if ops == [] then []
    else
      var front, op := ops[..|ops| - 1], ops[|ops| - 1];
      if op.RouteChunk? && op.id == id && !ClosedBy(front, id) then Routed(front, id) + [op.delta]
      else Routed(front, id)
  }

  /** What the consumer of sink `k` took during the run. */
  function Taken(d: Demux, ops: seq<Op>, k: nat): seq<DQ.Delta> {
    if ops == [] then []
    else
      var front := ops[..|ops| - 1];
      Taken(d, front, k) + Pulled(Run(Apply, d, front).s, ops[|ops| - 1], k)
  }

  /** What one operation hands to the consumer of sink `k`. */
  function Pulled(s: Sinks, op: Op, k: nat): seq<DQ.Delta> {
    if op == TakeDelta(k) && k < |s.queues| && s.queues[k].entries != [] then [s.queues[k].entries[0]] else []
  }

  lemma ClosedBySnoc(ops: seq<Op>, op: Op, id: u64)
    ensures ClosedBy(ops + [op], id) <==> ClosedBy(ops, id) || Closes(op, id)
  {
    if ClosedBy(ops, id) {
      var i :| 0 <= i < |ops| && Closes(ops[i], id);
      assert Closes((ops + [op])[i], id);
    }
    if Closes(op, id) {
      assert Closes((ops + [op])[|ops|], id);
    }
  }

  /** Ticket `k` is the sink of `id` until something closes it, and afterwards nobody's. */
  predicate SinkInv(s: Sinks, closed: bool, id: u64, k: nat) {
    && k < |s.queues|
    && DQ.Accounted(s.queues[k])
    && (if closed then Free(s.open, k) else id in s.open && s.open[id] == k)
    && (closed ==> s.queues[k].closed)
  }

  /** What one operation does to the queue of ticket `k`, the sink of `id`. */
  function QueueStep(q: DQ.Queue, op: Op, closed: bool, id: u64, k: nat): DQ.Queue {
    match op
    case RouteChunk(x, delta) => if x == id && !closed then DQ.Send(q, delta) else q
    case TakeDelta(j) => if j == k then DQ.Pop(q).1 else q
    case DropSinkReceiver(j) => if j == k then DQ.DropReceiver(q) else q
    case _ => if Closes(op, id) && !closed then DQ.CloseSender(q) else q
  }

  lemma QueueStepIsApply(s: Sinks, op: Op, closed: bool, id: u64, k: nat)
    requires SinksInv(s) && SinkInv(s, closed, id, k)
    ensures ApplyToSinks(s, op).queues[k] == QueueStep(s.queues[k], op, closed, id, k)
  {
  }

  lemma SinkStep(s: Sinks, op: Op, closed: bool, id: u64, k: nat)
    requires SinksInv(s) && SinkInv(s, closed, id, k)
    ensures SinkInv(ApplyToSinks(s, op), closed || Closes(op, id), id, k)
  {
    QueueStepIsApply(s, op, closed, id, k);
    QueueStepKeepsAccounts(s.queues[k], op, closed, id, k);
  }

  lemma QueueStepKeepsAccounts(q: DQ.Queue, op: Op, closed: bool, id: u64, k: nat)
    requires DQ.Accounted(q)
    ensures DQ.Accounted(QueueStep(q, op, closed, id, k))
    ensures q.closed || (!closed && Closes(op, id)) ==> QueueStep(q, op, closed, id, k).closed
  {
    match op {
      case RouteChunk(_, delta) => DQ.SendKeepsAccounts(q, delta);
      case TakeDelta(_) => DQ.PopKeepsAccounts(q);
      case _ =>
    }
  }

  /** The reading of a sink: what its consumer took and what still waits for it. */
  predicate Reads(q: DQ.Queue, taken: seq<DQ.Delta>, routed: seq<DQ.Delta>) {
    !q.overflowed ==> DQ.Coalesce(taken + q.entries) == DQ.Coalesce(routed)
  }

  lemma ReadsAfterSend(q: DQ.Queue, taken: seq<DQ.Delta>, routed: seq<DQ.Delta>, delta: DQ.Delta)
    requires Reads(q, taken, routed) && !q.closed
    ensures Reads(DQ.Send(q, delta), taken, routed + [delta])
  {
    DQ.AppendIsTransparent(taken, q.entries, delta);
    DQ.CoalesceSnoc(routed, delta);
  }

  lemma ReadsAfterPop(q: DQ.Queue, taken: seq<DQ.Delta>, routed: seq<DQ.Delta>)
    requires Reads(q, taken, routed) && q.entries != []
    ensures Reads(DQ.Pop(q).1, taken + [q.entries[0]], routed)
  {
    assert (taken + [q.entries[0]]) + q.entries[1..] == taken + q.entries;
  }

  lemma ReadsStep(q: DQ.Queue, op: Op, closed: bool, id: u64, k: nat, taken: seq<DQ.Delta>, routed: seq<DQ.Delta>)
    requires Reads(q, taken, routed) && op != DropSinkReceiver(k) && (q.closed <==> closed)
    ensures var pulled := if op == TakeDelta(k) && q.entries != [] then [q.entries[0]] else [];
      var fed := if op.RouteChunk? && op.id == id && !closed then [op.delta] else [];
      Reads(QueueStep(q, op, closed, id, k), taken + pulled, routed + fed)
  {
    if op == TakeDelta(k) && q.entries != [] {
      assert routed + [] == routed;
      ReadsAfterPop(q, taken, routed);
    } else if op.RouteChunk? && op.id == id && !closed {
      assert taken + [] == taken;
      ReadsAfterSend(q, taken, routed, op.delta);
    } else {
      assert taken + [] == taken && routed + [] == routed;
      assert QueueStep(q, op, closed, id, k).entries == q.entries;
    }
  }

  lemma {:induction false} SinkFollows(d: Demux, id: u64, ops: seq<Op>)
    requires Inv(d)
    ensures var start := Apply(d, RegisterSink(id));
      var k := |d.s.queues|;
      var d' := Run(Apply, start, ops);
      && Inv(d') && SinkInv(d'.s, ClosedBy(ops, id), id, k)
      && (DropSinkReceiver(k) !in ops ==>
        && (d'.s.queues[k].closed <==> ClosedBy(ops, id))
        && Reads(d'.s.queues[k], Taken(start, ops, k), Routed(ops, id)))
  {
    var start := Apply(d, RegisterSink(id));
    var k := |d.s.queues|;
    ApplyKeepsInv(d, RegisterSink(id));
    if ops == [] {
      assert Taken(start, ops, k) + start.s.queues[k].entries == Routed(ops, id);
    } else {
      var front, op := ops[..|ops| - 1], ops[|ops| - 1];
      assert ops == front + [op];
      SinkFollows(d, id, front);
      var before := Run(Apply, start, front);
      ClosedBySnoc(front, op, id);
      SinkStep(before.s, op, ClosedBy(front, id), id, k);
      QueueStepIsApply(before.s, op, ClosedBy(front, id), id, k);
      ApplyKeepsInv(before, op);
      if DropSinkReceiver(k) !in ops {
        assert DropSinkReceiver(k) !in front && op != DropSinkReceiver(k);
        ReadsStep(before.s.queues[k], op, ClosedBy(front, id), id, k, Taken(start, front, k), Routed(front, id));
        assert Routed(front, id) + [] == Routed(front, id);
      }
    }
  }

  /**
   Streaming is exact: whatever other requests do, the sink of `id` yields the chunks tagged with
   `id` between its registration and its removal, all of them, in order, up to coalescing,
   and its stream ends when and only when it is removed.
   */
  lemma SinkYieldsOwnChunks(d: Demux, id: u64, ops: seq<Op>)
    requires Inv(d)
    ensures var start := Apply(d, RegisterSink(id));
      var k := |d.s.queues|;
      var d' := Run(Apply, start, ops);
      && k < |d'.s.queues|
      && (DropSinkReceiver(k) !in ops ==>
        && (d'.s.queues[k].closed <==> ClosedBy(ops, id))
        && (!d'.s.queues[k].overflowed ==>
            && DQ.Coalesce(Taken(start, ops, k) + d'.s.queues[k].entries) == DQ.Coalesce(Routed(ops, id))
            && DQ.Pieces(Taken(start, ops, k) + d'.s.queues[k].entries) == DQ.Pieces(Routed(ops, id))))
  {
    SinkFollows(d, id, ops);
    DQ.CoalesceKeepsPieces(Routed(ops, id));
    var start := Apply(d, RegisterSink(id));
    DQ.CoalesceKeepsPieces(Taken(start, ops, |d.s.queues|) + Run(Apply, start, ops).s.queues[|d.s.queues|].entries);
  }
}

/** What a line from the worker does to the demux. */
module WorkerLines {
  import opened Wrappers
  import opened RpcFrames
  import opened Runs
  import opened ReplyDemux
  import opened ChatChunks
  import DQ = DeltaQueue

  /** One decoded line: a response resolves a waiter, a chat chunk feeds a sink, the rest is dropped. */
  function Dispatch(v: Json): Option<Op> {
    match Decode(v)
    case Ok(Response(_, id, result, error)) => Some(Correlate(Reply(id, result, error)))
    case Ok(Notification(_, name, params)) =>
      (match RouteOf(name, params)
       case Some(route) => Some(RouteChunk(route.0, route.1))
       case None => None)
    case _ => None
  }

  function ChunkLine(id: u64, d: DQ.Delta): Json {
    Encode(Notification("2.0", N_CHAT_CHUNK, EncodeChunkParams(Int(id), d)))
  }

  /** The two kinds of line a worker sends do exactly their own thing; a request does nothing. */
  lemma DispatchIsFaithful(id: u64, d: DQ.Delta, result: Option<Json>, error: Option<RpcError>, name: string, params: Json)
    ensures Dispatch(ChunkLine(id, d)) == Some(RouteChunk(id, d))
    ensures var f := Response("2.0", id, result, error);
      !HasPresentNull(f) ==> Dispatch(Encode(f)) == Some(Correlate(Reply(id, result, error)))
    ensures Dispatch(Encode(Request("2.0", id, name, params))) == None
  {
    RoundTrip(Notification("2.0", N_CHAT_CHUNK, EncodeChunkParams(Int(id), d)));
    ChunkRoundTrip(id, d);
    RoundTrip(Response("2.0", id, result, error));
    RoundTrip(Request("2.0", id, name, params));
  }

  function ApplyLine(d: Demux, v: Json): Demux {
    match Dispatch(v)
    case Some(op) => Apply(d, op)
    case None => d
  }

  function OpsOf(lines: seq<Json>): seq<Op> {
    if lines == [] then []
    else OpsOf(lines[..|lines| - 1]) + (match Dispatch(lines[|lines| - 1]) case Some(op) => [op] case None => [])
  }

  function RunLines(d: Demux, lines: seq<Json>): Demux {
    if lines == [] then d else ApplyLine(RunLines(d, lines[..|lines| - 1]), lines[|lines| - 1])
  }

  lemma {:induction false} LinesAreOps(d: Demux, lines: seq<Json>)
    ensures RunLines(d, lines) == Run(Apply, d, OpsOf(lines))
  {
    if lines != [] {
      var front := lines[..|lines| - 1];
      LinesAreOps(d, front);
      match Dispatch(lines[|lines| - 1]) {
        case Some(op) => assert (OpsOf(front) + [op])[..|OpsOf(front)|] == OpsOf(front);
        case None => assert OpsOf(lines) == OpsOf(front);
      }
    }
  }

  /** A chat worth of chunk lines. */
  function ChunkLines(id: u64, ds: seq<DQ.Delta>): seq<Json> {
    if ds == [] then [] else ChunkLines(id, ds[..|ds| - 1]) + [ChunkLine(id, ds[|ds| - 1])]
  }

  function ChunkOps(id: u64, ds: seq<DQ.Delta>): seq<Op> {
    if ds == [] then [] else ChunkOps(id, ds[..|ds| - 1]) + [RouteChunk(id, ds[|ds| - 1])]
  }

  lemma ChunkLineIsChunkOp(id: u64, d: DQ.Delta)
    ensures Dispatch(ChunkLine(id, d)) == Some(RouteChunk(id, d))
  {
    DispatchIsFaithful(id, d, None, None, "", Null);
  }

  lemma {:induction false} ChunkLinesAreChunkOps(id: u64, ds: seq<DQ.Delta>)
    ensures OpsOf(ChunkLines(id, ds)) == ChunkOps(id, ds)
  {
    if ds != [] {
      var front, last := ds[..|ds| - 1], ds[|ds| - 1];
      ChunkLinesAreChunkOps(id, front);
      ChunkLineIsChunkOp(id, last);
      var lines := ChunkLines(id, front);
      assert (lines + [ChunkLine(id, last)])[..|lines|] == lines;
    }
  }

  lemma {:induction false} SinkHolds(d: Demux, id: u64, ds: seq<DQ.Delta>)
    requires Inv(d)
    ensures var d' := Run(Apply, Apply(d, RegisterSink(id)), ChunkOps(id, ds));
      var k := |d.s.queues|;
      Inv(d') && SinkInv(d'.s, false, id, k) && d'.s.queues[k] == DQ.SendAll(ds)
  {
    ApplyKeepsInv(d, RegisterSink(id));
    if ds != [] {
      var front, op := ds[..|ds| - 1], RouteChunk(id, ds[|ds| - 1]);
      var before := Run(Apply, Apply(d, RegisterSink(id)), ChunkOps(id, front));
      SinkHolds(d, id, front);
      ApplyKeepsInv(before, op);
      SinkStep(before.s, op, false, id, |d.s.queues|);
      QueueStepIsApply(before.s, op, false, id, |d.s.queues|);
      assert (ChunkOps(id, front) + [op])[..|ChunkOps(id, front)|] == ChunkOps(id, front);
    }
  }

  /**
   From the worker to the consumer: the deltas a worker encodes for a request wait in that
   request's sink, coalesced and complete, or have overflowed it when their texts exceed the cap.
   */
  lemma EncodedStreamReachesSink(d: Demux, id: u64, ds: seq<DQ.Delta>)
    requires Inv(d)
    ensures var d' := RunLines(Apply(d, RegisterSink(id)), ChunkLines(id, ds));
      var k := |d.s.queues|;
      && k < |d'.s.queues|
      && (d'.s.queues[k].overflowed <==> DQ.TextBytes(ds) > DQ.CAP_BYTES)
      && (DQ.TextBytes(ds) <= DQ.CAP_BYTES ==>
           && d'.s.queues[k].entries == DQ.Coalesce(ds)
           && DQ.Pieces(d'.s.queues[k].entries) == DQ.Pieces(ds) && DQ.KindsChange(d'.s.queues[k].entries))
  {
    DQ.CoalesceKeepsPieces(ds);
    LinesAreOps(Apply(d, RegisterSink(id)), ChunkLines(id, ds));
    ChunkLinesAreChunkOps(id, ds);
    SinkHolds(d, id, ds);
    DQ.SendAllExactly(ds);
  }
}
