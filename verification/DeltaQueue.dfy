/**
 The bounded, merging queue between the producer of chat deltas and the one
 consumer that streams them out.

 The first part is the queue as a value. `DeltaChannel` is the shared object of
 the source, proved against it. The last part is the concurrent protocol: one
 sender and one receiver that interleave at every lock acquisition and at every
 wait on the notifier.
 */
module DeltaQueue {
  import opened Wrappers
  import opened Utf8
  import opened Runs

  const CAP_BYTES: nat := 8 * 1024 * 1024

  datatype Kind = Content | Reasoning | ToolCall

  datatype Delta = Delta(kind: Kind, text: string)

  datatype Queue = Queue(entries: seq<Delta>, buffered: nat, overflowed: bool, closed: bool)

  const EMPTY: Queue := Queue([], 0, false, false)

  /** Two neighbours that the queue keeps as one entry. */
  predicate Mergeable(a: Delta, b: Delta) {
    a.kind == b.kind && b.kind != ToolCall
  }

  /** Appends one delta to a list of runs, extending the last run when it can. */
  function Append(runs: seq<Delta>, d: Delta): seq<Delta> {
    if runs != [] && Mergeable(runs[|runs| - 1], d)
    then runs[..|runs| - 1] + [Delta(d.kind, runs[|runs| - 1].text + d.text)]
    else runs + [d]
  }

  /** The maximal runs of a stream of deltas: what a reader of the whole stream sees. */
  function Coalesce(ds: seq<Delta>): seq<Delta> {
    if ds == [] then [] else Append(Coalesce(ds[..|ds| - 1]), ds[|ds| - 1])
  }

  function TextBytes(ds: seq<Delta>): nat {
    if ds == [] then 0 else TextBytes(ds[..|ds| - 1]) + ByteLen(ds[|ds| - 1].text)
  }

  predicate Accepts(q: Queue, d: Delta) {
    !q.closed && !q.overflowed && q.buffered + ByteLen(d.text) <= CAP_BYTES
  }

  function Send(q: Queue, d: Delta): Queue {
    if q.closed || q.overflowed then q
    else if q.buffered + ByteLen(d.text) > CAP_BYTES then q.(entries := [], overflowed := true)
    else q.(entries := Append(q.entries, d), buffered := q.buffered + ByteLen(d.text))
  }

  function SaturatingSub(a: nat, b: nat): nat {
    if a < b then 0 else a - b
  }

  function Pop(q: Queue): (Option<Delta>, Queue) {
    if q.entries == [] then (None, q)
    else
      var d := q.entries[0];
      (Some(d), q.(entries := q.entries[1..], buffered := SaturatingSub(q.buffered, ByteLen(d.text))))
  }

  function CloseSender(q: Queue): Queue {
    q.(closed := true)
  }

  function DropReceiver(q: Queue): Queue {
    q.(closed := true, entries := [], buffered := 0)
  }

  /** Nothing to deliver and no end to report: a receiver has to wait. */
  predicate Quiet(q: Queue) {
    q.entries == [] && !q.closed && !q.overflowed
  }

  // ---- Coalescing -------------------------------------------------------------

  lemma {:induction false} CoalesceSnoc(ds: seq<Delta>, d: Delta)
    ensures Coalesce(ds + [d]) == Append(Coalesce(ds), d)
  {
    assert (ds + [d])[..|ds|] == ds;
  }

  /** Appending two mergeable deltas one after the other or as one text is the same. */
  lemma AppendMerged(runs: seq<Delta>, a: Delta, b: Delta)
    requires Mergeable(a, b)
    ensures Append(Append(runs, a), b) == Append(runs, Delta(b.kind, a.text + b.text))
  {
    if runs != [] && Mergeable(runs[|runs| - 1], a) {
      var t := runs[|runs| - 1].text;
      assert t + a.text + b.text == t + (a.text + b.text);
    }
  }

  /** Merging inside the queue is invisible to a reader of the whole stream. */
  lemma {:induction false} AppendIsTransparent(delivered: seq<Delta>, runs: seq<Delta>, d: Delta)
    ensures Coalesce(delivered + Append(runs, d)) == Append(Coalesce(delivered + runs), d)
  {
    if runs != [] && Mergeable(runs[|runs| - 1], d) {
      var last := runs[|runs| - 1];
      var before := delivered + runs[..|runs| - 1];
      assert delivered + runs == before + [last];
      assert delivered + Append(runs, d) == before + [Delta(d.kind, last.text + d.text)];
      CoalesceSnoc(before, last);
      CoalesceSnoc(before, Delta(d.kind, last.text + d.text));
      AppendMerged(Coalesce(before), last, d);
    } else {
      assert delivered + Append(runs, d) == (delivered + runs) + [d];
      CoalesceSnoc(delivered + runs, d);
    }
  }

  /** Runs between which nothing more can be merged. */
  predicate Canonical(runs: seq<Delta>) {
    forall i :: 0 < i < |runs| ==> !Mergeable(runs[i - 1], runs[i])
  }

  /** Coalescing has a fixed point: merged runs are exactly the canonical streams. */
  lemma {:induction false} CoalesceIsCanonical(ds: seq<Delta>)
    ensures Canonical(Coalesce(ds))
    ensures Coalesce(ds) == ds <==> Canonical(ds)
  {
    if ds != [] {
      var front, last := ds[..|ds| - 1], ds[|ds| - 1];
      CoalesceIsCanonical(front);
      assert ds == front + [last];
      if Canonical(ds) {
        assert Canonical(front) by {
          forall i | 0 < i < |front| ensures !Mergeable(front[i - 1], front[i]) {
            assert ds[i] == front[i] && ds[i - 1] == front[i - 1];
          }
        }
      }
    }
  }

  /** The fragments of tool calls, in order: each is a JSON text that must stay whole. */
  function ToolFragments(ds: seq<Delta>): seq<string> {
    if ds == [] then []
    else ToolFragments(ds[..|ds| - 1]) + (if ds[|ds| - 1].kind == ToolCall then [ds[|ds| - 1].text] else [])
  }

  lemma {:induction false} AppendKeepsTools(runs: seq<Delta>, d: Delta)
    ensures ToolFragments(Append(runs, d)) == ToolFragments(runs) + (if d.kind == ToolCall then [d.text] else [])
  {
    if runs != [] && Mergeable(runs[|runs| - 1], d) {
      assert Append(runs, d)[..|runs| - 1] == runs[..|runs| - 1];
    } else {
      assert (runs + [d])[..|runs|] == runs;
    }
  }

  /** Tool fragments keep their number, order and boundaries. */
  lemma {:induction false} CoalesceKeepsToolFragments(ds: seq<Delta>)
    ensures ToolFragments(Coalesce(ds)) == ToolFragments(ds)
  {
    if ds != [] {
      CoalesceKeepsToolFragments(ds[..|ds| - 1]);
      AppendKeepsTools(Coalesce(ds[..|ds| - 1]), ds[|ds| - 1]);
    }
  }

  /** What a client gets to see: every character of text with its kind, and every tool fragment whole. */
  datatype Piece = Char(kind: Kind, c: char) | Fragment(text: string)

  function PiecesOf(d: Delta): seq<Piece> {
    if d.kind == ToolCall then [Fragment(d.text)]
    else seq(|d.text|, i requires 0 <= i < |d.text| => Char(d.kind, d.text[i]))
  }

  function Pieces(ds: seq<Delta>): seq<Piece> {
    if ds == [] then [] else Pieces(ds[..|ds| - 1]) + PiecesOf(ds[|ds| - 1])
  }

  lemma PiecesSnoc(ds: seq<Delta>, d: Delta)
    ensures Pieces(ds + [d]) == Pieces(ds) + PiecesOf(d)
  {
    assert (ds + [d])[..|ds|] == ds;
  }

  lemma MergedPieces(a: Delta, b: Delta)
    requires Mergeable(a, b)
    ensures PiecesOf(Delta(b.kind, a.text + b.text)) == PiecesOf(a) + PiecesOf(b)
  {
  }

  lemma AppendKeepsPieces(runs: seq<Delta>, d: Delta)
    ensures Pieces(Append(runs, d)) == Pieces(runs) + PiecesOf(d)
  {
    if runs != [] && Mergeable(runs[|runs| - 1], d) {
      var front, last := runs[..|runs| - 1], runs[|runs| - 1];
      var merged := Delta(d.kind, last.text + d.text);
      assert runs == front + [last] && Append(runs, d) == front + [merged];
      hide Pieces, PiecesOf;
      PiecesSnoc(front, last);
      PiecesSnoc(front, merged);
      MergedPieces(last, d);
    } else {
      PiecesSnoc(runs, d);
    }
  }

  /** No two neighbours are of one kind, but for tool fragments. */
  predicate KindsChange(runs: seq<Delta>) {
    forall i :: 0 < i < |runs| ==> runs[i - 1].kind != runs[i].kind || runs[i].kind == ToolCall
  }

  /**
   Coalescing changes no character, no kind, no order and no tool fragment, and merges all that can be merged
   without that.
   */
  lemma {:induction false} CoalesceKeepsPieces(ds: seq<Delta>)
    ensures Pieces(Coalesce(ds)) == Pieces(ds)
    ensures KindsChange(Coalesce(ds))
  {
    CoalesceIsCanonical(ds);
    if ds != [] {
      CoalesceKeepsPieces(ds[..|ds| - 1]);
      AppendKeepsPieces(Coalesce(ds[..|ds| - 1]), ds[|ds| - 1]);
    }
  }

  /** Where a stream changes kind, or carries a tool fragment: the places where a run starts. */
  function RunStarts(ds: seq<Delta>): nat {
    if ds == [] then 0
    else if |ds| == 1 then 1
    else RunStarts(ds[..|ds| - 1]) + (if Mergeable(ds[|ds| - 2], ds[|ds| - 1]) then 0 else 1)
  }

  /** The number of entries follows the kind changes of a stream, not its number of deltas. */
  lemma {:induction false} EntriesAreRunStarts(ds: seq<Delta>)
    ensures |Coalesce(ds)| == RunStarts(ds)
    ensures ds != [] ==> Coalesce(ds) != [] && Coalesce(ds)[|Coalesce(ds)| - 1].kind == ds[|ds| - 1].kind
  {
    if ds != [] {
      EntriesAreRunStarts(ds[..|ds| - 1]);
    }
  }

  // ---- Byte accounting --------------------------------------------------------

  lemma {:induction false} TextBytesSnoc(ds: seq<Delta>, d: Delta)
    ensures TextBytes(ds + [d]) == TextBytes(ds) + ByteLen(d.text)
  {
    assert (ds + [d])[..|ds|] == ds;
  }

  lemma {:induction false} TextBytesCons(d: Delta, ds: seq<Delta>)
    ensures TextBytes([d] + ds) == ByteLen(d.text) + TextBytes(ds)
  {
    if ds == [] {
      assert [d] + ds == [] + [d];
      TextBytesSnoc([], d);
    } else {
      var front, last := ds[..|ds| - 1], ds[|ds| - 1];
      assert [d] + ds == ([d] + front) + [last];
      TextBytesSnoc([d] + front, last);
      TextBytesCons(d, front);
    }
  }

  lemma AppendBytes(runs: seq<Delta>, d: Delta)
    ensures TextBytes(Append(runs, d)) == TextBytes(runs) + ByteLen(d.text)
  {
    if runs != [] && Mergeable(runs[|runs| - 1], d) {
      var front, last := runs[..|runs| - 1], runs[|runs| - 1];
      ByteLenConcat(last.text, d.text);
      assert Append(runs, d) == front + [Delta(d.kind, last.text + d.text)];
      TextBytesSnoc(front, Delta(d.kind, last.text + d.text));
    } else {
      TextBytesSnoc(runs, d);
    }
  }

  /** What the counters of a queue say about its entries, at every lock release. */
  predicate Accounted(q: Queue) {
    && q.buffered <= CAP_BYTES
    && (!q.overflowed ==> q.buffered == TextBytes(q.entries))
    && (q.overflowed ==> q.entries == [])
    && Canonical(q.entries)
  }

  lemma SendKeepsAccounts(q: Queue, d: Delta)
    requires Accounted(q)
    ensures Accounted(Send(q, d))
  {
    AppendBytes(q.entries, d);
  }

  /** An undisturbed queue after the sends of `ds`. */
  function SendAll(ds: seq<Delta>): Queue {
    if ds == [] then EMPTY else Send(SendAll(ds[..|ds| - 1]), ds[|ds| - 1])
  }

  /** The cap bites exactly when the texts together exceed it; below it everything is held. */
  lemma {:induction false} SendAllExactly(ds: seq<Delta>)
    ensures TextBytes(ds) <= CAP_BYTES ==> SendAll(ds) == Queue(Coalesce(ds), TextBytes(ds), false, false)
    ensures TextBytes(ds) > CAP_BYTES ==> SendAll(ds).overflowed && SendAll(ds).entries == []
  {
    if ds != [] {
      SendAllExactly(ds[..|ds| - 1]);
    }
  }

  lemma PopKeepsAccounts(q: Queue)
    requires Accounted(q)
    ensures Accounted(Pop(q).1)
    ensures q.entries != [] ==> Pop(q).1.buffered + ByteLen(q.entries[0].text) == q.buffered
  {
    if q.entries != [] {
      assert q.entries == [q.entries[0]] + q.entries[1..];
      TextBytesCons(q.entries[0], q.entries[1..]);
    }
  }

  // ---- The shared object ------------------------------------------------------

  datatype ProducerOp = Push(delta: Delta) | Close

  /** What the queue is after the producer ran `ops`. */
  function Produce(q: Queue, ops: seq<ProducerOp>): Queue {
    if ops == [] then q
    else
      var before := Produce(q, ops[..|ops| - 1]);
      match ops[|ops| - 1]
      case Push(d) => Send(before, d)
      case Close => CloseSender(before)
  }

  datatype Polled = Ready(item: Option<Delta>) | Pending

  class DeltaChannel {
    var entries: seq<Delta>
    var bufferedBytes: nat
    var overflowed: bool
    var closed: bool
    var permit: bool  // the wake-up that the notifier stores while nobody waits

    function State(): Queue
      reads this
    {
      Queue(entries, bufferedBytes, overflowed, closed)
    }

    constructor ()
      ensures State() == EMPTY && !permit
    {
      entries, bufferedBytes, overflowed, closed, permit := [], 0, false, false, false;
    }

    method SendDelta(d: Delta)
      modifies this
      ensures State() == Send(old(State()), d)
      ensures permit == (old(permit) || !(old(closed) || old(overflowed)))
      ensures old(closed) || old(overflowed) ==> State() == old(State())
      ensures !(old(closed) || old(overflowed)) ==>
        if old(bufferedBytes) + ByteLen(d.text) > CAP_BYTES then
          overflowed && entries == [] && !closed
        else
          && !overflowed && !closed && bufferedBytes == old(bufferedBytes) + ByteLen(d.text)
          && Pieces(entries) == Pieces(old(entries)) + PiecesOf(d)
          && (KindsChange(old(entries)) ==> KindsChange(entries))
    {
      hide Pieces, PiecesOf, ByteLen;
      AppendKeepsPieces(entries, d);
      if closed || overflowed {
        return;
      }
      if bufferedBytes + ByteLen(d.text) > CAP_BYTES {
        entries := [];
        overflowed := true;
        permit := true;
        return;
      }
      bufferedBytes := bufferedBytes + ByteLen(d.text);
      if entries != [] && entries[|entries| - 1].kind == d.kind && d.kind != ToolCall {
        var back := entries[|entries| - 1];
        entries := entries[|entries| - 1 := back.(text := back.text + d.text)];
      } else {
        entries := entries + [d];
      }
      permit := true;
    }

    method DropSender()
      modifies this
      ensures State() == CloseSender(old(State())) && permit
      ensures closed && entries == old(entries) && overflowed == old(overflowed) && bufferedBytes == old(bufferedBytes)
    {
      closed := true;
      permit := true;
    }

    method DropReceiverHalf()
      modifies this
      ensures State() == DropReceiver(old(State())) && permit == old(permit)
      ensures closed && entries == [] && bufferedBytes == 0 && overflowed == old(overflowed)
    {
      closed := true;
      entries := [];
      bufferedBytes := 0;
    }

    method TryRecv() returns (item: Option<Delta>)
      modifies this`entries, this`bufferedBytes
      ensures (item, State()) == Pop(old(State()))
      ensures old(entries) == [] ==> item == None && entries == [] && bufferedBytes == old(bufferedBytes)
      ensures old(entries) != [] ==> item == Some(old(entries)[0]) && entries == old(entries)[1..]
    {
      if entries == [] {
        return None;
      }
      var d := entries[0];
      entries := entries[1..];
      bufferedBytes := if bufferedBytes < ByteLen(d.text) then 0 else bufferedBytes - ByteLen(d.text);
      item := Some(d);
    }

    /**
     One call to `recv` while the producer runs `ops`, one operation at a time and only while
     the call is parked. `used` is how many of them ran before the call ended or, for
     `Pending`, were all there was. No fewer would have done: before each of them there was nothing
     to wake up for. A call that is still parked has missed nothing.
     */
    method Recv(ops: seq<ProducerOp>) returns (r: Polled, used: nat)
      modifies this
      ensures used <= |ops|
      ensures forall k :: 0 <= k < used ==> Quiet(Produce(old(State()), ops[..k]))
      ensures r.Ready? ==>
        var q := Produce(old(State()), ops[..used]);
        && (r.item, State()) == Pop(q)
        && (r.item == None ==> q.entries == [] && (q.closed || q.overflowed))
      ensures r.Pending? ==>
        used == |ops| && State() == Produce(old(State()), ops) && Quiet(State())
    {
      hide Pieces, PiecesOf, KindsChange, Send, ByteLen;
      used := 0;
      assert ops[..0] == [];
      while true
        invariant used <= |ops|
        invariant State() == Produce(old(State()), ops[..used])
        invariant forall k :: 0 <= k < used ==> Quiet(Produce(old(State()), ops[..k]))
        decreases |ops| - used, permit
      {
        // One critical section: the pop and the end-of-stream check.
        var item := TryRecv();
        if item.Some? {
          return Ready(item), used;
        }
        if closed || overflowed {
          return Ready(None), used;
        }
        // Wait on the notifier.
        if !permit {
          if used == |ops| {
            assert ops[..used] == ops;
            return Pending, used;
          }
          assert ops[..used + 1][..used] == ops[..used];
          match ops[used] {
            case Push(d) => SendDelta(d);
            case Close => DropSender();
          }
          used := used + 1;
        }
        permit := false;
      }
    }
  }

  // ---- The concurrent protocol ------------------------------------------------

  /** The sender: outside an operation, or between its unlock and its `notify_one`. */
  datatype TxPc = TxIdle | TxNotifying | TxGone

  /**
   The receiver: outside `recv`; about to take the lock; between its unlock and the wait;
   waiting; notified but not polled yet; dropped.
   */
  datatype RxPc = RxIdle | RxCheck | RxBetween | RxParked | RxWoken | RxGone

  /** `sent` and `delivered` record the run; `ended` says a `recv` has returned `None`. */
  datatype Channel = Channel(
    q: Queue, permit: bool, tx: TxPc, txOpen: bool, rx: RxPc,
    sent: seq<Delta>, delivered: seq<Delta>, ended: bool)

  const INIT: Channel := Channel(EMPTY, false, TxIdle, true, RxIdle, [], [], false)

  datatype Step =
    | TxSend(delta: Delta)  // `send` up to its unlock
    | TxDrop                // the drop of the sender up to its unlock
    | TxNotify              // the `notify_one` that follows either
    | RxCall                // a call to `recv`
    | RxLock                // the critical section of `recv`
    | RxWait                // the first poll of the wait
    | RxResume              // the poll after a wake-up
    | RxCancel              // the future of `recv` is dropped at its wait
    | RxTryRecv
    | RxDrop

  /** One atomic step. A step that is not enabled changes nothing. */
  function Next(c: Channel, step: Step): Channel {
    match step
    case TxSend(d) =>
      if c.tx != TxIdle || !c.txOpen then c
      else if c.q.closed || c.q.overflowed then c
      else c.(q := Send(c.q, d), tx := TxNotifying, sent := if Accepts(c.q, d) then c.sent + [d] else c.sent)
    case TxDrop =>
      if c.tx != TxIdle || !c.txOpen then c
      else c.(q := CloseSender(c.q), tx := TxNotifying, txOpen := false)
    case TxNotify =>
      if c.tx != TxNotifying then c
      else
        var c' := c.(tx := if c.txOpen then TxIdle else TxGone);
        if c.rx == RxParked then c'.(rx := RxWoken) else c'.(permit := true)
    case RxCall =>
      if c.rx == RxIdle then c.(rx := RxCheck) else c
    case RxLock =>
      if c.rx != RxCheck then c
      else if c.q.entries != [] then
        c.(q := Pop(c.q).1, rx := RxIdle, delivered := c.delivered + [c.q.entries[0]])
      else if c.q.closed || c.q.overflowed then c.(rx := RxIdle, ended := true)
      else c.(rx := RxBetween)
    case RxWait =>
      if c.rx != RxBetween then c
      else if c.permit then c.(permit := false, rx := RxCheck)
      else c.(rx := RxParked)
    case RxResume =>
      if c.rx == RxWoken then c.(rx := RxCheck) else c
    case RxCancel =>
      // A notified waiter that is dropped hands its notification back.
      if c.rx == RxWoken then c.(rx := RxIdle, permit := true)
      else if c.rx == RxParked || c.rx == RxBetween then c.(rx := RxIdle)
      else c
    case RxTryRecv =>
      if c.rx == RxIdle && c.q.entries != []
      then c.(q := Pop(c.q).1, delivered := c.delivered + [c.q.entries[0]])
      else c
    case RxDrop =>
      if c.rx == RxIdle then c.(q := DropReceiver(c.q), rx := RxGone) else c
  }

  /** Whoever waits, or is about to, has a wake-up coming unless there is nothing to wake up for. */
  predicate WakeInv(c: Channel) {
    && (c.rx == RxParked ==> !c.permit)
    && (c.rx in {RxBetween, RxParked} && !c.permit && c.tx != TxNotifying ==> Quiet(c.q))
  }

  predicate StreamInv(c: Channel) {
    && Accounted(c.q)
    && (!c.q.overflowed && c.rx != RxGone ==> Coalesce(c.delivered + c.q.entries) == Coalesce(c.sent))
    && (c.tx == TxGone ==> !c.txOpen)
    && (c.q.closed <==> !c.txOpen || c.rx == RxGone)
    && (c.ended ==> c.q.closed || c.q.overflowed)
    && (c.ended && !c.q.overflowed ==> c.q.entries == [])
  }

  lemma NextKeepsWakeInv(c: Channel, step: Step)
    requires WakeInv(c)
    ensures WakeInv(Next(c, step))
  {
  }

  lemma SendKeepsStreamInv(c: Channel, d: Delta)
    requires StreamInv(c)
    ensures StreamInv(Next(c, TxSend(d)))
  {
    SendKeepsAccounts(c.q, d);
    AppendIsTransparent(c.delivered, c.q.entries, d);
    CoalesceSnoc(c.sent, d);
  }

  lemma PopKeepsStreamInv(c: Channel, step: Step)
    requires StreamInv(c) && (step == RxLock || step == RxTryRecv)
    ensures StreamInv(Next(c, step))
  {
    hide Coalesce, TextBytes;
    PopKeepsAccounts(c.q);
    if c.q.entries != [] {
      assert (c.delivered + [c.q.entries[0]]) + c.q.entries[1..] == c.delivered + c.q.entries;
    }
  }

  lemma NextKeepsStreamInv(c: Channel, step: Step)
    requires StreamInv(c)
    ensures StreamInv(Next(c, step))
  {
    hide Coalesce;
    match step {
      case TxSend(d) => SendKeepsStreamInv(c, d);
      case RxLock | RxTryRecv => PopKeepsStreamInv(c, step);
      case _ =>
    }
  }

  lemma {:induction false} RunKeepsInv(steps: seq<Step>)
    ensures WakeInv(Run(Next, INIT, steps)) && StreamInv(Run(Next, INIT, steps))
  {
    if steps == [] {
      assert INIT.delivered + INIT.q.entries == INIT.sent;
    } else {
      hide Next, WakeInv, StreamInv;
      RunKeepsInv(steps[..|steps| - 1]);
      NextKeepsWakeInv(Run(Next, INIT, steps[..|steps| - 1]), steps[|steps| - 1]);
      NextKeepsStreamInv(Run(Next, INIT, steps[..|steps| - 1]), steps[|steps| - 1]);
    }
  }

  /**
   No lost wake-up, in every interleaving: a receiver that is parked while no sender is between
   its unlock and its notification has an empty, open, not overflowed queue.
   */
  lemma NoLostWakeup(steps: seq<Step>)
    ensures var c := Run(Next, INIT, steps);
      c.rx == RxParked && c.tx != TxNotifying ==> !c.permit && Quiet(c.q)
  {
    RunKeepsInv(steps);
  }

  /**
   The queue loses nothing in any interleaving: until overflow or the drop of the receiver,
   delivered and buffered together are everything sent, character by character with its kind, and every
   tool fragment whole.
   */
  lemma Lossless(steps: seq<Step>)
    ensures var c := Run(Next, INIT, steps);
      && (!c.q.overflowed && c.rx != RxGone ==>
        && Coalesce(c.delivered + c.q.entries) == Coalesce(c.sent)
        && Pieces(c.delivered + c.q.entries) == Pieces(c.sent)
        && ToolFragments(c.delivered + c.q.entries) == ToolFragments(c.sent)
        && c.q.buffered == TextBytes(c.q.entries))
      && c.q.buffered <= CAP_BYTES
      && KindsChange(c.q.entries)
  {
    var c := Run(Next, INIT, steps);
    RunKeepsInv(steps);
    CoalesceKeepsToolFragments(c.delivered + c.q.entries);
    CoalesceKeepsToolFragments(c.sent);
    CoalesceKeepsPieces(c.delivered + c.q.entries);
    CoalesceKeepsPieces(c.sent);
    CoalesceIsCanonical(c.q.entries);
    CoalesceKeepsPieces(c.q.entries);
  }

  /**
   End of stream means the end: once a `recv` has returned `None` on a stream that did not
   overflow, everything sent has been delivered.
   */
  lemma NoneMeansComplete(steps: seq<Step>)
    ensures var c := Run(Next, INIT, steps);
      c.ended && !c.q.overflowed && c.rx != RxGone ==>
        !c.txOpen && Coalesce(c.delivered) == Coalesce(c.sent) && Pieces(c.delivered) == Pieces(c.sent)
  {
    var c := Run(Next, INIT, steps);
    RunKeepsInv(steps);
    CoalesceKeepsPieces(c.delivered);
    CoalesceKeepsPieces(c.sent);
    if c.ended && !c.q.overflowed {
      assert c.delivered + c.q.entries == c.delivered;
    }
  }

  function Receipts(n: nat): seq<Step> {
    if n == 0 then [] else Receipts(n - 1) + [RxTryRecv]
  }

  lemma TakesOne(c: Channel)
    requires c.rx == RxIdle && c.q.entries != []
    ensures var d := Next(c, RxTryRecv);
      && d.rx == RxIdle && d.delivered == c.delivered + [c.q.entries[0]] && d.q.entries == c.q.entries[1..]
  {
  }

  lemma NothingRun(c: Channel)
    ensures Run(Next, c, []) == c
  {
  }

  lemma OneMore(before: seq<Delta>, e: seq<Delta>, n: nat)
    requires 0 < n <= |e|
    ensures before + e[..n - 1] + [e[n - 1..][0]] == before + e[..n]
    ensures e[n - 1..][1..] == e[n..]
  {
  }

  lemma {:induction false} TakesFirst(c: Channel, n: nat)
    requires c.rx == RxIdle && n <= |c.q.entries|
    ensures var d := Run(Next, c, Receipts(n));
      d.rx == RxIdle && d.delivered == c.delivered + c.q.entries[..n] && d.q.entries == c.q.entries[n..]
  {
    hide Next, Run;
    if n > 0 {
      TakesFirst(c, n - 1);
      RunSnoc(Next, c, Receipts(n - 1), RxTryRecv);
      TakesOne(Run(Next, c, Receipts(n - 1)));
      OneMore(c.delivered, c.q.entries, n);
    } else {
      NothingRun(c);
    }
  }

  /** From every reachable state in which the receiver is free, as many receipts as there are entries deliver everything sent. */
  lemma ReceiverGetsAll(steps: seq<Step>)
    requires var c := Run(Next, INIT, steps); c.rx == RxIdle && !c.q.overflowed
    ensures var c := Run(Next, INIT, steps);
      var d := Run(Next, c, Receipts(|c.q.entries|));
      d.q.entries == [] && Pieces(d.delivered) == Pieces(c.sent)
  {
    hide Next;
    var c := Run(Next, INIT, steps);
    Lossless(steps);
    TakesFirst(c, |c.q.entries|);
    assert c.q.entries[..|c.q.entries|] == c.q.entries;
  }

  /** And a sender that is free, on an open queue with room, does send. */
  lemma SenderSends(steps: seq<Step>, d: Delta)
    requires var c := Run(Next, INIT, steps);
      c.tx == TxIdle && c.txOpen && !c.q.closed && !c.q.overflowed && c.q.buffered + ByteLen(d.text) <= CAP_BYTES
    ensures var c, n := Run(Next, INIT, steps), Next(Next(Run(Next, INIT, steps), TxSend(d)), TxNotify);
      && n.sent == c.sent + [d] && n.tx == TxIdle && !n.q.overflowed
      && (c.rx == RxParked ==> n.rx == RxWoken) && (c.rx != RxParked ==> n.permit)
  {
  }

  lemma RecvSteps(c: Channel)
    requires StreamInv(c) && c.rx == RxIdle
    ensures var n := Next(Next(c, RxCall), RxLock);
      if c.q.entries != [] then
        && n.rx == RxIdle && n.delivered == c.delivered + [c.q.entries[0]] && n.q.entries == c.q.entries[1..]
        && n.q.buffered == TextBytes(n.q.entries) && n.permit == c.permit && n.ended == c.ended
      else if c.q.closed || c.q.overflowed then n == c.(ended := true)
      else Next(n, RxWait) == c.(rx := if c.permit then RxCheck else RxParked, permit := false)
  {
    hide Coalesce, TextBytes;
    PopKeepsAccounts(c.q);
  }

  /**
   A call to `recv` left to itself, in any run: it delivers the first entry if there is one, ends on a stream that is
   closed or overflowed, and else parks, or looks again when a permit was left.
   */
  lemma RecvLeftAlone(steps: seq<Step>)
    requires Run(Next, INIT, steps).rx == RxIdle
    ensures var c, n := Run(Next, INIT, steps), Run(Next, INIT, steps + [RxCall, RxLock]);
      if c.q.entries != [] then
        && n.rx == RxIdle && n.delivered == c.delivered + [c.q.entries[0]] && n.q.entries == c.q.entries[1..]
        && n.q.buffered == TextBytes(n.q.entries)
      else if c.q.closed || c.q.overflowed then n == c.(ended := true)
      else Next(n, RxWait) == c.(rx := if c.permit then RxCheck else RxParked, permit := false)
  {
    hide Next, StreamInv, WakeInv;
    RunKeepsInv(steps);
    RunSnoc(Next, INIT, steps, RxCall);
    RunSnoc(Next, INIT, steps + [RxCall], RxLock);
    assert steps + [RxCall] + [RxLock] == steps + [RxCall, RxLock];
    RecvSteps(Run(Next, INIT, steps));
  }

  lemma WakingSteps(c: Channel, d: Delta)
    requires c.rx == RxParked && c.tx == TxIdle && c.txOpen && c.q.entries == [] && c.q.buffered == 0
    requires !c.q.closed && !c.q.overflowed
    ensures var n := Next(Next(Next(Next(c, TxSend(d)), TxNotify), RxResume), RxLock);
      && n.rx == RxIdle && n.q.entries == []
      && if ByteLen(d.text) <= CAP_BYTES then n.delivered == c.delivered + [d] && n.ended == c.ended
         else n.delivered == c.delivered && n.ended && n.q.overflowed
  {
    hide ByteLen;
  }

  lemma EndingSteps(c: Channel)
    requires c.rx == RxParked && c.tx == TxIdle && c.txOpen && c.q.entries == []
    ensures var n := Next(Next(Next(Next(c, TxDrop), TxNotify), RxResume), RxLock);
      n.rx == RxIdle && n.ended && n.tx == TxGone && n.q.closed && n.delivered == c.delivered
  {
  }

  lemma ParkedHasNothing(steps: seq<Step>)
    requires var c := Run(Next, INIT, steps); c.rx == RxParked && c.tx == TxIdle && c.txOpen
    ensures var c := Run(Next, INIT, steps);
      c.q.entries == [] && c.q.buffered == 0 && !c.q.closed && !c.q.overflowed
  {
    RunKeepsInv(steps);
  }

  /** A parked receiver is woken by the next send, which it delivers whole, and by the drop of the sender, which ends it. */
  lemma ParkedIsWoken(steps: seq<Step>, d: Delta)
    requires var c := Run(Next, INIT, steps); c.rx == RxParked && c.tx == TxIdle && c.txOpen
    ensures var c, n := Run(Next, INIT, steps), Run(Next, INIT, steps + [TxSend(d), TxNotify, RxResume, RxLock]);
      && n.rx == RxIdle && n.q.entries == []
      && if ByteLen(d.text) <= CAP_BYTES then n.delivered == c.delivered + [d]
         else n.delivered == c.delivered && n.ended && n.q.overflowed
    ensures var n := Run(Next, INIT, steps + [TxDrop, TxNotify, RxResume, RxLock]);
      n.rx == RxIdle && n.ended && n.tx == TxGone && n.delivered == Run(Next, INIT, steps).delivered
  {
    hide Next, ByteLen;
    var c := Run(Next, INIT, steps);
    ParkedHasNothing(steps);
    RunFour(Next, c, TxSend(d), TxNotify, RxResume, RxLock);
    RunFour(Next, c, TxDrop, TxNotify, RxResume, RxLock);
    RunConcat(Next, INIT, steps, [TxSend(d), TxNotify, RxResume, RxLock]);
    RunConcat(Next, INIT, steps, [TxDrop, TxNotify, RxResume, RxLock]);
    WakingSteps(c, d);
    EndingSteps(c);
  }

  lemma LeavingSteps(c: Channel)
    ensures c.rx == RxIdle ==> Next(c, RxDrop) == c.(q := DropReceiver(c.q), rx := RxGone)
    ensures c.rx in {RxBetween, RxParked, RxWoken} ==>
      Next(c, RxCancel) == c.(rx := RxIdle, permit := c.permit || c.rx == RxWoken)
  {
  }

  /** A receiver that is dropped closes the queue and frees it; a wait that is dropped hands its wake-up on. */
  lemma ReceiverLeaves(steps: seq<Step>)
    ensures var c, n := Run(Next, INIT, steps), Run(Next, INIT, steps + [RxDrop]);
      c.rx == RxIdle ==> n.rx == RxGone && n.q.closed && n.q.entries == [] && n.q.buffered == 0 && n.delivered == c.delivered
    ensures var c := Run(Next, INIT, steps);
      c.rx in {RxBetween, RxParked, RxWoken} ==>
        Run(Next, INIT, steps + [RxCancel]) == c.(rx := RxIdle, permit := c.permit || c.rx == RxWoken)
  {
    hide Next;
    RunSnoc(Next, INIT, steps, RxDrop);
    RunSnoc(Next, INIT, steps, RxCancel);
    LeavingSteps(Run(Next, INIT, steps));
  }
}
