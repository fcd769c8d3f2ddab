/**
 Reading newline-terminated frames off a buffered byte stream, with a bound on
 the length of one frame. The stream arrives in windows of any sizes; what is
 read must not depend on them.
 */
module FrameReader {
  import opened Wrappers

  newtype byte = b: int | 0 <= b < 256

  const LF: byte := 10
  const CR: byte := 13

  datatype ReadError = Oversize | NotUtf8 | Io

  datatype Outcome = Frame(line: seq<byte>) | End | Failed(error: ReadError)

  /** What the transport delivers next: some bytes, or a failure of the read. */
  datatype Window = Data(bytes: seq<byte>) | Fault

  /** The bytes up to the first failure, and whether there is one. */
  datatype Stream = Stream(bytes: seq<byte>, faulty: bool)

  function Flatten(windows: seq<Window>): Stream {
    if windows == [] then Stream([], false)
    else if windows[0].Fault? then Stream([], true)
    else var rest := Flatten(windows[1..]); Stream(windows[0].bytes + rest.bytes, rest.faulty)
  }

  predicate Unbroken(bytes: seq<byte>) {
    forall i :: 0 <= i < |bytes| ==> bytes[i] != LF
  }

  /** The first position of a newline from `from` on, or the length when there is none. */
  function Scan(bytes: seq<byte>, from: nat): (pos: nat)
    requires from <= |bytes|
    ensures from <= pos <= |bytes|
    ensures pos < |bytes| ==> bytes[pos] == LF
    ensures forall i :: from <= i < pos ==> bytes[i] != LF
    decreases |bytes| - from
  {
    if from == |bytes| || bytes[from] == LF then from else Scan(bytes, from + 1)
  }

  function NewlineAt(bytes: seq<byte>): (pos: nat)
    ensures pos <= |bytes|
  {
    Scan(bytes, 0)
  }

  /** The first newline is the one position with a newline and none before. */
  lemma NewlineIsFirst(bytes: seq<byte>, pos: nat)
    requires pos <= |bytes| && (pos < |bytes| ==> bytes[pos] == LF)
    requires forall i :: 0 <= i < pos ==> bytes[i] != LF
    ensures NewlineAt(bytes) == pos
  {
  }

  /** The carriage return of a CRLF terminator is not part of the line. */
  function StripCR(line: seq<byte>): seq<byte> {
    if line != [] && line[|line| - 1] == CR then line[..|line| - 1] else line
  }

  /** One read, on the whole stream at once: its outcome and, after a frame, what is left. */
  function ReadOne(s: Stream, max: nat, utf8: seq<byte> -> bool): (Outcome, seq<byte>) {
    var pos := NewlineAt(s.bytes);
    if pos < |s.bytes| then
      var line := StripCR(s.bytes[..pos]);
      if pos > max then (Failed(Oversize), [])
      else if utf8(line) then (Frame(line), s.bytes[pos + 1..])
      else (Failed(NotUtf8), [])
    else if |s.bytes| > max then (Failed(Oversize), [])
    else if s.faulty then (Failed(Io), [])
    else if s.bytes == [] then (End, [])
    else if utf8(s.bytes) then (Frame(s.bytes), [])
    else (Failed(NotUtf8), [])
  }

  lemma NewlineInTail(a: seq<byte>, b: seq<byte>)
    requires Unbroken(a)
    ensures NewlineAt(a + b) == |a| + NewlineAt(b)
  {
    NewlineIsFirst(a + b, |a| + NewlineAt(b));
  }

  /**
   Which byte a line loses: terminated by CR LF it yields its content, by LF alone it yields every byte, and so does a
   last line that nothing terminates, be it a carriage return that ends it.
   */
  lemma LineLosesItsTerminator(line: seq<byte>, rest: seq<byte>, faulty: bool, max: nat, utf8: seq<byte> -> bool)
    requires LF !in line
    ensures ReadOne(Stream(line + [CR, LF] + rest, faulty), max, utf8) ==
      if |line| + 1 > max then (Failed(Oversize), [])
      else if utf8(line) then (Frame(line), rest) else (Failed(NotUtf8), [])
    ensures line == [] || line[|line| - 1] != CR ==>
      ReadOne(Stream(line + [LF] + rest, faulty), max, utf8) ==
        if |line| > max then (Failed(Oversize), [])
        else if utf8(line) then (Frame(line), rest) else (Failed(NotUtf8), [])
    ensures ReadOne(Stream(line, faulty), max, utf8) ==
      if |line| > max then (Failed(Oversize), [])
      else if faulty then (Failed(Io), [])
      else if line == [] then (End, [])
      else if utf8(line) then (Frame(line), []) else (Failed(NotUtf8), [])
  {
    assert line + [CR, LF] + rest == (line + [CR]) + ([LF] + rest) && line + [LF] + rest == line + ([LF] + rest);
    NewlineInTail(line + [CR], [LF] + rest);
    NewlineInTail(line, [LF] + rest);
    NewlineIsFirst(line, |line|);
    assert ((line + [CR]) + ([LF] + rest))[..|line| + 1] == line + [CR] && (line + [CR])[..|line|] == line;
    assert (line + [CR, LF] + rest)[|line| + 2..] == rest;
    assert (line + ([LF] + rest))[..|line|] == line && (line + ([LF] + rest))[|line| + 1..] == rest;
  }

  /** A frame is a prefix of the stream, up to a line feed that no carriage return precedes, or to both, or to the end. */
  lemma FrameIsPrefix(s: Stream, max: nat, utf8: seq<byte> -> bool)
    requires ReadOne(s, max, utf8).0.Frame?
    ensures var (r, rest) := ReadOne(s, max, utf8); var n := |r.line|;
      && LF !in r.line && r.line <= s.bytes && utf8(r.line)
      && (|| (s.bytes == r.line && rest == [] && !s.faulty)
          || (s.bytes == r.line + [LF] + rest && (n == 0 || r.line[n - 1] != CR))
          || s.bytes == r.line + [CR, LF] + rest)
  {
    var pos := NewlineAt(s.bytes);
    if pos < |s.bytes| {
      assert s.bytes == s.bytes[..pos] + [LF] + s.bytes[pos + 1..];
      if pos > 0 && s.bytes[pos - 1] == CR {
        assert s.bytes[..pos] == s.bytes[..pos - 1] + [CR];
      }
    }
  }

  lemma NewlineInHead(a: seq<byte>, b: seq<byte>)
    requires NewlineAt(a) < |a|
    ensures NewlineAt(a + b) == NewlineAt(a)
  {
    NewlineIsFirst(a + b, NewlineAt(a));
  }

  class Reader {
    var windows: seq<Window>

    /** A window of no bytes means the end of the stream, so no window before it is empty. */
    predicate Valid()
      reads this
    {
      forall w :: w in windows && w.Data? ==> w.bytes != []
    }

    function Rest(): Stream
      reads this
    {
      Flatten(windows)
    }

    constructor (incoming: seq<Window>)
      requires forall w :: w in incoming && w.Data? ==> w.bytes != []
      ensures Valid() && windows == incoming
    {
      windows := incoming;
    }

    /** `chunk` is the window at hand. */
    predicate AtHand(chunk: seq<byte>)
      reads this
    {
      windows != [] && windows[0] == Data(chunk)
    }

    /** The unread bytes at hand; none at the end. A failed read is used up. */
    method FillBuf() returns (r: Result<seq<byte>, ReadError>)
      requires Valid()
      modifies this
      ensures Valid()
      ensures r.Err? ==>
        r.error == Io && old(Rest()) == Stream([], true) && old(windows) != [] && windows == old(windows)[1..]
      ensures r.Ok? ==> Rest() == old(Rest()) && r.value <= Rest().bytes
      ensures r.Ok? && r.value == [] ==> Rest() == Stream([], false)
      ensures r.Ok? && r.value != [] ==> AtHand(r.value)
    {
      if windows == [] {
        return Ok([]);
      }
      match windows[0] {
        case Data(bytes) => r := Ok(bytes);
        case Fault =>
          windows := windows[1..];
          r := Err(Io);
      }
    }

    method Consume(chunk: seq<byte>, n: nat)
      requires Valid() && AtHand(chunk) && 0 < n <= |chunk|
      modifies this
      ensures Valid()
      ensures |old(Rest()).bytes| >= n
      ensures Rest() == Stream(old(Rest()).bytes[n..], old(Rest()).faulty)
    {
      ghost var tail := Flatten(windows[1..]);
      assert (chunk + tail.bytes)[n..] == chunk[n..] + tail.bytes;
      if n == |chunk| {
        windows := windows[1..];
        assert chunk[n..] + tail.bytes == tail.bytes;
      } else {
        windows := [Data(chunk[n..])] + windows[1..];
        assert windows[1..] == old(windows)[1..];
      }
    }

    /** With `held` bytes buffered, the window at hand is the one that would exceed the bound. */
    predicate IsOver(held: nat, max: nat)
      reads this
    {
      windows != [] && windows[0].Data? && held + NewlineAt(windows[0].bytes) > max
    }

    /**
     The loop of a read: collects the bytes before the next newline, or before the end. It stops at the
     first window that would exceed the bound, with all before it buffered and that one unread.
     */
    method CollectLine(max: nat) returns (c: Collected, ghost peak: nat)
      requires Valid()
      modifies this
      ensures Valid() && peak <= max
      ensures IsCollected(old(Rest()), max, c, Rest())
      ensures c == NoLine(Failed(Oversize)) ==> |old(Rest()).bytes| == peak + |Rest().bytes| && IsOver(peak, max)
    {
      hide IsCollected, Flatten, Unbroken, Scan;
      ghost var start := Rest();
      var buf: seq<byte> := [];
      NothingYet(start);
      peak := 0;
      while true
        invariant Valid() && Unbroken(buf) && |buf| == peak <= max
        invariant start == Stream(buf + Rest().bytes, Rest().faulty)
        decreases |Rest().bytes|
      {
        ghost var rest := Rest();
        var filled := FillBuf();
        if filled.Err? {
          StopsAtFault(start, buf, rest, max, Rest());
          return NoLine(Failed(Io)), peak;
        }
        var chunk := filled.value;
        if chunk == [] {
          StopsAtEnd(start, buf, rest, max);
          return if buf == [] then NoLine(End) else Line(buf, false), peak;
        }
        var pos := NewlineAt(chunk);
        if pos < |chunk| {
          StopsAtNewline(start, buf, chunk, rest, max);
          if |buf| + pos > max {
            return NoLine(Failed(Oversize)), peak;
          }
          Consume(chunk, pos + 1);
          return Line(buf + chunk[..pos], true), |buf| + pos;
        }
        GoesOn(start, buf, chunk, rest, max);
        if |buf| + |chunk| > max {
          return NoLine(Failed(Oversize)), peak;
        }
        buf := buf + chunk;
        peak := |buf|;
        Consume(chunk, |chunk|);
      }
    }

    /**
     Reads one frame. The outcome and what is left depend on the bytes alone, and `peak`, the most
     that was ever buffered, stays within the bound.
     */
    method ReadBoundedFrame(max: nat, utf8: seq<byte> -> bool) returns (r: Outcome, ghost peak: nat)
      requires Valid()
      modifies this
      ensures Valid()
      ensures r == ReadOne(old(Rest()), max, utf8).0
      ensures r.Frame? ==> Rest() == Stream(ReadOne(old(Rest()), max, utf8).1, old(Rest()).faulty)
      ensures r.Frame? ==>
        && LF !in r.line && utf8(r.line)
        && (|| (old(Rest()).bytes == r.line && Rest() == Stream([], false))
            || (old(Rest()).bytes == r.line + [LF] + Rest().bytes && (r.line == [] || r.line[|r.line| - 1] != CR))
            || old(Rest()).bytes == r.line + [CR, LF] + Rest().bytes)
      ensures peak <= max
    {
      if ReadOne(Rest(), max, utf8).0.Frame? { FrameIsPrefix(Rest(), max, utf8); }
      var c;
      c, peak := CollectLine(max);
      if c.NoLine? {
        return c.outcome, peak;
      }
      var buf := c.buf;
      // A bare CR at the end of an unterminated last line is kept.
      if c.terminated && buf != [] && buf[|buf| - 1] == CR {
        buf := buf[..|buf| - 1];
      }
      r := if utf8(buf) then Frame(buf) else Failed(NotUtf8);
    }

    /** Reads until the first failure or the end. */
    method ReadAll(max: nat, utf8: seq<byte> -> bool) returns (lines: seq<seq<byte>>, last: Outcome)
      requires Valid()
      modifies this
      ensures (lines, last) == Frames(old(Rest()), max, utf8)
    {
      ghost var start := Rest();
      lines := [];
      assert [] + Frames(start, max, utf8).0 == Frames(start, max, utf8).0;
      while true
        invariant Valid()
        invariant Frames(start, max, utf8) ==
          (lines + Frames(Rest(), max, utf8).0, Frames(Rest(), max, utf8).1)
        decreases |Rest().bytes|
      {
        ghost var before := Rest();
        ghost var peak;
        last, peak := ReadBoundedFrame(max, utf8);
        if !last.Frame? {
          assert lines + [] == lines;
          return;
        }
        ReadShrinks(before, max, utf8);
        ghost var rest := Frames(Rest(), max, utf8).0;
        assert lines + ([last.line] + rest) == (lines + [last.line]) + rest;
        lines := lines + [last.line];
      }
    }
  }

  /** What the loop of a read ends with: no line at all, or the bytes of one. */
  datatype Collected = NoLine(outcome: Outcome) | Line(buf: seq<byte>, terminated: bool)

  predicate IsCollected(start: Stream, max: nat, c: Collected, rest: Stream) {
    var pos := NewlineAt(start.bytes);
    match c
    case NoLine(Failed(Oversize)) => pos > max
    case NoLine(Failed(Io)) => pos == |start.bytes| <= max && start.faulty
    case NoLine(End) => start == Stream([], false)
    case NoLine(_) => false
    case Line(buf, true) =>
      pos < |start.bytes| && pos <= max && buf == start.bytes[..pos] && rest == Stream(start.bytes[pos + 1..], start.faulty)
    case Line(buf, false) =>
      pos == |start.bytes| <= max && buf == start.bytes != [] && rest == Stream([], false) && !start.faulty
  }

  lemma NothingYet(start: Stream)
    ensures Unbroken([]) && start == Stream([] + start.bytes, start.faulty)
  {
    assert [] + start.bytes == start.bytes;
  }

  lemma StopsAtFault(start: Stream, buf: seq<byte>, rest: Stream, max: nat, after: Stream)
    requires Unbroken(buf) && |buf| <= max && rest == Stream([], true)
    requires start == Stream(buf + rest.bytes, rest.faulty)
    ensures IsCollected(start, max, NoLine(Failed(Io)), after)
  {
    assert start.bytes == buf;
    NewlineIsFirst(buf, |buf|);
  }

  lemma StopsAtEnd(start: Stream, buf: seq<byte>, rest: Stream, max: nat)
    requires Unbroken(buf) && |buf| <= max && rest.bytes == []
    requires start == Stream(buf + rest.bytes, rest.faulty)
    requires !rest.faulty
    ensures IsCollected(start, max, if buf == [] then NoLine(End) else Line(buf, false), rest)
  {
    assert start.bytes == buf;
    NewlineIsFirst(buf, |buf|);
  }

  lemma StopsAtNewline(start: Stream, buf: seq<byte>, chunk: seq<byte>, rest: Stream, max: nat)
    requires Unbroken(buf) && chunk <= rest.bytes && NewlineAt(chunk) < |chunk|
    requires start == Stream(buf + rest.bytes, rest.faulty)
    ensures var pos := NewlineAt(chunk);
      if |buf| + pos > max then IsCollected(start, max, NoLine(Failed(Oversize)), rest)
      else IsCollected(start, max, Line(buf + chunk[..pos], true), Stream(rest.bytes[pos + 1..], rest.faulty))
  {
    var pos := NewlineAt(chunk);
    NewlineIsFirst(start.bytes, |buf| + pos);
    assert start.bytes[..|buf| + pos] == buf + chunk[..pos];
    assert start.bytes[|buf| + pos + 1..] == rest.bytes[pos + 1..];
  }

  lemma GoesOn(start: Stream, buf: seq<byte>, chunk: seq<byte>, rest: Stream, max: nat)
    requires Unbroken(buf) && chunk <= rest.bytes && NewlineAt(chunk) == |chunk|
    requires start == Stream(buf + rest.bytes, rest.faulty)
    ensures Unbroken(buf + chunk)
    ensures start == Stream((buf + chunk) + rest.bytes[|chunk|..], rest.faulty)
    ensures |buf| + |chunk| > max ==> IsCollected(start, max, NoLine(Failed(Oversize)), rest)
  {
    var pos := NewlineAt(start.bytes);
    forall i | 0 <= i < |buf| + |chunk| ensures start.bytes[i] != LF {
    }
    assert start.bytes == (buf + chunk) + rest.bytes[|chunk|..];
    assert pos >= |buf| + |chunk|;
  }

  lemma ReadShrinks(s: Stream, max: nat, utf8: seq<byte> -> bool)
    ensures ReadOne(s, max, utf8).0.Frame? ==> |ReadOne(s, max, utf8).1| < |s.bytes|
  {
  }

  /** All frames of a stream up to its first failure or its end, and which of the two it was. */
  function Frames(s: Stream, max: nat, utf8: seq<byte> -> bool): (seq<seq<byte>>, Outcome)
    decreases |s.bytes|
  {
    var (first, rest) := ReadOne(s, max, utf8);
    if first.Frame? then
      ReadShrinks(s, max, utf8);
      var (lines, last) := Frames(Stream(rest, s.faulty), max, utf8);
      ([first.line] + lines, last)
    else ([], first)
  }

  // ---- The same frames, from the lines of the stream --------------------------

  /** The pieces between newlines: one more than there are newlines. */
  function Split(bytes: seq<byte>): (pieces: seq<seq<byte>>)
    ensures pieces != []
    decreases |bytes|
  {
    var pos := NewlineAt(bytes);
    if pos == |bytes| then [bytes] else [bytes[..pos]] + Split(bytes[pos + 1..])
  }

  function Join(pieces: seq<seq<byte>>): seq<byte>
    requires pieces != []
  {
    if |pieces| == 1 then pieces[0] else pieces[0] + [LF] + Join(pieces[1..])
  }

  /** Splitting is the inverse of joining with newlines, on pieces without newlines. */
  lemma {:induction false} SplitInvertsJoin(bytes: seq<byte>, pieces: seq<seq<byte>>)
    requires pieces != [] && forall p :: p in pieces ==> Unbroken(p)
    ensures bytes == Join(pieces) <==> Split(bytes) == pieces
    decreases |bytes|
  {
    var pos := NewlineAt(bytes);
    if |pieces| > 1 {
      var tail := Join(pieces[1..]);
      var joined := pieces[0] + [LF] + tail;
      assert joined == pieces[0] + ([LF] + tail);
      NewlineInTail(pieces[0], [LF] + tail);
      assert joined[..|pieces[0]|] == pieces[0] && joined[|pieces[0]| + 1..] == tail;
      if pos < |bytes| {
        assert bytes == bytes[..pos] + [LF] + bytes[pos + 1..];
        SplitInvertsJoin(bytes[pos + 1..], pieces[1..]);
      }
    } else {
      assert pieces == [pieces[0]];
      NewlineInTail(pieces[0], []);
      assert pieces[0] + [] == pieces[0];
    }
  }

  /** The specification line by line: the last piece has no terminator, every other one has. */
  function LinesSpec(pieces: seq<seq<byte>>, faulty: bool, max: nat, utf8: seq<byte> -> bool): (seq<seq<byte>>, Outcome)
    requires pieces != []
  {
    if |pieces[0]| > max then ([], Failed(Oversize))
    else if |pieces| == 1 then
      if faulty then ([], Failed(Io))
      else if pieces[0] == [] then ([], End)
      else if utf8(pieces[0]) then ([pieces[0]], End)
      else ([], Failed(NotUtf8))
    else if utf8(StripCR(pieces[0])) then
      var (lines, last) := LinesSpec(pieces[1..], faulty, max, utf8);
      ([StripCR(pieces[0])] + lines, last)
    else ([], Failed(NotUtf8))
  }

  /**
   Framing is splitting at newlines: the frames up to the first failure are the lines of the
   stream, the carriage return is dropped on terminated lines only, and a read fails as
   oversize exactly at the first line whose content is longer than the bound.
   */
  lemma {:induction false} FramesAreLines(s: Stream, max: nat, utf8: seq<byte> -> bool)
    ensures Frames(s, max, utf8) == LinesSpec(Split(s.bytes), s.faulty, max, utf8)
    decreases |s.bytes|
  {
    var pos := NewlineAt(s.bytes);
    if pos < |s.bytes| {
      var rest := s.bytes[pos + 1..];
      assert Split(s.bytes)[1..] == Split(rest);
      FramesAreLines(Stream(rest, s.faulty), max, utf8);
    } else if !s.faulty && s.bytes != [] && |s.bytes| <= max && utf8(s.bytes) {
      assert ReadOne(Stream([], false), max, utf8).0 == End;
      assert [s.bytes] + [] == [s.bytes];
    }
  }

  /** What a writer of frames puts on the wire: each line and its newline. */
  function Written(lines: seq<seq<byte>>): seq<byte> {
    if lines == [] then [] else lines[0] + [LF] + Written(lines[1..])
  }

  /** A line that can travel: no newline inside, no carriage return at its end, not too long, text. */
  predicate Travels(line: seq<byte>, max: nat, utf8: seq<byte> -> bool) {
    Unbroken(line) && (line == [] || line[|line| - 1] != CR) && |line| <= max && utf8(line)
  }

  /** What the first read finds on a wire that starts with `line` and a newline. */
  lemma ReadOfWritten(line: seq<byte>, rest: seq<byte>, max: nat, utf8: seq<byte> -> bool)
    ensures var r := ReadOne(Stream(line + [LF] + rest, false), max, utf8);
      && (r.0 == Frame(line) <==> Travels(line, max, utf8))
      && (Travels(line, max, utf8) ==> r.1 == rest)
      && r.0 != End
  {
    var bytes := line + [LF] + rest;
    assert bytes == line + ([LF] + rest);
    if NewlineAt(line) < |line| {
      NewlineInHead(line, [LF] + rest);
    } else {
      NewlineInTail(line, [LF] + rest);
      assert bytes[..|line|] == line && bytes[|line| + 1..] == rest;
    }
  }

  /** Writing frames and reading them back returns them exactly when each one can travel. */
  lemma {:induction false} WriteThenRead(lines: seq<seq<byte>>, max: nat, utf8: seq<byte> -> bool)
    ensures Frames(Stream(Written(lines), false), max, utf8) == (lines, End) <==>
      forall line :: line in lines ==> Travels(line, max, utf8)
  {
    if lines != [] {
      WriteThenRead(lines[1..], max, utf8);
      ReadOfWritten(lines[0], Written(lines[1..]), max, utf8);
      assert lines == [lines[0]] + lines[1..];
    }
  }
}
