/**
 Line framing of an agent's ACP stdout (acp-output-guard.ts, `pumpAcpStdout`).

 Chunks arrive with arbitrary boundaries; what the line handler sees depends on
 the bytes alone.
 */
module AcpFraming {
  import opened Common

  type Byte = b: int | 0 <= b < 256

  type Bytes = seq<Byte>

  const NEWLINE: Byte := 10

  function Concat(parts: seq<Bytes>): Bytes
  {
    if parts == [] then [] else parts[0] + Concat(parts[1..])
  }

  lemma {:induction false} ConcatAppends(a: seq<Bytes>, b: seq<Bytes>)
    ensures Concat(a + b) == Concat(a) + Concat(b)
  {
    if a == [] {
      assert a + b == b;
    } else {
      ConcatAppends(a[1..], b);
      assert (a + b)[1..] == a[1..] + b;
      Regroup(a[0], Concat(a[1..]), Concat(b));
    }
  }

  /** `buffer.indexOf(0x0a, from)`: the first newline at or after `from`, or -1. */
  function IndexOf(buffer: Bytes, from: nat): (r: int)
    requires from <= |buffer|
    ensures r == -1 || from <= r < |buffer|
    ensures r >= 0 ==> buffer[r] == NEWLINE
    ensures forall k :: from <= k < (if r == -1 then |buffer| else r) ==> buffer[k] != NEWLINE
    decreases |buffer| - from
  {
    if from == |buffer| then -1
    else if buffer[from] == NEWLINE then from
    else IndexOf(buffer, from + 1)
  }

  // ----- the specification: split the whole stream, drop an empty last piece

  function Split(stream: Bytes): seq<Bytes>
    decreases |stream|
  {
    if stream == [] then []
    else
      var n := IndexOf(stream, 0);
      if n == -1 then [stream] else [stream[..n]] + Split(stream[n + 1..])
  }

  /** Each line followed by its newline. */
  function Terminated(lines: seq<Bytes>): Bytes
  {
    if lines == [] then [] else lines[0] + [NEWLINE] + Terminated(lines[1..])
  }

  predicate LineFree(lines: seq<Bytes>)
  {
    forall i :: 0 <= i < |lines| ==> NEWLINE !in lines[i]
  }

  lemma FirstNewline(line: Bytes, rest: Bytes)
    requires NEWLINE !in line
    ensures IndexOf(line + [NEWLINE] + rest, 0) == |line|
  {
    var s := line + [NEWLINE] + rest;
    assert forall k :: 0 <= k < |line| ==> s[k] in line;
    assert s[|line|] == NEWLINE;
  }

  lemma SplitFirst(line: Bytes, rest: Bytes)
    requires NEWLINE !in line
    ensures Split(line + [NEWLINE] + rest) == [line] + Split(rest)
  {
    var s := line + [NEWLINE] + rest;
    FirstNewline(line, rest);
    assert s[..|line|] == line && s[|line| + 1..] == rest;
  }

  /** Splitting undoes terminating: the lines come back, and an unterminated tail comes last unless it is empty. */
  lemma {:induction false} SplitReadsBack(lines: seq<Bytes>, tail: Bytes)
    requires LineFree(lines) && NEWLINE !in tail
    ensures Split(Terminated(lines) + tail) == lines + (if tail == [] then [] else [tail])
  {
    if lines == [] {
      assert Terminated(lines) + tail == tail;
      SplitTail(tail);
    } else {
      var last := if tail == [] then [] else [tail];
      Regroup(lines[0] + [NEWLINE], Terminated(lines[1..]), tail);
      SplitFirst(lines[0], Terminated(lines[1..]) + tail);
      SplitReadsBack(lines[1..], tail);
      Regroup([lines[0]], lines[1..], last);
      assert lines == [lines[0]] + lines[1..];
    }
  }

  lemma SplitTail(tail: Bytes)
    requires NEWLINE !in tail
    ensures Split(tail) == if tail == [] then [] else [tail]
  {
    assert forall k :: 0 <= k < |tail| ==> tail[k] in tail;
  }

  /** Every stream is some lines, each terminated, and a tail; so the previous lemma describes `Split` completely. */
  lemma {:induction false} EveryStreamIsLines(stream: Bytes) returns (lines: seq<Bytes>, tail: Bytes)
    ensures LineFree(lines) && NEWLINE !in tail
    ensures stream == Terminated(lines) + tail
    decreases |stream|
  {
    var n := IndexOf(stream, 0);
    if n == -1 {
      lines, tail := [], stream;
    } else {
      var ls, t := EveryStreamIsLines(stream[n + 1..]);
      lines, tail := [stream[..n]] + ls, t;
      assert lines[1..] == ls;
      assert stream == stream[..n] + [NEWLINE] + stream[n + 1..];
    }
  }

  // ----- the specification: deliver up to the first line that is too long

  datatype Outcome = Outcome(lines: seq<Bytes>, failed: bool)

  function Deliver(lines: seq<Bytes>, max: nat): Outcome
  {
    if lines == [] then Outcome([], false)
    else if |lines[0]| > max then Outcome([], true)
    else
      var rest := Deliver(lines[1..], max);
      Outcome([lines[0]] + rest.lines, rest.failed)
  }

  predicate Fits(lines: seq<Bytes>, max: nat)
  {
    forall i :: 0 <= i < |lines| ==> |lines[i]| <= max
  }

  /** Delivery stops exactly at the first line over the maximum, or reaches the end when there is none. */
  lemma {:induction false} DeliverExactly(lines: seq<Bytes>, max: nat)
    ensures var o := Deliver(lines, max);
      && o.lines <= lines && Fits(o.lines, max)
      && (o.failed <==> !Fits(lines, max))
      && (if o.failed then |o.lines| < |lines| && |lines[|o.lines|]| > max else o.lines == lines)
  {
    if lines != [] && |lines[0]| <= max {
      DeliverExactly(lines[1..], max);
      var rest := Deliver(lines[1..], max);
      assert lines == [lines[0]] + lines[1..];
      if Fits(lines[1..], max) {
        assert Fits(lines, max);
      } else {
        var i :| 0 <= i < |lines[1..]| && |lines[1..][i]| > max;
        assert |lines[i + 1]| > max;
      }
    }
  }

  lemma {:induction false} DeliverAppends(a: seq<Bytes>, b: seq<Bytes>, max: nat)
    requires Fits(a, max)
    ensures Deliver(a + b, max).lines == a + Deliver(b, max).lines
    ensures Deliver(a + b, max).failed == Deliver(b, max).failed
  {
    if a == [] {
      assert a + b == b;
    } else {
      assert (a + b)[1..] == a[1..] + b;
      DeliverAppends(a[1..], b, max);
      assert a == [a[0]] + a[1..];
    }
  }

  /** A line still open and already too long stops the stream, whatever follows. */
  lemma OverlongStops(done: seq<Bytes>, open: Bytes, rest: Bytes, max: nat)
    requires Fits(done, max) && NEWLINE !in open && |open| > max
    ensures Deliver(done + Split(open + rest), max) == Outcome(done, true)
  {
    var s := open + rest;
    assert forall k :: 0 <= k < |open| ==> s[k] in open;
    assert |Split(s)[0]| > max;
    DeliverAppends(done, Split(s), max);
  }

  // ----- the pump

  /** The pending parts hold an open line within the maximum; `size` is its length. */
  predicate Pending(parts: seq<Bytes>, size: nat, max: nat)
  {
    size == |Concat(parts)| <= max && NEWLINE !in Concat(parts)
  }

  /** `append`: an empty part is not stored and does not check the maximum. */
  method Append(parts: seq<Bytes>, size: nat, part: Bytes, max: nat)
    returns (parts': seq<Bytes>, size': nat, failed: bool)
    requires Pending(parts, size, max) && NEWLINE !in part
    ensures Concat(parts') == Concat(parts) + part && size' == |Concat(parts')|
    ensures failed <==> size' > max
    ensures !failed ==> Pending(parts', size', max)
  {
    if |part| == 0 {
      return parts, size, false;
    }
    ConcatAppends(parts, [part]);
    assert Concat([part]) == part + Concat([]) == part;
    parts', size' := parts + [part], size + |part|;
    failed := size' > max;
  }

  /** The bytes after the delivered lines: the open line, the rest of the chunk, and what is still to come. */
  function Ahead(parts: seq<Bytes>, buffer: Bytes, offset: nat, later: Bytes): Bytes
    requires offset <= |buffer|
  {
    Concat(parts) + (buffer[offset..] + later)
  }

  lemma Grow(parts: seq<Bytes>, parts': seq<Bytes>, buffer: Bytes, offset: nat, end: nat, later: Bytes)
    requires offset <= end <= |buffer| && Concat(parts') == Concat(parts) + buffer[offset..end]
    ensures Ahead(parts, buffer, offset, later) == Ahead(parts', buffer, end, later)
  {
    assert buffer[offset..] + later == buffer[offset..end] + (buffer[end..] + later);
  }

  /** The newline closes the open line, and nothing is pending. */
  lemma LineDone(whole: seq<Bytes>, lines: seq<Bytes>, parts: seq<Bytes>, size: nat, buffer: Bytes, end: nat,
                 later: Bytes, max: nat)
    requires end < |buffer| && buffer[end] == NEWLINE && Pending(parts, size, max) && Fits(lines, max)
    requires whole == lines + Split(Ahead(parts, buffer, end, later))
    ensures Pending([], 0, max) && Fits(lines + [Concat(parts)], max)
    ensures whole == lines + [Concat(parts)] + Split(Ahead([], buffer, end + 1, later))
  {
    CutLine(whole, lines, parts, buffer, end, later);
  }

  lemma CutLine(whole: seq<Bytes>, lines: seq<Bytes>, parts: seq<Bytes>, buffer: Bytes, end: nat, later: Bytes)
    requires end < |buffer| && buffer[end] == NEWLINE && NEWLINE !in Concat(parts)
    requires whole == lines + Split(Ahead(parts, buffer, end, later))
    ensures whole == lines + [Concat(parts)] + Split(Ahead([], buffer, end + 1, later))
  {
    var open, rest := Concat(parts), buffer[end + 1..] + later;
    TailCut(buffer, end, later);
    Regroup(open, [NEWLINE], rest);
    SplitFirst(open, rest);
    Regroup(lines, [open], Split(rest));
    NothingPending(buffer, end + 1, later);
  }

  lemma TailCut(buffer: Bytes, end: nat, later: Bytes)
    requires end < |buffer|
    ensures buffer[end..] + later == [buffer[end]] + (buffer[end + 1..] + later)
  {}

  lemma NothingPending(buffer: Bytes, offset: nat, later: Bytes)
    requires offset <= |buffer|
    ensures Ahead([], buffer, offset, later) == buffer[offset..] + later
  {}

  lemma Overlong(whole: seq<Bytes>, lines: seq<Bytes>, parts: seq<Bytes>, buffer: Bytes, end: nat, later: Bytes, max: nat)
    requires end <= |buffer| && Fits(lines, max) && NEWLINE !in Concat(parts) && |Concat(parts)| > max
    requires whole == lines + Split(Ahead(parts, buffer, end, later))
    ensures Deliver(whole, max) == Outcome(lines, true)
  {
    OverlongStops(lines, Concat(parts), buffer[end..] + later, max);
  }

  lemma NoNewlineBefore(buffer: Bytes, offset: nat, end: nat)
    requires offset <= end <= |buffer| && forall k :: offset <= k < end ==> buffer[k] != NEWLINE
    ensures NEWLINE !in buffer[offset..end]
  {}

  lemma ChunkDone(parts: seq<Bytes>, buffer: Bytes, later: Bytes)
    ensures Ahead(parts, buffer, |buffer|, later) == Concat(parts) + later
  {
    assert buffer[|buffer|..] + later == later;
  }

  /** The piece up to the next newline, or up to the end of the chunk, joins the open line. */
  method TakePiece(parts: seq<Bytes>, size: nat, buffer: Bytes, offset: nat, end: nat, max: nat,
                   ghost later: Bytes, ghost lines: seq<Bytes>, ghost whole: seq<Bytes>)
    returns (parts': seq<Bytes>, size': nat, failed: bool)
    requires offset <= end <= |buffer| && forall k :: offset <= k < end ==> buffer[k] != NEWLINE
    requires Pending(parts, size, max) && Fits(lines, max)
    requires whole == lines + Split(Ahead(parts, buffer, offset, later))
    ensures failed ==> Deliver(whole, max) == Outcome(lines, true)
    ensures !failed ==> Pending(parts', size', max) && whole == lines + Split(Ahead(parts', buffer, end, later))
  {
    NoNewlineBefore(buffer, offset, end);
    parts', size', failed := Append(parts, size, buffer[offset..end], max);
    Grow(parts, parts', buffer, offset, end, later);
    if failed {
      Overlong(whole, lines, parts', buffer, end, later, max);
    }
  }

  /**
   One chunk: the lines it completes and the parts left open. `later` stands for
   all the bytes still to come.
   */
  method PumpChunk(pending: seq<Bytes>, pendingBytes: nat, buffer: Bytes, max: nat, ghost later: Bytes)
    returns (lines: seq<Bytes>, parts: seq<Bytes>, size: nat, failed: bool)
    requires Pending(pending, pendingBytes, max)
    ensures Fits(lines, max)
    ensures failed ==> Deliver(Split(Ahead(pending, buffer, 0, later)), max) == Outcome(lines, true)
    ensures !failed ==> Pending(parts, size, max)
    ensures !failed ==> Split(Ahead(pending, buffer, 0, later)) == lines + Split(Concat(parts) + later)
  {
    ghost var whole := Split(Ahead(pending, buffer, 0, later));
    lines, parts, size, failed := [], pending, pendingBytes, false;
    var offset := 0;
    while offset <= |buffer|
      invariant offset <= |buffer|
      invariant Pending(parts, size, max) && Fits(lines, max)
      invariant !failed && whole == lines + Split(Ahead(parts, buffer, offset, later))
      decreases |buffer| - offset
    {
      var newline := IndexOf(buffer, offset);
      var end := if newline == -1 then |buffer| else newline;
      parts, size, failed := TakePiece(parts, size, buffer, offset, end, max, later, lines, whole);
      if failed { return; }
      if newline == -1 {
        ChunkDone(parts, buffer, later);
        break;
      }
      LineDone(whole, lines, parts, size, buffer, end, later, max);
      lines := lines + [Concat(parts)];
      parts, size, offset := [], 0, newline + 1;
    }
  }

  /** At the end of the stream an open line is delivered unless it is empty. */
  lemma EndOfStream(lines: seq<Bytes>, open: Bytes, max: nat)
    requires Fits(lines, max) && NEWLINE !in open && |open| <= max
    ensures Deliver(lines + Split(open + []), max) == Outcome(if open == [] then lines else lines + [open], false)
  {
    assert open + [] == Terminated([]) + open == open;
    SplitReadsBack([], open);
    DeliverExactly(lines + Split(open), max);
  }

  /** The bytes after the delivered lines, between two chunks. */
  function Remaining(parts: seq<Bytes>, chunks: seq<Bytes>): Bytes
  {
    Concat(parts) + Concat(chunks)
  }

  lemma NextChunk(parts: seq<Bytes>, source: seq<Bytes>, i: nat)
    requires i < |source|
    ensures Remaining(parts, source[i..]) == Ahead(parts, source[i], 0, Concat(source[i + 1..]))
  {
    assert source[i][0..] == source[i] && source[i..][1..] == source[i + 1..];
  }

  lemma StreamStops(whole: seq<Bytes>, lines: seq<Bytes>, ahead: Bytes, completed: seq<Bytes>, max: nat)
    requires Fits(lines, max) && whole == lines + Split(ahead) && Deliver(Split(ahead), max) == Outcome(completed, true)
    ensures Deliver(whole, max) == Outcome(lines + completed, true)
  {
    DeliverAppends(lines, Split(ahead), max);
  }

  lemma StreamGoesOn(whole: seq<Bytes>, lines: seq<Bytes>, ahead: Bytes, completed: seq<Bytes>, rest: Bytes, max: nat)
    requires Fits(lines, max) && Fits(completed, max)
    requires whole == lines + Split(ahead) && Split(ahead) == completed + Split(rest)
    ensures Fits(lines + completed, max) && whole == lines + completed + Split(rest)
  {
    Regroup(lines, completed, Split(rest));
  }

  method PumpAcpStdout(source: seq<Bytes>, max: nat) returns (lines: seq<Bytes>, failed: bool)
    ensures Outcome(lines, failed) == Deliver(Split(Concat(source)), max)
  {
    ghost var whole := Split(Concat(source));
    lines, failed := [], false;
    var parts: seq<Bytes>, size: nat := [], 0;
    var i := 0;
    assert Remaining(parts, source[i..]) == Concat(source) by { assert source[i..] == source; }
    while i < |source|
      invariant i <= |source| && Pending(parts, size, max) && Fits(lines, max) && !failed
      invariant whole == lines + Split(Remaining(parts, source[i..]))
    {
      ghost var ahead := Remaining(parts, source[i..]);
      ghost var later := Concat(source[i + 1..]);
      NextChunk(parts, source, i);
      var completed;
      completed, parts, size, failed := PumpChunk(parts, size, source[i], max, later);
      if failed {
        StreamStops(whole, lines, ahead, completed, max);
        lines := lines + completed;
        return;
      }
      StreamGoesOn(whole, lines, ahead, completed, Remaining(parts, source[i + 1..]), max);
      lines := lines + completed;
      i := i + 1;
    }
    EndOfStream(lines, Concat(parts), max);
    if size > 0 {
      lines := lines + [Concat(parts)];
    }
  }

  /** The same bytes in any two chunkings reach the line handler as the same lines with the same outcome. */
  method ChunkingIsInvisible(left: seq<Bytes>, right: seq<Bytes>, max: nat)
    returns (fromLeft: seq<Bytes>, fromRight: seq<Bytes>, leftFailed: bool, rightFailed: bool)
    requires Concat(left) == Concat(right)
    ensures fromLeft == fromRight && leftFailed == rightFailed
    ensures leftFailed <==> exists i :: 0 <= i < |Split(Concat(left))| && |Split(Concat(left))[i]| > max
    ensures if leftFailed then fromLeft < Split(Concat(left)) else fromLeft == Split(Concat(left))
  {
    fromLeft, leftFailed := PumpAcpStdout(left, max);
    fromRight, rightFailed := PumpAcpStdout(right, max);
    DeliverExactly(Split(Concat(left)), max);
  }
}
