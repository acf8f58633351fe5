/**
 Splitting one oversized text update into frames (acp-output-guard.ts,
 `splitTextUpdate`, `safeTextBoundary`, `guardAcpStdoutLine`).

 `JSON.stringify` of a frame is the text around the string body plus the escaped
 piece, so a skeleton is what stands before and after that body.
 */
module AcpSplit {
  import opened Common
  import opened Utf16

  datatype Skeleton = Skeleton(before: Text, after: Text)

  function Encode(skeleton: Skeleton, piece: Text): Text
  {
    skeleton.before + Escape(piece) + skeleton.after
  }

  /** How long an escaped piece may be for its frame to keep within the limit; negative when the skeleton is too long. */
  function Room(skeleton: Skeleton, limit: nat): int
  {
    limit - |skeleton.before| - |skeleton.after|
  }

  /** `safeTextBoundary`: step back over a high surrogate, paired or not. */
  function SafeTextBoundary(text: Text, proposed: int): (cut: nat)
    ensures cut <= |text| && !SplitsPair(text, cut)
    ensures proposed >= |text| ==> cut == |text|
    ensures 0 <= proposed < |text| ==> proposed - 1 <= cut <= proposed
  {
    if proposed <= 0 then 0
    else if proposed >= |text| then |text|
    else if High(text[proposed - 1]) then proposed - 1
    else proposed
  }

  // ----- the specification: where each piece ends

  function Halved(text: Text, offset: nat, end: nat): nat
    requires offset < end <= |text|
    ensures Halved(text, offset, end) < end
  {
    SafeTextBoundary(text, offset + (end - offset) / 2)
  }

  /** The first of `end`, its halvings, ... whose piece fits; `offset` or less when none does. */
  function Accepted(text: Text, offset: nat, end: nat, room: int): (cut: nat)
    requires offset <= |text| && end <= |text|
    ensures cut <= |text| && cut <= end
    decreases end
  {
    if end <= offset || |Escape(text[offset..end])| <= room then end
    else Accepted(text, offset, Halved(text, offset, end), room)
  }

  function FirstEnd(text: Text, offset: nat, chunk: nat): nat
    requires offset <= |text|
    ensures FirstEnd(text, offset, chunk) <= |text|
  {
    SafeTextBoundary(text, if |text| < offset + chunk then |text| else offset + chunk)
  }

  function NextCut(text: Text, offset: nat, chunk: nat, room: int): (cut: nat)
    requires offset <= |text|
    ensures cut <= |text|
    ensures cut <= FirstEnd(text, offset, chunk)
  {
    Accepted(text, offset, FirstEnd(text, offset, chunk), room)
  }

  /** The pieces of `text[offset..]`, or nothing when some piece cannot be made to fit. */
  function Pieces(text: Text, offset: nat, chunk: nat, room: int): Option<seq<Text>>
    requires offset <= |text|
    decreases |text| - offset
  {
    if offset == |text| then Some([])
    else
      var cut := NextCut(text, offset, chunk, room);
      if cut <= offset then None
      else
        match Pieces(text, cut, chunk, room)
        case None => None
        case Some(rest) => Some([text[offset..cut]] + rest)
  }

  function Frames(skeleton: Skeleton, pieces: seq<Text>): (frames: seq<Text>)
    ensures |frames| == |pieces|
    ensures forall i :: 0 <= i < |frames| ==> frames[i] == Encode(skeleton, pieces[i])
  {
    seq(|pieces|, i requires 0 <= i < |pieces| => Encode(skeleton, pieces[i]))
  }

  // ----- what the pieces are

  function Joined(pieces: seq<Text>): Text
  {
    if pieces == [] then [] else pieces[0] + Joined(pieces[1..])
  }

  /** The JSON bodies of the frames, end to end. */
  function Bodies(pieces: seq<Text>): Text
  {
    if pieces == [] then [] else Escape(pieces[0]) + Bodies(pieces[1..])
  }

  lemma AcceptedFits(text: Text, offset: nat, end: nat, room: int)
    requires offset <= |text| && end <= |text| && !SplitsPair(text, end)
    ensures var cut := Accepted(text, offset, end, room);
      && !SplitsPair(text, cut)
      && (offset < cut ==> |Escape(text[offset..cut])| <= room)
    decreases end
  {
    if offset < end && |Escape(text[offset..end])| > room {
      AcceptedFits(text, offset, Halved(text, offset, end), room);
    }
  }

  /** A piece is never longer than the chunk size, nor its body than the room. */
  predicate WithinLimits(piece: Text, chunk: nat, room: int)
  {
    0 < |piece| <= chunk && |Escape(piece)| <= room
  }

  /**
   The pieces join to the text, and their escaped bodies join to the body the
   unsplit frame would have had: nothing is lost, repeated or re-encoded.
   */
  lemma {:induction false} PiecesJoin(text: Text, offset: nat, chunk: nat, room: int)
    requires offset <= |text| && !SplitsPair(text, offset)
    requires Pieces(text, offset, chunk, room).Some?
    ensures var pieces := Pieces(text, offset, chunk, room).value;
      && Joined(pieces) == text[offset..]
      && Bodies(pieces) == Escape(text[offset..])
      && forall i :: 0 <= i < |pieces| ==> WithinLimits(pieces[i], chunk, room)
    decreases |text| - offset
  {
    if offset < |text| {
      var cut := NextCut(text, offset, chunk, room);
      AcceptedFits(text, offset, FirstEnd(text, offset, chunk), room);
      PiecesJoin(text, cut, chunk, room);
      EscapesInTwo(text, offset, cut);
    }
  }

  lemma EscapesInTwo(text: Text, offset: nat, cut: nat)
    requires offset < cut <= |text| && !SplitsPair(text, cut)
    ensures text[offset..] == text[offset..cut] + text[cut..]
    ensures Escape(text[offset..]) == Escape(text[offset..cut]) + Escape(text[cut..])
  {
    var piece, rest := text[offset..cut], text[cut..];
    if |piece| < |piece + rest| {
      assert (piece + rest)[|piece| - 1] == text[cut - 1] && (piece + rest)[|piece|] == text[cut];
    }
    EscapeAppends(piece, rest);
    assert text[offset..] == piece + rest;
  }

  /** `offset`, and then the end of each piece in turn, is a cut that separates no surrogate pair. */
  predicate CleanCuts(text: Text, offset: nat, pieces: seq<Text>)
    decreases |pieces|
  {
    && !SplitsPair(text, offset)
    && (pieces == [] || CleanCuts(text, offset + |pieces[0]|, pieces[1..]))
  }

  lemma {:induction false} PairsStayWhole(text: Text, offset: nat, chunk: nat, room: int)
    requires offset <= |text| && !SplitsPair(text, offset)
    requires Pieces(text, offset, chunk, room).Some?
    ensures CleanCuts(text, offset, Pieces(text, offset, chunk, room).value)
    decreases |text| - offset
  {
    if offset < |text| {
      var cut := NextCut(text, offset, chunk, room);
      AcceptedFits(text, offset, FirstEnd(text, offset, chunk), room);
      PairsStayWhole(text, cut, chunk, room);
      CleanCutsGrow(text, offset, cut, Pieces(text, cut, chunk, room).value);
    }
  }

  lemma CleanCutsGrow(text: Text, offset: nat, cut: nat, rest: seq<Text>)
    requires offset < cut <= |text| && !SplitsPair(text, offset) && CleanCuts(text, cut, rest)
    ensures CleanCuts(text, offset, [text[offset..cut]] + rest)
  {
    assert ([text[offset..cut]] + rest)[1..] == rest;
  }

  // ----- when splitting succeeds

  /** Three units always fit in 18 characters, and halving four or more leaves at least one. */
  lemma {:induction false} AcceptedMovesOn(text: Text, offset: nat, end: nat, room: int)
    requires offset < end <= |text| && room >= 18
    ensures offset < Accepted(text, offset, end, room)
    decreases end
  {
    EscapeBounds(text[offset..end]);
    if |Escape(text[offset..end])| > room {
      AcceptedMovesOn(text, offset, Halved(text, offset, end), room);
    }
  }

  /** With a chunk size of one, a high surrogate that is not the last unit cannot be stepped over. */
  predicate Steppable(text: Text, offset: nat, chunk: nat)
  {
    chunk >= 2 || (chunk == 1 && forall i :: offset <= i < |text| - 1 ==> !High(text[i]))
  }

  /** The first proposed end moves past `offset`, and passes to a steppable rest, exactly when the whole is steppable. */
  lemma StepsOn(text: Text, offset: nat, chunk: nat)
    requires offset < |text|
    ensures var end := FirstEnd(text, offset, chunk);
      if end <= offset then !Steppable(text, offset, chunk)
      else forall cut :: offset < cut <= end ==> (Steppable(text, offset, chunk) <==> Steppable(text, cut, chunk))
  {
    var end := FirstEnd(text, offset, chunk);
    if chunk == 1 && end <= offset {
      assert High(text[offset]);
    } else if chunk == 1 && end == offset + 1 < |text| {
      assert !High(text[offset]);
    }
  }

  /** With room for 18 characters, splitting succeeds exactly when the chunk size lets every unit be stepped over. */
  lemma {:induction false} SplitsExactly(text: Text, offset: nat, chunk: nat, room: int)
    requires offset < |text| && room >= 18
    ensures Pieces(text, offset, chunk, room).Some? <==> Steppable(text, offset, chunk)
    decreases |text| - offset
  {
    StepsOn(text, offset, chunk);
    var end := FirstEnd(text, offset, chunk);
    if offset < end {
      AcceptedMovesOn(text, offset, end, room);
      var cut := NextCut(text, offset, chunk, room);
      if cut < |text| {
        SplitsExactly(text, cut, chunk, room);
      }
    }
  }

  /** The last piece that halving tries before nothing is left. */
  function Least(text: Text, offset: nat, end: nat): (cut: nat)
    requires offset < end <= |text|
    ensures offset < cut <= end
    decreases end
  {
    var half := Halved(text, offset, end);
    if half <= offset then end else Least(text, offset, half)
  }

  /** It is one unit, or a surrogate pair that starts there, with at most one unit more. */
  lemma {:induction false} LeastIsShort(text: Text, offset: nat, end: nat)
    requires offset < end <= |text|
    ensures var cut := Least(text, offset, end); cut <= offset + 3 && (cut > offset + 1 ==> High(text[offset]))
    decreases end
  {
    var half := Halved(text, offset, end);
    if half > offset {
      LeastIsShort(text, offset, half);
    }
  }

  /** A shorter piece has the shorter body. */
  lemma EscapeGrows(text: Text, offset: nat, cut: nat, end: nat)
    requires offset <= cut <= end <= |text| && !SplitsPair(text, cut)
    ensures |Escape(text[offset..cut])| <= |Escape(text[offset..end])|
  {
    var piece, rest := text[offset..cut], text[cut..end];
    assert text[offset..end] == piece + rest;
    if offset < cut < end {
      assert (piece + rest)[|piece| - 1] == text[cut - 1] && (piece + rest)[|piece|] == text[cut];
    }
    EscapeAppends(piece, rest);
  }

  lemma {:induction false} LeastKeepsPairs(text: Text, offset: nat, end: nat)
    requires offset < end <= |text| && !SplitsPair(text, end)
    ensures !SplitsPair(text, Least(text, offset, end))
    ensures |Escape(text[offset..Least(text, offset, end)])| <= |Escape(text[offset..end])|
    decreases end
  {
    var half := Halved(text, offset, end);
    if half > offset {
      LeastKeepsPairs(text, offset, half);
      EscapeGrows(text, offset, half, end);
    }
  }

  /** For any room: a piece is found exactly when the last one that is tried fits. */
  lemma {:induction false} AcceptedExactly(text: Text, offset: nat, end: nat, room: int)
    requires offset < end <= |text| && !SplitsPair(text, end)
    ensures offset < Accepted(text, offset, end, room) <==> |Escape(text[offset..Least(text, offset, end)])| <= room
    decreases end
  {
    var half := Halved(text, offset, end);
    LeastKeepsPairs(text, offset, end);
    if |Escape(text[offset..end])| > room && half > offset {
      AcceptedExactly(text, offset, half, room);
    }
  }

  /** Splitting arrives at `at` as the start of a piece, or as the end. */
  predicate Arrives(text: Text, offset: nat, at: nat, chunk: nat, room: int)
    requires offset <= |text| && at <= |text|
    decreases |text| - offset
  {
    offset == at ||
    var cut := NextCut(text, offset, chunk, room);
    offset < cut && Arrives(text, cut, at, chunk, room)
  }

  /** What a piece that starts here takes: the chunk size steps over the first unit, and the last piece tried fits. */
  predicate MovesOn(text: Text, offset: nat, chunk: nat, room: int)
    requires offset < |text|
  {
    var end := FirstEnd(text, offset, chunk);
    offset < end && |Escape(text[offset..Least(text, offset, end)])| <= room
  }

  lemma CutsExactly(text: Text, offset: nat, chunk: nat, room: int)
    requires offset < |text|
    ensures offset < NextCut(text, offset, chunk, room) <==> MovesOn(text, offset, chunk, room)
  {
    var end := FirstEnd(text, offset, chunk);
    if offset < end {
      AcceptedExactly(text, offset, end, room);
    }
  }

  /** For every room: splitting succeeds exactly when it moves on from every offset at which it arrives. */
  lemma {:induction false} SplitsInAnyRoom(text: Text, offset: nat, chunk: nat, room: int)
    requires offset <= |text|
    ensures Pieces(text, offset, chunk, room).Some? <==>
      forall at :: offset <= at < |text| && Arrives(text, offset, at, chunk, room) ==> MovesOn(text, at, chunk, room)
    decreases |text| - offset
  {
    if offset < |text| {
      var cut := NextCut(text, offset, chunk, room);
      CutsExactly(text, offset, chunk, room);
      if offset < cut {
        SplitsInAnyRoom(text, cut, chunk, room);
        forall at | offset < at < |text| && Arrives(text, offset, at, chunk, room)
          ensures cut <= at && Arrives(text, cut, at, chunk, room)
        {
          ArrivesForward(text, cut, at, chunk, room);
        }
      }
    }
  }

  lemma {:induction false} ArrivesForward(text: Text, offset: nat, at: nat, chunk: nat, room: int)
    requires offset <= |text| && at <= |text| && Arrives(text, offset, at, chunk, room)
    ensures offset <= at
    decreases |text| - offset
  {
    if offset != at {
      ArrivesForward(text, NextCut(text, offset, chunk, room), at, chunk, room);
    }
  }

  /** 18 is the least room that suffices: with 17, a lone high surrogate before two control characters is stuck. */
  lemma SeventeenIsTooLittle()
    ensures var text: Text := [0xD800, 1, 1];
      Pieces(text, 0, 3, 17).None? && Pieces(text, 0, 3, 18).Some?
  {
    var text: Text := [0xD800, 1, 1];
    var two: Text := [1, 1];
    assert text[1..] == two && two[1..] == [1];
    assert Escape([1]) == HexEscape(1) + Escape([]);
    assert |Escape(two)| == 12;
    assert |Escape(text)| == 18;
    assert text[0..3] == text;
    assert Accepted(text, 0, 3, 17) == Accepted(text, 0, 0, 17) == 0;
    assert Pieces(text, 3, 3, 18) == Some([]);
  }

  // ----- the loop

  /** The inner loop: halve the piece until its frame fits or nothing is left of it. */
  method AcceptPiece(skeleton: Skeleton, text: Text, offset: nat, chunk: nat, limit: nat)
    returns (accepted: Option<Text>, end: nat)
    requires offset <= |text|
    ensures end == NextCut(text, offset, chunk, Room(skeleton, limit))
    ensures accepted == if end <= offset then None else Some(Encode(skeleton, text[offset..end]))
  {
    end := SafeTextBoundary(text, if |text| < offset + chunk then |text| else offset + chunk);
    while end > offset
      invariant end <= |text|
      invariant Accepted(text, offset, end, Room(skeleton, limit)) == NextCut(text, offset, chunk, Room(skeleton, limit))
      decreases end
    {
      var encoded := Encode(skeleton, text[offset..end]);
      if |encoded| <= limit {
        return Some(encoded), end;
      }
      end := SafeTextBoundary(text, offset + (end - offset) / 2);
    }
    accepted := None;
  }

  /** The frames so far and the pieces still to come make up the answer; without a rest there is no answer. */
  ghost predicate OnTheWay(text: Text, offset: nat, chunk: nat, room: int, done: seq<Text>)
    requires offset <= |text|
  {
    match Pieces(text, offset, chunk, room)
    case None => Pieces(text, 0, chunk, room) == None
    case Some(rest) => Pieces(text, 0, chunk, room) == Some(done + rest)
  }

  lemma OneMore(text: Text, offset: nat, chunk: nat, room: int, done: seq<Text>)
    requires offset < |text| && OnTheWay(text, offset, chunk, room, done)
    ensures var cut := NextCut(text, offset, chunk, room);
      if cut <= offset then Pieces(text, 0, chunk, room) == None
      else OnTheWay(text, cut, chunk, room, done + [text[offset..cut]])
  {
    var cut := NextCut(text, offset, chunk, room);
    if offset < cut && Pieces(text, cut, chunk, room).Some? {
      var piece, rest := text[offset..cut], Pieces(text, cut, chunk, room).value;
      assert done + ([piece] + rest) == done + [piece] + rest;
    }
  }

  /** `skeleton` is missing when bounding the message lost `params` or `params.update`. */
  method SplitTextUpdate(skeleton: Option<Skeleton>, text: Text, chunk: nat, limit: nat)
    returns (frames: Option<seq<Text>>)
    ensures skeleton.None? || text == [] ==> frames == None
    ensures skeleton.Some? && text != [] ==>
      match Pieces(text, 0, chunk, Room(skeleton.value, limit))
      case None => frames == None
      case Some(pieces) => frames == Some(Frames(skeleton.value, pieces))
  {
    if skeleton.None? {
      return None;
    }
    ghost var room := Room(skeleton.value, limit);
    ghost var pieces: seq<Text> := [];
    var output: seq<Text> := [];
    var offset := 0;
    assert OnTheWay(text, 0, chunk, room, pieces) by {
      assert forall rest: seq<Text> :: pieces + rest == rest;
    }
    while offset < |text|
      invariant offset <= |text| && OnTheWay(text, offset, chunk, room, pieces)
      invariant output == Frames(skeleton.value, pieces) && (offset > 0 ==> pieces != [])
      decreases |text| - offset
    {
      OneMore(text, offset, chunk, room, pieces);
      var accepted, end := AcceptPiece(skeleton.value, text, offset, chunk, limit);
      if accepted.None? {
        return None;
      }
      output := output + [accepted.value];
      pieces := pieces + [text[offset..end]];
      offset := end;
    }
    assert pieces + [] == pieces;
    if |output| == 0 {
      return None;
    }
    return Some(output);
  }

  // ----- one line through the guard

  datatype GuardError = NotJson | NotAnObject | CannotBound

  /**
   What parsing the line gives, with the two rewritten forms it can fall back to;
   a form is missing when it cannot be encoded.
   */
  datatype Parsed =
    | Unparsable
    | NonObject
    | Message(update: Option<TextUpdate>, bounded: Option<Text>, minimal: Option<Text>)

  datatype TextUpdate = TextUpdate(skeleton: Option<Skeleton>, text: Text)

  predicate FitsIn(form: Option<Text>, limit: nat)
  {
    form.Some? && |form.value| <= limit
  }

  /** Whether the split path gives the answer. */
  predicate Splits(message: Parsed, chunk: nat, limit: nat)
  {
    && message.Message? && message.update.Some? && message.update.value.skeleton.Some?
    && message.update.value.text != []
    && Pieces(message.update.value.text, 0, chunk, Room(message.update.value.skeleton.value, limit)).Some?
  }

  /** A short line passes unchanged; whatever passes keeps within the limit; a line that splits keeps its whole text. */
  method GuardAcpStdoutLine(line: Text, message: Parsed, chunk: nat, limit: nat)
    returns (r: Result<seq<Text>, GuardError>)
    ensures |line| <= limit ==> r == Success([line])
    ensures r.Success? ==> |r.value| > 0 && forall i :: 0 <= i < |r.value| ==> |r.value[i]| <= limit
    ensures |line| > limit && Splits(message, chunk, limit) ==>
      exists pieces ::
        && r == Success(Frames(message.update.value.skeleton.value, pieces))
        && Joined(pieces) == message.update.value.text
        && Bodies(pieces) == Escape(message.update.value.text)
    ensures |line| > limit && message.Message? && !Splits(message, chunk, limit) ==>
      r == if FitsIn(message.bounded, limit) then Success([message.bounded.value])
           else if FitsIn(message.minimal, limit) then Success([message.minimal.value])
           else Failure(CannotBound)
    ensures |line| > limit && message.Unparsable? ==> r == Failure(NotJson)
    ensures |line| > limit && message.NonObject? ==> r == Failure(NotAnObject)
    ensures |line| > limit && message.Message? ==>
      (r.Success? <==>
        Splits(message, chunk, limit) || FitsIn(message.bounded, limit) || FitsIn(message.minimal, limit))
  {
    if |line| <= limit {
      return Success([line]);
    }
    if message.Unparsable? {
      return Failure(NotJson);
    }
    if message.NonObject? {
      return Failure(NotAnObject);
    }
    if message.update.Some? {
      var update := message.update.value;
      var split := SplitTextUpdate(update.skeleton, update.text, chunk, limit);
      if split.Some? {
        ghost var room := Room(update.skeleton.value, limit);
        PiecesJoin(update.text, 0, chunk, room);
        ghost var pieces := Pieces(update.text, 0, chunk, room).value;
        assert update.text[0..] == update.text;
        assert forall i :: 0 <= i < |pieces| ==> WithinLimits(pieces[i], chunk, room);
        return Success(split.value);
      }
    }
    if message.bounded.Some? && |message.bounded.value| <= limit {
      return Success([message.bounded.value]);
    }
    if message.minimal.Some? && |message.minimal.value| <= limit {
      return Success([message.minimal.value]);
    }
    return Failure(CannotBound);
  }
}
