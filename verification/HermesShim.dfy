/**
 The stdio interposer in front of `hermes acp` (hermes-acp-shim.ts, and
 `stripResumeCapability` and `isInitializeResponse` in hermes-shim.ts).

 Reading and printing JSON are the two functions of a `Codec`.
 */
module HermesShim {
  import opened Common
  import opened Utf16
  import opened AcpFraming
  import opened BoundJson

  // ----- the frame

  const RESULT := Units("result")
  const AGENT_CAPABILITIES := Units("agentCapabilities")
  const SESSION_CAPABILITIES := Units("sessionCapabilities")
  const RESUME := Units("resume")

  /** A property read that yields an object or array; `None` stands for everything else. */
  function Child(v: Option<Json>, key: Text): Option<Json>
  {
    if v.Some? && v.value.Obj? && key in v.value.fields && (v.value.fields[key].Obj? || v.value.fields[key].Arr?)
    then Some(v.value.fields[key]) else None
  }

  /** The parsed line when it is an object or array. */
  function Root(message: Option<Json>): Option<Json>
  {
    if message.Some? && (message.value.Obj? || message.value.Arr?) then message else None
  }

  function AgentCapabilities(message: Option<Json>): Option<Json>
  {
    Child(Child(Root(message), RESULT), AGENT_CAPABILITIES)
  }

  predicate IsInitializeResponse(message: Option<Json>)
  {
    AgentCapabilities(message).Some?
  }

  function Without(keys: seq<Text>, key: Text): seq<Text>
  {
    if keys == [] then [] else (if keys[0] == key then [] else [keys[0]]) + Without(keys[1..], key)
  }

  function Delete(v: Json, key: Text): Json
    requires v.Obj?
  {
    Obj(Without(v.keys, key), v.fields - {key})
  }

  function With(v: Json, key: Text, child: Json): Json
    requires v.Obj?
  {
    Obj(v.keys, v.fields[key := child])
  }

  /** What stands at a path of object keys. */
  function At(v: Json, path: seq<Text>): Option<Json>
    decreases |path|
  {
    if path == [] then Some(v)
    else if v.Obj? && path[0] in v.fields then At(v.fields[path[0]], path[1..])
    else None
  }

  /** Deletes the last key of the path in place. */
  function DeleteAt(v: Json, path: seq<Text>): Json
    requires path != [] && At(v, path).Some?
    decreases |path|
  {
    if |path| == 1 then Delete(v, path[0])
    else With(v, path[0], DeleteAt(v.fields[path[0]], path[1..]))
  }

  const RESUME_PATH: seq<Text> := [RESULT, AGENT_CAPABILITIES, SESSION_CAPABILITIES, RESUME]

  /** `sessionCapabilities`, reached through objects and arrays only, has its own `resume`. */
  predicate HasResume(message: Option<Json>)
  {
    var session := Child(AgentCapabilities(message), SESSION_CAPABILITIES);
    session.Some? && session.value.Obj? && RESUME in session.value.fields
  }

  lemma ResumeAt(message: Option<Json>)
    requires HasResume(message)
    ensures At(message.value, RESUME_PATH).Some?
    ensures var m := message.value; var r := m.fields[RESULT]; var a := r.fields[AGENT_CAPABILITIES];
      var s := a.fields[SESSION_CAPABILITIES];
      DeleteAt(m, RESUME_PATH)
        == With(m, RESULT, With(r, AGENT_CAPABILITIES, With(a, SESSION_CAPABILITIES, Delete(s, RESUME))))
  {
    var p1: seq<Text> := [AGENT_CAPABILITIES, SESSION_CAPABILITIES, RESUME];
    var p2: seq<Text> := [SESSION_CAPABILITIES, RESUME];
    var p3: seq<Text> := [RESUME];
    assert RESUME_PATH[1..] == p1 && p1[1..] == p2 && p2[1..] == p3 && p3[1..] == [];
    var r := message.value.fields[RESULT];
    var a := r.fields[AGENT_CAPABILITIES];
    var s := a.fields[SESSION_CAPABILITIES];
    assert At(s, p3).Some?;
    assert At(a, p2) == At(s, p3);
    assert At(r, p1) == At(a, p2);
    assert DeleteAt(s, p3) == Delete(s, RESUME);
    assert DeleteAt(a, p2) == With(a, SESSION_CAPABILITIES, DeleteAt(s, p3));
    assert DeleteAt(r, p1) == With(r, AGENT_CAPABILITIES, DeleteAt(a, p2));
  }

  /** The message after `delete sessionCapabilities.resume`, or nothing when there is no such field. */
  function StripResume(message: Option<Json>): Option<Json>
  {
    if HasResume(message) then ResumeAt(message); Some(DeleteAt(message.value, RESUME_PATH)) else None
  }

  /** Only an initialize response is ever stripped, and it stays one with nothing left to strip. */
  lemma StripsInitializeOnce(message: Option<Json>)
    requires StripResume(message).Some?
    ensures IsInitializeResponse(message) && IsInitializeResponse(StripResume(message))
    ensures StripResume(StripResume(message)) == None
  {
    ResumeAt(message);
  }

  lemma {:induction false} DeletedAt(v: Json, target: seq<Text>, path: seq<Text>)
    requires target != [] && At(v, target).Some?
    ensures At(DeleteAt(v, target), target) == None
    ensures !(path <= target) && !(target <= path) ==> At(DeleteAt(v, target), path) == At(v, path)
    decreases |target|
  {
    if |target| > 1 {
      var rest := if path == [] then [] else path[1..];
      DeletedAt(v.fields[target[0]], target[1..], rest);
      if path != [] && path[0] == target[0] {
        assert path == [path[0]] + rest && target == [path[0]] + target[1..];
      }
    } else if path != [] && path[0] == target[0] {
      assert target <= path;
    }
  }

  /** `resume` is gone; what stands on no path through it, and not above it, is what stood there before. */
  lemma StripsOneField(message: Json, path: seq<Text>)
    requires StripResume(Some(message)).Some?
    ensures var stripped := StripResume(Some(message)).value;
      && At(message, RESUME_PATH).Some? && At(stripped, RESUME_PATH) == None
      && (!(path <= RESUME_PATH) && !(RESUME_PATH <= path) ==> At(stripped, path) == At(message, path))
  {
    ResumeAt(Some(message));
    DeletedAt(message, RESUME_PATH, path);
  }

  // ----- the stream

  /** How a line, newline included, is parsed, and how a message is printed. */
  datatype Codec = Codec(parse: Bytes -> Option<Json>, encode: Json -> Bytes)

  /** `stripResumeCapability(line)`. */
  function Strip(c: Codec, line: Bytes): Option<Bytes>
  {
    match StripResume(c.parse(line))
    case None => None
    case Some(w) => Some(c.encode(w))
  }

  predicate IsInitialize(c: Codec, line: Bytes)
  {
    IsInitializeResponse(c.parse(line))
  }

  /** The output as a function of the whole input. */
  function Shim(c: Codec, stream: Bytes): Bytes
    decreases |stream|
  {
    var n := IndexOf(stream, 0);
    if n == -1 then stream
    else
      var line, rest := stream[..n + 1], stream[n + 1..];
      match Strip(c, line)
      case Some(replaced) => replaced + [NEWLINE] + rest
      case None => line + (if IsInitialize(c, line) then rest else Shim(c, rest))
  }

  /** What is written for the line the shim latches on. */
  function Written(c: Codec, line: Bytes): Bytes
  {
    match Strip(c, line + [NEWLINE])
    case Some(replaced) => replaced + [NEWLINE]
    case None => line + [NEWLINE]
  }

  /** A line the shim neither replaces nor latches on. */
  predicate Passes(c: Codec, line: Bytes)
  {
    Strip(c, line + [NEWLINE]).None? && !IsInitialize(c, line + [NEWLINE])
  }

  lemma ShimLine(c: Codec, line: Bytes, rest: Bytes)
    requires NEWLINE !in line
    ensures Shim(c, line + [NEWLINE] + rest)
         == if Passes(c, line) then line + [NEWLINE] + Shim(c, rest) else Written(c, line) + rest
  {
    var s := line + [NEWLINE] + rest;
    FirstNewline(line, rest);
    assert s[..|line| + 1] == line + [NEWLINE] && s[|line| + 1..] == rest;
  }

  lemma ShimTail(c: Codec, tail: Bytes)
    requires NEWLINE !in tail
    ensures Shim(c, tail) == tail
  {
    assert forall k :: 0 <= k < |tail| ==> tail[k] in tail;
  }

  predicate AllPass(c: Codec, lines: seq<Bytes>)
  {
    forall i :: 0 <= i < |lines| ==> Passes(c, lines[i])
  }

  /** Lines before the first initialize response go through as they are. */
  lemma {:induction false} PassesLines(c: Codec, lines: seq<Bytes>, rest: Bytes)
    requires LineFree(lines) && AllPass(c, lines)
    ensures Shim(c, Terminated(lines) + rest) == Terminated(lines) + Shim(c, rest)
  {
    if lines == [] {
      assert Terminated(lines) + rest == rest;
      assert Terminated(lines) + Shim(c, rest) == Shim(c, rest);
    } else {
      var more := Terminated(lines[1..]) + rest;
      Regroup(lines[0] + [NEWLINE], Terminated(lines[1..]), rest);
      ShimLine(c, lines[0], more);
      PassesLines(c, lines[1..], rest);
      Regroup(lines[0] + [NEWLINE], Terminated(lines[1..]), Shim(c, rest));
    }
  }

  /**
   The first initialize response, and it alone, is rewritten: when it advertises
   `resume` it is replaced by its stripped form; every other byte passes through,
   the unterminated tail included.
   */
  lemma OnlyTheFirstInitialize(c: Codec, before: seq<Bytes>, line: Bytes, after: Bytes)
    requires LineFree(before) && AllPass(c, before) && NEWLINE !in line && IsInitialize(c, line + [NEWLINE])
    ensures Shim(c, Terminated(before) + (line + [NEWLINE] + after)) == Terminated(before) + (Written(c, line) + after)
  {
    PassesLines(c, before, line + [NEWLINE] + after);
    ShimLine(c, line, after);
  }

  /** Without an initialize response the output is the input. */
  lemma NothingToRewrite(c: Codec, lines: seq<Bytes>, tail: Bytes)
    requires LineFree(lines) && AllPass(c, lines) && NEWLINE !in tail
    ensures Shim(c, Terminated(lines) + tail) == Terminated(lines) + tail
  {
    PassesLines(c, lines, tail);
    ShimTail(c, tail);
  }

  lemma {:induction false} FirstInitialize(c: Codec, lines: seq<Bytes>) returns (k: nat)
    ensures k <= |lines| && AllPass(c, lines[..k]) && (k < |lines| ==> IsInitialize(c, lines[k] + [NEWLINE]))
  {
    if lines == [] {
      k := 0;
    } else if !Passes(c, lines[0]) {
      k := 0;
      if !IsInitialize(c, lines[0] + [NEWLINE]) {
        StripsInitializeOnce(c.parse(lines[0] + [NEWLINE]));
      }
    } else {
      k := FirstInitialize(c, lines[1..]);
      k := k + 1;
      assert lines[..k] == [lines[0]] + lines[1..][..k - 1];
    }
  }

  /** What the shim prints is one line, and the parser reads it back. */
  ghost predicate Faithful(c: Codec)
  {
    forall line ::
      var w := StripResume(c.parse(line));
      w.Some? ==> NEWLINE !in c.encode(w.value) && c.parse(c.encode(w.value) + [NEWLINE]) == w
  }

  lemma {:induction false} TerminatedAppends(a: seq<Bytes>, b: seq<Bytes>)
    ensures Terminated(a + b) == Terminated(a) + Terminated(b)
  {
    if a == [] {
      assert a + b == b;
    } else {
      assert (a + b)[1..] == a[1..] + b;
      TerminatedAppends(a[1..], b);
    }
  }

  lemma OneMorePasses(c: Codec, passed: seq<Bytes>, text: Bytes)
    requires LineFree(passed) && AllPass(c, passed) && NEWLINE !in text && Passes(c, text)
    ensures LineFree(passed + [text]) && AllPass(c, passed + [text])
    ensures Terminated(passed + [text]) == Terminated(passed) + (text + [NEWLINE])
  {
    TerminatedAppends(passed, [text]);
    assert Terminated([text]) == text + [NEWLINE] + Terminated([]) == text + [NEWLINE];
  }

  /** Two shims in a row do what one does. */
  lemma ShimTwice(c: Codec, stream: Bytes)
    requires Faithful(c)
    ensures Shim(c, Shim(c, stream)) == Shim(c, stream)
  {
    var lines, tail := EveryStreamIsLines(stream);
    var k := FirstInitialize(c, lines);
    var before := lines[..k];
    if k == |lines| {
      assert before == lines;
      NothingToRewrite(c, lines, tail);
    } else {
      var line, after := lines[k], Terminated(lines[k + 1..]) + tail;
      assert stream == Terminated(before) + (line + [NEWLINE] + after) by {
        assert lines == before + lines[k..];
        TerminatedAppends(before, lines[k..]);
        assert lines[k..][1..] == lines[k + 1..];
      }
      OnlyTheFirstInitialize(c, before, line, after);
      if Strip(c, line + [NEWLINE]).Some? {
        var parsed := c.parse(line + [NEWLINE]);
        var stripped := StripResume(parsed);
        StripsInitializeOnce(parsed);
        OnlyTheFirstInitialize(c, before, c.encode(stripped.value), after);
      }
    }
  }

  // ----- the interposer

  class Interposer {
    var patched: bool
    var pending: Bytes
    var output: Bytes
    ghost var received: Bytes
    /** The lines passed before the latch, the line it latched on, and what came after that. */
    ghost var passed: seq<Bytes>
    ghost var frame: Bytes
    ghost var after: Bytes

    ghost predicate Valid(c: Codec)
      reads this
    {
      && LineFree(passed) && AllPass(c, passed)
      && (!patched ==>
            received == Terminated(passed) + pending && output == Terminated(passed))
      && (patched ==>
            && NEWLINE !in frame && IsInitialize(c, frame + [NEWLINE])
            && received == Terminated(passed) + (frame + [NEWLINE] + after)
            && output + pending == Terminated(passed) + (Written(c, frame) + after))
    }

    constructor ()
      ensures received == output == [] && forall c :: Valid(c)
      ensures !patched && pending == []
    {
      patched, pending, output, received, passed, frame, after := false, [], [], [], [], [], [];
    }

    /** Between chunks nothing is held back but an unterminated line, and nothing at all after the latch. */
    ghost predicate Settled()
      reads this
    {
      if patched then pending == [] else NEWLINE !in pending
    }

    /** One chunk from the child; after the latch the pipe writes chunks as they are. */
    method InterceptStdout(c: Codec, chunk: Bytes)
      requires Valid(c) && Settled()
      modifies this
      ensures Valid(c) && Settled() && received == old(received) + chunk
    {
      received := received + chunk;
      if patched {
        output, after := output + chunk, after + chunk;
        Regroup(Terminated(passed), frame + [NEWLINE] + old(after), chunk);
        Regroup(frame + [NEWLINE], old(after), chunk);
        Regroup(Terminated(passed), Written(c, frame) + old(after), chunk);
        Regroup(Written(c, frame), old(after), chunk);
        assert output + pending == old(output) + old(pending) + chunk;
        return;
      }
      pending := pending + chunk;
      Regroup(Terminated(passed), old(pending), chunk);
      while !patched && IndexOf(pending, 0) != -1
        invariant Valid(c) && received == old(received) + chunk
        decreases !patched, |pending|
      {
        InterceptLine(c);
      }
      if patched {
        output, pending := output + pending, [];
        assert output + pending == output;
      }
    }

    method InterceptLine(c: Codec)
      requires Valid(c) && !patched && IndexOf(pending, 0) != -1
      modifies this`patched, this`pending, this`output, this`passed, this`frame, this`after
      ensures Valid(c) && |pending| < |old(pending)|
    {
      var newline := IndexOf(pending, 0);
      var line := pending[..newline + 1];
      ghost var text, left := pending[..newline], pending[newline + 1..];
      assert line == text + [NEWLINE] && pending == line + left;
      pending := pending[newline + 1..];
      var replaced := Strip(c, line);
      if replaced.Some? {
        StripsInitializeOnce(c.parse(line));
        frame, after := text, left;
        output, patched := output + (replaced.value + [NEWLINE]), true;
        Regroup(Terminated(passed), Written(c, text), left);
      } else {
        output := output + line;
        if IsInitialize(c, line) {
          frame, after := text, left;
          patched := true;
          Regroup(Terminated(passed), Written(c, text), left);
        } else {
          Regroup(Terminated(passed), line, left);
          OneMorePasses(c, passed, text);
          passed := passed + [text];
        }
      }
    }

    /** The end of the child's output flushes the unterminated tail. */
    method End(c: Codec)
      requires Valid(c) && Settled()
      modifies this`output, this`pending
      ensures output == Shim(c, received)
    {
      if patched {
        OnlyTheFirstInitialize(c, passed, frame, after);
        assert output + pending == output;
      } else {
        NothingToRewrite(c, passed, pending);
      }
      if |pending| > 0 {
        output, pending := output + pending, [];
      } else {
        assert output + pending == output;
      }
    }
  }

  /** A whole run: the concatenated output depends on the concatenated input alone. */
  method RunShim(c: Codec, chunks: seq<Bytes>) returns (output: Bytes)
    ensures output == Shim(c, Concat(chunks))
  {
    var shim := new Interposer();
    var i := 0;
    while i < |chunks|
      invariant i <= |chunks| && fresh(shim) && shim.Valid(c) && shim.Settled() && shim.received == Concat(chunks[..i])
    {
      shim.InterceptStdout(c, chunks[i]);
      assert chunks[..i + 1] == chunks[..i] + [chunks[i]];
      ConcatAppends(chunks[..i], [chunks[i]]);
      assert Concat([chunks[i]]) == chunks[i] + Concat([]) == chunks[i];
      i := i + 1;
    }
    assert chunks[..i] == chunks;
    shim.End(c);
    output := shim.output;
  }
}
