/**
 Command strings and argument vectors (adapter-catalog.ts `splitAdapterCommand`,
 hermes-shim.ts `quoteAgentCommandToken`, and the `command`/`argv` pair of an
 active launch in adapter-preinstall.ts).
 */
module AdapterCommand {
  import opened Common
  import opened Utf16
  import opened Whitespace

  const SPACE: Unit := 32
  const APOSTROPHE: Unit := 39

  // ----- the specification: read from the front, an escape taking two units at once

  /** A backslash before the open quote or another backslash, or a bare one that ends the input. */
  predicate Escapes(s: Text, quote: Option<Unit>)
  {
    && s != [] && s[0] == BACKSLASH && quote != Some(APOSTROPHE)
    && (if |s| == 1 then quote.None? else quote == Some(s[1]) || s[1] == BACKSLASH)
  }

  function Emit(current: Text, rest: Option<seq<Text>>): Option<seq<Text>>
  {
    if rest.None? then None
    else Some((if current == [] then [] else [current]) + rest.value)
  }

  function Tokens(s: Text, current: Text, quote: Option<Unit>): Option<seq<Text>>
    decreases |s|
  {
    if s == [] then (if quote.Some? then None else Emit(current, Some([])))
    else if Escapes(s, quote) then (if |s| == 1 then None else Tokens(s[2..], current + [s[1]], quote))
    else if quote.Some? then
      if s[0] == quote.value then Tokens(s[1..], current, None) else Tokens(s[1..], current + [s[0]], quote)
    else if s[0] == APOSTROPHE || s[0] == QUOTE then Tokens(s[1..], current, Some(s[0]))
    else if IsSpaceCode(s[0]) then Emit(current, Tokens(s[1..], [], None))
    else Tokens(s[1..], current + [s[0]], None)
  }

  function Split(command: Text): Option<seq<Text>>
  {
    Tokens(Trim(command), [], None)
  }

  // ----- the loop

  /** What the loop's state still has to read: after an escaping backslash, the next unit as it is. */
  function Remainder(s: Text, current: Text, quote: Option<Unit>, escaped: bool): Option<seq<Text>>
  {
    if !escaped then Tokens(s, current, quote)
    else if s == [] then None
    else Tokens(s[1..], current + [s[0]], quote)
  }

  ghost predicate Reads(input: Text, parts: seq<Text>, left: Option<seq<Text>>)
  {
    Tokens(input, [], None) == if left.None? then None else Some(parts + left.value)
  }

  method SplitAdapterCommand(command: Text) returns (r: Option<seq<Text>>)
    ensures r == Split(command)
  {
    var parts: seq<Text>, current: Text := [], [];
    var quote: Option<Unit>, escaped := None, false;
    var input := Trim(command);
    var index := 0;
    assert input[0..] == input;
    assert forall rest: seq<Text> :: parts + rest == rest;
    while index < |input|
      invariant index <= |input|
      invariant Reads(input, parts, Remainder(input[index..], current, quote, escaped))
    {
      var character := input[index];
      ghost var s := input[index..];
      assert s[0] == character && s[1..] == input[index + 1..];
      index := index + 1;
      if escaped {
        current, escaped := current + [character], false;
        continue;
      }
      var next := if index < |input| then Some(input[index]) else None;
      assert |s| > 1 ==> next == Some(s[1]) && s[1..][1..] == s[2..];
      if character == BACKSLASH && quote != Some(APOSTROPHE) && (next == quote || next == Some(BACKSLASH)) {
        assert Escapes(s, quote);
        escaped := true;
        continue;
      }
      assert !Escapes(s, quote);
      if quote.Some? {
        if character == quote.value {
          quote := None;
        } else {
          current := current + [character];
        }
        continue;
      }
      if character == APOSTROPHE || character == QUOTE {
        quote := Some(character);
        continue;
      }
      if IsSpaceCode(character) {
        if current != [] {
          ghost var left := Tokens(s[1..], [], None);
          assert left.Some? ==> parts + ([current] + left.value) == parts + [current] + left.value;
          parts, current := parts + [current], [];
        } else {
          assert forall rest: seq<Text> :: [] + rest == rest;
        }
      } else {
        current := current + [character];
      }
    }
    if escaped || quote.Some? {
      return None;
    }
    assert forall rest: seq<Text> :: rest + [] == rest;
    if current != [] {
      parts := parts + [current];
    }
    return Some(parts);
  }

  // ----- quoting

  function ReplaceAll(t: Text, unit: Unit, instead: Text): Text
  {
    if t == [] then [] else (if t[0] == unit then instead else [t[0]]) + ReplaceAll(t[1..], unit, instead)
  }

  function QuoteAgentCommandToken(token: Text): Text
  {
    [QUOTE] + ReplaceAll(ReplaceAll(token, BACKSLASH, [BACKSLASH, BACKSLASH]), QUOTE, [BACKSLASH, QUOTE]) + [QUOTE]
  }

  /** A word of a command: quoted, or written as it is. */
  datatype Word = Quoted(text: Text) | Bare(text: Text)

  function Render(w: Word): Text
  {
    if w.Quoted? then QuoteAgentCommandToken(w.text) else w.text
  }

  /** `words.map(Render).join(" ")`. */
  function Join(words: seq<Word>): Text
  {
    if words == [] then []
    else if |words| == 1 then Render(words[0])
    else Render(words[0]) + [SPACE] + Join(words[1..])
  }

  predicate Safe(u: Unit)
  {
    u != QUOTE && u != APOSTROPHE && u != BACKSLASH && !IsSpaceCode(u)
  }

  predicate WellWritten(w: Word)
  {
    w.Bare? ==> w.text != [] && forall i :: 0 <= i < |w.text| ==> Safe(w.text[i])
  }

  predicate AllWellWritten(words: seq<Word>)
  {
    forall i :: 0 <= i < |words| ==> WellWritten(words[i])
  }

  function Texts(words: seq<Word>): (texts: seq<Text>)
    ensures |texts| == |words| && forall i :: 0 <= i < |words| ==> texts[i] == words[i].text
  {
    seq(|words|, i requires 0 <= i < |words| => words[i].text)
  }

  function NonEmpty(texts: seq<Text>): seq<Text>
  {
    if texts == [] then [] else (if texts[0] == [] then [] else [texts[0]]) + NonEmpty(texts[1..])
  }

  // ----- splitting undoes quoting

  /** The two replacements in a row, taken on the first unit. */
  function Doubled(u: Unit): Text
  {
    if u == BACKSLASH || u == QUOTE then [BACKSLASH, u] else [u]
  }

  function Body(token: Text): Text
  {
    ReplaceAll(ReplaceAll(token, BACKSLASH, [BACKSLASH, BACKSLASH]), QUOTE, [BACKSLASH, QUOTE])
  }

  lemma {:induction false} ReplaceAppends(a: Text, b: Text, unit: Unit, instead: Text)
    ensures ReplaceAll(a + b, unit, instead) == ReplaceAll(a, unit, instead) + ReplaceAll(b, unit, instead)
  {
    if a == [] {
      assert a + b == b;
    } else {
      assert (a + b)[1..] == a[1..] + b;
      ReplaceAppends(a[1..], b, unit, instead);
    }
  }

  lemma BodyStep(token: Text)
    requires token != []
    ensures Body(token) == Doubled(token[0]) + Body(token[1..])
  {
    var rest := ReplaceAll(token[1..], BACKSLASH, [BACKSLASH, BACKSLASH]);
    var first: Text := if token[0] == BACKSLASH then [BACKSLASH, BACKSLASH] else [token[0]];
    ReplaceAppends(first, rest, QUOTE, [BACKSLASH, QUOTE]);
    assert ReplaceAll(first, QUOTE, [BACKSLASH, QUOTE]) == Doubled(token[0]) by {
      assert first[1..] == if token[0] == BACKSLASH then [BACKSLASH] else [];
    }
  }

  lemma DoubledReads(u: Unit, after: Text, current: Text)
    ensures Tokens(Doubled(u) + after, current, Some(QUOTE)) == Tokens(after, current + [u], Some(QUOTE))
  {
    var s := Doubled(u) + after;
    if |Doubled(u)| == 2 {
      assert s[2..] == after;
    } else {
      assert s[1..] == after;
    }
  }

  /** Inside double quotes, a token's body reads as the token. */
  lemma {:induction false} BodyReads(token: Text, after: Text, current: Text)
    ensures Tokens(Body(token) + ([QUOTE] + after), current, Some(QUOTE)) == Tokens(after, current + token, None)
  {
    if token == [] {
      assert Body(token) + ([QUOTE] + after) == [QUOTE] + after;
      assert ([QUOTE] + after)[1..] == after;
      assert current + token == current;
    } else {
      BodyStep(token);
      var rest := Body(token[1..]) + ([QUOTE] + after);
      assert Body(token) + ([QUOTE] + after) == Doubled(token[0]) + rest;
      DoubledReads(token[0], rest, current);
      BodyReads(token[1..], after, current + [token[0]]);
      assert current + [token[0]] + token[1..] == current + token;
    }
  }

  lemma {:induction false} BareReads(token: Text, after: Text, current: Text)
    requires forall i :: 0 <= i < |token| ==> Safe(token[i])
    ensures Tokens(token + after, current, None) == Tokens(after, current + token, None)
  {
    if token == [] {
      assert token + after == after && current + token == current;
    } else {
      assert (token + after)[1..] == token[1..] + after;
      BareReads(token[1..], after, current + [token[0]]);
      assert current + [token[0]] + token[1..] == current + token;
    }
  }

  lemma WordReads(w: Word, after: Text)
    requires WellWritten(w)
    ensures Tokens(Render(w) + after, [], None) == Tokens(after, w.text, None)
  {
    if w.Quoted? {
      var s := Body(w.text) + ([QUOTE] + after);
      assert Render(w) + after == [QUOTE] + s;
      assert ([QUOTE] + s)[1..] == s;
      BodyReads(w.text, after, []);
      assert [] + w.text == w.text;
    } else {
      BareReads(w.text, after, []);
      assert [] + w.text == w.text;
    }
  }

  lemma {:induction false} JoinReads(words: seq<Word>)
    requires AllWellWritten(words)
    ensures Tokens(Join(words), [], None) == Some(NonEmpty(Texts(words)))
  {
    if words == [] {
      var none: seq<Text> := [];
      assert none + none == none;
      assert Texts(words) == none;
    } else {
      var texts := Texts(words);
      assert texts[1..] == Texts(words[1..]);
      assert texts == [words[0].text] + texts[1..];
      if |words| == 1 {
        WordReads(words[0], []);
        assert Render(words[0]) + [] == Join(words);
        assert texts[1..] == [];
        assert Emit(texts[0], Some([])) == Some(NonEmpty(texts));
      } else {
        var after := [SPACE] + Join(words[1..]);
        WordReads(words[0], after);
        assert Join(words) == Render(words[0]) + after;
        assert after[1..] == Join(words[1..]);
        JoinReads(words[1..]);
      }
    }
  }

  lemma {:induction false} JoinEnds(words: seq<Word>)
    requires AllWellWritten(words) && words != []
    ensures var s := Join(words); s != [] && !IsSpaceCode(s[0]) && !IsSpaceCode(s[|s| - 1])
  {
    if |words| > 1 {
      JoinEnds(words[1..]);
    }
  }

  lemma NothingToTrim(command: Text)
    requires command == [] || (!IsSpaceCode(command[0]) && !IsSpaceCode(command[|command| - 1]))
    ensures Split(command) == Tokens(command, [], None)
  {
    assert Trim(command) == command;
  }

  /** Splitting a command written from words gives the words back, but for the empty ones. */
  lemma SplitUndoesJoin(words: seq<Word>)
    requires AllWellWritten(words)
    ensures Split(Join(words)) == Some(NonEmpty(Texts(words)))
  {
    if words != [] {
      JoinEnds(words);
    }
    NothingToTrim(Join(words));
    JoinReads(words);
  }

  lemma {:induction false} NonEmptyExactly(texts: seq<Text>)
    ensures |NonEmpty(texts)| <= |texts|
    ensures NonEmpty(texts) == texts <==> [] !in texts
  {
    if texts != [] {
      NonEmptyExactly(texts[1..]);
      assert texts == [texts[0]] + texts[1..];
      if texts[0] == [] {
        assert |NonEmpty(texts)| < |texts|;
      } else {
        assert NonEmpty(texts)[1..] == NonEmpty(texts[1..]);
      }
    }
  }

  /** The round trip holds exactly for lists without an empty token. */
  lemma RoundTripExactly(words: seq<Word>)
    requires AllWellWritten(words)
    ensures Split(Join(words)) == Some(Texts(words)) <==> [] !in Texts(words)
  {
    SplitUndoesJoin(words);
    NonEmptyExactly(Texts(words));
  }

  // ----- the command of an active launch

  /** `JSON.stringify(path)`. */
  function JsonQuoted(path: Text): Text
  {
    [QUOTE] + Escape(path) + [QUOTE]
  }

  function LaunchCommand(node: Text, entry: Text): Text
  {
    JsonQuoted(node) + [SPACE] + JsonQuoted(entry)
  }

  /** A unit JSON writes as itself or behind one backslash; the splitter undoes no other escape. */
  predicate Readable(u: Unit)
  {
    u >= 32 && !High(u) && !Low(u)
  }

  /** No control character and no lone surrogate. */
  predicate Clean(t: Text)
  {
    t == [] || (if StartsPair(t) then Clean(t[2..]) else Readable(t[0]) && Clean(t[1..]))
  }

  /** What the splitter makes of one escaped unit. */
  function RawUnit(u: Unit): Text
  {
    if u == QUOTE || u == BACKSLASH then [u] else EscapeUnit(u)
  }

  function Raw(t: Text): Text
  {
    if t == [] then []
    else if StartsPair(t) then [t[0], t[1]] + Raw(t[2..])
    else RawUnit(t[0]) + Raw(t[1..])
  }

  lemma {:induction false} RawExactly(t: Text)
    ensures |Raw(t)| >= |t|
    ensures Raw(t) == t <==> Clean(t)
  {
    if t != [] {
      if StartsPair(t) {
        RawExactly(t[2..]);
        assert t == [t[0], t[1]] + t[2..];
        assert Raw(t)[2..] == Raw(t[2..]);
      } else {
        RawExactly(t[1..]);
        assert t == [t[0]] + t[1..];
        if Readable(t[0]) {
          assert Raw(t)[1..] == Raw(t[1..]);
        } else {
          assert |Raw(t)| > |t|;
        }
      }
    }
  }

  /** Units between double quotes that start no escape read as themselves. */
  lemma {:induction false} LiteralReads(literal: Text, after: Text, current: Text)
    requires forall i :: 0 <= i < |literal| ==> literal[i] != QUOTE
    requires forall i :: 0 < i < |literal| ==> literal[i] != BACKSLASH
    requires literal != [] && literal[0] == BACKSLASH ==> |literal| > 1
    ensures Tokens(literal + after, current, Some(QUOTE)) == Tokens(after, current + literal, Some(QUOTE))
  {
    if literal == [] {
      assert literal + after == after && current + literal == current;
    } else {
      var s := literal + after;
      assert !Escapes(s, Some(QUOTE));
      assert s[1..] == literal[1..] + after;
      LiteralReads(literal[1..], after, current + [literal[0]]);
      assert current + [literal[0]] + literal[1..] == current + literal;
    }
  }

  lemma EscapedUnitReads(u: Unit, after: Text, current: Text)
    ensures Tokens(EscapeUnit(u) + after, current, Some(QUOTE)) == Tokens(after, current + RawUnit(u), Some(QUOTE))
  {
    if u == QUOTE || u == BACKSLASH {
      assert (EscapeUnit(u) + after)[2..] == after;
    } else {
      LiteralReads(EscapeUnit(u), after, current);
    }
  }

  lemma PairReads(pair: Text, rest: Text, after: Text, current: Text)
    requires StartsPair(pair) && |pair| == 2
    ensures Tokens(pair + rest + after, current, Some(QUOTE)) == Tokens(rest + after, current + pair, Some(QUOTE))
  {
    Regroup(pair, rest, after);
    LiteralReads(pair, rest + after, current);
  }

  lemma UnitReads(u: Unit, rest: Text, after: Text, current: Text)
    ensures Tokens(EscapeUnit(u) + rest + after, current, Some(QUOTE))
         == Tokens(rest + after, current + RawUnit(u), Some(QUOTE))
  {
    Regroup(EscapeUnit(u), rest, after);
    EscapedUnitReads(u, rest + after, current);
  }

  lemma {:induction false} EscapeReads(t: Text, after: Text, current: Text)
    ensures Tokens(Escape(t) + ([QUOTE] + after), current, Some(QUOTE)) == Tokens(after, current + Raw(t), None)
  {
    if t == [] {
      assert Escape(t) + ([QUOTE] + after) == [QUOTE] + after;
      assert ([QUOTE] + after)[1..] == after;
      assert current + Raw(t) == current;
    } else if StartsPair(t) {
      var pair: Text := [t[0], t[1]];
      PairReads(pair, Escape(t[2..]), [QUOTE] + after, current);
      EscapeReads(t[2..], after, current + pair);
      Regroup(current, pair, Raw(t[2..]));
    } else {
      UnitReads(t[0], Escape(t[1..]), [QUOTE] + after, current);
      EscapeReads(t[1..], after, current + RawUnit(t[0]));
      Regroup(current, RawUnit(t[0]), Raw(t[1..]));
    }
  }

  lemma JsonQuotedReads(path: Text, after: Text)
    ensures Tokens(JsonQuoted(path) + after, [], None) == Tokens(after, Raw(path), None)
  {
    var s := Escape(path) + ([QUOTE] + after);
    assert JsonQuoted(path) + after == [QUOTE] + s;
    assert ([QUOTE] + s)[1..] == s;
    EscapeReads(path, after, []);
    assert [] + Raw(path) == Raw(path);
  }

  lemma LaunchCommandReads(node: Text, entry: Text)
    ensures Split(LaunchCommand(node, entry)) == Some(NonEmpty([Raw(node), Raw(entry)]))
  {
    var command, after := LaunchCommand(node, entry), [SPACE] + JsonQuoted(entry);
    assert command == JsonQuoted(node) + after;
    NothingToTrim(command);
    JsonQuotedReads(node, after);
    assert after[1..] == JsonQuoted(entry) + [];
    JsonQuotedReads(entry, []);
    assert Tokens(after, Raw(node), None) == Emit(Raw(node), Emit(Raw(entry), Some([])));
    NonEmptyPair(Raw(node), Raw(entry));
  }

  lemma NonEmptyPair(a: Text, b: Text)
    ensures Emit(a, Emit(b, Some([]))) == Some(NonEmpty([a, b]))
    ensures a != [] && b != [] ==> NonEmpty([a, b]) == [a, b]
    ensures a == [] || b == [] ==> |NonEmpty([a, b])| < 2
  {
    assert [a, b][1..] == [b] && [b][1..] == [];
    assert NonEmpty([b]) == if b == [] then [] else [b];
  }

  /** The two forms of an active launch name the same argument vector exactly for non-empty clean paths. */
  lemma CommandAgreesExactly(node: Text, entry: Text)
    ensures Split(LaunchCommand(node, entry)) == Some([node, entry])
      <==> node != [] && entry != [] && Clean(node) && Clean(entry)
  {
    LaunchCommandReads(node, entry);
    RawExactly(node);
    RawExactly(entry);
    NonEmptyPair(Raw(node), Raw(entry));
  }
}
