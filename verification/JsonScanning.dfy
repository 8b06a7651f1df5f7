/** How a JSON text is read when it is closed: strings with their escapes, nesting, and the white space around
    the text, without the automaton that reads it. */
module JsonScanning {
  import opened Options
  import opened PartialJson
  import opened Pieces

  // ----- strings -----

  /** The backslashes directly before a position. */
  function Backslashes(body: seq<Byte>, n: nat): nat
    requires n <= |body|
  {
    if n == 0 || body[n - 1] != BACKSLASH then 0 else 1 + Backslashes(body, n - 1)
  }

  predicate Escaped(body: seq<Byte>, n: nat)
    requires n <= |body|
  {
    Backslashes(body, n) % 2 == 1
  }

  /** No quote ends the string. */
  predicate Unended(body: seq<Byte>) { forall i :: 0 <= i < |body| && body[i] == QUOTE ==> Escaped(body, i) }

  function Outside(stack: seq<Byte>): Scan { Scan(stack, false, false) }

  lemma {:induction false} SameBackslashes(body: seq<Byte>, more: seq<Byte>, n: nat)
    requires n <= |body|
    ensures Backslashes(body + more, n) == Backslashes(body, n)
  {
    if n > 0 { SameBackslashes(body, more, n - 1); }
  }

  /** Within a string only a quote that is not escaped counts, and a quote is escaped by an odd number of
      backslashes before it. */
  lemma {:induction false} StringIsRead(stack: seq<Byte>, body: seq<Byte>)
    requires Unended(body)
    ensures ScanFrom(Outside(stack), [QUOTE] + body) == Some(Scan(stack, true, Escaped(body, |body|)))
  {
    if body == [] {
      ScanOne(Outside(stack), QUOTE);
      assert [QUOTE] + [] == [QUOTE];
    } else {
      var front, last := body[..|body| - 1], body[|body| - 1];
      assert body == front + [last];
      forall i | 0 <= i < |front| && front[i] == QUOTE ensures Escaped(front, i) {
        assert body[i] == QUOTE;
        SameBackslashes(front, [last], i);
      }
      StringIsRead(stack, front);
      SameBackslashes(front, [last], |front|);
      assert ([QUOTE] + body)[..|body|] == [QUOTE] + front;
    }
  }

  lemma {:induction false} StringEnds(stack: seq<Byte>, body: seq<Byte>)
    requires Unended(body) && !Escaped(body, |body|)
    ensures ScanFrom(Outside(stack), [QUOTE] + body + [QUOTE]) == Some(Outside(stack))
  {
    StringIsRead(stack, body);
    hide Escaped;
    ScanJoin(Outside(stack), [QUOTE] + body, [QUOTE]);
    ScanOne(Scan(stack, true, false), QUOTE);
  }

  // ----- outside strings -----

  predicate IsOpen(byte: Byte) { byte == OPEN_BRACE || byte == OPEN_BRACKET }

  predicate IsClose(byte: Byte) { byte == CLOSE_BRACE || byte == CLOSE_BRACKET }

  predicate Closes(open: Byte, close: Byte) {
    (open == OPEN_BRACE && close == CLOSE_BRACE) || (open == OPEN_BRACKET && close == CLOSE_BRACKET)
  }

  /** Other bytes, backslashes among them, change nothing. */
  lemma {:induction false} PlainIsSkipped(stack: seq<Byte>, text: seq<Byte>)
    requires forall i :: 0 <= i < |text| ==> text[i] != QUOTE && !IsOpen(text[i]) && !IsClose(text[i])
    ensures ScanFrom(Outside(stack), text) == Some(Outside(stack))
  {
    if text != [] { PlainIsSkipped(stack, text[..|text| - 1]); }
  }

  lemma {:induction false} DeeperStack(base: seq<Byte>, scan: Scan, text: seq<Byte>)
    requires ScanFrom(scan, text).Some?
    ensures var after := ScanFrom(scan, text).value;
      ScanFrom(scan.(stack := base + scan.stack), text) == Some(after.(stack := base + after.stack))
  {
    if text != [] {
      DeeperStack(base, scan, text[..|text| - 1]);
      var before := ScanFrom(scan, text[..|text| - 1]).value;
      NextDeeper(base, before, text[|text| - 1]);
    }
  }

  lemma NextDeeper(base: seq<Byte>, scan: Scan, byte: Byte)
    requires Next(scan, byte).Some?
    ensures var after := Next(scan, byte).value;
      Next(scan.(stack := base + scan.stack), byte) == Some(after.(stack := base + after.stack))
  {
    assert base + (scan.stack + [byte]) == base + scan.stack + [byte];
    if scan.stack != [] {
      assert (base + scan.stack)[..|base + scan.stack| - 1] == base + scan.stack[..|scan.stack| - 1];
    }
  }

  /** A balanced text changes nothing wherever it stands. */
  lemma {:induction false} BalancedAnywhere(stack: seq<Byte>, text: seq<Byte>)
    requires Balanced(text)
    ensures ScanFrom(Outside(stack), text) == Some(Outside(stack))
  {
    DeeperStack(stack, START, text);
    assert stack + [] == stack;
  }

  /** A bracket is closed by its own kind, after a balanced text; the other kind is an error. */
  lemma {:induction false} BracketsMatch(stack: seq<Byte>, open: Byte, inner: seq<Byte>, close: Byte)
    requires IsOpen(open) && IsClose(close) && Balanced(inner)
    ensures ScanFrom(Outside(stack), [open] + inner + [close])
         == if Closes(open, close) then Some(Outside(stack)) else None
  {
    ScanJoin(Outside(stack), [open] + inner, [close]);
    ScanJoin(Outside(stack), [open], inner);
    ScanOne(Outside(stack), open);
    BalancedAnywhere(stack + [open], inner);
    ScanOne(Outside(stack + [open]), close);
    assert (stack + [open])[..|stack|] == stack;
  }

  /** What closes nothing is an error. */
  lemma {:induction false} CloseNeedsOpen(text: seq<Byte>, close: Byte)
    requires IsClose(close) && Balanced(text)
    ensures ScanFrom(START, text + [close]).None?
  {
    ScanJoin(START, text, [close]);
    ScanOne(START, close);
  }

  // ----- the closing -----

  /** A text cut inside a string is closed by ending the string, after escaping a backslash left dangling, and
      then every bracket still open. */
  lemma {:induction false} CutInsideString(before: seq<Byte>, stack: seq<Byte>, body: seq<Byte>)
    requires ScanFrom(START, before) == Some(Outside(stack)) && Unended(body)
    requires TrimSpace(before + ([QUOTE] + body)) == before + ([QUOTE] + body)
    ensures Close(before + ([QUOTE] + body))
         == Some(before + ([QUOTE] + body)
                 + ((if Escaped(body, |body|) then [BACKSLASH] else []) + [QUOTE] + Closers(stack)))
  {
    StringIsRead(stack, body);
    ScanJoin(START, before, [QUOTE] + body);
    hide Escaped, TrimSpace, ScanFrom, Closers;
  }

  // ----- white space -----

  ghost predicate AllSpace(text: seq<Byte>) {
    exists codes :: Flat(codes) == text && forall k :: 0 <= k < |codes| ==> IsSpace(codes[k])
  }

  predicate NoSpaceAround(text: seq<Byte>) {
    forall n :: 0 <= n <= |text| ==> !IsSpace(text[..n]) && !IsSpace(text[n..])
  }

  lemma SpaceIsShort(code: seq<Byte>)
    ensures IsSpace(code) ==> 1 <= |code| <= 3
  {}

  lemma NoSpaces()
    ensures AllSpace([])
  {
    assert Flat<Byte>([]) == [];
  }

  lemma {:induction false} SpaceFirst(code: seq<Byte>, text: seq<Byte>)
    requires IsSpace(code) && AllSpace(text)
    ensures AllSpace(code + text)
  {
    hide IsSpace;
    var codes :| Flat(codes) == text && forall k :: 0 <= k < |codes| ==> IsSpace(codes[k]);
    FlatFirst(code, codes);
    assert forall k :: 0 <= k < |[code] + codes| ==> IsSpace(([code] + codes)[k]);
  }

  lemma {:induction false} SpaceLast(text: seq<Byte>, code: seq<Byte>)
    requires IsSpace(code) && AllSpace(text)
    ensures AllSpace(text + code)
  {
    hide IsSpace;
    var codes :| Flat(codes) == text && forall k :: 0 <= k < |codes| ==> IsSpace(codes[k]);
    FlatMore(codes, code);
    assert forall k :: 0 <= k < |codes + [code]| ==> IsSpace((codes + [code])[k]);
  }

  lemma NoSpaceStarts(text: seq<Byte>, n: nat)
    requires SpaceAtStart(text) == 0 && n <= |text|
    ensures !IsSpace(text[..n])
  {
    SpaceIsShort(text[..n]);
    hide IsSpace;
  }

  lemma SpaceStarts(text: seq<Byte>)
    requires SpaceAtStart(text) > 0
    ensures IsSpace(text[..SpaceAtStart(text)])
  {
    hide IsSpace;
  }

  lemma {:induction false} StartTrimmed(text: seq<Byte>) returns (cut: nat)
    ensures cut <= |text| && TrimStart(text) == text[cut..] && AllSpace(text[..cut])
    ensures forall n :: 0 <= n <= |text| - cut ==> !IsSpace(text[cut..][..n])
    decreases |text|
  {
    hide IsSpace, AllSpace, SpaceAtStart;
    var size := SpaceAtStart(text);
    NoSpaces();
    if size == 0 {
      cut := 0;
      assert text[..0] == [] && text[0..] == text;
      forall n | 0 <= n <= |text| ensures !IsSpace(text[..n]) { NoSpaceStarts(text, n); }
    } else {
      SpaceStarts(text);
      var rest := text[size..];
      var more := StartTrimmed(rest);
      cut := size + more;
      SpaceFirst(text[..size], rest[..more]);
      assert text[..size] + rest[..more] == text[..cut] && rest[more..] == text[cut..];
    }
  }

  lemma NoSpaceEnds(text: seq<Byte>, n: nat)
    requires SpaceAtEnd(text) == 0 && n <= |text|
    ensures !IsSpace(text[n..])
  {
    SpaceIsShort(text[n..]);
    hide IsSpace;
    if |text[n..]| == 1 {
      assert n == |text| - 1;
    } else if |text[n..]| == 2 {
      assert n == |text| - 2;
    } else if |text[n..]| == 3 {
      assert n == |text| - 3;
    }
  }

  lemma {:induction false} EndTrimmed(text: seq<Byte>) returns (end: nat)
    ensures end <= |text| && TrimEnd(text) == text[..end] && AllSpace(text[end..])
    ensures forall n :: 0 <= n <= end ==> !IsSpace(text[..end][n..])
    decreases |text|
  {
    hide IsSpace, AllSpace, SpaceAtEnd;
    var size := SpaceAtEnd(text);
    NoSpaces();
    if size == 0 {
      end := |text|;
      assert text[end..] == [] && text[..end] == text;
      forall n | 0 <= n <= |text| ensures !IsSpace(text[n..]) { NoSpaceEnds(text, n); }
    } else {
      var rest := text[..|text| - size];
      end := EndTrimmed(rest);
      SpaceLast(rest[end..], text[|text| - size..]);
      assert rest[end..] + text[|text| - size..] == text[end..] && rest[..end] == text[..end];
    }
  }

  /** Trimming removes white space at both ends, all of it and nothing else. */
  lemma {:induction false} TrimmedIs(text: seq<Byte>)
    ensures exists before, after ::
      && text == before + TrimSpace(text) + after && AllSpace(before) && AllSpace(after)
      && NoSpaceAround(TrimSpace(text))
  {
    hide IsSpace, AllSpace, TrimStart, TrimEnd;
    var cut := StartTrimmed(text);
    var middle := text[cut..];
    var end := EndTrimmed(middle);
    var trimmed := middle[..end];
    forall n | 0 <= n <= |trimmed| ensures !IsSpace(trimmed[..n]) && !IsSpace(trimmed[n..]) {
      assert trimmed[..n] == text[cut..][..n];
    }
    assert text == text[..cut] + trimmed + middle[end..];
  }
}
