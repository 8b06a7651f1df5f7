/** Closing a JSON text that was cut short, so that what has arrived so far can be decoded. */
module PartialJson {
  import opened Options

  newtype Byte = b: int | 0 <= b < 256

  const QUOTE: Byte := 34
  const BACKSLASH: Byte := 92
  const OPEN_BRACKET: Byte := 91
  const CLOSE_BRACKET: Byte := 93
  const OPEN_BRACE: Byte := 123
  const CLOSE_BRACE: Byte := 125

  // ----- white space around the text, in UTF-8 -----

  /** The encodings of the code points that count as white space. */
  predicate IsSpace(code: seq<Byte>) {
    || (|code| == 1 && (9 <= code[0] <= 13 || code[0] == 32))
    || (|code| == 2 && code[0] == 0xC2 && (code[1] == 0x85 || code[1] == 0xA0))
    || (|code| == 3 && code[0] == 0xE1 && code[1] == 0x9A && code[2] == 0x80)
    || (|code| == 3 && code[0] == 0xE2 && code[1] == 0x80
        && (0x80 <= code[2] <= 0x8A || code[2] == 0xA8 || code[2] == 0xA9 || code[2] == 0xAF))
    || (|code| == 3 && code[0] == 0xE2 && code[1] == 0x81 && code[2] == 0x9F)
    || (|code| == 3 && code[0] == 0xE3 && code[1] == 0x80 && code[2] == 0x80)
  }

  function SpaceAtStart(text: seq<Byte>): (size: nat)
    ensures size <= |text|
  {
    if |text| >= 1 && IsSpace(text[..1]) then 1
    else if |text| >= 2 && IsSpace(text[..2]) then 2
    else if |text| >= 3 && IsSpace(text[..3]) then 3
    else 0
  }

  function SpaceAtEnd(text: seq<Byte>): (size: nat)
    ensures size <= |text| && (size > 0 ==> IsSpace(text[|text| - size..]))
  {
    if |text| >= 1 && IsSpace(text[|text| - 1..]) then 1
    else if |text| >= 2 && IsSpace(text[|text| - 2..]) then 2
    else if |text| >= 3 && IsSpace(text[|text| - 3..]) then 3
    else 0
  }

  function TrimStart(text: seq<Byte>): seq<Byte>
    decreases |text|
  {
    if SpaceAtStart(text) == 0 then text else TrimStart(text[SpaceAtStart(text)..])
  }

  function TrimEnd(text: seq<Byte>): seq<Byte>
    decreases |text|
  {
    if SpaceAtEnd(text) == 0 then text else TrimEnd(text[..|text| - SpaceAtEnd(text)])
  }

  function TrimSpace(text: seq<Byte>): seq<Byte> { TrimEnd(TrimStart(text)) }

  // ----- scanning -----

  /** Open brackets, innermost last, and whether the text stands inside a string, after a backslash. */
  datatype Scan = Scan(stack: seq<Byte>, inString: bool, escaped: bool)

  const START := Scan([], false, false)

  function Opening(close: Byte): Byte { if close == CLOSE_BRACE then OPEN_BRACE else OPEN_BRACKET }

  /** None when a closing bracket does not match the innermost open one. */
  function Next(scan: Scan, byte: Byte): Option<Scan> {
    if scan.inString then
      if scan.escaped then Some(scan.(escaped := false))
      else if byte == BACKSLASH then Some(scan.(escaped := true))
      else if byte == QUOTE then Some(scan.(inString := false))
      else Some(scan)
    else if byte == QUOTE then Some(scan.(inString := true))
    else if byte == OPEN_BRACE || byte == OPEN_BRACKET then Some(scan.(stack := scan.stack + [byte]))
    else if byte == CLOSE_BRACE || byte == CLOSE_BRACKET then
      if scan.stack == [] || scan.stack[|scan.stack| - 1] != Opening(byte) then None
      else Some(scan.(stack := scan.stack[..|scan.stack| - 1]))
    else Some(scan)
  }

  function ScanFrom(scan: Scan, text: seq<Byte>): Option<Scan> {
    if text == [] then Some(scan)
    else
      var before := ScanFrom(scan, text[..|text| - 1]);
      if before.None? then None else Next(before.value, text[|text| - 1])
  }

  /** All brackets and strings of the text are closed. */
  predicate Balanced(text: seq<Byte>) { ScanFrom(START, text) == Some(START) }

  predicate ScanOk(scan: Scan) {
    && (scan.escaped ==> scan.inString)
    && forall i :: 0 <= i < |scan.stack| ==> scan.stack[i] == OPEN_BRACE || scan.stack[i] == OPEN_BRACKET
  }

  /** The closing brackets, innermost first. */
  function Closers(stack: seq<Byte>): seq<Byte> {
    if stack == [] then []
    else [if stack[|stack| - 1] == OPEN_BRACE then CLOSE_BRACE else CLOSE_BRACKET] + Closers(stack[..|stack| - 1])
  }

  /** A dangling backslash is escaped, an open string ended, every bracket closed. */
  function Ending(scan: Scan): seq<Byte> {
    (if scan.inString then (if scan.escaped then [BACKSLASH] else []) + [QUOTE] else []) + Closers(scan.stack)
  }

  function Close(prefix: seq<Byte>): Option<seq<Byte>> {
    var text := TrimSpace(prefix);
    var scan := ScanFrom(START, text);
    if scan.None? then None else Some(text + Ending(scan.value))
  }

  // ----- what closing achieves -----

  lemma {:induction false} ScanJoin(scan: Scan, a: seq<Byte>, b: seq<Byte>)
    ensures ScanFrom(scan, a + b) == if ScanFrom(scan, a).None? then None else ScanFrom(ScanFrom(scan, a).value, b)
  {
    hide Next;
    if b == [] {
      assert a + b == a;
    } else {
      ScanJoin(scan, a, b[..|b| - 1]);
      assert (a + b)[..|a + b| - 1] == a + b[..|b| - 1];
    }
  }

  lemma ScanOne(scan: Scan, byte: Byte)
    ensures ScanFrom(scan, [byte]) == Next(scan, byte)
  {
    assert [byte][..0] == [];
  }

  lemma {:induction false} ScanKeepsOk(scan: Scan, text: seq<Byte>)
    requires ScanOk(scan) && ScanFrom(scan, text).Some?
    ensures ScanOk(ScanFrom(scan, text).value)
  {
    if text != [] { ScanKeepsOk(scan, text[..|text| - 1]); }
  }

  lemma {:induction false} ClosersClose(stack: seq<Byte>)
    requires ScanOk(Scan(stack, false, false))
    ensures ScanFrom(Scan(stack, false, false), Closers(stack)) == Some(START)
  {
    if stack != [] {
      var front := stack[..|stack| - 1];
      ClosersClose(front);
      var close := if stack[|stack| - 1] == OPEN_BRACE then CLOSE_BRACE else CLOSE_BRACKET;
      ScanJoin(Scan(stack, false, false), [close], Closers(front));
      ScanOne(Scan(stack, false, false), close);
    }
  }

  lemma {:induction false} EndingCloses(scan: Scan)
    requires ScanOk(scan)
    ensures ScanFrom(scan, Ending(scan)) == Some(START)
  {
    ClosersClose(scan.stack);
    if scan.inString {
      var ended := Scan(scan.stack, false, false);
      var open := Scan(scan.stack, true, false);
      ScanOne(open, QUOTE);
      ScanJoin(open, [QUOTE], Closers(scan.stack));
      if scan.escaped {
        ScanOne(scan, BACKSLASH);
        ScanJoin(scan, [BACKSLASH], [QUOTE] + Closers(scan.stack));
        assert [BACKSLASH] + ([QUOTE] + Closers(scan.stack)) == Ending(scan);
      } else {
        assert [QUOTE] + Closers(scan.stack) == Ending(scan);
      }
    } else {
      assert Closers(scan.stack) == Ending(scan);
    }
  }

  /** How many bytes are missing at least. */
  function Debt(scan: Scan): nat {
    |scan.stack| + (if scan.inString then 1 else 0) + (if scan.escaped then 1 else 0)
  }

  lemma {:induction false} DebtFallsSlowly(scan: Scan, text: seq<Byte>)
    requires ScanFrom(scan, text).Some?
    ensures Debt(scan) <= Debt(ScanFrom(scan, text).value) + |text|
  {
    if text != [] { DebtFallsSlowly(scan, text[..|text| - 1]); }
  }

  lemma {:induction false} ClosersLength(stack: seq<Byte>)
    ensures |Closers(stack)| == |stack|
  {
    if stack != [] { ClosersLength(stack[..|stack| - 1]); }
  }

  ghost predicate Completes(text: seq<Byte>, more: seq<Byte>) { Balanced(text + more) }

  /** Closing fails exactly when nothing that could still arrive would complete the text. Otherwise it
      completes the text, and nothing shorter does. */
  lemma {:induction false} CloseIsShortestCompletion(prefix: seq<Byte>)
    ensures Close(prefix).Some? <==> exists more :: Completes(TrimSpace(prefix), more)
    ensures Close(prefix).Some? ==>
      var (text, closed) := (TrimSpace(prefix), Close(prefix).value);
      && text <= closed && Completes(text, closed[|text|..])
      && forall more :: Completes(text, more) ==> |closed| - |text| <= |more|
  {
    hide Next, TrimSpace;
    var text := TrimSpace(prefix);
    forall more | Completes(text, more) ensures ScanFrom(START, text).Some? { ScanJoin(START, text, more); }
    if ScanFrom(START, text).Some? {
      var scan := ScanFrom(START, text).value;
      ScanKeepsOk(START, text);
      EndingCloses(scan);
      ScanJoin(START, text, Ending(scan));
      var closed := text + Ending(scan);
      assert closed[|text|..] == Ending(scan);
      assert Completes(text, Ending(scan));
      ClosersLength(scan.stack);
      forall more | Completes(text, more) ensures |closed| - |text| <= |more| {
        ScanJoin(START, text, more);
        DebtFallsSlowly(scan, more);
      }
    }
  }

  // ----- closing what is closed -----

  /** No white space at either end. */
  predicate Trimmed(text: seq<Byte>) { SpaceAtStart(text) == 0 && SpaceAtEnd(text) == 0 }

  lemma {:induction false} TrimStartDone(text: seq<Byte>)
    ensures SpaceAtStart(TrimStart(text)) == 0
    decreases |text|
  {
    hide IsSpace;
    if SpaceAtStart(text) != 0 { TrimStartDone(text[SpaceAtStart(text)..]); }
  }

  lemma {:induction false} TrimEndDone(text: seq<Byte>)
    requires SpaceAtStart(text) == 0
    ensures Trimmed(TrimEnd(text))
    decreases |text|
  {
    if SpaceAtEnd(text) != 0 {
      var rest := text[..|text| - SpaceAtEnd(text)];
      ShorterStart(text, rest);
      TrimEndDone(rest);
    }
  }

  lemma ShorterStart(text: seq<Byte>, rest: seq<Byte>)
    requires rest <= text && SpaceAtStart(text) == 0
    ensures SpaceAtStart(rest) == 0
  {
    if |rest| >= 1 { assert rest[..1] == text[..1]; }
    if |rest| >= 2 { assert rest[..2] == text[..2]; }
    if |rest| >= 3 { assert rest[..3] == text[..3]; }
    hide IsSpace;
  }

  predicate Ascii(text: seq<Byte>) { forall i :: 0 <= i < |text| ==> 32 < text[i] < 128 }

  /** Visible ASCII characters after a trimmed text leave it trimmed. */
  lemma {:induction false} TrimmedMore(text: seq<Byte>, more: seq<Byte>)
    requires Trimmed(text) && Ascii(more) && (text == [] ==> more == [])
    ensures Trimmed(text + more)
  {
    var all := text + more;
    if more == [] {
      assert all == text;
    } else {
      LastVisible(all);
      FirstStays(text, more);
    }
  }

  lemma LastVisible(all: seq<Byte>)
    requires all != [] && 32 < all[|all| - 1] < 128
    ensures SpaceAtEnd(all) == 0
  {
    hide IsSpace, SpaceAtEnd;
    var size := SpaceAtEnd(all);
    if size > 0 { SpaceLast(all[|all| - size..]); }
  }

  lemma SpaceLast(code: seq<Byte>)
    requires code != []
    ensures IsSpace(code) ==> code[|code| - 1] <= 32 || code[|code| - 1] >= 128
  {}

  lemma FirstStays(text: seq<Byte>, more: seq<Byte>)
    requires text != [] && SpaceAtStart(text) == 0 && Ascii(more)
    ensures SpaceAtStart(text + more) == 0
  {
    var all := text + more;
    assert all[..1] == text[..1];
    if |all| >= 2 {
      if |text| >= 2 { assert all[..2] == text[..2]; } else { assert all[..2][1] == more[0]; }
    }
    if |all| >= 3 {
      if |text| >= 3 { assert all[..3] == text[..3]; } else { assert all[..3][2] == more[2 - |text|]; }
    }
  }

  lemma {:induction false} ClosersAscii(stack: seq<Byte>)
    ensures Ascii(Closers(stack))
  {
    if stack != [] { ClosersAscii(stack[..|stack| - 1]); }
  }

  lemma EndingAscii(scan: Scan)
    ensures Ascii(Ending(scan))
  {
    ClosersAscii(scan.stack);
  }

  /** What was closed is complete, and closing it again changes nothing. */
  lemma {:induction false} CloseIsFixpoint(prefix: seq<Byte>)
    requires Close(prefix).Some?
    ensures Balanced(Close(prefix).value) && Close(Close(prefix).value) == Close(prefix)
  {
    hide Next, SpaceAtStart, SpaceAtEnd, IsSpace, TrimStart, TrimEnd;
    var text := TrimSpace(prefix);
    var scan := ScanFrom(START, text).value;
    ScanKeepsOk(START, text);
    EndingCloses(scan);
    ScanJoin(START, text, Ending(scan));
    TrimStartDone(prefix);
    TrimEndDone(TrimStart(prefix));
    EndingAscii(scan);
    NothingToClose();
    TrimmedMore(text, Ending(scan));
    TrimmedStays(text + Ending(scan));
    var closed := text + Ending(scan);
    assert Ending(START) == [] && closed + [] == closed;
  }

  lemma NothingToClose()
    ensures ScanFrom(START, []) == Some(START) && Ending(START) == []
  {}

  lemma TrimmedStays(text: seq<Byte>)
    requires Trimmed(text)
    ensures TrimSpace(text) == text
  {
    hide IsSpace;
  }

  // ----- the code -----

  method CloseJsonPrefix(prefix: seq<Byte>) returns (closed: Option<seq<Byte>>)
    ensures closed == Close(prefix)
  {
    hide TrimSpace, ScanFrom, Closers;
    NothingToClose();
    var candidate := TrimSpace(prefix);
    var text := candidate;
    var stack: seq<Byte>, inString, escaped := [], false, false;
    var k := 0;
    while k < |text|
      invariant 0 <= k <= |text| && candidate == text
      invariant ScanFrom(START, text[..k]) == Some(Scan(stack, inString, escaped))
    {
      ScanStops(text, k);
      var byte := candidate[k];
      if inString {
        if escaped {
          escaped := false;
        } else if byte == BACKSLASH {
          escaped := true;
        } else if byte == QUOTE {
          inString := false;
        }
      } else if byte == QUOTE {
        inString := true;
      } else if byte == OPEN_BRACE || byte == OPEN_BRACKET {
        stack := stack + [byte];
      } else if byte == CLOSE_BRACE {
        if |stack| == 0 || stack[|stack| - 1] != OPEN_BRACE { return None; }
        stack := stack[..|stack| - 1];
      } else if byte == CLOSE_BRACKET {
        if |stack| == 0 || stack[|stack| - 1] != OPEN_BRACKET { return None; }
        stack := stack[..|stack| - 1];
      }
      k := k + 1;
    }
    assert text[..k] == text;
    ghost var scan := Scan(stack, inString, escaped);
    if inString {
      if escaped { candidate := candidate + [BACKSLASH]; }
      candidate := candidate + [QUOTE];
    }
    var result := AppendClosers(candidate, stack);
    assert result == text + Ending(scan);
    closed := Some(result);
  }

  method AppendClosers(text: seq<Byte>, stack: seq<Byte>) returns (closed: seq<Byte>)
    ensures closed == text + Closers(stack)
  {
    closed := text;
    var index := |stack|;
    assert stack[..index] == stack;
    while index > 0
      invariant 0 <= index <= |stack| && closed + Closers(stack[..index]) == text + Closers(stack)
    {
      assert stack[..index][..index - 1] == stack[..index - 1];
      var close := if stack[index - 1] == OPEN_BRACE then CLOSE_BRACE else CLOSE_BRACKET;
      assert closed + [close] + Closers(stack[..index - 1]) == closed + ([close] + Closers(stack[..index - 1]));
      closed := closed + [close];
      index := index - 1;
    }
  }

  lemma {:induction false} ScanStops(text: seq<Byte>, k: nat)
    requires k < |text| && ScanFrom(START, text[..k]).Some?
    ensures ScanFrom(START, text[..k + 1]) == Next(ScanFrom(START, text[..k]).value, text[k])
    ensures ScanFrom(START, text[..k + 1]).None? ==> ScanFrom(START, text).None?
  {
    assert text[..k + 1][..k] == text[..k];
    hide Next;
    ScanJoin(START, text[..k + 1], text[k + 1..]);
    assert text[..k + 1] + text[k + 1..] == text;
  }

  /** The longest prefix that can be closed into something acceptable. What is acceptable is left open. */
  method DecodePartialJson<Output>(raw: seq<Byte>, accept: seq<Byte> -> Option<Output>)
    returns (decoded: Option<Output>)
    ensures decoded.Some? ==>
      exists end :: Chosen(TrimSpace(raw), accept, end) && decoded == accept(Close(TrimSpace(raw)[..end]).value)
    ensures decoded.None? ==> forall end :: !Acceptable(TrimSpace(raw), accept, end)
  {
    hide Close, TrimSpace;
    var data := TrimSpace(raw);
    var end := |data|;
    while end > 0
      invariant 0 <= end <= |data| && forall longer :: longer > end ==> !Acceptable(data, accept, longer)
    {
      var candidate := CloseJsonPrefix(data[..end]);
      if candidate.Some? && accept(candidate.value).Some? {
        assert Chosen(data, accept, end);
        return accept(candidate.value);
      }
      end := end - 1;
    }
    decoded := None;
  }

  predicate Acceptable<Output>(data: seq<Byte>, accept: seq<Byte> -> Option<Output>, end: int) {
    0 < end <= |data| && Close(data[..end]).Some? && accept(Close(data[..end]).value).Some?
  }

  ghost predicate Chosen<Output>(data: seq<Byte>, accept: seq<Byte> -> Option<Output>, end: int) {
    Acceptable(data, accept, end) && forall longer :: longer > end ==> !Acceptable(data, accept, longer)
  }
}
