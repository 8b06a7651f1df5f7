/** Where searches are put for the tools a history made available, which tools they name, and under which
    IDs, without the functions that compute it. */
module SearchPlaces {
  import opened Options
  import opened History
  import opened AvailabilitySpec
  import opened Pieces

  /** A history read from front to back: the parts of requests, and responses. */
  datatype Item = In(part: RequestPart) | Out(message: Message)

  function Ins(parts: seq<RequestPart>): seq<Item> {
    if parts == [] then [] else Ins(parts[..|parts| - 1]) + [In(parts[|parts| - 1])]
  }

  function Items(messages: seq<Message>): seq<Item> {
    if messages == [] then []
    else
      var last := messages[|messages| - 1];
      Items(messages[..|messages| - 1]) + if last.Request? then Ins(last.parts) else [Out(last)]
  }

  predicate IsDelta(part: RequestPart) { part.AvailabilityDelta? }

  predicate NotDelta(part: RequestPart) { !part.AvailabilityDelta? }

  /** The tools that may be announced, in order. */
  function Allowed(naming: Naming, tools: seq<string>): seq<string> {
    Where(tools, (tool: string) => naming.allowed.Some? ==> tool in naming.allowed.value)
  }

  ghost predicate IsHashed(naming: Naming, tools: seq<string>, id: string) {
    exists ordinal: nat :: id == "tool-call-" + naming.hash(ordinal, tools)
  }

  /** A delta that announces something becomes a search and, directly behind it, the answer; one that does not
      becomes nothing. */
  ghost predicate Told(naming: Naming, part: RequestPart, id: string, piece: seq<Item>) {
    if part.AvailabilityDelta? && Allowed(naming, part.toolsAdded) != [] then
      var tools := Joined(Allowed(naming, part.toolsAdded));
      && id != "" && (id == part.id || IsHashed(naming, Allowed(naming, part.toolsAdded), id)) && |piece| == 2
      && piece[0] == Out(Response([CallPart(ToolCall(TOOL_SEARCH, id, "tool_search", tools))],
                                  "", "", "", 0, "", "", "", ""))
      && piece[1] == In(ToolReturn(TOOL_SEARCH, id, "tool_search", tools, false))
    else id == "" && piece == if part.AvailabilityDelta? then [] else [In(part)]
  }

  /** A search takes the delta's own ID unless that is in use by then, and never one in use. */
  ghost predicate IdFits(used: set<string>, parts: seq<RequestPart>, ids: seq<string>, k: nat)
    requires k < |parts| == |ids|
  {
    ids[k] != "" ==>
      && parts[k].AvailabilityDelta? && ids[k] !in used && ids[k] !in ids[..k]
      && (parts[k].id != "" && parts[k].id !in used && parts[k].id !in ids[..k] ==> ids[k] == parts[k].id)
  }

  ghost predicate AllTold(naming: Naming, used: set<string>, parts: seq<RequestPart>, ids: seq<string>,
                          pieces: seq<seq<Item>>, after: set<string>)
  {
    && |ids| == |pieces| == |parts|
    && (forall k :: 0 <= k < |parts| ==> Told(naming, parts[k], ids[k], pieces[k]) && IdFits(used, parts, ids, k))
    && (forall id :: id in after <==> id in used || (id != "" && id in ids))
  }

  /** The deltas and results a request begins with. */
  predicate IsHead(parts: seq<RequestPart>, head: nat) {
    && head <= |parts| && (forall i :: 0 <= i < head ==> IsDelta(parts[i]) || IsResult(parts[i]))
    && (head < |parts| ==> NotDelta(parts[head]) && !IsResult(parts[head]))
  }

  /** Each request made of a request holds some of its parts and is like it otherwise. */
  ghost predicate PiecesOf(request: Message, block: seq<Message>)
    requires request.Request?
  {
    forall message :: message in block && message.Request? ==>
      message.parts != [] && message == request.(parts := message.parts)
  }

  ghost predicate SplitInto(naming: Naming, used: set<string>, request: Message, block: seq<Message>,
                            after: set<string>, head: nat, ids: seq<string>, pieces: seq<seq<Item>>)
    requires request.Request?
  {
    && IsHead(request.parts, head) && PiecesOf(request, block) && Items(block) == Flat(pieces)
    && var first := request.parts[..head];
    && var parts := Where(first, NotDelta) + Where(first, IsDelta) + request.parts[head..];
    && AllTold(naming, used, parts, ids, pieces, after)
  }

  /** A message without deltas stays. Otherwise the results a request begins with come first, then all parts
      in order, with a search and its answer in place of each delta. */
  ghost predicate Expanded(naming: Naming, used: set<string>, message: Message, block: seq<Message>,
                           after: set<string>)
  {
    if message.Request? && exists k :: 0 <= k < |message.parts| && IsDelta(message.parts[k]) then
      exists head, ids, pieces :: SplitInto(naming, used, message, block, after, head, ids, pieces)
    else block == [message] && after == used
  }

  ghost predicate AllSearched(naming: Naming, used: seq<set<string>>, messages: seq<Message>, expanded: seq<Message>,
                              blocks: seq<seq<Message>>)
  {
    && |used| == |messages| + 1 && |blocks| == |messages| && Flat(blocks) == expanded
    && forall i :: 0 <= i < |messages| ==> Expanded(naming, used[i], messages[i], blocks[i], used[i + 1])
  }

  // ----- items -----

  lemma {:induction false} InsJoin(a: seq<RequestPart>, b: seq<RequestPart>)
    ensures Ins(a + b) == Ins(a) + Ins(b)
  {
    if b == [] {
      assert a + b == a;
    } else {
      InsJoin(a, b[..|b| - 1]);
      assert (a + b)[..|a + b| - 1] == a + b[..|b| - 1];
    }
  }

  lemma InsOne(part: RequestPart)
    ensures Ins([part]) == [In(part)]
  {
    assert [part][..0] == [];
  }

  lemma {:induction false} ItemsJoin(a: seq<Message>, b: seq<Message>)
    ensures Items(a + b) == Items(a) + Items(b)
  {
    hide Ins;
    if b == [] {
      assert a + b == a;
    } else {
      ItemsJoin(a, b[..|b| - 1]);
      assert (a + b)[..|a + b| - 1] == a + b[..|b| - 1];
    }
  }

  lemma ItemsOne(message: Message)
    ensures Items([message]) == if message.Request? then Ins(message.parts) else [Out(message)]
  {
    assert [message][..0] == [];
  }

  lemma FlushItems(request: Message, pending: seq<RequestPart>)
    requires request.Request?
    ensures Items(Flush(request, pending)) == Ins(pending) && PiecesOf(request, Flush(request, pending))
  {
    if pending != [] { ItemsOne(request.(parts := pending)); }
  }

  // ----- one request -----

  lemma {:induction false} AllowedIs(naming: Naming, tools: seq<string>)
    ensures Announced(naming, tools) == Allowed(naming, tools)
  {
    if tools != [] { AllowedIs(naming, tools[..|tools| - 1]); }
  }

  lemma {:induction false} DeltasAre(parts: seq<RequestPart>)
    ensures Deltas(parts, false) == Where(parts, NotDelta) && Deltas(parts, true) == Where(parts, IsDelta)
  {
    if parts != [] {
      DeltasAre(parts[1..]);
      assert parts == [parts[0]] + parts[1..];
      WhereJoin([parts[0]], parts[1..], NotDelta);
      WhereJoin([parts[0]], parts[1..], IsDelta);
      assert [parts[0]][..0] == [];
    }
  }

  lemma {:induction false} HeadIs(parts: seq<RequestPart>)
    ensures IsHead(parts, Head(parts))
  {
    if parts != [] && (parts[0].AvailabilityDelta? || IsResult(parts[0])) {
      HeadIs(parts[1..]);
      var head := Head(parts);
      forall i | 0 <= i < head ensures IsDelta(parts[i]) || IsResult(parts[i]) {
        if i > 0 { assert parts[i] == parts[1..][i - 1]; }
      }
    }
  }

  lemma {:induction false} ToldFirst(naming: Naming, used: set<string>, parts: seq<RequestPart>, id: string,
                                     piece: seq<Item>, ids: seq<string>, pieces: seq<seq<Item>>, after: set<string>)
    requires parts != [] && Told(naming, parts[0], id, piece) && IdFits(used, [parts[0]], [id], 0)
    requires AllTold(naming, if id != "" then used + {id} else used, parts[1..], ids, pieces, after)
    ensures AllTold(naming, used, parts, [id] + ids, [piece] + pieces, after)
  {
    hide Told;
    var rest, all := parts[1..], [id] + ids;
    forall k | 0 <= k < |parts|
      ensures Told(naming, parts[k], all[k], ([piece] + pieces)[k]) && IdFits(used, parts, all, k)
    {
      if k > 0 {
        assert parts[k] == rest[k - 1] && all[..k] == [id] + ids[..k - 1];
        assert IdFits(if id != "" then used + {id} else used, rest, ids, k - 1);
      }
    }
  }

  lemma {:induction false} ProbedIsHashed(naming: Naming, used: set<string>, ordinal: nat, tools: seq<string>,
                                          tries: nat)
    requires ProbeId(naming, used, ordinal, tools, tries).Some?
    ensures IsHashed(naming, tools, ProbeId(naming, used, ordinal, tools, tries).value.0)
    decreases naming.patience - tries
  {
    if HashedId(naming, ordinal, tools) in used { ProbedIsHashed(naming, used, ordinal + 1, tools, tries + 1); }
  }

  lemma IdIsHashed(naming: Naming, names: Names, delta: RequestPart, tools: seq<string>)
    requires delta.AvailabilityDelta? && CallIdFor(naming, names.used, names.ordinal, delta, tools).Some?
    ensures var id := CallIdFor(naming, names.used, names.ordinal, delta, tools).value.0;
      id == delta.id || IsHashed(naming, tools, id)
  {
    hide IsHashed, ProbeId;
    if delta.id == "" || delta.id in names.used { ProbedIsHashed(naming, names.used, names.ordinal, tools, 0); }
  }

  lemma IdIsFree(naming: Naming, names: Names, delta: RequestPart, tools: seq<string>)
    requires delta.AvailabilityDelta? && CallIdFor(naming, names.used, names.ordinal, delta, tools).Some?
    ensures IdFits(names.used, [delta], [CallIdFor(naming, names.used, names.ordinal, delta, tools).value.0], 0)
  {}

  lemma {:induction false} SplitPieces(naming: Naming, names: Names, request: Message, parts: seq<RequestPart>,
                                       pending: seq<RequestPart>)
    returns (ids: seq<string>, pieces: seq<seq<Item>>)
    requires request.Request? && Split(naming, names, request, parts, pending).Some?
    ensures var (all, after) := Split(naming, names, request, parts, pending).value;
      && AllTold(naming, names.used, parts, ids, pieces, after.used)
      && Items(all) == Ins(pending) + Flat(pieces) && PiecesOf(request, all)
    decreases |parts|
  {
    hide Announced, Allowed, CallIdFor, Flush, Items, Ins, Flat, AllTold;
    FlushItems(request, pending);
    if parts == [] {
      ids, pieces := [], [];
      NothingTold(naming, names.used);
      assert Ins(pending) + [] == Ins(pending);
    } else {
      var first, rest := parts[0], parts[1..];
      if first.AvailabilityDelta? { AllowedIs(naming, first.toolsAdded); }
      if first.AvailabilityDelta? && Announced(naming, first.toolsAdded) != [] {
        ids, pieces := SplitSearch(naming, names, request, parts, pending, Announced(naming, first.toolsAdded));
      } else {
        var more := if first.AvailabilityDelta? then [] else [first];
        assert pending + [] == pending;
        ids, pieces := SplitPieces(naming, names, request, rest, pending + more);
        ToldFirst(naming, names.used, parts, "", if first.AvailabilityDelta? then [] else [In(first)], ids, pieces,
          Split(naming, names, request, parts, pending).value.1.used);
        InsJoin(pending, more);
        InsOne(first);
        NoIns();
        FlatFirst(Ins(more), pieces);
        assert Ins(pending) + Ins(more) + Flat(pieces) == Ins(pending) + (Ins(more) + Flat(pieces));
        ids, pieces := [""] + ids, [Ins(more)] + pieces;
      }
    }
  }

  lemma NoIns()
    ensures Ins([]) == []
  {}

  lemma NothingTold(naming: Naming, used: set<string>)
    ensures AllTold(naming, used, [], [], [], used) && Flat<Item>([]) == []
  {}

  lemma {:induction false} SplitSearch(naming: Naming, names: Names, request: Message, parts: seq<RequestPart>,
                                       pending: seq<RequestPart>, tools: seq<string>)
    returns (ids: seq<string>, pieces: seq<seq<Item>>)
    requires request.Request? && Split(naming, names, request, parts, pending).Some?
    requires parts != [] && parts[0].AvailabilityDelta? && tools == Announced(naming, parts[0].toolsAdded)
    requires tools != []
    ensures var (all, after) := Split(naming, names, request, parts, pending).value;
      && AllTold(naming, names.used, parts, ids, pieces, after.used)
      && Items(all) == Ins(pending) + Flat(pieces) && PiecesOf(request, all)
    decreases |parts|, 0
  {
    hide Announced, Allowed, CallIdFor, Flush, Items, Ins, Flat, AllTold, IsHashed;
    AllowedIs(naming, parts[0].toolsAdded);
    var (id, ordinal) := CallIdFor(naming, names.used, names.ordinal, parts[0], tools).value;
    IdIsFree(naming, names, parts[0], tools);
    IdIsHashed(naming, names, parts[0], tools);
    var next, answer := Names(names.used + {id}, ordinal), SearchAnswer(id, tools);
    ids, pieces := SplitPieces(naming, next, request, parts[1..], [answer]);
    var (rest, after) := Split(naming, next, request, parts[1..], [answer]).value;
    var piece := [Out(SearchCall(id, tools)), In(answer)];
    ToldFirst(naming, names.used, parts, id, piece, ids, pieces, after.used);
    SearchItems(request, pending, id, tools, rest, pieces);
    ids, pieces := [id] + ids, [piece] + pieces;
  }

  lemma {:induction false} SearchItems(request: Message, pending: seq<RequestPart>, id: string, tools: seq<string>,
                                       rest: seq<Message>, pieces: seq<seq<Item>>)
    requires request.Request? && Items(rest) == Ins([SearchAnswer(id, tools)]) + Flat(pieces) && PiecesOf(request, rest)
    ensures var all := Flush(request, pending) + [SearchCall(id, tools)] + rest;
      var piece := [Out(SearchCall(id, tools)), In(SearchAnswer(id, tools))];
      Items(all) == Ins(pending) + Flat([piece] + pieces) && PiecesOf(request, all)
  {
    hide Flush, Items, Ins, Flat;
    var call, answer := SearchCall(id, tools), SearchAnswer(id, tools);
    FlushItems(request, pending);
    ItemsJoin(Flush(request, pending) + [call], rest);
    ItemsJoin(Flush(request, pending), [call]);
    ItemsOne(call);
    InsOne(answer);
    FlatFirst([Out(call), In(answer)], pieces);
    assert Ins(pending) + [Out(call)] + ([In(answer)] + Flat(pieces))
        == Ins(pending) + ([Out(call), In(answer)] + Flat(pieces));
  }

  lemma {:induction false} MessageSearched(naming: Naming, names: Names, message: Message)
    requires Expand(naming, names, message).Some?
    ensures var (all, after) := Expand(naming, names, message).value;
      Expanded(naming, names.used, message, all, after.used)
  {
    hide Split, AllTold, Items, Flat, Where, Head, Deltas;
    if HasDelta(message) {
      var k :| 0 <= k < |message.parts| && message.parts[k].AvailabilityDelta?;
      assert IsDelta(message.parts[k]);
      var head := Head(message.parts);
      HeadIs(message.parts);
      DeltasAre(message.parts[..head]);
      var ids, pieces := SplitPieces(naming, names, message, Arranged(message.parts), []);
      NoIns();
      var (all, after) := Expand(naming, names, message).value;
      assert [] + Flat(pieces) == Flat(pieces);
      assert SplitInto(naming, names.used, message, all, after.used, head, ids, pieces);
    }
  }

  lemma {:induction false} SearchBlocks(naming: Naming, names: Names, messages: seq<Message>)
    returns (used: seq<set<string>>, blocks: seq<seq<Message>>)
    requires ExpandAll(naming, names, messages).Some?
    ensures var (expanded, after) := ExpandAll(naming, names, messages).value;
      && AllSearched(naming, used, messages, expanded, blocks)
      && used[0] == names.used && used[|messages|] == after.used
  {
    hide Expand, Expanded;
    if messages == [] {
      used, blocks := [names.used], [];
    } else {
      var front, last := messages[..|messages| - 1], messages[|messages| - 1];
      var usedBefore, before := SearchBlocks(naming, names, front);
      var middle := ExpandAll(naming, names, front).value.1;
      MessageSearched(naming, middle, last);
      var (own, after) := Expand(naming, middle, last).value;
      FlatMore(before, own);
      used, blocks := usedBefore + [after.used], before + [own];
    }
  }

  /** Every message becomes its own block, in order, with its searches in place of its deltas. */
  lemma {:induction false} SearchPlaced(naming: Naming, names: Names, messages: seq<Message>)
    requires ExpandAll(naming, names, messages).Some?
    ensures var (expanded, after) := ExpandAll(naming, names, messages).value;
      exists used, blocks :: (AllSearched(naming, used, messages, expanded, blocks)
        && used[0] == names.used && used[|messages|] == after.used)
  {
    hide AllSearched, ExpandAll;
    var used, blocks := SearchBlocks(naming, names, messages);
    WithinUsed(naming, used, messages, ExpandAll(naming, names, messages).value.0, blocks);
  }

  lemma WithinUsed(naming: Naming, used: seq<set<string>>, messages: seq<Message>, expanded: seq<Message>,
                   blocks: seq<seq<Message>>)
    requires AllSearched(naming, used, messages, expanded, blocks)
    ensures |used| == |messages| + 1
  {}
}
