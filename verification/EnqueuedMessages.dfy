/** Building messages from enqueued items: adjacent user content becomes one prompt, adjacent parts one
    request, and whole messages stay as they are. */
module EnqueuedMessages {
  import opened Options

  datatype Item = Message(request: bool, body: string) | PartItem(part: string) | ContentItem(content: string)

  datatype Part = Given(part: string) | Prompt(contents: seq<string>)

  datatype Built = Whole(request: bool, body: string) | Request(parts: seq<Part>)

  // ----- item by item -----

  function AddContent(parts: seq<Part>, content: string): seq<Part> {
    if parts != [] && parts[|parts| - 1].Prompt? then
      parts[..|parts| - 1] + [Prompt(parts[|parts| - 1].contents + [content])]
    else parts + [Prompt([content])]
  }

  function AddParts(parts: seq<Part>, item: Item): seq<Part>
    requires !item.Message?
  {
    if item.PartItem? then parts + [Given(item.part)] else AddContent(parts, item.content)
  }

  function Add(messages: seq<Built>, item: Item): seq<Built> {
    if item.Message? then messages + [Whole(item.request, item.body)]
    else if messages != [] && messages[|messages| - 1].Request? then
      messages[..|messages| - 1] + [Request(AddParts(messages[|messages| - 1].parts, item))]
    else messages + [Request(AddParts([], item))]
  }

  function Build(items: seq<Item>): seq<Built> {
    if items == [] then [] else Add(Build(items[..|items| - 1]), items[|items| - 1])
  }

  // ----- nothing is lost, and nothing more could be joined -----

  function ContentItems(contents: seq<string>): seq<Item> {
    if contents == [] then []
    else ContentItems(contents[..|contents| - 1]) + [ContentItem(contents[|contents| - 1])]
  }

  function PartItems(part: Part): seq<Item> {
    if part.Given? then [PartItem(part.part)] else ContentItems(part.contents)
  }

  function AllPartItems(parts: seq<Part>): seq<Item> {
    if parts == [] then [] else AllPartItems(parts[..|parts| - 1]) + PartItems(parts[|parts| - 1])
  }

  function MessageItems(message: Built): seq<Item> {
    if message.Whole? then [Message(message.request, message.body)] else AllPartItems(message.parts)
  }

  function AllItems(messages: seq<Built>): seq<Item> {
    if messages == [] then [] else AllItems(messages[..|messages| - 1]) + MessageItems(messages[|messages| - 1])
  }

  predicate TightParts(parts: seq<Part>) {
    && parts != []
    && (forall i :: 0 <= i < |parts| && parts[i].Prompt? ==> parts[i].contents != [])
    && (forall i :: 0 < i < |parts| && parts[i].Prompt? ==> parts[i - 1].Given?)
  }

  predicate Tight(messages: seq<Built>) {
    && (forall i :: 0 <= i < |messages| && messages[i].Request? ==> TightParts(messages[i].parts))
    && (forall i :: 0 < i < |messages| && messages[i].Request? ==> messages[i - 1].Whole?)
  }

  lemma {:induction false} AddPartsKeeps(parts: seq<Part>, item: Item)
    requires !item.Message? && (parts == [] || TightParts(parts))
    ensures AllPartItems(AddParts(parts, item)) == AllPartItems(parts) + [item] && TightParts(AddParts(parts, item))
  {
    var after := AddParts(parts, item);
    if item.ContentItem? && parts != [] && parts[|parts| - 1].Prompt? {
      var contents := parts[|parts| - 1].contents;
      assert after[..|after| - 1] == parts[..|parts| - 1];
      assert (contents + [item.content])[..|contents|] == contents;
      assert AllPartItems(parts) + [item]
          == AllPartItems(parts[..|parts| - 1]) + (ContentItems(contents) + [item]);
    } else {
      assert after[..|after| - 1] == parts;
      if item.ContentItem? {
        assert [item.content][..0] == [];
        assert ContentItems([item.content]) == [item];
      }
    }
  }

  lemma {:induction false} AddKeeps(messages: seq<Built>, item: Item)
    requires Tight(messages)
    ensures AllItems(Add(messages, item)) == AllItems(messages) + [item] && Tight(Add(messages, item))
  {
    hide TightParts, AddParts, AllPartItems;
    var after := Add(messages, item);
    if !item.Message? && messages != [] && messages[|messages| - 1].Request? {
      AddPartsKeeps(messages[|messages| - 1].parts, item);
      assert after[..|after| - 1] == messages[..|messages| - 1];
    } else {
      if !item.Message? {
        AddPartsKeeps([], item);
        NoPartItems();
      }
      assert after[..|after| - 1] == messages;
    }
  }

  lemma NoPartItems()
    ensures AllPartItems([]) == []
  {}

  /** The messages hold exactly the items, in order; no two prompts or requests that could be one are left
      apart. */
  lemma {:induction false} BuildKeepsItems(items: seq<Item>)
    ensures AllItems(Build(items)) == items && Tight(Build(items))
  {
    hide Add, Tight, AllItems;
    if items == [] {
      NothingBuilt();
    } else {
      BuildKeepsItems(items[..|items| - 1]);
      AddKeeps(Build(items[..|items| - 1]), items[|items| - 1]);
    }
  }

  lemma NothingBuilt()
    ensures AllItems([]) == [] && Tight([])
  {}

  // ----- with buffers -----

  function Flushed(parts: seq<Part>, contents: seq<string>): seq<Part> {
    parts + if contents == [] then [] else [Prompt(contents)]
  }

  function FlushedMessages(messages: seq<Built>, parts: seq<Part>, contents: seq<string>): seq<Built> {
    var all := Flushed(parts, contents);
    messages + if all == [] then [] else [Request(all)]
  }

  predicate EndsInRequest(messages: seq<Built>) {
    messages == [] || (var last := messages[|messages| - 1]; last.Request? || last.request)
  }

  /** Content is buffered until something else comes, parts until a whole message does. Fails when the
      result would not end in a request. */
  method BuildEnqueuedMessages(items: seq<Item>) returns (built: Option<seq<Built>>)
    ensures built == if EndsInRequest(Build(items)) then Some(Build(items)) else None
  {
    hide Add;
    var messages: seq<Built>, parts: seq<Part>, contents: seq<string> := [], [], [];
    var k := 0;
    while k < |items|
      invariant 0 <= k <= |items| && FlushedMessages(messages, parts, contents) == Build(items[..k])
      invariant messages == [] || messages[|messages| - 1].Whole?
      invariant parts == [] || parts[|parts| - 1].Given?
    {
      assert items[..k + 1][..k] == items[..k];
      BufferItem(messages, parts, contents, items[k]);
      match items[k] {
        case Message(request, body) =>
          messages := FlushedMessages(messages, parts, contents) + [Whole(request, body)];
          parts, contents := [], [];
        case PartItem(part) =>
          parts := Flushed(parts, contents) + [Given(part)];
          contents := [];
        case ContentItem(content) =>
          contents := contents + [content];
      }
      k := k + 1;
    }
    assert items[..k] == items;
    messages := FlushedMessages(messages, parts, contents);
    built := if EndsInRequest(messages) then Some(messages) else None;
  }

  lemma {:induction false} BufferItem(messages: seq<Built>, parts: seq<Part>, contents: seq<string>, item: Item)
    requires messages == [] || messages[|messages| - 1].Whole?
    requires parts == [] || parts[|parts| - 1].Given?
    ensures Add(FlushedMessages(messages, parts, contents), item)
         == match item
            case Message(request, body) => FlushedMessages(messages, parts, contents) + [Whole(request, body)]
            case PartItem(part) => FlushedMessages(messages, Flushed(parts, contents) + [Given(part)], [])
            case ContentItem(content) => FlushedMessages(messages, parts, contents + [content])
  {
    var all := Flushed(parts, contents);
    var flushed := FlushedMessages(messages, parts, contents);
    if !item.Message? {
      BufferPart(parts, contents, item);
      if all != [] {
        assert flushed[..|flushed| - 1] == messages;
      } else {
        assert flushed == messages;
      }
    }
  }

  lemma {:induction false} BufferPart(parts: seq<Part>, contents: seq<string>, item: Item)
    requires !item.Message? && (parts == [] || parts[|parts| - 1].Given?)
    ensures AddParts(Flushed(parts, contents), item)
         == if item.PartItem? then Flushed(Flushed(parts, contents) + [Given(item.part)], [])
            else Flushed(parts, contents + [item.content])
  {
    var all := Flushed(parts, contents);
    if item.ContentItem? {
      if contents != [] {
        assert all[..|all| - 1] == parts;
      } else {
        assert all == parts && contents + [item.content] == [item.content];
      }
    }
  }
}
