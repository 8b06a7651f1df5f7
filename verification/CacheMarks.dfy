/** Prompt cache marks of conversations: an index by conversation and a list by recency that stay in step,
    bounded in number and in age. */
module CacheMarks {
  import opened Options

  const MAX_CONVERSATIONS: nat := 4096
  const MAX_AGE: int := 24 * 60 * 60

  /** Some requests belong to no conversation. */
  datatype ConversationId = Unnamed | Named(name: string)

  datatype CacheKey = CacheKey(provider: string, endpoint: string, model: string)

  datatype Mark = Mark(established: int, lastSeen: int, compactions: int, alerted: bool, notEnabledAlerted: bool)

  /** A table of marks. Conversations can share one. */
  class MarkTable {
    var entries: map<CacheKey, Mark>

    constructor ()
      ensures entries == map[]
    {
      entries := map[];
    }

    /** Takes over the marks it does not have. */
    method Add(more: map<CacheKey, Mark>)
      modifies this
      ensures entries == more + old(entries)
    {
      var rest := more.Keys;
      while rest != {}
        invariant rest <= more.Keys
        invariant forall key :: key in entries <==> key in old(entries) || key in more.Keys - rest
        invariant forall key :: key in entries ==>
          entries[key] == if key in old(entries) then old(entries)[key] else more[key]
        decreases |rest|
      {
        var key :| key in rest;
        if key !in entries { entries := entries[key := more[key]]; }
        rest := rest - {key};
      }
      assert entries == more + old(entries);
    }
  }

  /** The marks of one conversation, as some request holds them. They may or may not be listed. */
  class ConversationMarks {
    const id: ConversationId
    var table: MarkTable
    var updated: int
    var listed: bool

    constructor (id: ConversationId)
      ensures this.id == id && !listed && fresh(table) && table.entries == map[]
    {
      this.id := id;
      table := new MarkTable();
      updated, listed := 0, false;
    }
  }

  // ----- index and list -----

  type Index = map<ConversationId, ConversationMarks>

  predicate Has(conversations: Index, m: ConversationMarks) {
    m.id.Named? && m.id in conversations && conversations[m.id] == m
  }

  ghost predicate EachIndexed(conversations: Index, order: seq<ConversationMarks>) {
    forall m :: m in order ==> Has(conversations, m)
  }

  ghost predicate EachListed(conversations: Index, order: seq<ConversationMarks>) {
    forall id :: id in conversations ==> conversations[id] in order && conversations[id].id == id
  }

  ghost predicate Once(order: seq<ConversationMarks>) {
    forall i, j :: 0 <= i < j < |order| ==> order[i] != order[j]
  }

  /** Index and list hold the same objects, each once. */
  ghost predicate Indexed(conversations: Index, order: seq<ConversationMarks>) {
    |conversations| == |order| && EachIndexed(conversations, order) && EachListed(conversations, order) && Once(order)
  }

  lemma RestOnce(order: seq<ConversationMarks>)
    requires Once(order) && order != []
    ensures Once(order[1..]) && forall m :: m in order[1..] <==> m in order && m != order[0]
  {
    assert order == [order[0]] + order[1..];
  }

  lemma {:induction false} IndexedRest(conversations: Index, order: seq<ConversationMarks>)
    requires Indexed(conversations, order) && order != []
    ensures Indexed(conversations - {order[0].id}, order[1..])
    ensures forall m :: m in order[1..] <==> m in order && m != order[0]
  {
    var first, rest := order[0], conversations - {order[0].id};
    assert Has(conversations, first);
    RestOnce(order);
    hide Once;
    assert conversations.Keys == rest.Keys + {first.id};
    forall m | m in order[1..] ensures Has(rest, m) { assert Has(conversations, m); }
    forall id | id in rest ensures rest[id] in order[1..] && rest[id].id == id {
      assert conversations[id] in order;
    }
  }

  lemma {:induction false} IndexedMore(conversations: Index, order: seq<ConversationMarks>,
                                       m: ConversationMarks)
    requires Indexed(conversations, order) && m.id.Named? && m.id !in conversations
    ensures m !in order && Indexed(conversations[m.id := m], order + [m])
  {
    StillHas(conversations, order, m);
    OnceMore(order, m);
    StillListed(conversations, order, m);
    hide Once, EachIndexed, EachListed;
    assert conversations[m.id := m].Keys == conversations.Keys + {m.id};
  }

  lemma StillHas(conversations: Index, order: seq<ConversationMarks>, m: ConversationMarks)
    requires EachIndexed(conversations, order) && m.id.Named? && m.id !in conversations
    ensures m !in order && EachIndexed(conversations[m.id := m], order + [m])
  {
    forall x | x in order ensures x != m && x.id != m.id && Has(conversations, x) { assert Has(conversations, x); }
  }

  lemma StillListed(conversations: Index, order: seq<ConversationMarks>, m: ConversationMarks)
    requires EachListed(conversations, order)
    ensures EachListed(conversations[m.id := m], order + [m])
  {
    var more, all := conversations[m.id := m], order + [m];
    forall id | id in more ensures more[id] in all && more[id].id == id {
      if id != m.id { assert conversations[id] in order; }
    }
  }

  lemma OnceMore(order: seq<ConversationMarks>, m: ConversationMarks)
    requires Once(order) && m !in order
    ensures Once(order + [m]) && forall x :: x in order + [m] <==> x in order || x == m
  {}

  /** The list with one of its members moved to the back. */
  function MovedBack(order: seq<ConversationMarks>, at: nat): seq<ConversationMarks>
    requires at < |order|
  {
    order[..at] + order[at + 1..] + [order[at]]
  }

  lemma {:induction false} IndexedMoved(conversations: Index, order: seq<ConversationMarks>,
                                        at: nat)
    requires Indexed(conversations, order) && at < |order|
    ensures Indexed(conversations, MovedBack(order, at))
    ensures forall m :: m in MovedBack(order, at) <==> m in order
  {
    var moved := MovedBack(order, at);
    forall i | 0 <= i < |moved| ensures moved[i] == order[OldPlace(|order|, at, i)] {}
    forall m | m in order ensures m in moved {
      var i :| 0 <= i < |order| && order[i] == m;
      assert moved[if i < at then i else if i == at then |order| - 1 else i - 1] == m;
    }
    forall i, j | 0 <= i < j < |moved| ensures moved[i] != moved[j] {
      var x, y := OldPlace(|order|, at, i), OldPlace(|order|, at, j);
      assert if x < y then order[x] != order[y] else order[y] != order[x];
    }
  }

  function OldPlace(n: nat, at: nat, i: nat): (place: nat)
    requires at < n && i < n
    ensures place < n
  {
    if i < at then i else if i < n - 1 then i + 1 else at
  }

  /** Sorted by time of update, nothing later than `clock`. */
  ghost predicate Sorted(order: seq<ConversationMarks>, clock: int)
    reads order
  {
    && (forall i, j :: 0 <= i < j < |order| ==> order[i].updated <= order[j].updated)
    && (forall i :: 0 <= i < |order| ==> order[i].updated <= clock)
  }

  /** Objects know whether they are listed. */
  ghost predicate Flagged(known: set<ConversationMarks>, order: seq<ConversationMarks>)
    reads known
  {
    && (forall i :: 0 <= i < |order| ==> order[i] in known)
    && (forall m :: m in known ==> (m.listed <==> m in order))
  }

  /** All members young enough. */
  ghost predicate Young(order: seq<ConversationMarks>, now: int)
    reads order
  {
    forall i :: 0 <= i < |order| ==> now - order[i].updated <= MAX_AGE
  }

  ghost function Times(order: seq<ConversationMarks>): (times: seq<int>)
    reads order
    ensures |times| == |order| && forall i :: 0 <= i < |order| ==> times[i] == order[i].updated
  {
    seq(|order|, i requires 0 <= i < |order| reads order => order[i].updated)
  }

  /** The list without one of its members. */
  ghost function Without(order: seq<ConversationMarks>, m: ConversationMarks): seq<ConversationMarks> {
    if order == [] then [] else (if order[0] == m then [] else [order[0]]) + Without(order[1..], m)
  }

  lemma {:induction false} WithoutNone(order: seq<ConversationMarks>, m: ConversationMarks)
    requires m !in order
    ensures Without(order, m) == order
  {
    if order != [] { WithoutNone(order[1..], m); }
  }

  lemma {:induction false} WithoutOne(order: seq<ConversationMarks>, at: nat)
    requires at < |order| && Once(order)
    ensures Without(order, order[at]) == order[..at] + order[at + 1..]
    ensures order[at] !in Without(order, order[at])
  {
    var rest := order[1..];
    forall i, j | 0 <= i < j < |rest| ensures rest[i] != rest[j] { assert order[i + 1] != order[j + 1]; }
    if at == 0 {
      forall i | 0 <= i < |rest| ensures rest[i] != order[0] { assert order[i + 1] != order[0]; }
      WithoutNone(rest, order[0]);
      assert order[..at] + order[at + 1..] == rest;
    } else {
      assert order[0] != order[at] && rest[at - 1] == order[at];
      WithoutOne(rest, at - 1);
      assert [order[0]] + (rest[..at - 1] + rest[at..]) == order[..at] + order[at + 1..];
    }
  }

  /** One member, listed before or not, is now last, and the others are as they were. */
  ghost predicate Renewed(before: seq<ConversationMarks>, m: ConversationMarks, after: seq<ConversationMarks>) {
    after == Without(before, m) + [m] && m !in Without(before, m)
  }

  lemma RenewedNew(order: seq<ConversationMarks>, m: ConversationMarks)
    requires m !in order
    ensures Renewed(order, m, order + [m])
  {
    WithoutNone(order, m);
  }

  lemma RenewedMoved(conversations: Index, order: seq<ConversationMarks>, at: nat)
    requires at < |order| && Indexed(conversations, order)
    ensures Renewed(order, order[at], MovedBack(order, at))
  {
    WithoutOne(order, at);
  }

  lemma RenewedLast(before: seq<ConversationMarks>, m: ConversationMarks, after: seq<ConversationMarks>)
    requires Renewed(before, m, after)
    ensures after != [] && after[|after| - 1] == m
  {}

  lemma OthersAre(before: seq<ConversationMarks>, m: ConversationMarks, after: seq<ConversationMarks>)
    requires Renewed(before, m, after)
    ensures after == Without(before, m) + [m]
    ensures forall i :: 0 <= i < |Without(before, m)| ==> Without(before, m)[i] != m
  {}

  lemma RenewedTimes(before: seq<ConversationMarks>, m: ConversationMarks, after: seq<ConversationMarks>,
                     times: seq<int>)
    requires Renewed(before, m, after) && |times| == |Without(before, m)|
    requires forall i :: 0 <= i < |times| ==> Without(before, m)[i].updated == times[i]
    ensures Times(after) == times + [m.updated]
  {
    hide Without;
  }

  /** Of the others, with their times, the first ones too old or too many are gone; the last one stays. */
  ghost predicate Trimmed(others: seq<ConversationMarks>, times: seq<int>, m: ConversationMarks, now: int,
                          order: seq<ConversationMarks>) {
    exists k: nat :: k <= |others| && Dropped(times + [now], k, now) && order == others[k..] + [m]
  }

  lemma TrimmedBy(others: seq<ConversationMarks>, times: seq<int>, m: ConversationMarks, now: int, k: nat)
    requires |times| == |others| && k <= |others| + 1 && Dropped(times + [now], k, now)
    ensures Trimmed(others, times, m, now, (others + [m])[k..])
  {
    assert (times + [now])[|others|] == now;
    assert (others + [m])[k..] == others[k..] + [m];
  }

  /** Each of the first `k` was too old, or one too many. */
  ghost predicate Dropped(times: seq<int>, k: nat, now: int) {
    k <= |times| && forall i :: 0 <= i < k ==> now - times[i] > MAX_AGE || i + MAX_CONVERSATIONS < |times|
  }

  lemma NoneDropped(times: seq<int>, now: int)
    ensures Dropped(times, 0, now)
  {}

  lemma DroppedMore(times: seq<int>, k: nat, now: int)
    requires Dropped(times, k, now) && k < |times|
    requires now - times[k] > MAX_AGE || k + MAX_CONVERSATIONS < |times|
    ensures Dropped(times, k + 1, now)
  {}

  class Registry {
    var conversations: Index
    var order: seq<ConversationMarks>
    ghost var known: set<ConversationMarks>
    ghost var clock: int

    ghost predicate Valid()
      reads this, known, order
    {
      Indexed(conversations, order) && Flagged(known, order) && Sorted(order, clock)
    }

    ghost predicate Bounded(now: int)
      reads this, order
    {
      |conversations| <= MAX_CONVERSATIONS && |order| <= MAX_CONVERSATIONS && Young(order, now)
    }

    constructor ()
      ensures Valid() && order == [] && known == {}
    {
      conversations, order, known, clock := map[], [], {}, 0;
    }

    method RemoveFirst()
      requires Valid() && order != []
      modifies this`conversations, this`order, known`listed
      ensures Valid() && order == old(order)[1..]
    {
      hide Indexed;
      var first := order[0];
      IndexedRest(conversations, order);
      SortedRest(order, clock);
      conversations := conversations - {first.id};
      order := order[1..];
      first.listed := false;
    }

    /** Drops conversations from the front of the list, the longest unused first, as long as there are too
        many or the first is too old. */
    method Prune(now: int)
      requires Valid() && now >= clock
      modifies this`conversations, this`order, this`clock, known`listed
      ensures Valid() && Bounded(now) && clock == now
      ensures exists k: nat :: k <= |old(order)| && Dropped(old(Times(order)), k, now) && order == old(order)[k..]
    {
      hide Indexed, Flagged, Sorted, Young, Dropped, Times, Has;
      SameSize(conversations, order);
      ghost var was := order;
      ghost var times := Times(order);
      ghost var k: nat := 0;
      NoneDropped(times, now);
      SortedLater(order, clock, now);
      clock := now;
      while order != [] && !(|conversations| <= MAX_CONVERSATIONS && now - order[0].updated <= MAX_AGE)
        invariant k <= |was| && order == was[k..] && Valid() && clock == now
        invariant Dropped(times, k, now) && |conversations| == |order|
        decreases |order|
      {
        assert order[0] == was[k];
        FirstKnown(order, known);
        DroppedMore(times, k, now);
        RemoveFirst();
        SameSize(conversations, order);
        k := k + 1;
      }
      FirstIsOldest(order, clock, now);
    }

    /** The marks a request works on: those stored for its conversation, or new ones. */
    method Bind(id: ConversationId, now: int) returns (m: ConversationMarks)
      requires Valid() && now >= clock
      modifies this, known`listed
      ensures Valid() && Bounded(now) && clock == now && m.id == id && old(known) <= known && m in known
      ensures exists k: nat :: k <= |old(order)| && Dropped(old(Times(order)), k, now) && order == old(order)[k..]
      ensures if id in conversations then conversations[id] == m
              else fresh(m) && !m.listed && m.table.entries == map[]
    {
      hide Indexed, Sorted, Dropped, Times, Young;
      Prune(now);
      if id in conversations {
        m := conversations[id];
        StoredKnown(conversations, order, known, id);
      } else {
        m := new ConversationMarks(id);
        NewNotListed(order, known);
        known := known + {m};
      }
    }

    /** Puts the marks at the back of the list, listed or not before, and drops what has become too old or
        too much. What was just stored stays. */
    method Store(m: ConversationMarks, now: int)
      requires Valid() && now >= clock && m in known && (m.id in conversations ==> conversations[m.id] == m)
      modifies this`conversations, this`order, this`clock, known`listed, m`updated
      ensures Valid()
      ensures m.id.Unnamed? ==>
        order == old(order) && conversations == old(conversations) && m.updated == old(m.updated)
      ensures m.id.Named? ==>
        Bounded(now) && clock == now && m.updated == now && m.listed
        && order != [] && order[|order| - 1] == m && Has(conversations, m)
        && Trimmed(Without(old(order), m), old(Times(Without(order, m))), m, now, order)
    {
      hide Indexed, Sorted, Flagged, Young, Dropped, Has, Without, Renewed, Trimmed;
      if m.id.Unnamed? { return; }
      ghost var before, others, times := order, Without(order, m), Times(Without(order, m));
      Refresh(m, now);
      RenewedLast(before, m, order);
      OthersAre(before, m, order);
      RenewedTimes(before, m, order, times);
      BackStays(order, now);
      Prune(now);
      ghost var k: nat :| k <= |others| + 1 && Dropped(times + [now], k, now) && order == (others + [m])[k..];
      TrimmedBy(others, times, m, now, k);
      LastHas(conversations, order, known);
    }

    method Refresh(m: ConversationMarks, now: int)
      requires Valid() && now >= clock && m in known && (m.id in conversations ==> conversations[m.id] == m)
      requires m.id.Named?
      modifies this`conversations, this`order, this`clock, m`updated, m`listed
      ensures Valid() && clock == now && m.updated == now
      ensures Renewed(old(order), m, order)
    {
      hide Indexed, Sorted, Renewed;
      if m.listed {
        MoveToBack(m, now);
      } else {
        PushBack(m, now);
      }
    }

    method MoveToBack(m: ConversationMarks, now: int)
      requires Valid() && now >= clock && m in known && m in order
      modifies this`order, this`clock, m`updated
      ensures Valid() && clock == now && m.updated == now
      ensures Renewed(old(order), m, order)
    {
      hide Indexed, Sorted, Renewed;
      var at := Find(m);
      ghost var rest := order[..at] + order[at + 1..];
      RenewedMoved(conversations, order, at);
      IndexedMoved(conversations, order, at);
      SortedMoved(conversations, order, at, clock, now);
      clock := now;
      m.updated := now;
      order := MovedBack(order, at);
      BackSorted(rest, m, now);
    }

    method PushBack(m: ConversationMarks, now: int)
      requires Valid() && now >= clock && m in known && m !in order && m.id.Named?
      requires m.id in conversations ==> conversations[m.id] == m
      modifies this`conversations, this`order, this`clock, m`updated, m`listed
      ensures Valid() && clock == now && m.updated == now
      ensures Renewed(old(order), m, order)
    {
      hide Indexed, Sorted, Renewed;
      NotListed(conversations, order, m);
      RenewedNew(order, m);
      IndexedMore(conversations, order, m);
      SortedLater(order, clock, now);
      m.updated, m.listed := now, true;
      clock := now;
      BackSorted(order, m, now);
      conversations := conversations[m.id := m];
      order := order + [m];
    }

    /** Marks held by a request that lost its place in the index join the marks stored there, which win; from
        then on both share one table. Returns the marks to work on. */
    method Join(m: ConversationMarks) returns (current: ConversationMarks)
      requires Valid() && m in known
      modifies m`table, set x | x in known :: x.table
      ensures Valid() && current in known && current.id == m.id
      ensures current == if m.id in conversations then conversations[m.id] else m
      ensures current.table == old(current.table) && m.table == current.table
      ensures current.table.entries ==
        if current == m then old(m.table.entries) else old(m.table.entries) + old(current.table.entries)
      ensures forall x :: x in known && x.table != current.table ==> x.table.entries == old(x.table.entries)
    {
      hide Indexed, Sorted;
      if m.id !in conversations || conversations[m.id] == m { return m; }
      current := conversations[m.id];
      StoredKnown(conversations, order, known, m.id);
      NotTheStored(conversations, order, m);
      current.table.Add(m.table.entries);
      m.table := current.table;
    }

    /** A request's outcome: its marks join those stored, one of them is set, and they are stored. Without a
        mark to set nothing is stored. */
    method Observe(m: ConversationMarks, key: CacheKey, mark: Option<Mark>, now: int)
      requires Valid() && now >= clock && m in known
      modifies this`conversations, this`order, this`clock, known, set x | x in known :: x.table
      ensures Valid() && (mark.Some? && m.id.Named? ==> Bounded(now) && m.id in conversations)
      ensures mark.None? ==> order == old(order) && conversations == old(conversations)
      ensures mark.Some? && m.id.Named? ==> order != [] && order[|order| - 1] == conversations[m.id]
      ensures mark.Some? ==>
        m.table.entries == (if m.id in old(conversations) && old(conversations)[m.id] != m then
                              old(m.table.entries) + old(conversations[m.id].table.entries)
                            else old(m.table.entries))[key := mark.value]
      ensures mark.Some? && m.id.Named? ==> m.id in conversations && conversations[m.id].table == m.table
    {
      hide Indexed, Sorted, Flagged, Young;
      var current := Join(m);
      if mark.None? { return; }
      current.table.entries := current.table.entries[key := mark.value];
      Store(current, now);
    }

    method Find(m: ConversationMarks) returns (at: nat)
      requires m in order
      ensures at < |order| && order[at] == m
    {
      at := 0;
      while order[at] != m
        invariant at < |order| && m !in order[..at]
        decreases |order| - at
      {
        assert order == order[..at] + [order[at]] + order[at + 1..];
        at := at + 1;
      }
    }
  }

  lemma SameSize(conversations: Index, order: seq<ConversationMarks>)
    requires Indexed(conversations, order)
    ensures |conversations| == |order|
  {}

  lemma FirstKnown(order: seq<ConversationMarks>, known: set<ConversationMarks>)
    requires Flagged(known, order) && order != []
    ensures order[0] in known
  {}

  lemma SortedRest(order: seq<ConversationMarks>, clock: int)
    requires Sorted(order, clock) && order != []
    ensures Sorted(order[1..], clock)
  {}

  lemma FirstIsOldest(order: seq<ConversationMarks>, clock: int, now: int)
    requires Sorted(order, clock) && (order != [] ==> now - order[0].updated <= MAX_AGE)
    ensures Young(order, now)
  {}

  lemma StoredKnown(conversations: Index, order: seq<ConversationMarks>, known: set<ConversationMarks>,
                    id: ConversationId)
    requires Indexed(conversations, order) && Flagged(known, order) && id in conversations
    ensures conversations[id] in known && conversations[id].id == id
  {}

  lemma NewNotListed(order: seq<ConversationMarks>, known: set<ConversationMarks>)
    requires Flagged(known, order)
    ensures forall m :: m in order ==> m in known
  {}

  lemma NotTheStored(conversations: Index, order: seq<ConversationMarks>, m: ConversationMarks)
    requires Indexed(conversations, order) && m.id in conversations && conversations[m.id] != m
    ensures m !in order
  {
    forall x | x in order ensures x != m { assert Has(conversations, x); }
  }

  lemma NotListed(conversations: Index, order: seq<ConversationMarks>, m: ConversationMarks)
    requires Indexed(conversations, order) && m !in order && (m.id in conversations ==> conversations[m.id] == m)
    ensures m.id !in conversations
  {}

  /** Without the member moved, the list stays sorted. */
  lemma {:induction false} SortedMoved(conversations: Index, order: seq<ConversationMarks>, at: nat, clock: int,
                                       now: int)
    requires Indexed(conversations, order) && Sorted(order, clock) && at < |order| && clock <= now
    ensures Sorted(order[..at] + order[at + 1..], now) && order[at] !in order[..at] + order[at + 1..]
  {
    var rest := order[..at] + order[at + 1..];
    forall i | 0 <= i < |rest| ensures rest[i] == order[if i < at then i else i + 1] && rest[i] != order[at] {
      assert if i < at then order[i] != order[at] else order[at] != order[i + 1];
    }
  }

  lemma SortedLater(order: seq<ConversationMarks>, clock: int, now: int)
    requires Sorted(order, clock) && clock <= now
    ensures Sorted(order, now)
  {}

  lemma BackSorted(rest: seq<ConversationMarks>, m: ConversationMarks, now: int)
    requires Sorted(rest, now) && m.updated == now
    ensures Sorted(rest + [m], now)
  {}

  /** The member at the back is neither too old nor one too many. */
  lemma BackStays(order: seq<ConversationMarks>, now: int)
    requires order != [] && order[|order| - 1].updated == now
    ensures forall k: nat :: k <= |order| && Dropped(Times(order), k, now) ==>
      k < |order| && order[k..] != [] && order[k..][|order[k..]| - 1] == order[|order| - 1]
  {}

  lemma LastHas(conversations: Index, order: seq<ConversationMarks>, known: set<ConversationMarks>)
    requires Indexed(conversations, order) && Flagged(known, order) && order != []
    ensures Has(conversations, order[|order| - 1]) && order[|order| - 1].listed
  {}
}
