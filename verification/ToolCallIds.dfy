/** Fitting tool call IDs to a provider that wants a fixed number of alphanumeric characters. */
module ToolCallIds {
  import opened Options
  import opened History
  import opened Decimals

  const ALPHABET := "0123456789ABCDEFGHIJKLMNOPQRSTUVWXYZabcdefghijklmnopqrstuvwxyz"

  /** The hash is any function from text to a number. Probing gives up after `patience` collisions. */
  datatype Fitting = Fitting(digest: string -> nat, length: nat, patience: nat)

  function Power(base: nat, exponent: nat): nat {
    if exponent == 0 then 1 else base * Power(base, exponent - 1)
  }

  predicate Alphanumeric(id: string) { forall i :: 0 <= i < |id| ==> id[i] in ALPHABET }

  predicate Fits(id: string, length: nat) { |id| == length && Alphanumeric(id) }

  /** Base-62 digits, least significant first. */
  function Digits(number: nat, length: nat): (digits: string)
    ensures Fits(digits, length)
  {
    if length == 0 then [] else [ALPHABET[number % 62]] + Digits(number / 62, length - 1)
  }

  function Hashed(fitting: Fitting, id: string): (hashed: string)
    ensures Fits(hashed, fitting.length)
  {
    Digits(fitting.digest(id), fitting.length)
  }

  /** The ID itself if it fits, its hash otherwise, and then hashes of numbered variants. */
  function Candidate(fitting: Fitting, id: string, attempt: nat): (candidate: string)
    ensures Fits(candidate, fitting.length)
  {
    if attempt > 0 then Hashed(fitting, id + "#" + Decimal(attempt))
    else if Fits(id, fitting.length) then id
    else Hashed(fitting, id)
  }

  /** The first candidate that is free. */
  function Probe(fitting: Fitting, id: string, taken: set<string>, attempt: nat): (found: Option<string>)
    ensures found.Some? ==> found.value !in taken && Fits(found.value, fitting.length)
    decreases fitting.patience - attempt
  {
    if Candidate(fitting, id, attempt) !in taken then Some(Candidate(fitting, id, attempt))
    else if attempt >= fitting.patience then None
    else Probe(fitting, id, taken, attempt + 1)
  }

  datatype Table = Table(replacements: map<string, string>, taken: set<string>)

  const NO_REPLACEMENTS := Table(map[], {})

  datatype Outcome = Fitted(table: Table) | TooMany | OutOfPatience

  function FitOne(fitting: Fitting, table: Table, id: string): Outcome {
    if id == "" || id in table.replacements then Fitted(table)
    else if |table.taken| >= Power(62, fitting.length) then TooMany
    else
      var found := Probe(fitting, id, table.taken, 0);
      if found.None? then OutOfPatience
      else Fitted(Table(table.replacements[id := found.value], table.taken + {found.value}))
  }

  /** Replacements are assigned in order of appearance. */
  function FitAll(fitting: Fitting, ids: seq<string>): Outcome {
    if ids == [] then Fitted(NO_REPLACEMENTS)
    else
      var before := FitAll(fitting, ids[..|ids| - 1]);
      if !before.Fitted? then before else FitOne(fitting, before.table, ids[|ids| - 1])
  }

  // ----- the assignment -----

  ghost predicate Injective<K(!new), V>(f: map<K, V>) {
    forall a, b :: a in f && b in f && a != b ==> f[a] != f[b]
  }

  ghost predicate Covered<K(!new), V>(f: map<K, V>, taken: set<V>) { forall x :: x in f ==> f[x] in taken }

  ghost predicate EachFits(f: map<string, string>, length: nat) { forall x :: x in f ==> Fits(f[x], length) }

  /** Distinct IDs get distinct replacements of the required form. */
  ghost predicate TableOk(fitting: Fitting, table: Table) {
    && Injective(table.replacements) && "" !in table.replacements
    && Covered(table.replacements, table.taken) && EachFits(table.replacements, fitting.length)
    && |table.taken| == |table.replacements.Keys|
  }

  lemma {:induction false} FitOneOk(fitting: Fitting, table: Table, id: string)
    requires TableOk(fitting, table) && FitOne(fitting, table, id).Fitted?
    ensures TableOk(fitting, FitOne(fitting, table, id).table)
  {
    hide Probe, Power;
    var after := FitOne(fitting, table, id).table;
    if after != table {
      var found := Probe(fitting, id, table.taken, 0).value;
      hide Fits, FitOne, Injective;
      InjectiveMore(table.replacements, table.taken, id, found);
      assert after == Table(table.replacements[id := found], table.taken + {found});
      FitsMore(fitting, table, id, found);
    }
  }

  lemma FitsMore(fitting: Fitting, table: Table, id: string, found: string)
    requires TableOk(fitting, table) && Fits(found, fitting.length)
    ensures EachFits(table.replacements[id := found], fitting.length)
  {
    hide Fits, Injective;
  }

  lemma InjectiveMore<K(!new), V>(f: map<K, V>, taken: set<V>, id: K, found: V)
    requires Injective(f) && Covered(f, taken) && id !in f && found !in taken
    requires |taken| == |f.Keys|
    ensures Injective(f[id := found]) && Covered(f[id := found], taken + {found})
    ensures |taken + {found}| == |f[id := found].Keys|
  {
    var g := f[id := found];
    assert g.Keys == f.Keys + {id};
    forall a, b | a in g && b in g && a != b ensures g[a] != g[b] {
      if a == id {
        assert f[b] in taken;
      } else if b == id {
        assert f[a] in taken;
      }
    }
    hide Injective;
  }

  ghost function Named(ids: seq<string>): set<string> { set id | id in ids && id != "" }

  /** All candidates for the ID are taken, as far as patience goes. */
  ghost predicate Exhausted(fitting: Fitting, taken: set<string>, id: string) {
    forall attempt :: 0 <= attempt <= fitting.patience ==> Candidate(fitting, id, attempt) in taken
  }

  /** Probing fails exactly when there is nothing left to try. */
  lemma {:induction false} ProbeFails(fitting: Fitting, id: string, taken: set<string>, attempt: nat)
    requires attempt <= fitting.patience
    ensures Probe(fitting, id, taken, attempt).None?
       <==> forall k :: attempt <= k <= fitting.patience ==> Candidate(fitting, id, k) in taken
    decreases fitting.patience - attempt
  {
    hide Candidate;
    if attempt < fitting.patience { ProbeFails(fitting, id, taken, attempt + 1); }
  }

  /** A new ID for which the replacements given to the IDs before it leave no candidate. */
  ghost predicate StuckAt(fitting: Fitting, ids: seq<string>, n: nat)
    requires n < |ids|
  {
    var before := FitAll(fitting, ids[..n]);
    before.Fitted? && ids[n] != "" && ids[n] !in Named(ids[..n]) && Exhausted(fitting, before.table.taken, ids[n])
  }

  lemma StillStuck(fitting: Fitting, front: seq<string>, last: string)
    requires exists n :: 0 <= n < |front| && StuckAt(fitting, front, n)
    ensures exists n :: 0 <= n < |front + [last]| && StuckAt(fitting, front + [last], n)
  {
    var n :| 0 <= n < |front| && StuckAt(fitting, front, n);
    assert (front + [last])[..n] == front[..n];
    assert StuckAt(fitting, front + [last], n);
  }

  /** For any hash: on success the replacements are injective, have exactly the required length and
      alphabet, and cover the IDs, of which there are no more than could exist. Too many IDs are reported
      only when there are more than that; the other failure means that all candidates of some ID were
      taken. */
  lemma {:induction false} FitAllOk(fitting: Fitting, ids: seq<string>)
    ensures match FitAll(fitting, ids)
      case Fitted(table) =>
        TableOk(fitting, table) && table.replacements.Keys == Named(ids) && |Named(ids)| <= Power(62, fitting.length)
      case TooMany => |Named(ids)| > Power(62, fitting.length)
      case OutOfPatience => exists n :: 0 <= n < |ids| && StuckAt(fitting, ids, n)
  {
    hide Probe, Power, TableOk, FitOne, Named, StuckAt;
    if ids == [] {
      NothingFitted(fitting);
    } else {
      var front, last := ids[..|ids| - 1], ids[|ids| - 1];
      FitAllOk(fitting, front);
      NamedMore(front, last);
      assert ids == front + [last];
      var before := FitAll(fitting, front);
      if before.Fitted? {
        NextFitted(fitting, before.table, last);
        if FitAll(fitting, ids).Fitted? { NextWithin(fitting, before.table, last); }
        if FitAll(fitting, ids).OutOfPatience? { NowStuck(fitting, ids); }
      } else if before.OutOfPatience? {
        StillStuck(fitting, front, last);
      }
    }
  }

  lemma NowStuck(fitting: Fitting, ids: seq<string>)
    requires ids != []
    requires var before := FitAll(fitting, ids[..|ids| - 1]);
      && before.Fitted? && before.table.replacements.Keys == Named(ids[..|ids| - 1])
      && FitOne(fitting, before.table, ids[|ids| - 1]).OutOfPatience?
    ensures exists n :: 0 <= n < |ids| && StuckAt(fitting, ids, n)
  {
    hide Candidate, Named, Power;
    var n := |ids| - 1;
    ProbeFails(fitting, ids[n], FitAll(fitting, ids[..n]).table.taken, 0);
    assert StuckAt(fitting, ids, n);
  }

  lemma NamedMore(front: seq<string>, last: string)
    ensures Named(front + [last]) == Named(front) + if last == "" then {} else {last}
    ensures |Named(front)| <= |Named(front + [last])| && (last != "" && last !in Named(front) ==>
      |Named(front + [last])| == |Named(front)| + 1)
  {
    var more := Named(front + [last]);
    assert more == Named(front) + if last == "" then {} else {last};
    if last == "" || last in Named(front) { assert more == Named(front); }
  }

  lemma {:induction false} NextFitted(fitting: Fitting, table: Table, id: string)
    requires TableOk(fitting, table)
    ensures match FitOne(fitting, table, id)
      case Fitted(after) => TableOk(fitting, after)
        && after.replacements.Keys == table.replacements.Keys + if id == "" then {} else {id}
      case TooMany => id != "" && id !in table.replacements.Keys
        && |table.replacements.Keys| >= Power(62, fitting.length)
      case OutOfPatience => true
  {
    if FitOne(fitting, table, id).Fitted? { FitOneOk(fitting, table, id); }
    hide Probe, Power;
  }

  lemma NextWithin(fitting: Fitting, table: Table, id: string)
    requires TableOk(fitting, table) && FitOne(fitting, table, id).Fitted?
    ensures var after := FitOne(fitting, table, id).table;
      after != table ==> |after.replacements.Keys| <= Power(62, fitting.length)
  {
    FitOneOk(fitting, table, id);
    hide Probe, Power, Injective, Covered, EachFits;
  }

  lemma NothingFitted(fitting: Fitting)
    ensures TableOk(fitting, NO_REPLACEMENTS) && NO_REPLACEMENTS.replacements.Keys == {} && Named([]) == {}
  {}

  ghost predicate Extends(a: map<string, string>, b: map<string, string>) {
    forall id :: id in a ==> id in b && b[id] == a[id]
  }

  /** A replacement never changes as the history grows. */
  lemma {:induction false} ReplacementsOnlyGrow(fitting: Fitting, ids: seq<string>, n: nat)
    requires n <= |ids| && FitAll(fitting, ids).Fitted?
    ensures FitAll(fitting, ids[..n]).Fitted?
    ensures Extends(FitAll(fitting, ids[..n]).table.replacements, FitAll(fitting, ids).table.replacements)
  {
    hide Probe, Power;
    if n == |ids| {
      assert ids[..n] == ids;
    } else {
      ReplacementsOnlyGrow(fitting, ids[..|ids| - 1], n);
      assert ids[..|ids| - 1][..n] == ids[..n];
    }
  }

  /** An ID is kept exactly when it fits and no earlier ID was given it as a replacement. */
  lemma {:induction false} KeptExactly(fitting: Fitting, ids: seq<string>, n: nat)
    requires n < |ids| && FitAll(fitting, ids).Fitted? && ids[n] != ""
    requires FitAll(fitting, ids[..n]).Fitted? && ids[n] !in FitAll(fitting, ids[..n]).table.replacements
    ensures ids[n] in FitAll(fitting, ids).table.replacements
    ensures FitAll(fitting, ids).table.replacements[ids[n]] == ids[n] <==>
      Fits(ids[n], fitting.length) && ids[n] !in FitAll(fitting, ids[..n]).table.taken
  {
    var before := FitAll(fitting, ids[..n]).table;
    assert ids[..n + 1][..n] == ids[..n];
    ReplacementsOnlyGrow(fitting, ids, n + 1);
    hide FitAll;
    assert FitAll(fitting, ids[..n + 1]) == FitOne(fitting, before, ids[n]) by { StepIsFitOne(fitting, ids, n); }
  }

  lemma StepIsFitOne(fitting: Fitting, ids: seq<string>, n: nat)
    requires n < |ids| && FitAll(fitting, ids[..n]).Fitted?
    ensures FitAll(fitting, ids[..n + 1]) == FitOne(fitting, FitAll(fitting, ids[..n]).table, ids[n])
  {
    assert ids[..n + 1][..n] == ids[..n];
  }

  // ----- the history's IDs -----

  function PartId(part: RequestPart): string { if part.ToolReturn? || part.RetryPrompt? then part.id else "" }

  function OutId(out: ResponsePart): string { if out.CallPart? then out.call.id else "" }

  function PartIds(parts: seq<RequestPart>): (ids: seq<string>)
    ensures |ids| == |parts|
  {
    if parts == [] then [] else PartIds(parts[..|parts| - 1]) + [PartId(parts[|parts| - 1])]
  }

  function OutIds(outs: seq<ResponsePart>): (ids: seq<string>)
    ensures |ids| == |outs|
  {
    if outs == [] then [] else OutIds(outs[..|outs| - 1]) + [OutId(outs[|outs| - 1])]
  }

  function MessageIds(message: Message): seq<string> {
    if message.Request? then PartIds(message.parts) else OutIds(message.outs)
  }

  function AllIds(messages: seq<Message>): seq<string> {
    if messages == [] then [] else AllIds(messages[..|messages| - 1]) + MessageIds(messages[|messages| - 1])
  }

  function Renamed(f: map<string, string>, id: string): string { if id in f then f[id] else id }

  function RenamePart(f: map<string, string>, part: RequestPart): RequestPart {
    match part
    case ToolReturn(name, id, kind, content, synthesized) =>
      ToolReturn(name, Renamed(f, id), kind, content, synthesized)
    case RetryPrompt(name, id, content) => RetryPrompt(name, Renamed(f, id), content)
    case _ => part
  }

  function RenameOut(f: map<string, string>, out: ResponsePart): ResponsePart {
    if out.CallPart? then
      CallPart(ToolCall(out.call.name, Renamed(f, out.call.id), out.call.kind, out.call.payload))
    else out
  }

  function RenameParts(f: map<string, string>, parts: seq<RequestPart>): seq<RequestPart> {
    if parts == [] then [] else RenameParts(f, parts[..|parts| - 1]) + [RenamePart(f, parts[|parts| - 1])]
  }

  function RenameOuts(f: map<string, string>, outs: seq<ResponsePart>): seq<ResponsePart> {
    if outs == [] then [] else RenameOuts(f, outs[..|outs| - 1]) + [RenameOut(f, outs[|outs| - 1])]
  }

  function RenameMessage(f: map<string, string>, message: Message): Message {
    if message.Request? then message.(parts := RenameParts(f, message.parts))
    else message.(outs := RenameOuts(f, message.outs))
  }

  function RenameAll(f: map<string, string>, messages: seq<Message>): seq<Message> {
    if messages == [] then []
    else RenameAll(f, messages[..|messages| - 1]) + [RenameMessage(f, messages[|messages| - 1])]
  }

  lemma {:induction false} RenamedAt(f: map<string, string>, messages: seq<Message>, i: nat)
    requires i < |messages|
    ensures |RenameAll(f, messages)| == |messages| && RenameAll(f, messages)[i] == RenameMessage(f, messages[i])
  {
    hide RenameMessage;
    var front := messages[..|messages| - 1];
    if i < |front| {
      RenamedAt(f, front, i);
    } else if front != [] {
      RenamedAt(f, front, 0);
    }
  }

  lemma {:induction false} PartRenamedAt(f: map<string, string>, parts: seq<RequestPart>, i: nat)
    requires i < |parts|
    ensures |RenameParts(f, parts)| == |parts| && RenameParts(f, parts)[i] == RenamePart(f, parts[i])
  {
    hide RenamePart;
    var front := parts[..|parts| - 1];
    if i < |front| {
      PartRenamedAt(f, front, i);
    } else if front != [] {
      PartRenamedAt(f, front, 0);
    }
  }

  // ----- fitting a history -----

  /** Fitting from a table already begun. */
  function FitFrom(fitting: Fitting, table: Table, ids: seq<string>): Outcome {
    if ids == [] then Fitted(table)
    else
      var before := FitFrom(fitting, table, ids[..|ids| - 1]);
      if !before.Fitted? then before else FitOne(fitting, before.table, ids[|ids| - 1])
  }

  lemma {:induction false} FitAllIsFitFrom(fitting: Fitting, ids: seq<string>)
    ensures FitAll(fitting, ids) == FitFrom(fitting, NO_REPLACEMENTS, ids)
  {
    hide FitOne;
    if ids != [] { FitAllIsFitFrom(fitting, ids[..|ids| - 1]); }
  }

  lemma {:induction false} FitFromJoin(fitting: Fitting, table: Table, a: seq<string>, b: seq<string>)
    ensures var first := FitFrom(fitting, table, a);
      FitFrom(fitting, table, a + b) == if first.Fitted? then FitFrom(fitting, first.table, b) else first
  {
    hide FitOne;
    if b == [] {
      assert a + b == a;
    } else {
      FitFromJoin(fitting, table, a, b[..|b| - 1]);
      assert (a + b)[..|a + b| - 1] == a + b[..|b| - 1];
    }
  }

  /** A table covers the IDs fitted from it, and keeps what it had. */
  ghost predicate Grown(before: Table, after: Table, ids: seq<string>) {
    Extends(before.replacements, after.replacements) && Named(ids) <= after.replacements.Keys
  }

  lemma {:induction false} FitFromGrows(fitting: Fitting, table: Table, ids: seq<string>)
    requires TableOk(fitting, table) && FitFrom(fitting, table, ids).Fitted?
    ensures var after := FitFrom(fitting, table, ids).table;
      TableOk(fitting, after) && Grown(table, after, ids)
  {
    hide Probe, Power, TableOk, Extends;
    if ids == [] {
      ExtendsItself(table.replacements);
    } else {
      var front, last := ids[..|ids| - 1], ids[|ids| - 1];
      assert ids == front + [last];
      FitFromGrows(fitting, table, front);
      var middle := FitFrom(fitting, table, front).table;
      FitOneOk(fitting, middle, last);
      NamedMore(front, last);
      OneGrows(fitting, middle, last);
      hide FitOne, Named;
      ExtendsThrough(table.replacements, middle.replacements, FitOne(fitting, middle, last).table.replacements);
    }
  }

  lemma ExtendsItself(a: map<string, string>)
    ensures Extends(a, a)
  {}

  lemma ExtendsThrough(a: map<string, string>, b: map<string, string>, c: map<string, string>)
    requires Extends(a, b) && Extends(b, c)
    ensures Extends(a, c) && b.Keys <= c.Keys
  {}

  lemma OneGrows(fitting: Fitting, table: Table, id: string)
    requires FitOne(fitting, table, id).Fitted?
    ensures var after := FitOne(fitting, table, id).table;
      Extends(table.replacements, after.replacements) && (id != "" ==> id in after.replacements.Keys)
  {
    hide Probe, Power;
  }

  lemma {:induction false} SamePartNames(f: map<string, string>, g: map<string, string>, parts: seq<RequestPart>)
    requires Extends(f, g) && "" !in g && Named(PartIds(parts)) <= f.Keys
    ensures RenameParts(f, parts) == RenameParts(g, parts)
  {
    if parts != [] {
      NamedMore(PartIds(parts[..|parts| - 1]), PartId(parts[|parts| - 1]));
      SamePartNames(f, g, parts[..|parts| - 1]);
    }
  }

  lemma {:induction false} SameOutNames(f: map<string, string>, g: map<string, string>, outs: seq<ResponsePart>)
    requires Extends(f, g) && "" !in g && Named(OutIds(outs)) <= f.Keys
    ensures RenameOuts(f, outs) == RenameOuts(g, outs)
  {
    if outs != [] {
      NamedMore(OutIds(outs[..|outs| - 1]), OutId(outs[|outs| - 1]));
      SameOutNames(f, g, outs[..|outs| - 1]);
    }
  }

  lemma NamedJoin(a: seq<string>, b: seq<string>)
    ensures Named(a + b) == Named(a) + Named(b)
  {}

  lemma {:induction false} SameNames(f: map<string, string>, g: map<string, string>, messages: seq<Message>)
    requires Extends(f, g) && "" !in g && Named(AllIds(messages)) <= f.Keys
    ensures RenameAll(f, messages) == RenameAll(g, messages)
  {
    if messages != [] {
      var front, last := messages[..|messages| - 1], messages[|messages| - 1];
      NamedJoin(AllIds(front), MessageIds(last));
      SameNames(f, g, front);
      if last.Request? { SamePartNames(f, g, last.parts); } else { SameOutNames(f, g, last.outs); }
    }
  }

  /** The table of one pass over a history. */
  class IdFitter {
    const fitting: Fitting
    var replacements: map<string, string>
    var taken: set<string>

    ghost function Current(): Table
      reads this
    {
      Table(replacements, taken)
    }

    ghost predicate Valid()
      reads this
    {
      TableOk(fitting, Current())
    }

    constructor (fitting: Fitting)
      ensures Valid() && Current() == NO_REPLACEMENTS && this.fitting == fitting
    {
      this.fitting := fitting;
      replacements, taken := map[], {};
      new;
      NothingFitted(fitting);
    }

    /** The replacement for an ID, assigned when the ID first appears. */
    method Fit(id: string) returns (fitted: Option<string>)
      requires Valid()
      modifies this
      ensures var outcome := FitOne(fitting, old(Current()), id);
        && (outcome.Fitted? <==> fitted.Some?)
        && (fitted.Some? ==> Valid() && Current() == outcome.table && fitted.value == Renamed(replacements, id))
    {
      hide TableOk;
      ghost var before := Current();
      NoEmptyKey(fitting, before);
      if id == "" { return Some(""); }
      if id in replacements { return Some(replacements[id]); }
      if |taken| >= Power(62, fitting.length) { return None; }
      var replacement := if Fits(id, fitting.length) then id else Hashed(fitting, id);
      var attempt := 1;
      while replacement in taken
        invariant attempt > 0 && replacement == Candidate(fitting, id, attempt - 1)
        invariant Probe(fitting, id, taken, 0) == Probe(fitting, id, taken, attempt - 1)
        invariant attempt - 1 <= fitting.patience && replacements == before.replacements && taken == before.taken
        decreases fitting.patience - attempt
      {
        if attempt > fitting.patience { return None; }
        replacement := Hashed(fitting, id + "#" + Decimal(attempt));
        attempt := attempt + 1;
      }
      replacements := replacements[id := replacement];
      taken := taken + {replacement};
      FitOneOk(fitting, before, id);
      fitted := Some(replacement);
    }

    method FitParts(parts: seq<RequestPart>) returns (done: seq<RequestPart>, ok: bool)
      requires Valid()
      modifies this
      ensures var outcome := FitFrom(fitting, old(Current()), PartIds(parts));
        && (outcome.Fitted? <==> ok)
        && (ok ==> Valid() && Current() == outcome.table && done == RenameParts(replacements, parts))
    {
      hide TableOk, FitOne, FitFrom, Named, Extends, Renamed;
      ghost var before := Current();
      done, ok := [], true;
      FitNothing(fitting, before);
      var k := 0;
      while k < |parts|
        invariant 0 <= k <= |parts| && Valid() && ok
        invariant FitFrom(fitting, before, PartIds(parts[..k])) == Fitted(Current())
        invariant done == RenameParts(replacements, parts[..k])
      {
        var part := parts[k];
        assert parts[..k + 1] == parts[..k] + [part];
        NextPart(fitting, before, parts[..k], part, Current());
        label Before:
        var fitted := Fit(PartId(part));
        if fitted.None? {
          StuckAtPart(fitting, before, parts, k);
          return done, false;
        }
        if part.ToolReturn? {
          part := ToolReturn(part.name, fitted.value, part.kind, part.content, part.synthesized);
        } else if part.RetryPrompt? {
          part := RetryPrompt(part.name, fitted.value, part.content);
        }
        done := done + [part];
        k := k + 1;
      }
      assert parts[..k] == parts;
    }

    method FitOuts(outs: seq<ResponsePart>) returns (done: seq<ResponsePart>, ok: bool)
      requires Valid()
      modifies this
      ensures var outcome := FitFrom(fitting, old(Current()), OutIds(outs));
        && (outcome.Fitted? <==> ok)
        && (ok ==> Valid() && Current() == outcome.table && done == RenameOuts(replacements, outs))
    {
      hide TableOk, FitOne, FitFrom, Named, Extends, Renamed;
      ghost var before := Current();
      done, ok := [], true;
      FitNothing(fitting, before);
      var k := 0;
      while k < |outs|
        invariant 0 <= k <= |outs| && Valid() && ok
        invariant FitFrom(fitting, before, OutIds(outs[..k])) == Fitted(Current())
        invariant done == RenameOuts(replacements, outs[..k])
      {
        var out := outs[k];
        assert outs[..k + 1] == outs[..k] + [out];
        NextOut(fitting, before, outs[..k], out, Current());
        NoEmptyKey(fitting, Current());
        if out.CallPart? {
          var fitted := Fit(out.call.id);
          if fitted.None? {
            StuckAtOut(fitting, before, outs, k);
            return done, false;
          }
          out := CallPart(ToolCall(out.call.name, fitted.value, out.call.kind, out.call.payload));
        } else {
          EmptyIdFits(fitting, Current());
        }
        done := done + [out];
        k := k + 1;
      }
      assert outs[..k] == outs;
    }
  }

  lemma FitNothing(fitting: Fitting, table: Table)
    ensures FitFrom(fitting, table, []) == Fitted(table)
  {}

  lemma NoEmptyKey(fitting: Fitting, table: Table)
    requires TableOk(fitting, table)
    ensures "" !in table.replacements
  {}

  lemma {:induction false} NextPart(fitting: Fitting, before: Table, parts: seq<RequestPart>, part: RequestPart,
                                    table: Table)
    requires TableOk(fitting, before) && FitFrom(fitting, before, PartIds(parts)) == Fitted(table)
    ensures FitFrom(fitting, before, PartIds(parts + [part])) == FitOne(fitting, table, PartId(part))
    ensures FitOne(fitting, table, PartId(part)).Fitted? ==>
      var f := FitOne(fitting, table, PartId(part)).table.replacements;
      RenameParts(f, parts + [part]) == RenameParts(table.replacements, parts) + [RenamePart(f, part)]
  {
    assert (parts + [part])[..|parts|] == parts;
    assert PartIds(parts + [part])[..|parts|] == PartIds(parts);
    FitFromGrows(fitting, before, PartIds(parts));
    if FitOne(fitting, table, PartId(part)).Fitted? {
      FitOneOk(fitting, table, PartId(part));
      var after := FitOne(fitting, table, PartId(part)).table;
      NoEmptyKey(fitting, after);
      SamePartNames(table.replacements, after.replacements, parts);
    }
  }

  lemma {:induction false} StuckAtPart(fitting: Fitting, before: Table, parts: seq<RequestPart>, k: nat)
    requires k < |parts| && !FitFrom(fitting, before, PartIds(parts[..k + 1])).Fitted?
    ensures !FitFrom(fitting, before, PartIds(parts)).Fitted?
  {
    PartIdsJoin(parts[..k + 1], parts[k + 1..]);
    assert parts[..k + 1] + parts[k + 1..] == parts;
    FitFromJoin(fitting, before, PartIds(parts[..k + 1]), PartIds(parts[k + 1..]));
  }

  lemma {:induction false} PartIdsJoin(a: seq<RequestPart>, b: seq<RequestPart>)
    ensures PartIds(a + b) == PartIds(a) + PartIds(b)
  {
    if b == [] {
      assert a + b == a;
    } else {
      PartIdsJoin(a, b[..|b| - 1]);
      assert (a + b)[..|a + b| - 1] == a + b[..|b| - 1];
    }
  }

  lemma EmptyIdFits(fitting: Fitting, table: Table)
    ensures FitOne(fitting, table, "") == Fitted(table)
  {}

  lemma {:induction false} NextOut(fitting: Fitting, before: Table, outs: seq<ResponsePart>, out: ResponsePart,
                                   table: Table)
    requires TableOk(fitting, before) && FitFrom(fitting, before, OutIds(outs)) == Fitted(table)
    ensures FitFrom(fitting, before, OutIds(outs + [out])) == FitOne(fitting, table, OutId(out))
    ensures FitOne(fitting, table, OutId(out)).Fitted? ==>
      var f := FitOne(fitting, table, OutId(out)).table.replacements;
      RenameOuts(f, outs + [out]) == RenameOuts(table.replacements, outs) + [RenameOut(f, out)]
  {
    assert (outs + [out])[..|outs|] == outs;
    assert OutIds(outs + [out])[..|outs|] == OutIds(outs);
    FitFromGrows(fitting, before, OutIds(outs));
    if FitOne(fitting, table, OutId(out)).Fitted? {
      FitOneOk(fitting, table, OutId(out));
      var after := FitOne(fitting, table, OutId(out)).table;
      NoEmptyKey(fitting, after);
      SameOutNames(table.replacements, after.replacements, outs);
    }
  }

  lemma {:induction false} StuckAtOut(fitting: Fitting, before: Table, outs: seq<ResponsePart>, k: nat)
    requires k < |outs| && !FitFrom(fitting, before, OutIds(outs[..k + 1])).Fitted?
    ensures !FitFrom(fitting, before, OutIds(outs)).Fitted?
  {
    OutIdsJoin(outs[..k + 1], outs[k + 1..]);
    assert outs[..k + 1] + outs[k + 1..] == outs;
    FitFromJoin(fitting, before, OutIds(outs[..k + 1]), OutIds(outs[k + 1..]));
  }

  lemma {:induction false} OutIdsJoin(a: seq<ResponsePart>, b: seq<ResponsePart>)
    ensures OutIds(a + b) == OutIds(a) + OutIds(b)
  {
    if b == [] {
      assert a + b == a;
    } else {
      OutIdsJoin(a, b[..|b| - 1]);
      assert (a + b)[..|a + b| - 1] == a + b[..|b| - 1];
    }
  }

  lemma {:induction false} AllIdsJoin(a: seq<Message>, b: seq<Message>)
    ensures AllIds(a + b) == AllIds(a) + AllIds(b)
  {
    hide MessageIds;
    if b == [] {
      assert a + b == a;
    } else {
      AllIdsJoin(a, b[..|b| - 1]);
      assert (a + b)[..|a + b| - 1] == a + b[..|b| - 1];
    }
  }

  lemma {:induction false} NextMessage(fitting: Fitting, messages: seq<Message>, message: Message, table: Table)
    requires FitAll(fitting, AllIds(messages)) == Fitted(table)
    ensures var outcome := FitFrom(fitting, table, MessageIds(message));
      && FitAll(fitting, AllIds(messages + [message])) == outcome
      && (outcome.Fitted? ==>
            RenameAll(outcome.table.replacements, messages + [message])
            == RenameAll(table.replacements, messages) + [RenameMessage(outcome.table.replacements, message)])
  {
    assert (messages + [message])[..|messages|] == messages;
    FitAllIsFitFrom(fitting, AllIds(messages));
    FitAllIsFitFrom(fitting, AllIds(messages + [message]));
    FitFromJoin(fitting, NO_REPLACEMENTS, AllIds(messages), MessageIds(message));
    NothingFitted(fitting);
    FitFromGrows(fitting, NO_REPLACEMENTS, AllIds(messages));
    hide FitOne, FitAll, MessageIds, TableOk;
    var outcome := FitFrom(fitting, table, MessageIds(message));
    if outcome.Fitted? {
      FitFromGrows(fitting, table, MessageIds(message));
      NoEmptyKey(fitting, outcome.table);
      SameNames(table.replacements, outcome.table.replacements, messages);
    }
  }

  lemma {:induction false} StuckAtMessage(fitting: Fitting, messages: seq<Message>, k: nat)
    requires k < |messages| && !FitAll(fitting, AllIds(messages[..k + 1])).Fitted?
    ensures !FitAll(fitting, AllIds(messages)).Fitted?
  {
    AllIdsJoin(messages[..k + 1], messages[k + 1..]);
    assert messages[..k + 1] + messages[k + 1..] == messages;
    FitAllIsFitFrom(fitting, AllIds(messages[..k + 1]));
    FitAllIsFitFrom(fitting, AllIds(messages));
    FitFromJoin(fitting, NO_REPLACEMENTS, AllIds(messages[..k + 1]), AllIds(messages[k + 1..]));
  }

  /** Every call and result ID of the history is replaced through one table, the one `FitAll` builds. */
  method FitToolCallIds(fitting: Fitting, messages: seq<Message>) returns (fitted: Option<seq<Message>>)
    ensures var outcome := FitAll(fitting, AllIds(messages));
      fitted == if outcome.Fitted? then Some(RenameAll(outcome.table.replacements, messages)) else None
  {
    hide TableOk, FitOne, FitAll, FitFrom;
    var fitter := new IdFitter(fitting);
    var done: seq<Message> := [];
    var k := 0;
    NothingYet(fitting);
    while k < |messages|
      invariant 0 <= k <= |messages| && fitter.Valid() && fitter.fitting == fitting
      invariant FitAll(fitting, AllIds(messages[..k])) == Fitted(fitter.Current())
      invariant done == RenameAll(fitter.replacements, messages[..k])
    {
      assert messages[..k + 1] == messages[..k] + [messages[k]];
      NextMessage(fitting, messages[..k], messages[k], fitter.Current());
      var ok;
      if messages[k].Request? {
        var parts;
        parts, ok := fitter.FitParts(messages[k].parts);
        done := done + [messages[k].(parts := parts)];
      } else {
        var outs;
        outs, ok := fitter.FitOuts(messages[k].outs);
        done := done + [messages[k].(outs := outs)];
      }
      if !ok {
        StuckAtMessage(fitting, messages, k);
        return None;
      }
      k := k + 1;
    }
    assert messages[..k] == messages;
    fitted := Some(done);
  }

  lemma NothingYet(fitting: Fitting)
    ensures FitAll(fitting, AllIds([])) == Fitted(NO_REPLACEMENTS)
  {}
}
