/** The tool traffic of one key: which calls a response makes together, and which results follow. Whether a
    call is answered, and by which result, depends on this trace alone. */
module ToolTrace {
  import opened History
  import opened RepairSpec

  datatype Mark = Group(calls: seq<ToolCall>) | Answer(part: RequestPart)

  function OneAnswer(part: RequestPart, key: Key): seq<Mark> { if AnswersKey(part, key) then [Answer(part)] else [] }

  function AnswersIn(parts: seq<RequestPart>, key: Key): seq<Mark> {
    if parts == [] then [] else OneAnswer(parts[0], key) + AnswersIn(parts[1..], key)
  }

  function MessageTrace(message: Message, key: Key): seq<Mark> {
    if message.Request? then AnswersIn(message.parts, key)
    else
      var calls := CallsWith(Calls(message.outs), key);
      if calls == [] then [] else [Group(calls)]
  }

  function Trace(messages: seq<Message>, key: Key): seq<Mark> {
    if messages == [] then [] else MessageTrace(messages[0], key) + Trace(messages[1..], key)
  }

  lemma Associate<T>(a: seq<T>, b: seq<T>, c: seq<T>)
    ensures a + (b + c) == a + b + c
  {}

  lemma {:induction false} TraceJoin(a: seq<Message>, b: seq<Message>, key: Key)
    ensures Trace(a + b, key) == Trace(a, key) + Trace(b, key)
  {
    hide MessageTrace;
    if a == [] {
      assert a + b == b;
    } else {
      TraceJoin(a[1..], b, key);
      assert (a + b)[0] == a[0] && (a + b)[1..] == a[1..] + b;
      Associate(MessageTrace(a[0], key), Trace(a[1..], key), Trace(b, key));
    }
  }

  lemma {:induction false} AnswersJoin(a: seq<RequestPart>, b: seq<RequestPart>, key: Key)
    ensures AnswersIn(a + b, key) == AnswersIn(a, key) + AnswersIn(b, key)
  {
    hide OneAnswer;
    if a == [] {
      assert a + b == b;
    } else {
      AnswersJoin(a[1..], b, key);
      assert (a + b)[0] == a[0] && (a + b)[1..] == a[1..] + b;
      Associate(OneAnswer(a[0], key), AnswersIn(a[1..], key), AnswersIn(b, key));
    }
  }

  lemma TraceOne(message: Message, key: Key)
    ensures Trace([message], key) == MessageTrace(message, key) && Trace([], key) == []
  {}

  /** The answers before the next group. */
  function Lead(trace: seq<Mark>): nat {
    if trace == [] || trace[0].Group? then 0 else 1 + Lead(trace[1..])
  }

  /** Each group is followed by at least as many answers before the next group. */
  predicate TraceAnswered(trace: seq<Mark>) {
    trace == [] || (TraceAnswered(trace[1..]) && (trace[0].Group? ==> |trace[0].calls| <= Lead(trace[1..])))
  }

  lemma {:induction false} AnswersCount(parts: seq<RequestPart>, key: Key)
    ensures |AnswersIn(parts, key)| == CountResults(parts, key)
    ensures forall i :: 0 <= i < |AnswersIn(parts, key)| ==> AnswersIn(parts, key)[i].Answer?
  {
    if parts != [] { AnswersCount(parts[1..], key); }
  }

  lemma {:induction false} LeadSkips(answers: seq<Mark>, trace: seq<Mark>)
    requires forall i :: 0 <= i < |answers| ==> answers[i].Answer?
    ensures Lead(answers + trace) == |answers| + Lead(trace)
    ensures TraceAnswered(answers + trace) <==> TraceAnswered(trace)
  {
    if answers == [] {
      assert answers + trace == trace;
    } else {
      LeadSkips(answers[1..], trace);
      assert (answers + trace)[1..] == answers[1..] + trace;
    }
  }

  lemma {:induction false} WindowIsLead(messages: seq<Message>, key: Key)
    ensures Window(messages, key) == Lead(Trace(messages, key))
  {
    if messages != [] {
      WindowIsLead(messages[1..], key);
      hide AnswersIn, CallsWith;
      var rest := Trace(messages[1..], key);
      if messages[0].Request? {
        AnswersCount(messages[0].parts, key);
        LeadSkips(AnswersIn(messages[0].parts, key), rest);
      } else {
        CallsWithCount(Calls(messages[0].outs), key);
        assert [] + rest == rest;
      }
    }
  }

  lemma {:induction false} AnsweredStep(message: Message, rest: seq<Message>, key: Key)
    ensures TraceAnswered(Trace([message] + rest, key)) <==>
      TraceAnswered(Trace(rest, key)) && CountCalls(MessageCalls(message), key) <= Window(rest, key)
  {
    hide AnswersIn, CallsWith, Window, CountCalls, Lead;
    WindowIsLead(rest, key);
    var tail := Trace(rest, key);
    assert Trace([message] + rest, key) == MessageTrace(message, key) + tail by {
      TraceJoin([message], rest, key);
      TraceOne(message, key);
    }
    hide Trace;
    if message.Request? {
      AnswersCount(message.parts, key);
      LeadSkips(AnswersIn(message.parts, key), tail);
      NoCalls(key);
    } else {
      CallsWithCount(Calls(message.outs), key);
      var own := MessageTrace(message, key);
      if own == [] {
        assert own + tail == tail;
      } else {
        assert (own + tail)[1..] == tail;
      }
    }
  }

  lemma NoCalls(key: Key)
    ensures CountCalls([], key) == 0
  {}

  ghost predicate EveryTraceAnswered(messages: seq<Message>) {
    forall key :: TraceAnswered(Trace(messages, key))
  }

  /** Every call is answered exactly when every key's trace says so. */
  lemma {:induction false} AnsweredByTraces(messages: seq<Message>)
    ensures AllAnswered(messages) <==> EveryTraceAnswered(messages)
  {
    if messages != [] {
      var message, rest := messages[0], messages[1..];
      assert messages == [message] + rest;
      AnsweredByTraces(rest);
      forall key
        ensures TraceAnswered(Trace(messages, key)) <==>
          TraceAnswered(Trace(rest, key)) && CountCalls(MessageCalls(message), key) <= Window(rest, key)
      {
        AnsweredStep(message, rest, key);
      }
      hide Trace, TraceAnswered, Window, CountCalls;
      if EveryTraceAnswered(messages) {
        forall key
          ensures TraceAnswered(Trace(rest, key)) && CountCalls(MessageCalls(message), key) <= Window(rest, key)
        {
          assert TraceAnswered(Trace(messages, key));
        }
      }
      if AllAnswered(messages) {
        forall key ensures TraceAnswered(Trace(messages, key)) {
          assert TraceAnswered(Trace(rest, key));
        }
      }
    }
  }
}
