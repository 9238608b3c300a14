/** Laravel's `Log` facade as state: the context shared with `Log::shareContext` and the
    events written so far. A call's own context is merged over the shared one (the call wins
    on a clash), as Laravel's logger does with `array_merge`. */
module LogFacade {
  import opened Php

  /** One log call: level, message and the call's own context array. */
  datatype Call = Call(level: string, message: string, fields: map<string, Value>)

  /** One written event, carrying the merged context. */
  datatype Event = Event(level: string, message: string, context: map<string, Value>)

  /** The events that a sequence of calls writes under the shared context `shared`. */
  function Stamp(calls: seq<Call>, shared: map<string, Value>): (es: seq<Event>)
    ensures |es| == |calls|
    ensures forall i :: 0 <= i < |calls| ==>
      es[i] == Event(calls[i].level, calls[i].message, shared + calls[i].fields)
  {
    if calls == [] then []
    else [Event(calls[0].level, calls[0].message, shared + calls[0].fields)] + Stamp(calls[1..], shared)
  }

  /** A shared key that a call does not override reaches that call's event unchanged. */
  lemma SharedKeyReachesEvent(calls: seq<Call>, shared: map<string, Value>, i: int, k: string)
    requires 0 <= i < |calls| && k in shared && k !in calls[i].fields
    ensures k in Stamp(calls, shared)[i].context && Stamp(calls, shared)[i].context[k] == shared[k]
  {
  }

  class Log {
    var shared: map<string, Value>
    var events: seq<Event>

    constructor ()
      ensures shared == map[] && events == []
    {
      shared := map[];
      events := [];
    }

    /** `Log::shareContext`: merge into the shared context, later keys win. */
    method ShareContext(context: map<string, Value>)
      modifies this
      ensures shared == old(shared) + context
      ensures events == old(events)
    {
      shared := shared + context;
    }

    /** `Log::info`, `Log::warning`, `Log::log($level, ...)` and the like. */
    method Write(call: Call)
      modifies this
      ensures events == old(events) + Stamp([call], shared)
      ensures shared == old(shared)
    {
      events := events + [Event(call.level, call.message, shared + call.fields)];
    }

    /** A sequence of calls made one after another, with no context shared in between. */
    method WriteAll(calls: seq<Call>)
      modifies this
      ensures events == old(events) + Stamp(calls, shared)
      ensures shared == old(shared)
    {
      var i := 0;
      while i < |calls|
        invariant 0 <= i <= |calls|
        invariant shared == old(shared)
        invariant events == old(events) + Stamp(calls[..i], shared)
      {
        assert calls[..i + 1] == calls[..i] + [calls[i]];
        StampAppend(calls[..i], [calls[i]], shared);
        Write(calls[i]);
        i := i + 1;
      }
      assert calls[..i] == calls;
    }
  }

  lemma StampAppend(a: seq<Call>, b: seq<Call>, shared: map<string, Value>)
    ensures Stamp(a + b, shared) == Stamp(a, shared) + Stamp(b, shared)
  {
  }

  /** Writing one more call extends the events of the calls written so far. */
  lemma StampExtend(before: seq<Event>, calls: seq<Call>, call: Call, shared: map<string, Value>)
    ensures before + Stamp(calls, shared) + Stamp([call], shared) == before + Stamp(calls + [call], shared)
  {
    StampAppend(calls, [call], shared);
    var s1, s2 := Stamp(calls, shared), Stamp([call], shared);
    assert before + s1 + s2 == before + (s1 + s2);
  }
}
