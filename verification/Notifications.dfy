/** Notifications: a timeline of message types for each correlation id. */
module Notifications {
  import opened Contracts
  import opened Messaging

  type Timeline = map<OrderId, seq<string>>

  function TimelineOf(t: Timeline, id: OrderId): seq<string> {
    if id in t then t[id] else []
  }

  function Recorded(t: Timeline, m: Message): Timeline {
    t[m.correlation := TimelineOf(t, m.correlation) + [m.kind]]
  }

  /** The message types a log holds for a correlation id, in order. */
  function Word(log: seq<Message>, id: OrderId): (w: seq<string>)
  {
    if log == [] then []
    else
      var last := log[|log| - 1];
      Word(log[..|log| - 1], id) + if last.correlation == id then [last.kind] else []
  }

  lemma WordSnoc(log: seq<Message>, m: Message, id: OrderId)
    ensures Word(log + [m], id) == Word(log, id) + if m.correlation == id then [m.kind] else []
  {
    assert (log + [m])[..|log|] == log;
  }

  class Service {
    var timeline: Timeline
    /** Every message handled so far, oldest first. */
    ghost var handled: seq<Message>

    constructor ()
      ensures Valid() && handled == []
    {
      timeline, handled := map[], [];
    }

    ghost predicate Valid()
      reads this
    {
      forall id :: TimelineOf(timeline, id) == Word(handled, id)
    }

    method Handle(m: Message) returns (ack: Ack)
      requires Valid()
      modifies this
      ensures Valid() && handled == old(handled) + [m]
      ensures timeline == Recorded(old(timeline), m) && ack == Accept
      ensures m.correlation in timeline && timeline.Keys == old(timeline.Keys) + {m.correlation}
      ensures timeline[m.correlation] == (if m.correlation in old(timeline) then old(timeline)[m.correlation] else []) + [m.kind]
      ensures forall id :: id in old(timeline) && id != m.correlation ==> timeline[id] == old(timeline)[id]
    {
      var order := m.correlation;
      timeline := timeline[order := (if order in timeline then timeline[order] else []) + [m.kind]];
      handled := handled + [m];
      forall id ensures TimelineOf(timeline, id) == Word(handled, id) {
        WordSnoc(old(handled), m, id);
      }
      return Accept;
    }

    /** A clone of the timeline of an order. */
    method Show(id: OrderId) returns (shown: seq<string>)
      requires Valid()
      ensures shown == Word(handled, id)
    {
      shown := if id in timeline then timeline[id] else [];
    }
  }
}
