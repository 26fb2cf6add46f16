/** Reading a stream in sessions, from a checkpoint the application keeps. */
module StreamReader {
  import opened Messaging

  /** A reader for one session: the messages it counted, and where the last of them was. */
  class Reader<T> {
    var read: seq<T>
    var checkpoint: nat
    var stopping: bool

    constructor ()
      ensures read == [] && checkpoint == 0 && !stopping
    {
      read, checkpoint, stopping := [], 0, false;
    }

    method Add(message: T, offset: nat)
      modifies this`read, this`checkpoint
      ensures read == old(read) + [message] && checkpoint == offset
    {
      read := read + [message];
      checkpoint := offset;
    }

    /** Counts every message up to the quota. More may arrive before the session is
        closed: those are acknowledged and left for the next one. */
    method Handle(message: T, offset: nat, quota: nat) returns (ack: Ack)
      modifies this
      ensures ack == Accept
      ensures old(stopping) ==> read == old(read) && checkpoint == old(checkpoint) && stopping
      ensures !old(stopping) ==> read == old(read) + [message] && checkpoint == offset && stopping == (|read| == quota)
    {
      if stopping {
        return Accept;
      }
      Add(message, offset);
      stopping := |read| == quota;
      return Accept;
    }
  }

  /** How many of the delivered messages a session counts. A quota of zero is never
      reached, because it is compared after a message is added. */
  function Counted(quota: nat, delivered: nat): nat {
    if quota == 0 || delivered < quota then delivered else quota
  }

  /** A session: the broker delivers `delivered` messages in order from an offset,
      and the reader stops counting at its quota. */
  method Session<T>(stream: seq<T>, from: nat, delivered: nat, quota: nat) returns (read: seq<T>, checkpoint: nat)
    requires from + delivered <= |stream|
    ensures read == stream[from..from + Counted(quota, delivered)]
    ensures checkpoint == if delivered == 0 then 0 else from + Counted(quota, delivered) - 1
  {
    var reader := new Reader<T>();
    for i := 0 to delivered
      invariant reader.read == stream[from..from + Counted(quota, i)]
      invariant reader.checkpoint == if i == 0 then 0 else from + Counted(quota, i) - 1
      invariant reader.stopping == (i > 0 && Counted(quota, i) == quota)
    {
      var ack := reader.Handle(stream[from + i], from + i, quota);
    }
    return reader.read, reader.checkpoint;
  }

  /** One session of a plan: how many messages it is delivered, and its quota. */
  datatype Visit = Visit(delivered: nat, quota: nat)

  /** The offset the next session starts at: one past the checkpoint. */
  function Resume(from: nat, v: Visit): nat {
    (if v.delivered == 0 then 0 else from + Counted(v.quota, v.delivered) - 1) + 1
  }

  predicate Fits<T>(stream: seq<T>, from: nat, plan: seq<Visit>)
    decreases |plan|
  {
    plan == [] || (from + plan[0].delivered <= |stream| && Fits(stream, Resume(from, plan[0]), plan[1..]))
  }

  /** Everything a sequence of sessions handled, end to end. */
  function Handled<T>(stream: seq<T>, from: nat, plan: seq<Visit>): seq<T>
    requires Fits(stream, from, plan)
    decreases |plan|
  {
    if plan == [] then []
    else stream[from..from + Counted(plan[0].quota, plan[0].delivered)] + Handled(stream, Resume(from, plan[0]), plan[1..])
  }

  /** The imperative reader does what the plan says, session after session. */
  method ReadInSessions<T>(stream: seq<T>, plan: seq<Visit>) returns (handled: seq<T>)
    requires Fits(stream, 0, plan)
    ensures handled == Handled(stream, 0, plan)
  {
    handled := [];
    var from := 0;
    assert plan[0..] == plan;
    for i := 0 to |plan|
      invariant Fits(stream, from, plan[i..])
      invariant handled + Handled(stream, from, plan[i..]) == Handled(stream, 0, plan)
    {
      GoesOn(stream, from, plan, i, handled);
      var read, checkpoint := Session(stream, from, plan[i].delivered, plan[i].quota);
      handled := handled + read;
      from := checkpoint + 1;
    }
    assert plan[|plan|..] == [];
  }

  /** What the rest of a plan handles, session by session. */
  lemma FirstOf<T>(stream: seq<T>, from: nat, plan: seq<Visit>, i: nat)
    requires i < |plan| && Fits(stream, from, plan[i..])
    ensures from + plan[i].delivered <= |stream| && Fits(stream, Resume(from, plan[i]), plan[i + 1..])
    ensures Handled(stream, from, plan[i..])
            == stream[from..from + Counted(plan[i].quota, plan[i].delivered)] + Handled(stream, Resume(from, plan[i]), plan[i + 1..])
  {
    assert plan[i..][0] == plan[i] && plan[i..][1..] == plan[i + 1..];
  }

  /** One more session hands the rest of the plan on to the next. */
  lemma GoesOn<T>(stream: seq<T>, from: nat, plan: seq<Visit>, i: nat, handled: seq<T>)
    requires i < |plan| && Fits(stream, from, plan[i..])
    ensures from + plan[i].delivered <= |stream| && Fits(stream, Resume(from, plan[i]), plan[i + 1..])
    ensures handled + stream[from..from + Counted(plan[i].quota, plan[i].delivered)]
              + Handled(stream, Resume(from, plan[i]), plan[i + 1..])
            == handled + Handled(stream, from, plan[i..])
  {
    FirstOf(stream, from, plan, i);
    Regroup(handled, stream[from..from + Counted(plan[i].quota, plan[i].delivered)],
            Handled(stream, Resume(from, plan[i]), plan[i + 1..]));
  }

  lemma Regroup<T>(x: seq<T>, y: seq<T>, z: seq<T>)
    ensures x + y + z == x + (y + z)
  {
  }

  /** No gap and no repeat: when every session handles something, what they handled
      is, end to end, exactly the stream from where the first one started. */
  lemma {:induction false} SessionsReadTheStream<T>(stream: seq<T>, from: nat, plan: seq<Visit>)
    requires Fits(stream, from, plan) && from <= |stream|
    requires forall v :: v in plan ==> v.delivered > 0
    ensures from + |Handled(stream, from, plan)| <= |stream|
    ensures Handled(stream, from, plan) == stream[from..from + |Handled(stream, from, plan)|]
    decreases |plan|
  {
    if plan != [] {
      var v := plan[0];
      assert v in plan;
      var next := from + Counted(v.quota, v.delivered);
      SessionsReadTheStream(stream, next, plan[1..]);
      var rest := Handled(stream, next, plan[1..]);
      assert stream[from..next] + stream[next..next + |rest|] == stream[from..next + |rest|];
    }
  }

  /** A session resumes exactly where the one before stopped if and only if that
      one handled a message, or had started at offset one: a checkpoint nothing
      has set reads as offset zero. */
  lemma ResumesWhereItStoppedExactly(from: nat, v: Visit)
    ensures Resume(from, v) == from + Counted(v.quota, v.delivered) <==> v.delivered > 0 || from == 1
  {
  }

  /** Why `SessionsReadTheStream` asks every session to handle something: after a first
      session that handled nothing, one past its checkpoint is past the first message. */
  lemma EmptySessionSkips<T>(stream: seq<T>)
    requires |stream| >= 2
    ensures var plan := [Visit(0, 1), Visit(1, 1)];
            Fits(stream, 0, plan) && Handled(stream, 0, plan) == [stream[1]]
  {
    var plan := [Visit(0, 1), Visit(1, 1)];
    assert plan[1..] == [Visit(1, 1)] && plan[1..][1..] == [];
    assert Resume(0, plan[0]) == 1;
    assert Fits(stream, 1, plan[1..]);
    assert stream[1..2] == [stream[1]];
    assert Handled(stream, 2, []) == [];
    assert Handled(stream, 1, plan[1..]) == stream[1..2] + [];
    assert stream[0..0] == [];
  }
}
