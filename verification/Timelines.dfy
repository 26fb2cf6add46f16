/** What a customer is shown: the order in which an order's events arrive. */
module Timelines {
  import opened Causality
  import opened Contracts
  import opened Fulfilment
  import opened Messaging
  import opened NoSilentLoss
  import opened Notifications
  import opened ChargeBound

  const SHIPPED: seq<string> := ["OrderPlaced", "PaymentCaptured", "StockReserved", "OrderShipped"]
  const DECLINED: seq<string> := ["OrderPlaced", "PaymentDeclined"]
  const OUT_OF_STOCK: seq<string> := ["OrderPlaced", "PaymentCaptured", "StockUnavailable"]

  /** The timelines of an order nobody sees twice. */
  predicate Expected(w: seq<string>) {
    w <= SHIPPED || w <= DECLINED || w <= OUT_OF_STOCK
  }

  /** The event that has to come before one of a given type. */
  function CauseOf(kind: string): string {
    if kind == "PaymentCaptured" || kind == "PaymentDeclined" then "OrderPlaced"
    else if kind == "StockReserved" || kind == "StockUnavailable" then "PaymentCaptured"
    else if kind == "OrderShipped" then "StockReserved"
    else ""
  }

  predicate Explained(w: seq<string>) {
    forall k :: 0 <= k < |w| ==> CauseOf(w[k]) == "" || CauseOf(w[k]) in w[..k]
  }

  lemma {:induction false} WordHas(log: seq<Message>, m: Message)
    requires m in log
    ensures m.kind in Word(log, m.correlation)
  {
    var n := |log| - 1;
    if m in log[..n] {
      WordHas(log[..n], m);
    }
  }

  lemma {:induction false} WordFrom(log: seq<Message>, id: OrderId, kind: string)
    requires kind in Word(log, id)
    ensures exists m :: m in log && m.correlation == id && m.kind == kind
  {
    var n := |log| - 1;
    if kind in Word(log[..n], id) {
      WordFrom(log[..n], id, kind);
    } else {
      assert log[n] in log;
    }
  }

  lemma CauseIsInWord(rows: map<OrderId, Order>, earlier: seq<Message>, m: Message)
    requires Caused(rows, earlier, m)
    ensures m.correlation == IdOf(m.body)
    ensures CauseOf(m.kind) == "" || CauseOf(m.kind) in Word(earlier, m.correlation)
  {
    var o := rows[IdOf(m.body)];
    match m.body
    case OrderPlaced(_) =>
    case PaymentCaptured(_, _, _, _, _) => WordHas(earlier, PlacedOf(o));
    case PaymentDeclined(_, _, _) => WordHas(earlier, PlacedOf(o));
    case StockReserved(_, _, _, _) => WordHas(earlier, CapturedOf(o));
    case StockUnavailable(_, _, _, _) => WordHas(earlier, CapturedOf(o));
    case OrderShipped(_, _, _) => WordHas(earlier, ReservedOf(o));
  }

  lemma ExplainedSnoc(w: seq<string>, kind: string)
    requires Explained(w) && (CauseOf(kind) == "" || CauseOf(kind) in w)
    ensures Explained(w + [kind])
  {
    var v := w + [kind];
    forall k | 0 <= k < |v| ensures CauseOf(v[k]) == "" || CauseOf(v[k]) in v[..k] {
      assert v[..k] == w[..k];
      if k == |w| {
        assert w[..k] == w;
      }
    }
  }

  /** Whatever is delivered or published twice, no event of a timeline comes
      before its cause. */
  lemma {:induction false} HistoryIsExplained(rows: map<OrderId, Order>, log: seq<Message>, id: OrderId)
    requires History(rows, log)
    ensures Explained(Word(log, id))
  {
    if log != [] {
      var n := |log| - 1;
      HistoryPrefix(rows, log, n);
      HistoryIsExplained(rows, log[..n], id);
      assert Caused(rows, log[..n], log[n]);
      CauseIsInWord(rows, log[..n], log[n]);
      if log[n].correlation == id {
        ExplainedSnoc(Word(log[..n], id), log[n].kind);
      } else {
        assert Word(log[..n], id) + [] == Word(log[..n], id);
      }
    }
  }

  lemma HistoryPrefix(rows: map<OrderId, Order>, log: seq<Message>, n: nat)
    requires History(rows, log) && n <= |log|
    ensures History(rows, log[..n])
  {
    forall j | 0 <= j < n ensures Caused(rows, log[..n][..j], log[..n][j]) {
      assert log[..n][..j] == log[..j];
    }
  }

  /** The timelines are what notifications handled. It was delivered the log up to a
      point, in order, and may have been delivered any of that again. */
  ghost predicate Followed(s: State) {
    && s.seen <= |s.log|
    && (forall id :: TimelineOf(s.timeline, id) == Word(s.heard, id))
    && (forall k :: 0 <= k < s.seen ==> s.log[k] in s.heard)
    && (forall id :: Tells(s, id))
  }

  /** Every event handled for an order comes after its cause; and if nothing about the
      order was delivered twice, the events are those of the log. */
  ghost predicate Tells(s: State, id: OrderId)
    requires s.seen <= |s.log|
  {
    && Explained(Word(s.heard, id))
    && (Duplicated(id) in s.faults || Word(s.heard, id) == Word(s.log[..s.seen], id))
  }

  lemma FollowedGrows(s: State, s': State)
    requires Followed(s) && s.log <= s'.log && s'.seen == s.seen && s'.timeline == s.timeline && s'.heard == s.heard
    requires s.faults <= s'.faults
    ensures Followed(s')
  {
    assert s'.log[..s.seen] == s.log[..s.seen];
    forall id ensures Tells(s', id) {
      assert Tells(s, id);
    }
  }

  /** An event that was delivered has its cause among those handled. */
  lemma CauseWasHeard(s: State, k: nat)
    requires Causal(s) && Followed(s) && k <= s.seen && k < |s.log|
    ensures CauseOf(s.log[k].kind) == "" || CauseOf(s.log[k].kind) in Word(s.heard, s.log[k].correlation)
  {
    var m := s.log[k];
    assert Caused(s.books.rows, s.log[..k], m);
    CauseIsInWord(s.books.rows, s.log[..k], m);
    if CauseOf(m.kind) != "" {
      WordFrom(s.log[..k], m.correlation, CauseOf(m.kind));
      var c :| c in s.log[..k] && c.correlation == m.correlation && c.kind == CauseOf(m.kind);
      assert c in s.heard;
      WordHas(s.heard, c);
    }
  }

  /** One more message handled. */
  lemma HearingTells(s: State, s': State, m: Message, id: OrderId)
    requires s.seen <= |s.log| && Tells(s, id) && s'.heard == s.heard + [m] && s.faults <= s'.faults
    requires CauseOf(m.kind) == "" || CauseOf(m.kind) in Word(s.heard, m.correlation)
    requires s'.seen <= |s'.log|
    requires || Duplicated(id) in s'.faults
             || Word(s'.log[..s'.seen], id) == Word(s.log[..s.seen], id) + if m.correlation == id then [m.kind] else []
    ensures Tells(s', id)
  {
    WordSnoc(s.heard, m, id);
    if m.correlation == id {
      ExplainedSnoc(Word(s.heard, id), m.kind);
    } else {
      assert Word(s.heard, id) + [] == Word(s.heard, id);
    }
  }

  lemma HearingFollows(s: State, s': State, m: Message)
    requires Followed(s) && s'.seen <= |s'.log| && s.faults <= s'.faults
    requires s'.heard == s.heard + [m] && s'.timeline == Recorded(s.timeline, m)
    requires CauseOf(m.kind) == "" || CauseOf(m.kind) in Word(s.heard, m.correlation)
    requires forall k :: 0 <= k < s'.seen ==> s'.log[k] in s.heard || s'.log[k] == m
    requires forall id ::
               || Duplicated(id) in s'.faults
               || Word(s'.log[..s'.seen], id) == Word(s.log[..s.seen], id) + if m.correlation == id then [m.kind] else []
    ensures Followed(s')
  {
    forall id ensures TimelineOf(s'.timeline, id) == Word(s'.heard, id) && Tells(s', id) {
      WordSnoc(s.heard, m, id);
      HearingTells(s, s', m, id);
    }
  }

  /** A first delivery adds to the word of the handled what it adds to that of the log. */
  lemma FirstDeliveryTells(log: seq<Message>, seen: nat, id: OrderId)
    requires seen < |log|
    ensures Word(log[..seen + 1], id) == Word(log[..seen], id) + if log[seen].correlation == id then [log[seen].kind] else []
  {
    assert log[..seen + 1] == log[..seen] + [log[seen]];
    WordSnoc(log[..seen], log[seen], id);
  }

  lemma NotifyFollows(s: State)
    requires Causal(s) && Followed(s) && Enabled(s, Notify)
    ensures Followed(Notified(s))
  {
    CauseWasHeard(s, s.seen);
    CausedNotifyFollows(s);
  }

  lemma CausedNotifyFollows(s: State)
    requires Followed(s) && Enabled(s, Notify)
    requires var m := s.log[s.seen]; CauseOf(m.kind) == "" || CauseOf(m.kind) in Word(s.heard, m.correlation)
    ensures Followed(Notified(s))
  {
    var m := s.log[s.seen];
    forall id ensures Word(s.log[..s.seen + 1], id) == Word(s.log[..s.seen], id) + if m.correlation == id then [m.kind] else [] {
      FirstDeliveryTells(s.log, s.seen, id);
    }
    HearingFollows(s, Notified(s), m);
  }

  lemma RenotifyFollows(s: State, k: nat)
    requires Causal(s) && Followed(s) && Enabled(s, Renotify(k))
    ensures Followed(Renotified(s, k))
  {
    var m := s.log[k];
    var s' := Renotified(s, k);
    CauseWasHeard(s, k);
    assert Duplicated(m.correlation) in s'.faults;
    forall id | id != m.correlation ensures Word(s.log[..s.seen], id) + [] == Word(s.log[..s.seen], id) {
    }
    HearingFollows(s, s', m);
  }

  lemma FollowedStep(s: State, a: Action)
    requires Causal(s) && Followed(s) && Enabled(s, a)
    ensures Followed(Step(s, a))
  {
    if a.Notify? {
      NotifyFollows(s);
    } else if a.Renotify? {
      RenotifyFollows(s, a.k);
    } else {
      OthersFollow(s, a);
    }
  }

  lemma OthersFollow(s: State, a: Action)
    requires Followed(s) && Enabled(s, a) && !a.Notify? && !a.Renotify?
    ensures Followed(Step(s, a))
  {
    match a
    case Advance(i, r) => AdvanceFollows(s, i, r);
    case Relay(id, r) => RelayFollows(s, id, r);
    case Crash(i, spends) => CrashFollows(s, i, spends);
    case Redeliver(i, left) => RedeliverFollows(s, i, left);
    case _ => QuietFollows(s, a);
  }

  lemma AdvanceFollows(s: State, i: nat, r: Reply)
    requires Followed(s) && Enabled(s, Advance(i, r))
    ensures Followed(Advanced(s, i, r))
  {
    assert Framed(s, Handled(s, i, r), i);
    FollowedGrows(s, Advanced(s, i, r));
  }

  lemma RelayFollows(s: State, id: OrderId, r: Reply)
    requires Followed(s) && Enabled(s, Relay(id, r))
    ensures Followed(Relayed(s, id, r))
  {
    FollowedGrows(s, Relayed(s, id, r));
  }

  lemma CrashFollows(s: State, i: nat, spends: bool)
    requires Followed(s) && Enabled(s, Crash(i, spends))
    ensures Followed(Crashed(s, i, spends))
  {
    FollowedGrows(s, Crashed(s, i, spends));
  }

  lemma RedeliverFollows(s: State, i: nat, left: nat)
    requires Followed(s) && Enabled(s, Redeliver(i, left))
    ensures Followed(Redelivered(s, i, left))
  {
    FollowedGrows(s, Redelivered(s, i, left));
  }

  lemma QuietFollows(s: State, a: Action)
    requires Followed(s) && Enabled(s, a)
    requires a.Place? || a.Remove? || a.RelayCrash? || a.Expire? || a.Restock?
    ensures Followed(Step(s, a))
  {
    FollowedGrows(s, Step(s, a));
  }

  /** A delivery that may still publish. */
  predicate Token(d: Delivery, id: OrderId) {
    IdOf(d.msg.body) == id && (d.phase in {Waiting, Answered, Holding, Failing, Unsure} || d.phase.Lacking?)
  }

  /** What has been published when a service gets an order. */
  function Before(e: Event): seq<string> {
    match e
    case OrderPlaced(_) => ["OrderPlaced"]
    case PaymentCaptured(_, _, _, _, _) => ["OrderPlaced", "PaymentCaptured"]
    case _ => ["OrderPlaced", "PaymentCaptured", "StockReserved"]
  }

  /** An order nobody duplicated is in one place: a single delivery may publish
      for it, and what was published says which service has it. */
  ghost predicate Single(s: State, id: OrderId) {
    && Expected(Word(s.log, id))
    && (forall j :: 0 <= j < |s.deliveries| && Token(s.deliveries[j], id) ==>
          Word(s.log, id) == Before(s.deliveries[j].msg.body))
    && (forall j, k :: 0 <= j < k < |s.deliveries| ==> !(Token(s.deliveries[j], id) && Token(s.deliveries[k], id)))
  }

  ghost predicate Steady(s: State, id: OrderId) {
    Duplicated(id) in s.faults || Single(s, id)
  }

  /** A handler moved its delivery without publishing. */
  lemma SilentMoveSteady(s: State, s1: State, i: nat, id: OrderId)
    requires Single(s, id) && i < |s.deliveries| == |s1.deliveries|
    requires s1.log == s.log && s1.deliveries == s.deliveries[i := s1.deliveries[i]]
    requires s1.deliveries[i].msg == s.deliveries[i].msg
    requires Token(s1.deliveries[i], id) ==> Token(s.deliveries[i], id)
    ensures Single(s1, id)
  {
  }

  lemma PublishSteady(s: State, s1: State, i: nat, m: Message, id: OrderId)
    requires Single(s, id) && Framed(s, s1, i)
    requires m.correlation == IdOf(m.body) == IdOf(s.deliveries[i].msg.body)
    requires IdOf(m.body) == id ==>
      && Token(s.deliveries[i], id) && !Token(s1.deliveries[i], id)
      && Expected(Before(s.deliveries[i].msg.body) + [m.kind])
      && (WorkQueue(m.body).To? ==> Before(m.body) == Before(s.deliveries[i].msg.body) + [m.kind])
    requires IdOf(m.body) != id ==> !Token(s1.deliveries[i], id)
    ensures Single(Publish(s1, [m]), id)
  {
    WordSnoc(s.log, m, id);
    var s' := Publish(s1, [m]);
    forall j | 0 <= j < |s'.deliveries| && Token(s'.deliveries[j], id)
      ensures Word(s'.log, id) == Before(s'.deliveries[j].msg.body)
      ensures id == IdOf(m.body) ==> j == |s.deliveries|
      ensures id != IdOf(m.body) ==> j < |s.deliveries| && j != i && Token(s.deliveries[j], id)
    {
      if j < |s.deliveries| {
        assert j != i;
        assert s'.deliveries[j] == s.deliveries[j];
      }
    }
  }

  /** What a handler that publishes does to the timeline and to its delivery. */
  ghost predicate Continues(d: Delivery, s1: State, i: nat, m: Message, r: Reply)
    requires i < |s1.deliveries|
  {
    && m.correlation == IdOf(m.body) == IdOf(d.msg.body)
    && Token(d, IdOf(m.body))
    && Expected(Before(d.msg.body) + [m.kind])
    && (WorkQueue(m.body).To? ==> Before(m.body) == Before(d.msg.body) + [m.kind])
    && (r == Ok ==> !Token(s1.deliveries[i], IdOf(m.body)))
    && (r != Ok ==> Duplicated(IdOf(m.body)) in s1.faults)
  }

  lemma ChargeContinues(s: State, i: nat, r: Reply)
    requires Enabled(s, Advance(i, r)) && s.deliveries[i].msg.body.OrderPlaced?
    requires s.deliveries[i].msg.correlation == s.deliveries[i].msg.body.order.id
    requires Sent(s, i, r) != []
    ensures Continues(s.deliveries[i], Charging(s, i, r), i, Sent(s, i, r)[0], r)
  {
  }

  lemma ReserveContinues(s: State, i: nat, r: Reply)
    requires Enabled(s, Advance(i, r)) && s.deliveries[i].msg.body.PaymentCaptured?
    requires s.deliveries[i].msg.correlation == s.deliveries[i].msg.body.id
    requires Sent(s, i, r) != []
    ensures Continues(s.deliveries[i], Reserving(s, i, r), i, Sent(s, i, r)[0], r)
  {
  }

  lemma DispatchContinues(s: State, i: nat, r: Reply)
    requires Enabled(s, Advance(i, r)) && s.deliveries[i].msg.body.StockReserved?
    requires s.deliveries[i].msg.correlation == s.deliveries[i].msg.body.id
    requires Sent(s, i, r) != []
    ensures Continues(s.deliveries[i], Dispatching(s, i, r), i, Sent(s, i, r)[0], r)
  {
  }

  lemma SilentTokens(s: State, i: nat, r: Reply, id: OrderId)
    requires Enabled(s, Advance(i, r)) && Token(Handled(s, i, r).deliveries[i], id)
    ensures Token(s.deliveries[i], id)
  {
    assert Framed(s, Handled(s, i, r), i);
  }

  lemma AdvanceSteady(s: State, i: nat, r: Reply, id: OrderId)
    requires Steady(s, id) && Enabled(s, Advance(i, r))
    requires s.deliveries[i].msg.correlation == IdOf(s.deliveries[i].msg.body)
    ensures Steady(Advanced(s, i, r), id)
  {
    var s1, sent := Handled(s, i, r), Sent(s, i, r);
    assert Framed(s, s1, i);
    var e := s.deliveries[i].msg.body;
    if Duplicated(id) !in s1.faults {
      if sent == [] {
        if Token(s1.deliveries[i], id) { SilentTokens(s, i, r, id); }
        SilentMoveSteady(s, s1, i, id);
      } else {
        if e.OrderPlaced? { ChargeContinues(s, i, r); }
        else if e.PaymentCaptured? { ReserveContinues(s, i, r); }
        else { DispatchContinues(s, i, r); }
        assert Continues(s.deliveries[i], s1, i, sent[0], r);
        assert sent == [sent[0]];
        PublishSteady(s, s1, i, sent[0], id);
      }
    }
  }

  lemma NothingWithoutPlaced(rows: map<OrderId, Order>, log: seq<Message>, id: OrderId)
    requires History(rows, log) && Word(log, id) != []
    ensures id in rows && PlacedOf(rows[id]) in log
  {
    HistoryIsExplained(rows, log, id);
    var w := Word(log, id);
    WordFrom(log, id, w[0]);
    var m :| m in log && m.correlation == id && m.kind == w[0];
    var j :| 0 <= j < |log| && log[j] == m;
    assert Caused(rows, log[..j], log[j]);
    assert w[..0] == [];
    assert CauseOf(w[0]) == "";
  }

  /** The first announcement of an order starts its timeline. */
  lemma AnnounceSteady(s: State, m: Message, id: OrderId)
    requires Single(s, id) && m.body.OrderPlaced? && m.kind == "OrderPlaced" && m.correlation == IdOf(m.body)
    requires m.correlation == id ==> Word(s.log, id) == []
    ensures Single(Publish(s, [m]), id)
  {
    WordSnoc(s.log, m, id);
    var s' := Publish(s, [m]);
    forall j | 0 <= j < |s.deliveries| ensures s'.deliveries[j] == s.deliveries[j] {
    }
  }

  lemma RelaySteady(s: State, o: OrderId, r: Reply, id: OrderId)
    requires Causal(s) && Steady(s, id) && Enabled(s, Relay(o, r))
    ensures Steady(Relayed(s, o, r), id)
  {
    var m := s.books.outbox[o];
    var s' := Relayed(s, o, r);
    if r != Failed && Duplicated(id) !in s'.faults {
      if o == id && Word(s.log, id) != [] {
        NothingWithoutPlaced(s.books.rows, s.log, id);
      }
      AnnounceSteady(s, m, id);
      assert s'.log == Publish(s, [m]).log && s'.deliveries == Publish(s, [m]).deliveries;
    }
  }

  lemma SteadyStep(s: State, a: Action, id: OrderId)
    requires Causal(s) && Steady(s, id) && Enabled(s, a)
    ensures Steady(Step(s, a), id)
  {
    match a
    case Advance(i, r) =>
      InLog(s, s.deliveries[i].msg);
      AdvanceSteady(s, i, r, id);
    case Relay(o, r) => RelaySteady(s, o, r, id);
    case Crash(i, spends) => CrashSteady(s, i, spends, id);
    case Redeliver(i, left) => RedeliverSteady(s, i, left, id);
    case _ =>
  }

  lemma CrashSteady(s: State, i: nat, spends: bool, id: OrderId)
    requires Steady(s, id) && Enabled(s, Crash(i, spends))
    ensures Steady(Crashed(s, i, spends), id)
  {
    if Duplicated(id) !in Crashed(s, i, spends).faults {
      SilentMoveSteady(s, Crashed(s, i, spends), i, id);
    }
  }

  lemma RedeliverSteady(s: State, i: nat, left: nat, id: OrderId)
    requires Steady(s, id) && Enabled(s, Redeliver(i, left))
    ensures Steady(Redelivered(s, i, left), id)
  {
    var s' := Redelivered(s, i, left);
    if Duplicated(id) !in s'.faults {
      forall j | 0 <= j < |s.deliveries| ensures s'.deliveries[j] == s.deliveries[j] {
      }
    }
  }

  /** Nothing is left to do: no record to relay, no delivery to handle, no event
      to notify. */
  predicate Drained(s: State) {
    && |s.books.outbox| == 0
    && (forall j :: 0 <= j < |s.deliveries| ==> !s.deliveries[j].Live())
    && s.seen == |s.log|
  }

  predicate NoDeadLetter(s: State, id: OrderId) {
    forall j :: 0 <= j < |s.deliveries| && IdOf(s.deliveries[j].msg.body) == id ==> s.deliveries[j].phase != Dead
  }

  lemma NotOpen(s: State, id: OrderId)
    requires Drained(s) && NoDeadLetter(s, id)
    ensures !Open(s, id)
  {
    forall j | 0 <= j < |s.deliveries| ensures !IsOpen(s.deliveries[j], id) {
      assert !s.deliveries[j].Live();
    }
  }

  lemma PaymentsMovedOn(s: State, o: Order)
    requires Lossless(s) && Drained(s) && NoDeadLetter(s, o.id) && Stranded(o.id) !in s.faults
    requires PlacedOf(o) in s.log
    ensures Decided(s, o.id)
  {
    assert Delivered(s, PlacedOf(o));
    var j :| 0 <= j < |s.deliveries| && s.deliveries[j].msg == PlacedOf(o);
    assert NoSilentLoss.Answered(s, s.deliveries[j]) && !s.deliveries[j].Live();
    NotOpen(s, o.id);
  }

  lemma InventoryMovedOn(s: State, o: Order)
    requires Lossless(s) && Drained(s) && NoDeadLetter(s, o.id)
    requires CapturedOf(o) in s.log
    ensures StockAnswered(s, o.id)
  {
    assert Delivered(s, CapturedOf(o));
    var j :| 0 <= j < |s.deliveries| && s.deliveries[j].msg == CapturedOf(o);
    assert NoSilentLoss.Answered(s, s.deliveries[j]) && !s.deliveries[j].Live();
  }

  lemma ShippingMovedOn(s: State, o: Order)
    requires Lossless(s) && Drained(s) && NoDeadLetter(s, o.id)
    requires ReservedOf(o) in s.log
    ensures Shipped(s, o.id)
  {
    assert Delivered(s, ReservedOf(o));
    var j :| 0 <= j < |s.deliveries| && s.deliveries[j].msg == ReservedOf(o);
    assert NoSilentLoss.Answered(s, s.deliveries[j]) && !s.deliveries[j].Live();
  }

  lemma DecisionShows(s: State, id: OrderId)
    requires Causal(s) && Decided(s, id)
    ensures id in s.books.rows && ("PaymentDeclined" in Word(s.log, id) || CapturedOf(s.books.rows[id]) in s.log)
  {
    var m :| m in s.log && IsOutcome(m, id);
    InLog(s, m);
    WordHas(s.log, m);
  }

  lemma StockAnswerShows(s: State, id: OrderId)
    requires Causal(s) && StockAnswered(s, id)
    ensures id in s.books.rows && ("StockUnavailable" in Word(s.log, id) || ReservedOf(s.books.rows[id]) in s.log)
  {
    var m :| m in s.log && (m.body.StockReserved? || m.body.StockUnavailable?) && m.body.id == id;
    InLog(s, m);
    WordHas(s.log, m);
  }

  lemma ShipmentShows(s: State, id: OrderId)
    requires Causal(s) && Shipped(s, id)
    ensures "OrderShipped" in Word(s.log, id)
  {
    var m :| m in s.log && m.body.OrderShipped? && m.body.id == id;
    InLog(s, m);
    WordHas(s.log, m);
  }

  /** A drained system has finished every order it did not see twice. */
  lemma DrainedIsComplete(s: State, id: OrderId)
    requires Causal(s) && Lossless(s) && Followed(s) && Single(s, id) && Drained(s)
    requires id in s.books.rows && NoDeadLetter(s, id) && Stranded(id) !in s.faults && Duplicated(id) !in s.faults
    ensures TimelineOf(s.timeline, id) in {SHIPPED, DECLINED, OUT_OF_STOCK}
  {
    var o := s.books.rows[id];
    assert s.log[..s.seen] == s.log && Tells(s, id);
    PaymentsMovedOn(s, o);
    DecisionShows(s, id);
    if CapturedOf(o) in s.log {
      InventoryMovedOn(s, o);
      StockAnswerShows(s, id);
      if ReservedOf(o) in s.log {
        ShippingMovedOn(s, o);
        ShipmentShows(s, id);
      }
    }
    ExpectedEnds(Word(s.log, id));
  }

  /** The only timelines with an end in them are the three whole ones. */
  lemma ExpectedEnds(w: seq<string>)
    requires Expected(w)
    requires "PaymentDeclined" in w || "StockUnavailable" in w || "OrderShipped" in w
    ensures w in {SHIPPED, DECLINED, OUT_OF_STOCK}
  {
    assert |"OrderPlaced"| == 11 && |"PaymentCaptured"| == 15 && |"StockReserved"| == 13;
    assert |"PaymentDeclined"| == 15 && |"StockUnavailable"| == 16 && |"OrderShipped"| == 12;
    assert "PaymentDeclined"[7] == 'D' && "PaymentCaptured"[7] == 'C';
    if w <= SHIPPED {
      assert |w| == 4;
      assert w == SHIPPED;
    } else if w <= DECLINED {
      assert |w| == 2;
      assert w == DECLINED;
    } else {
      assert |w| == 3;
      assert w == OUT_OF_STOCK;
    }
  }
}
