/** No order stops without a trace: whatever is routed to a service is waiting
    there, or in a handler, or dead, or has been answered. */
module NoSilentLoss {
  import opened ChargeBound
  import opened Contracts
  import opened Fulfilment
  import opened Messaging
  import Claims
  import Inventory
  import Payments
  import Shipping

  ghost predicate Decided(s: State, id: OrderId) {
    exists m :: m in s.log && IsOutcome(m, id)
  }

  ghost predicate Held(s: State, id: OrderId) {
    exists j :: 0 <= j < |s.deliveries| && IsHolder(s.deliveries[j], id)
  }

  predicate IsOpen(d: Delivery, id: OrderId) {
    d.msg.body.OrderPlaced? && d.msg.body.order.id == id && d.phase != Settled(Accept)
  }

  /** A delivery of the order is waiting, in a handler or dead. */
  ghost predicate Open(s: State, id: OrderId) {
    exists j :: 0 <= j < |s.deliveries| && IsOpen(s.deliveries[j], id)
  }

  ghost predicate Accounted(s: State, id: OrderId) {
    Decided(s, id) || Open(s, id) || Stranded(id) in s.faults
  }

  /** Every claim is answered for: a confirmed one by an outcome, a held one by an
      outcome or by the handler that took it, unless that handler was lost. */
  ghost predicate Backed(s: State, id: OrderId) {
    id in s.till.claims && s.till.claims[id] != Claims.Expired ==>
      || Decided(s, id)
      || (s.till.claims[id] == Claims.Held && (Held(s, id) || Stranded(id) in s.faults))
  }

  ghost predicate StockAnswered(s: State, id: OrderId) {
    exists m :: m in s.log && (m.body.StockReserved? || m.body.StockUnavailable?) && m.body.id == id
  }

  ghost predicate Shipped(s: State, id: OrderId) {
    exists m :: m in s.log && m.body.OrderShipped? && m.body.id == id
  }

  /** A delivery that settled has an answer behind it. */
  ghost predicate Answered(s: State, d: Delivery) {
    var id := IdOf(d.msg.body);
    match d.msg.body
    case OrderPlaced(o) =>
      (d.phase == Settled(Accept) ==> Accounted(s, id)) && (d.phase == Published ==> Decided(s, id))
    case PaymentCaptured(_, _, _, _, _) => d.phase == Settled(Accept) ==> StockAnswered(s, id)
    case StockReserved(_, _, _, _) => d.phase == Settled(Accept) ==> Shipped(s, id)
    case _ => true
  }

  ghost predicate Delivered(s: State, m: Message) {
    exists j :: 0 <= j < |s.deliveries| && s.deliveries[j].msg == m
  }

  ghost predicate Lossless(s: State) {
    && (forall id :: Backed(s, id))
    && (forall j :: 0 <= j < |s.deliveries| ==> Answered(s, s.deliveries[j]))
    && (forall m :: m in s.log && WorkQueue(m.body).To? ==> Delivered(s, m))
  }

  /** `s'` is `s` with delivery `i` moved, `sent` published, and more faults. */
  ghost predicate Moved(s: State, s': State, i: nat, sent: seq<Message>) {
    && i < |s.deliveries| && |sent| <= 1
    && s'.log == s.log + sent
    && |s.deliveries| <= |s'.deliveries|
    && s'.deliveries[i].msg == s.deliveries[i].msg
    && (forall j :: 0 <= j < |s.deliveries| && j != i ==> s'.deliveries[j] == s.deliveries[j])
    && (forall j :: |s.deliveries| <= j < |s'.deliveries| ==> s'.deliveries[j].phase == Waiting)
    && (sent != [] && WorkQueue(sent[0].body).To? ==> Delivered(s', sent[0]))
    && (forall f :: f in s.faults ==> f in s'.faults)
  }

  /** What a move cannot take away. */
  lemma MoveKeeps(s: State, s': State, i: nat, sent: seq<Message>, id: OrderId)
    requires Moved(s, s', i, sent)
    ensures Decided(s, id) ==> Decided(s', id)
    ensures StockAnswered(s, id) ==> StockAnswered(s', id)
    ensures Shipped(s, id) ==> Shipped(s', id)
    ensures Held(s, id) && (IsHolder(s.deliveries[i], id) ==> IsHolder(s'.deliveries[i], id)) ==> Held(s', id)
    ensures Accounted(s, id) && (IsOpen(s.deliveries[i], id) ==> Accounted(s', id)) ==> Accounted(s', id)
  {
    assert forall m :: m in s.log ==> m in s'.log;
    if j :| 0 <= j < |s.deliveries| && IsHolder(s.deliveries[j], id) && j != i {
      assert IsHolder(s'.deliveries[j], id);
    }
    if j :| 0 <= j < |s.deliveries| && IsOpen(s.deliveries[j], id) && j != i {
      assert IsOpen(s'.deliveries[j], id);
    }
  }

  predicate SameClaim(s: State, s': State, id: OrderId) {
    (id in s'.till.claims <==> id in s.till.claims) && (id in s.till.claims ==> s'.till.claims[id] == s.till.claims[id])
  }

  /** It is enough to look at the delivery that moved and at its order's claim. */
  lemma MoveKeepsLossless(s: State, s': State, i: nat, sent: seq<Message>)
    requires Lossless(s) && Moved(s, s', i, sent)
    requires var id := IdOf(s.deliveries[i].msg.body);
             && Answered(s', s'.deliveries[i])
             && Backed(s', id)
             && (IsOpen(s.deliveries[i], id) ==> Accounted(s', id))
             && forall o :: o != id ==> SameClaim(s, s', o)
    ensures Lossless(s')
  {
    var id := IdOf(s.deliveries[i].msg.body);
    forall o ensures Backed(s', o) {
      MoveKeeps(s, s', i, sent, o);
      assert Backed(s, o) && (o != id ==> SameClaim(s, s', o));
    }
    forall j | 0 <= j < |s'.deliveries| ensures Answered(s', s'.deliveries[j]) {
      if j < |s.deliveries| && j != i {
        MoveKeeps(s, s', i, sent, IdOf(s.deliveries[j].msg.body));
        assert Answered(s, s.deliveries[j]);
      }
    }
    forall m | m in s'.log && WorkQueue(m.body).To? ensures Delivered(s', m) {
      if m in s.log {
        assert Delivered(s, m);
        var j :| 0 <= j < |s.deliveries| && s.deliveries[j].msg == m;
        assert s'.deliveries[j].msg == m;
      }
    }
  }

  lemma PublishMoves(s: State, s1: State, i: nat, sent: seq<Message>)
    requires i < |s.deliveries| == |s1.deliveries| && |sent| <= 1
    requires s1.deliveries == s.deliveries[i := s1.deliveries[i]] && s1.deliveries[i].msg == s.deliveries[i].msg
    requires s1.log == s.log && s.faults <= s1.faults
    ensures Moved(s, Publish(s1, sent), i, sent)
    ensures Publish(s1, sent).deliveries[i] == s1.deliveries[i] && Publish(s1, sent).till == s1.till
  {
    if sent != [] && WorkQueue(sent[0].body).To? {
      assert Publish(s1, sent).deliveries[|s.deliveries|].msg == sent[0];
    }
  }

  /** One action of `charge`, as the system sees it. */
  ghost predicate Charged(s: State, s': State, i: nat, r: Reply)
    requires Enabled(s, Advance(i, r)) && s.deliveries[i].msg.body.OrderPlaced?
  {
    var d := s.deliveries[i];
    var turn := Payments.Step(s.till, d.msg, d.phase, r);
    && Moved(s, s', i, turn.sent) && s'.till == turn.state
    && s'.deliveries[i] == Acknowledged(d, turn.phase)
    && (forall f :: f in ChargeFaults(d, r) ==> f in s'.faults)
  }

  /** A claim that is not free has somebody behind it other than a waiting
      delivery, so the delivery that is refused was not the last. */
  lemma ClaimKeepsLossless(s: State, s': State, i: nat, r: Reply)
    requires Lossless(s) && Enabled(s, Advance(i, r)) && s.deliveries[i].msg.body.OrderPlaced?
    requires Charged(s, s', i, r) && s.deliveries[i].phase == Waiting
    ensures Lossless(s')
  {
    var d, d' := s.deliveries[i], s'.deliveries[i];
    var id := d.msg.body.order.id;
    MoveKeeps(s, s', i, [], id);
    assert Backed(s, id);
    if d'.phase != Settled(Accept) {
      assert IsOpen(d', id);
      if d'.phase == Holding {
        assert IsHolder(d', id);
      }
    } else if Held(s, id) {
      var j :| 0 <= j < |s.deliveries| && IsHolder(s.deliveries[j], id);
      assert IsOpen(s'.deliveries[j], id);
    }
    MoveKeepsLossless(s, s', i, []);
  }

  lemma SettleKeepsLossless(s: State, s': State, i: nat, r: Reply)
    requires Lossless(s) && Enabled(s, Advance(i, r)) && s.deliveries[i].msg.body.OrderPlaced?
    requires Charged(s, s', i, r) && s.deliveries[i].phase != Waiting
    ensures Lossless(s')
  {
    var d, d' := s.deliveries[i], s'.deliveries[i];
    var sent := Payments.Step(s.till, d.msg, d.phase, r).sent;
    var id := d.msg.body.order.id;
    MoveKeeps(s, s', i, sent, id);
    assert Backed(s, id) && Answered(s, d);
    if d'.phase != Settled(Accept) {
      assert IsOpen(d', id);
    }
    if IsHolder(d', id) {
      assert Held(s', id);
    }
    if sent != [] {
      assert sent[0] in s'.log && IsOutcome(sent[0], id);
    }
    MoveKeepsLossless(s, s', i, sent);
  }

  lemma ReserveKeepsLossless(s: State, s': State, i: nat, r: Reply)
    requires Lossless(s) && Enabled(s, Advance(i, r)) && s.deliveries[i].msg.body.PaymentCaptured?
    requires var d := s.deliveries[i];
             var turn := Inventory.Step(s.shelf, d.msg, d.phase, r);
             && Moved(s, s', i, turn.sent) && s'.till == s.till
             && s'.deliveries[i] == Acknowledged(d, turn.phase)
    ensures Lossless(s')
  {
    var d := s.deliveries[i];
    var sent := Inventory.Step(s.shelf, d.msg, d.phase, r).sent;
    MoveKeeps(s, s', i, sent, d.msg.body.id);
    assert Backed(s, d.msg.body.id);
    if sent != [] {
      assert sent[0] in s'.log;
    }
    MoveKeepsLossless(s, s', i, sent);
  }

  lemma DispatchKeepsLossless(s: State, s': State, i: nat, r: Reply)
    requires Lossless(s) && Enabled(s, Advance(i, r)) && s.deliveries[i].msg.body.StockReserved?
    requires var d := s.deliveries[i];
             var turn := Shipping.Step(s.shipped, d.msg, r);
             && Moved(s, s', i, turn.sent) && s'.till == s.till
             && s'.deliveries[i] == Acknowledged(d, turn.phase)
    ensures Lossless(s')
  {
    var d := s.deliveries[i];
    var sent := Shipping.Step(s.shipped, d.msg, r).sent;
    MoveKeeps(s, s', i, sent, d.msg.body.id);
    assert Backed(s, d.msg.body.id);
    if sent != [] {
      assert sent[0] in s'.log;
    }
    MoveKeepsLossless(s, s', i, sent);
  }

  lemma AdvanceKeepsLossless(s: State, i: nat, r: Reply)
    requires Lossless(s) && Enabled(s, Advance(i, r))
    ensures Lossless(Advanced(s, i, r))
  {
    var s1, sent := Handled(s, i, r), Sent(s, i, r);
    assert Framed(s, s1, i);
    PublishMoves(s, s1, i, sent);
    var s' := Publish(s1, sent);
    if s.deliveries[i].msg.body.OrderPlaced? {
      assert Charged(s, s', i, r);
      if s.deliveries[i].phase == Waiting { ClaimKeepsLossless(s, s', i, r); } else { SettleKeepsLossless(s, s', i, r); }
    }
    else if s.deliveries[i].msg.body.PaymentCaptured? { ReserveKeepsLossless(s, s', i, r); }
    else { DispatchKeepsLossless(s, s', i, r); }
  }

  /** A log and a list of deliveries that only grow keep everything. */
  lemma GrowthKeepsLossless(s: State, s': State)
    requires Lossless(s)
    requires s.log <= s'.log && s.deliveries <= s'.deliveries && s.faults <= s'.faults
    requires forall id :: s'.till.claims == s.till.claims || (id in s'.till.claims && s'.till.claims[id] != Claims.Expired ==> SameClaim(s, s', id))
    requires forall j :: |s.deliveries| <= j < |s'.deliveries| ==> s'.deliveries[j].phase in {Waiting, Dead}
    requires forall m :: m in s'.log && m !in s.log && WorkQueue(m.body).To? ==> Delivered(s', m)
    ensures Lossless(s')
  {
    assert forall m :: m in s.log ==> m in s'.log;
    assert forall j :: 0 <= j < |s.deliveries| ==> s'.deliveries[j] == s.deliveries[j];
    forall id ensures Backed(s', id) && (Accounted(s, id) ==> Accounted(s', id)) {
      assert Backed(s, id);
      assert Held(s, id) ==> Held(s', id);
      assert Open(s, id) ==> Open(s', id);
    }
    forall j | 0 <= j < |s'.deliveries| ensures Answered(s', s'.deliveries[j]) {
      if j < |s.deliveries| {
        assert Answered(s, s.deliveries[j]);
        assert Accounted(s, IdOf(s.deliveries[j].msg.body)) ==> Accounted(s', IdOf(s.deliveries[j].msg.body));
      }
    }
    forall m | m in s'.log && WorkQueue(m.body).To? ensures Delivered(s', m) {
      if m in s.log {
        assert Delivered(s, m);
      }
    }
  }

  lemma RelayKeepsLossless(s: State, id: OrderId, r: Reply)
    requires Lossless(s) && Enabled(s, Relay(id, r))
    ensures Lossless(Relayed(s, id, r))
  {
    var s' := Relayed(s, id, r);
    if r != Failed && WorkQueue(s.books.outbox[id].body).To? {
      assert s'.deliveries[|s.deliveries|].msg == s.books.outbox[id];
    }
    GrowthKeepsLossless(s, s');
  }

  lemma CrashKeepsLossless(s: State, i: nat, spends: bool)
    requires Lossless(s) && Enabled(s, Crash(i, spends))
    ensures Lossless(Crashed(s, i, spends))
  {
    var s' := Crashed(s, i, spends);
    var id := IdOf(s.deliveries[i].msg.body);
    assert s'.log == s.log + [];
    assert s.deliveries[i].msg.body.OrderPlaced? ==> IsOpen(s'.deliveries[i], id);
    MoveKeeps(s, s', i, [], id);
    assert Backed(s, id);
    MoveKeepsLossless(s, s', i, []);
  }

  lemma LosslessStep(s: State, a: Action)
    requires Lossless(s) && Enabled(s, a)
    ensures Lossless(Step(s, a))
  {
    match a
    case Advance(i, r) => AdvanceKeepsLossless(s, i, r);
    case Relay(id, r) => RelayKeepsLossless(s, id, r);
    case Crash(i, spends) => CrashKeepsLossless(s, i, spends);
    case Redeliver(i, left) => GrowthKeepsLossless(s, Redelivered(s, i, left));
    case _ => GrowthKeepsLossless(s, Step(s, a));
  }
}
