/** Policy administration as one transition system.

    Delivery is at least once at every stage: a message that was ever put on a
    queue may be handled at any later time and any number of times. */
module PolicyChain {
  import opened Messaging
  import opened Policies
  import opened Underwriting
  import Billing
  import Claims

  /** A delivery of a `PolicyIssued` that was given the claim. */
  datatype Charging = Charging(message: Message, phase: Phase)

  /** What each consumer has accepted. A message that is not here is waiting, in a handler
      or dead; one that is here may still be delivered again. */
  datatype Acks = Acks(fed: set<Application>, registered: set<Application>, priced: set<Checked>, decided: set<Priced>,
                       issued: set<Event>, charged: set<Message>)

  datatype Fault =
    | ClaimExpired(id: MessageId)
    | ChargeUnsure(id: MessageId)  // billing was told a publish failed, and it had not

  datatype State = State(
    tables: Tables,
    log: seq<Event>,               // everything published, in order
    register: set<Application>,    // everything ever put on the pipeline's stage queues
    pricing: set<Checked>,
    deciding: set<Priced>,
    acks: Acks,
    queued: set<Message>,          // everything ever put on billing's queue
    announced: seq<Message>,       // every message id a `PolicyIssued` was given, in order
    charged: seq<Message>,         // the message behind each premium published, in order
    claims: Claims.Table,
    charging: seq<Charging>,
    faults: multiset<Fault>)

  datatype Action =
    | Submit(application: Application, messageId: MessageId)
    | Relay(e: Event, reply: Reply)
    | Remove(e: Event)
    | RelayCrash
    | Feed(application: Application, reply: Reply)
    | Register(application: Application, reply: Reply)
    | SetPrice(checked: Checked, reply: Reply)
    | Decide(priced: Priced, reply: Reply)
    | Issue(e: Event, policyId: PolicyId, messageId: MessageId, commit: Reply)
    | Resend(message: Message, reply: Reply)
    | Claim(message: Message, reply: Reply)
    | Charge(k: nat, reply: Reply)
    | ChargeCrash(k: nat)
    | Expire(id: MessageId)

  predicate Initial(s: State) {
    && s.tables.applications == map[] && s.tables.policies == map[] && s.tables.outbox == map[] && s.tables.confirmed == {}
    && s.log == [] && s.register == {} && s.pricing == {} && s.deciding == {}
    && s.acks == Acks({}, {}, {}, {}, {}, {}) && s.queued == {} && s.announced == [] && s.charged == []
    && s.claims == map[] && s.charging == [] && s.faults == multiset{}
  }

  /** No `PolicyIssued` has this message id yet. */
  predicate NewId(s: State, id: MessageId) {
    forall m :: m in s.announced ==> m.id != id
  }

  /** An event about an issued policy that tells billing what the policy's own event does,
      whatever it says of the rest, once that event has been published. */
  predicate Repeats(s: State, e: Event) {
    && e.PolicyIssued? && e.policyId in s.tables.policies
    && var p := s.tables.policies[e.policyId];
       e.applicant == p.applicant && e.premium == p.premium && IssuedEvent(e.policyId, p) in s.log
  }

  predicate Enabled(s: State, a: Action) {
    match a
    case Submit(app, _) => app.id !in s.tables.applications
    case Relay(e, _) => e in s.tables.outbox && e !in s.tables.confirmed
    case Remove(e) => e in s.tables.confirmed
    case RelayCrash => true
    case Feed(app, _) => ApplicationSubmitted(app) in s.log
    case Register(app, _) => app in s.register
    case SetPrice(c, _) => c in s.pricing
    case Decide(p, _) => p in s.deciding
    case Issue(e, id, messageId, _) => e in s.log && e.ApplicationAccepted? && id !in s.tables.policies && NewId(s, messageId)
    case Resend(m, _) => Repeats(s, m.body) && (m in s.announced || NewId(s, m.id))
    case Claim(m, _) => m in s.queued && m.body.PolicyIssued?
    case Charge(k, _) =>
      k < |s.charging| && s.charging[k].message.body.PolicyIssued? && s.charging[k].phase in {Holding, Failing, Published}
    case ChargeCrash(k) => k < |s.charging|
    case Expire(id) => id in s.claims && s.claims[id] == Claims.Held
  }

  function Step(s: State, a: Action): State
    requires Enabled(s, a)
  {
    match a
    case Submit(app, messageId) => s.(tables := Submitted(s.tables, app, messageId))
    case Relay(e, r) => Relayed(s, e, r)
    case Remove(e) => s.(tables := s.tables.(outbox := s.tables.outbox - {e}, confirmed := s.tables.confirmed - {e}))
    case RelayCrash => s.(tables := s.tables.(confirmed := {}))
    case Feed(app, r) =>
      if r == Failed then s
      else s.(register := s.register + {app}, acks := if r == Ok then s.acks.(fed := s.acks.fed + {app}) else s.acks)
    case Register(app, r) =>
      if r == Failed then s
      else s.(pricing := s.pricing + {CheckRegister(app)},
              acks := if r == Ok then s.acks.(registered := s.acks.registered + {app}) else s.acks)
    case SetPrice(c, r) =>
      if r == Failed then s
      else s.(deciding := s.deciding + {Price(c)}, acks := if r == Ok then s.acks.(priced := s.acks.priced + {c}) else s.acks)
    case Decide(p, r) =>
      if r == Failed then s
      else s.(log := s.log + [Decision(p)], acks := if r == Ok then s.acks.(decided := s.acks.decided + {p}) else s.acks)
    case Issue(e, id, messageId, r) => Issuing(s, e, id, messageId, r)
    case Resend(m, r) => Resent(s, m, r)
    case Claim(m, r) => Claiming(s, m, r)
    case Charge(k, r) => Charged(s, k, r)
    case ChargeCrash(k) => s.(charging := s.charging[k := s.charging[k].(phase := Dead)])
    case Expire(id) => s.(claims := s.claims[id := Claims.Expired], faults := s.faults + multiset{ClaimExpired(id)})
  }

  /** One handling of an acceptance, by what its transaction's commit does. */
  function Issuing(s: State, e: Event, id: PolicyId, messageId: MessageId, r: Reply): State
    requires e.ApplicationAccepted?
  {
    if r == Failed then s
    else
      s.(tables := Issued(s.tables, id, e, messageId),
         announced := s.announced + [Message(messageId, IssuedEvent(id, PolicyOf(e)))],
         acks := if r == Ok then s.acks.(issued := s.acks.issued + {e}) else s.acks)
  }

  /** The relay publishes the bytes of the record, so its message id with them. */
  function Relayed(s: State, e: Event, r: Reply): State
    requires e in s.tables.outbox
  {
    if r == Failed then s
    else
      s.(log := s.log + [e],
         queued := if e.PolicyIssued? then s.queued + {Message(s.tables.outbox[e], e)} else s.queued,
         tables := if r == Ok then s.tables.(confirmed := s.tables.confirmed + {e}) else s.tables)
  }

  /** Somebody other than the relay publishes a policy's event again, under an id of
      its own or as one more copy of a message already sent. */
  function Resent(s: State, m: Message, r: Reply): State {
    if r == Failed then s
    else
      s.(log := s.log + [m.body], queued := s.queued + {m},
         announced := if m in s.announced then s.announced else s.announced + [m])
  }

  /** The wrapper's claim, by message id. A delivery that does not get it is accepted
      or put back, and in neither case reaches the handler. */
  function Claiming(s: State, m: Message, r: Reply): State {
    var granted := r == Ok && Claims.Free(s.claims, m.id);
    s.(claims := Claims.Claimed(s.claims, m.id, r),
       charging := if granted then s.charging + [Charging(m, Holding)] else s.charging,
       acks := if r == Ok && Billing.HasHandled(s.claims, m.id) then s.acks.(charged := s.acks.charged + {m}) else s.acks)
  }

  function Charged(s: State, k: nat, r: Reply): State
    requires Enabled(s, Charge(k, r))
  {
    var c := s.charging[k];
    var turn := Billing.Step(s.claims, c.message, c.phase, r);
    var unsure := if c.phase == Holding && r == Ambiguous then multiset{ChargeUnsure(c.message.id)} else multiset{};
    s.(claims := turn.state, charging := s.charging[k := c.(phase := turn.phase)], log := s.log + turn.sent,
       charged := if turn.sent == [] then s.charged else s.charged + [c.message],
       acks := if turn.phase == Settled(Accept) then s.acks.(charged := s.acks.charged + {c.message}) else s.acks,
       faults := s.faults + unsure)
  }

  predicate Valid(s: State, trace: seq<Action>)
    decreases |trace|
  {
    trace == [] || (Enabled(s, trace[0]) && Valid(Step(s, trace[0]), trace[1..]))
  }

  function Run(s: State, trace: seq<Action>): State
    requires Valid(s, trace)
    decreases |trace|
  {
    if trace == [] then s else Run(Step(s, trace[0]), trace[1..])
  }

  ghost predicate Reachable(s: State) {
    exists s0: State, trace: seq<Action> :: RunTo(s0, trace, s)
  }

  ghost predicate RunTo(s0: State, trace: seq<Action>, s: State) {
    Initial(s0) && Valid(s0, trace) && Run(s0, trace) == s
  }
}
