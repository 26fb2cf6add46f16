/** Billing: the first premium, behind a claim on the message that asks for it. */
module Billing {
  import opened Messaging
  import opened Underwriting
  import Claims

  function ChargeOf(e: Event): Event
    requires e.PolicyIssued?
  {
    PremiumCharged(e.policyId, e.applicant, e.premium)
  }

  /** One atomic action of a delivery that was given the claim: the handler's
      publish, and then the wrapper's confirmation or release. The wrapper's key is
      the message id, so the claim is on this message and not on its policy. */
  function Step(claims: Claims.Table, m: Message, p: Phase, r: Reply): (turn: Turn<Claims.Table, Event>)
    requires m.body.PolicyIssued? && p in {Holding, Failing, Published}
    ensures |turn.sent| <= 1
  {
    match p
    case Holding =>
      (match r
       case Ok => Turn(claims, Published, [ChargeOf(m.body)])
       case Failed => Turn(claims, Failing, [])
       case Ambiguous => Turn(claims, Failing, [ChargeOf(m.body)]))
    case Failing => Turn(Claims.Released(claims, m.id, r), Settled(Retry), [])
    case _ => Turn(Claims.ConfirmedIn(claims, m.id, r), Settled(Accept), [])
  }

  /** The wrapper accepts a delivery that does not get the claim only when the message has
      been handled; a claim that is merely held puts it back, without spending an attempt. */
  predicate HasHandled(claims: Claims.Table, id: MessageId) {
    id in claims && claims[id] == Claims.Confirmed
  }

  class Module {
    var charges: seq<PolicyId>
    var sent: seq<Event>

    constructor ()
      ensures charges == [] && sent == []
    {
      charges, sent := [], [];
    }

    /** `charge`: a charge is recorded when, and only when, its event was published. */
    method Charge(e: Event, publish: Reply) returns (ack: Ack)
      requires e.PolicyIssued?
      modifies this
      ensures ack == if publish == Ok then Accept else Retry
      ensures sent == if publish == Failed then old(sent) else old(sent) + [ChargeOf(e)]
      ensures sent == old(sent) + (if publish == Failed then [] else [PremiumCharged(e.policyId, e.applicant, e.premium)])
      ensures charges == if ack == Accept then old(charges) + [e.policyId] else old(charges)
    {
      if publish != Failed {
        sent := sent + [PremiumCharged(e.policyId, e.applicant, e.premium)];
      }
      if publish != Ok {
        return Retry;
      }
      charges := charges + [e.policyId];
      return Accept;
    }
  }
}
