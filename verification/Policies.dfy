/** Policies: applications and policies, each row written together with its event. */
module Policies {
  import opened Messaging
  import opened Underwriting

  datatype Policy = Policy(applicationId: ApplicationId, applicant: string, product: string, premium: int)

  /** The tables of the one database. The outbox has each event with the message id
      it was encoded under; `confirmed` are the records the running relay has
      published and not yet removed. */
  datatype Tables = Tables(applications: map<ApplicationId, Application>, policies: map<PolicyId, Policy>,
                           outbox: map<Event, MessageId>, confirmed: set<Event>)

  function IssuedEvent(id: PolicyId, p: Policy): Event {
    PolicyIssued(id, p.applicationId, p.applicant, p.product, p.premium)
  }

  function PolicyOf(e: Event): Policy
    requires e.ApplicationAccepted?
  {
    Policy(e.id, e.applicant, e.product, e.premium)
  }

  function Submitted(t: Tables, a: Application, messageId: MessageId): Tables {
    t.(applications := t.applications[a.id := a], outbox := t.outbox[ApplicationSubmitted(a) := messageId])
  }

  function Issued(t: Tables, id: PolicyId, e: Event, messageId: MessageId): Tables
    requires e.ApplicationAccepted?
  {
    t.(policies := t.policies[id := PolicyOf(e)], outbox := t.outbox[IssuedEvent(id, PolicyOf(e)) := messageId])
  }

  /** What each statement of a transaction answers. Only the commit can fail and
      take effect; what fails before it is rolled back. */
  datatype Script = Script(encode: bool, begin: bool, write: bool, add: bool, commit: Reply)

  /** The transaction took effect, whatever the caller was told. */
  predicate Commits(db: Script) {
    db.encode && db.begin && db.write && db.add && db.commit != Failed
  }

  datatype Submission = Success(id: ApplicationId) | Failure

  datatype Status = Status(id: PolicyId, inForce: bool, premium: int)

  datatype Answer = Found(status: Status) | Unanswered

  class Module {
    var applications: map<ApplicationId, Application>
    var policies: map<PolicyId, Policy>
    var outbox: map<Event, MessageId>
    var confirmed: set<Event>
    var issued: nat

    constructor ()
      ensures Holds() == Tables(map[], map[], map[], {}) && issued == 0
    {
      applications, policies, outbox, confirmed, issued := map[], map[], map[], {}, 0;
    }

    function Holds(): Tables
      reads this
    {
      Tables(applications, policies, outbox, confirmed)
    }

    /** `Submit` for generated ids: the row and its event, or neither. A caller whose
        commit was misreported is told of a failure, and both are there. */
    method Submit(a: Application, messageId: MessageId, db: Script) returns (result: Submission)
      modifies this`applications, this`outbox
      ensures Holds() == if Commits(db) && a.id !in old(applications) then Submitted(old(Holds()), a, messageId) else old(Holds())
      ensures var took := db.encode && db.begin && db.write && db.add && db.commit != Failed && a.id !in old(applications);
              && applications == (if took then old(applications)[a.id := a] else old(applications))
              && outbox == (if took then old(outbox)[ApplicationSubmitted(a) := messageId] else old(outbox))
              && result == (if took && db.commit == Ok then Success(a.id) else Failure)
    {
      if !db.encode || !db.begin {
        return Failure;
      }
      var saved := applications;
      if a.id in applications || !db.write {
        return Failure;
      }
      applications := applications[a.id := a];
      var committed := AddAndCommit(ApplicationSubmitted(a), messageId, db);
      if !committed {
        applications := saved;
      }
      return if committed && db.commit == Ok then Success(a.id) else Failure;
    }

    /** `issue` for generated ids. After a misreported commit the message is retried
        although the policy is there. */
    method Issue(e: Event, policyId: PolicyId, messageId: MessageId, db: Script) returns (ack: Ack)
      requires e.ApplicationAccepted?
      modifies this`policies, this`outbox, this`issued
      ensures Holds() == if Commits(db) && policyId !in old(policies) then Issued(old(Holds()), policyId, e, messageId) else old(Holds())
      ensures var took := db.encode && db.begin && db.write && db.add && db.commit != Failed && policyId !in old(policies);
              && policies == (if took then old(policies)[policyId := Policy(e.id, e.applicant, e.product, e.premium)] else old(policies))
              && outbox == (if took then old(outbox)[PolicyIssued(policyId, e.id, e.applicant, e.product, e.premium) := messageId]
                            else old(outbox))
              && ack == (if took && db.commit == Ok then Accept else Retry)
      ensures issued == old(issued) + if ack == Accept then 1 else 0
    {
      if !db.encode || !db.begin {
        return Retry;
      }
      var saved := policies;
      if policyId in policies || !db.write {
        return Retry;
      }
      policies := policies[policyId := Policy(e.id, e.applicant, e.product, e.premium)];
      var committed := AddAndCommit(PolicyIssued(policyId, e.id, e.applicant, e.product, e.premium), messageId, db);
      if !committed {
        policies := saved;
      }
      if !committed || db.commit != Ok {
        return Retry;
      }
      issued := issued + 1;
      return Accept;
    }

    /** The rest of `inOneTransaction`: the record, the commit, or the rollback,
        which has nothing to undo after a commit that took effect. */
    method AddAndCommit(record: Event, messageId: MessageId, db: Script) returns (committed: bool)
      modifies this`outbox
      ensures committed == (db.add && db.commit != Failed)
      ensures outbox == if committed then old(outbox)[record := messageId] else old(outbox)
    {
      if !db.add {
        return false;
      }
      var saved := outbox;
      outbox := outbox[record := messageId];
      if db.commit == Failed {
        outbox := saved;
        return false;
      }
      return true;
    }

    /** `lookup`: a policy that is not there is an answer; a query that fails is not. */
    method Lookup(id: PolicyId, query: Reply) returns (answer: Answer)
      ensures answer.Found? <==> query == Ok
      ensures answer.Found? ==> answer.status.id == id
      ensures answer.Found? ==> (answer.status.inForce <==> id in policies)
      ensures answer.Found? && id in policies ==> answer.status.premium == policies[id].premium
      ensures answer.Found? && id !in policies ==> answer.status.premium == 0
    {
      if query != Ok {
        return Unanswered;
      }
      if id !in policies {
        return Found(Status(id, false, 0));
      }
      return Found(Status(id, true, policies[id].premium));
    }
  }
}
