/** Underwriting: look the applicant up, price the risk, decide. */
module Underwriting {
  import opened Messaging

  type ApplicationId = string
  type PolicyId = string
  type MessageId = string

  datatype Application = Application(id: ApplicationId, applicant: string, product: string, sumAssured: int, age: int)

  /** The events of policy administration. */
  datatype Event =
    | ApplicationSubmitted(application: Application)
    | ApplicationAccepted(id: ApplicationId, applicant: string, product: string, sumAssured: int, premium: int)
    | ApplicationDeclined(id: ApplicationId, applicant: string, sumAssured: int)
    | PolicyIssued(policyId: PolicyId, id: ApplicationId, applicant: string, product: string, premium: int)
    | PremiumCharged(policyId: PolicyId, applicant: string, amount: int)

  /** An event in its envelope. The id is given to the encoded message, so every
      copy of the message carries it. */
  datatype Message = Message(id: MessageId, body: Event)

  /** Larger sums are not accepted automatically. */
  const REFERRAL_THRESHOLD: int := 500_000

  datatype Checked = Checked(application: Application, knownToRegister: bool)
  datatype Priced = Priced(application: Application, premium: int, refer: bool)

  lemma DivisionBounds(x: int, y: int)
    requires x >= 0 && y > 0
    ensures x / y >= 0 && x / y * y <= x < x / y * y + y
  {
  }

  lemma OppositeProduct(x: int, y: int)
    ensures (-x) * y == -(x * y)
  {
  }

  /** Go's integer division, which truncates toward zero. */
  function Quotient(x: int, y: int): (q: int)
    requires y > 0
    ensures x >= 0 ==> q >= 0 && q * y <= x < q * y + y
    ensures x < 0 ==> q <= 0 && q * y - y < x <= q * y
  {
    if x >= 0 then
      DivisionBounds(x, y);
      x / y
    else
      DivisionBounds(-x, y);
      OppositeProduct((-x) / y, y);
      -((-x) / y)
  }

  function ToLower(s: string): string {
    seq(|s|, i requires 0 <= i < |s| =>
      if 'A' <= s[i] <= 'Z' then ((s[i] as int) - ('A' as int) + ('a' as int)) as char else s[i])
  }

  predicate Contains(s: string, part: string) {
    exists i :: 0 <= i <= |s| && part <= s[i..]
  }

  function CheckRegister(a: Application): Checked {
    Checked(a, Contains(ToLower(a.applicant), "known"))
  }

  function AgeLoading(age: int): nat {
    (if age > 30 then age - 30 else 0) * 2
  }

  /** The rating table. */
  function Price(c: Checked): Priced {
    var base := Quotient(c.application.sumAssured, 1000);
    var ageLoading := AgeLoading(c.application.age);
    var registerLoading := if c.knownToRegister then Quotient(base, 2) else 0;
    Priced(c.application, base + ageLoading + registerLoading, c.application.sumAssured > REFERRAL_THRESHOLD)
  }

  /** The premium of an application, which nothing but the application decides. */
  function PremiumOf(a: Application): int {
    Price(CheckRegister(a)).premium
  }

  function Decision(p: Priced): Event {
    var a := p.application;
    if p.refer then ApplicationDeclined(a.id, a.applicant, a.sumAssured)
    else ApplicationAccepted(a.id, a.applicant, a.product, a.sumAssured, p.premium)
  }

  /** The word "known" starts here, in whatever mixture of small letters and capitals. */
  predicate KnownAt(name: string, i: nat) {
    && i + 5 <= |name|
    && name[i] in "kK" && name[i + 1] in "nN" && name[i + 2] in "oO" && name[i + 3] in "wW" && name[i + 4] in "nN"
  }

  /** What being on the register means, for the name as it was given. */
  ghost predicate OnRegister(name: string) {
    exists i: nat :: KnownAt(name, i)
  }

  lemma LowerAt(name: string, i: nat)
    requires i + 5 <= |name|
    ensures "known" <= ToLower(name)[i..] <==> KnownAt(name, i)
  {
    var low := ToLower(name)[i..];
    assert "known" <= low <==> low[..5] == "known";
    assert low[..5] == [low[0], low[1], low[2], low[3], low[4]] && "known" == ['k', 'n', 'o', 'w', 'n'];
  }

  lemma RegisterFinds(a: Application)
    ensures CheckRegister(a).application == a
    ensures CheckRegister(a).knownToRegister <==> OnRegister(a.applicant)
  {
    var name := a.applicant;
    if i :| 0 <= i <= |ToLower(name)| && "known" <= ToLower(name)[i..] {
      LowerAt(name, i);
    }
    if i: nat :| KnownAt(name, i) {
      LowerAt(name, i);
    }
  }

  /** `q` is `x` divided by `y` and cut off toward zero. */
  predicate CutOff(x: int, y: int, q: int) {
    if x >= 0 then q * y <= x < (q + 1) * y else (q - 1) * y < x <= q * y
  }

  /** The rating table, without computing with it: a thousandth of the sum, two for every
      year above thirty, and half of the base again on the register. */
  ghost predicate IsPremium(a: Application, premium: int) {
    exists base: int, half: int :: Rates(a, base, half, premium)
  }

  ghost predicate Rates(a: Application, base: int, half: int, premium: int) {
    && CutOff(a.sumAssured, 1000, base) && CutOff(base, 2, half)
    && premium == base + (if a.age > 30 then 2 * (a.age - 30) else 0) + (if OnRegister(a.applicant) then half else 0)
  }

  lemma MultiplesSpread(p: int, q: int, y: int)
    requires p < q && y > 0
    ensures (p + 1) * y <= q * y && p * y <= (q - 1) * y
  {
  }

  lemma CutOffOnce(x: int, y: int, p: int, q: int)
    requires y > 0 && CutOff(x, y, p) && CutOff(x, y, q)
    ensures p == q
  {
    if p < q {
      MultiplesSpread(p, q, y);
    } else if q < p {
      MultiplesSpread(q, p, y);
    }
  }

  lemma QuotientCutsOff(x: int, y: int, q: int)
    requires y > 0
    ensures q == Quotient(x, y) <==> CutOff(x, y, q)
  {
    var p := Quotient(x, y);
    assert (p + 1) * y == p * y + y && (p - 1) * y == p * y - y;
    if CutOff(x, y, q) {
      CutOffOnce(x, y, p, q);
    }
  }

  /** The pipeline prices an application by the rating table, and so for one premium alone. */
  lemma PricedByTheTable(a: Application, premium: int)
    ensures IsPremium(a, premium) <==> premium == PremiumOf(a)
  {
    RegisterFinds(a);
    var base := Quotient(a.sumAssured, 1000);
    QuotientCutsOff(a.sumAssured, 1000, base);
    QuotientCutsOff(base, 2, Quotient(base, 2));
    assert Rates(a, base, Quotient(base, 2), PremiumOf(a));
    if b: int, half: int :| Rates(a, b, half, premium) {
      QuotientCutsOff(a.sumAssured, 1000, b);
      QuotientCutsOff(b, 2, half);
    }
  }

  /** A year more costs two above thirty, and nothing up to it. */
  lemma OneYearOlder(a: Application, b: Application)
    requires b == a.(age := a.age + 1)
    ensures PremiumOf(b) - PremiumOf(a) == if a.age >= 30 then 2 else 0
  {
  }

  /** Without a loading for age, the premium is the whole thousands of the sum, and half of
      them again on the register. */
  lemma PremiumOfTheYoung(a: Application, base: int)
    requires a.sumAssured >= 0 && a.age <= 30 && 1000 * base <= a.sumAssured < 1000 * (base + 1)
    ensures var p := PremiumOf(a);
            if OnRegister(a.applicant) then 2 * (p - base) <= base < 2 * (p - base + 1) else p == base
  {
    RegisterFinds(a);
    QuotientCutsOff(a.sumAssured, 1000, base);
  }

  /** The rating table is monotone in age and sum; and the register, where it changes,
      never costs less for a sum above minus two thousand. */
  lemma PremiumMonotone(a: Application, b: Application)
    requires a.sumAssured <= b.sumAssured && a.age <= b.age
    requires (OnRegister(a.applicant) <==> OnRegister(b.applicant)) || (OnRegister(b.applicant) && b.sumAssured > -2000)
    ensures PremiumOf(a) <= PremiumOf(b)
  {
    RegisterFinds(a);
    RegisterFinds(b);
    assert Quotient(a.sumAssured, 1000) <= Quotient(b.sumAssured, 1000);
  }

  /** Exactly when being on the register does not make a premium smaller. */
  lemma RegisterNeverCheaperExactly(a: Application, b: Application)
    requires a.sumAssured == b.sumAssured && a.age == b.age
    requires !OnRegister(a.applicant) && OnRegister(b.applicant)
    ensures PremiumOf(a) <= PremiumOf(b) <==> a.sumAssured > -2000
  {
    RegisterFinds(a);
    RegisterFinds(b);
    assert Quotient(a.sumAssured, 1000) == Quotient(b.sumAssured, 1000);
  }

  /** No sum is checked when it is submitted: the premium is negative exactly when the sum
      is further below zero than the years above thirty make up for, at two thousand a year,
      or four thirds of that on the register. */
  lemma PremiumNonNegativeExactly(a: Application)
    ensures var years := if a.age > 30 then a.age - 30 else 0;
            PremiumOf(a) >= 0 <==>
              a.sumAssured > -1000 * (1 + if OnRegister(a.applicant) then (4 * years + 1) / 3 else 2 * years)
  {
    RegisterFinds(a);
    var base, years := Quotient(a.sumAssured, 1000), if a.age > 30 then a.age - 30 else 0;
    if OnRegister(a.applicant) {
      BaseAbove(a.sumAssured, (4 * years + 1) / 3);
      HalfAgain(base, 2 * years);
    } else {
      BaseAbove(a.sumAssured, 2 * years);
    }
  }

  lemma BaseAbove(sum: int, n: nat)
    ensures Quotient(sum, 1000) + n >= 0 <==> sum > -1000 * (n + 1)
  {
  }

  /** What the register adds is half of the base, so a loading covers two thirds of itself. */
  lemma HalfAgain(base: int, loading: nat)
    ensures base + loading + Quotient(base, 2) >= 0 <==> base + (2 * loading + 1) / 3 >= 0
  {
  }

  class Module {
    var accepted: nat
    var declined: nat
    var sent: seq<Event>

    constructor ()
      ensures accepted == declined == 0 && sent == []
    {
      accepted, declined, sent := 0, 0, [];
    }

    /** `decide`: publish the decision, and count it once it is published. */
    method Decide(p: Priced, publish: Reply) returns (err: bool)
      modifies this
      ensures err == (publish != Ok)
      ensures sent == if publish == Failed then old(sent) else old(sent) + [Decision(p)]
      // Referred or accepted, with the application's own fields.
      ensures var a := p.application;
              sent == old(sent) + (
                if publish == Failed then []
                else if p.refer then [ApplicationDeclined(a.id, a.applicant, a.sumAssured)]
                else [ApplicationAccepted(a.id, a.applicant, a.product, a.sumAssured, p.premium)])
      ensures accepted == old(accepted) + (if !p.refer && publish == Ok then 1 else 0)
      ensures declined == old(declined) + (if p.refer && publish == Ok then 1 else 0)
    {
      var application := p.application;
      if p.refer {
        if publish != Failed {
          sent := sent + [ApplicationDeclined(application.id, application.applicant, application.sumAssured)];
        }
        if publish != Ok {
          return true;
        }
        declined := declined + 1;
        return false;
      }
      if publish != Failed {
        sent := sent + [ApplicationAccepted(application.id, application.applicant, application.product,
                                            application.sumAssured, p.premium)];
      }
      if publish != Ok {
        return true;
      }
      accepted := accepted + 1;
      return false;
    }
  }
}
