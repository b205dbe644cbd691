/** The payment aggregate: guarded, idempotent transitions. */
module PaymentDomain {
  import opened Results

  type PayId = nat
  type OrderId = nat

  datatype PayStatus = Pending | Captured | Declined | Settled | Refunded | Failed

  datatype Pay = Pay(id: PayId, order: OrderId, amount: int, currency: string,
                     status: PayStatus, reference: string, failure: string, version: nat)
  {
    predicate Approved() { status == Captured || status == Settled }
  }

  datatype Act = Capture(ref: Option<string>) | Decline(why: Option<string>) | Settle | Refund | Fail(reason: Option<string>)

  datatype Change = Changed(pay: Pay) | Same | Illegal

  function OrEmpty(s: Option<string>): string {
    if s.Some? then s.value else ""
  }

  function Goal(act: Act): PayStatus {
    match act
    case Capture(_) => Captured
    case Decline(_) => Declined
    case Settle => Settled
    case Refund => Refunded
    case Fail(_) => Failed
  }

  /** The documented lifecycle. */
  predicate Edge(a: PayStatus, b: PayStatus) {
    || (a == Pending && (b == Captured || b == Declined))
    || (a == Captured && (b == Settled || b == Refunded || b == Failed))
    || (a == Settled && b == Refunded)
  }

  function Transit(p: Pay, act: Act): Change {
    match act
    case Capture(ref) =>
      if p.status == Captured then Same else if p.status != Pending then Illegal
      else Changed(p.(status := Captured, reference := OrEmpty(ref)))
    case Decline(why) =>
      if p.status == Declined then Same else if p.status != Pending then Illegal
      else Changed(p.(status := Declined, failure := OrEmpty(why)))
    case Settle =>
      if p.status == Settled then Same else if p.status != Captured then Illegal
      else Changed(p.(status := Settled))
    case Refund =>
      if p.status == Refunded then Same else if p.status != Captured && p.status != Settled then Illegal
      else Changed(p.(status := Refunded))
    case Fail(reason) =>
      if p.status == Failed then Same else if p.status != Captured then Illegal
      else Changed(p.(status := Failed, failure := OrEmpty(reason)))
  }

  /** A transition moves exactly along the lifecycle graph, is a no-op at its goal, and is illegal elsewhere. */
  lemma TransitFollowsGraph(p: Pay, act: Act)
    ensures Transit(p, act).Changed? <==> Edge(p.status, Goal(act))
    ensures Transit(p, act).Same? <==> p.status == Goal(act)
    ensures Transit(p, act).Changed? ==>
      var q := Transit(p, act).pay;
      && q.status == Goal(act)
      && q.id == p.id && q.order == p.order && q.amount == p.amount && q.currency == p.currency && q.version == p.version
      && q.reference == (if act.Capture? then OrEmpty(act.ref) else p.reference)
      && q.failure == (if act.Decline? then OrEmpty(act.why) else if act.Fail? then OrEmpty(act.reason) else p.failure)
  {
  }

  predicate Refused(s: PayStatus) {
    s == Declined || s == Refunded || s == Failed
  }

  /** Nothing leaves a refused status, and only approved statuses lead on. */
  lemma RefusedIsFinal(p: Pay, act: Act)
    requires p.status != Pending
    ensures Refused(p.status) <==> !p.Approved()
    ensures Refused(p.status) ==> !Transit(p, act).Changed?
    ensures p.Approved() ==> !(act.Decline? && Transit(p, act).Changed?)
  {
  }

  /** Payment.open: the arguments it accepts. */
  predicate Openable(amount: int, currency: string) {
    amount > 0 && |currency| == 3
  }

  function Open(id: PayId, order: OrderId, amount: int, currency: string): Pay {
    Pay(id, order, amount, currency, Pending, "", "", 0)
  }

  class Payment {
    const id: PayId
    const order: OrderId
    const amount: int
    const currency: string
    var status: PayStatus
    var reference: string
    var failure: string
    const version: nat

    function AsPay(): Pay
      reads this
    {
      Pay(id, order, amount, currency, status, reference, failure, version)
    }

    constructor Rehydrate(p: Pay)
      ensures AsPay() == p
    {
      id, order, amount, currency := p.id, p.order, p.amount, p.currency;
      status, reference, failure, version := p.status, p.reference, p.failure, p.version;
    }

    method Capture(ref: Option<string>) returns (r: Change)
      modifies this
      ensures Applied(Act.Capture(ref), old(AsPay()), AsPay(), r)
    {
      if status == Captured { return Same; }
      if status != Pending { return Illegal; }
      status := Captured;
      reference := if ref.Some? then ref.value else "";
      return Changed(AsPay());
    }

    method Decline(why: Option<string>) returns (r: Change)
      modifies this
      ensures Applied(Act.Decline(why), old(AsPay()), AsPay(), r)
    {
      if status == Declined { return Same; }
      if status != Pending { return Illegal; }
      status := Declined;
      failure := if why.Some? then why.value else "";
      return Changed(AsPay());
    }

    method Settle() returns (r: Change)
      modifies this
      ensures Applied(Act.Settle, old(AsPay()), AsPay(), r)
    {
      if status == Settled { return Same; }
      if status != Captured { return Illegal; }
      status := Settled;
      return Changed(AsPay());
    }

    method Refund() returns (r: Change)
      modifies this
      ensures Applied(Act.Refund, old(AsPay()), AsPay(), r)
    {
      if status == Refunded { return Same; }
      if status != Captured && status != Settled { return Illegal; }
      status := Refunded;
      return Changed(AsPay());
    }

    method Fail(reason: Option<string>) returns (r: Change)
      modifies this
      ensures Applied(Act.Fail(reason), old(AsPay()), AsPay(), r)
    {
      if status == Failed { return Same; }
      if status != Captured { return Illegal; }
      status := Failed;
      failure := if reason.Some? then reason.value else "";
      return Changed(AsPay());
    }
  }

  /** The object moved to the changed value, or did not move. */
  predicate Applied(act: Act, before: Pay, after: Pay, r: Change) {
    r == Transit(before, act) && after == (if r.Changed? then r.pay else before)
  }
}
