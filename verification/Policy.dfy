/** Accept decisions (x402/policy.go) and the mandate policy's cascade (x402/policy_mandate.go). */
module Policy {
  import opened Common
  import opened MandateAccounts

  datatype Action = Reject | Approve | Defer | Ask | RequireBond

  datatype Code =
    | NoCode
    | VerificationFailed
    | MandateMissing
    | MandateInvalid
    | MandateExpired
    | MandateRevoked
    | MandateExceeded
    | BudgetExceeded
    | RateExceeded
    | ConfirmationRequired
    | PaymentDeferred
    | OtherCode(nat)

  datatype Decision = Decision(action: Action, code: Code)

  const Approved: Decision := Decision(Approve, NoCode)

  /** How far a settlement has progressed. */
  datatype Stage = PreSettlement | Submitted | Confirmed

  /** The first decision that is not an approval; an empty chain approves. */
  function FirstVeto(ds: seq<Decision>): Decision {
    if ds == [] then Approved
    else if ds[0].action != Approve then ds[0]
    else FirstVeto(ds[1..])
  }

  /** Any policy can veto, and the earliest veto is the answer. */
  lemma {:induction false} FirstVetoSpec(ds: seq<Decision>)
    ensures FirstVeto(ds).action == Approve <==> forall i :: 0 <= i < |ds| ==> ds[i].action == Approve
    ensures FirstVeto(ds).action != Approve ==>
              exists i :: 0 <= i < |ds| && ds[i] == FirstVeto(ds) && forall j :: 0 <= j < i ==> ds[j].action == Approve
  {
    if ds != [] {
      var rest := ds[1..];
      FirstVetoSpec(rest);
      if ds[0].action == Approve {
        assert forall i :: 0 < i < |ds| ==> ds[i] == rest[i - 1];
        if FirstVeto(ds).action != Approve {
          var i :| 0 <= i < |rest| && rest[i] == FirstVeto(rest) && forall j :: 0 <= j < i ==>
            rest[j].action == Approve;
          assert ds[i + 1] == FirstVeto(ds);
        } else {
          assert forall i :: 0 <= i < |ds| ==> ds[i].action == Approve;
        }
      }
    }
  }

  function AlwaysVerify(valid: bool): Decision {
    if valid then Approved else Decision(Reject, VerificationFailed)
  }

  // ---- The mandate policy ----

  /** What the policy reads of a payment. The flags stand for signature checks: `genuine` that the
      mandate is signed by its delegator, `confirmed` that a valid confirmation of this very
      payment by the delegator is attached. */
  datatype Request = Request(
    mandate: Option<Mandate>,
    genuine: bool,
    payer: Option<Address>,
    payTo: Address,
    resource: string,
    amount: nat,
    nonce: Nonce,
    confirmed: bool)

  datatype Settings = Settings(askOnExceed: bool, deferAbove: int)

  type Revocations = set<(Address, MandateId)>

  function Rejected(code: Code): Decision { Decision(Reject, code) }

  predicate PrefixAllowed(prefixes: seq<string>, resource: string) {
    exists i :: 0 <= i < |prefixes| && prefixes[i] <= resource
  }

  function UnixSeconds(now: int): int { now / SECOND }

  /** The entitlement checks, cheapest first. None means that all of them pass. */
  function Entitlement(revoked: Revocations, r: Request, now: int): Option<Decision> {
    if r.mandate.None? then Some(Rejected(MandateMissing))
    else
      var m := r.mandate.value;
      if !r.genuine then Some(Rejected(MandateInvalid))
      else if r.payer != Some(m.agent) then Some(Rejected(MandateInvalid))
      else if UnixSeconds(now) < m.validAfter || UnixSeconds(now) >= m.validBefore then Some(Rejected(MandateExpired))
      else if (m.delegator, m.id) in revoked then Some(Rejected(MandateRevoked))
      else if m.allowedPayees != [] && r.payTo !in m.allowedPayees then Some(Rejected(MandateExceeded))
      else if m.allowedResources != [] && !PrefixAllowed(m.allowedResources, r.resource) then
        Some(Rejected(MandateExceeded))
      else None
  }

  lemma {:induction false} EntitledHasMandate(revoked: Revocations, r: Request, now: int)
    ensures Entitlement(revoked, r, now).None? ==> r.mandate.Some?
  {}

  function OverLimit(settings: Settings, code: Code): Decision {
    if settings.askOnExceed then Decision(Ask, ConfirmationRequired) else Rejected(code)
  }

  predicate OverCap(m: Mandate, r: Request) {
    m.maxAmountPerPayment > 0 && r.amount > m.maxAmountPerPayment && !r.confirmed
  }

  /** A large payment waits until its settlement is confirmed. */
  function DeliverAt(settings: Settings, r: Request, stage: Stage): Decision {
    if settings.deferAbove > 0 && r.amount >= settings.deferAbove && stage != Confirmed
    then Decision(Defer, PaymentDeferred) else Approved
  }

  /** The whole cascade. Only the first evaluation, before settlement, touches the windows. */
  ghost function Decide(settings: Settings, revoked: Revocations, accounts: Accounts, r: Request, now: int,
      stage: Stage): (Decision,
        Accounts)
  {
    match Entitlement(revoked, r, now)
    case Some(d) => (d, accounts)
    case None =>
      var m := r.mandate.value;
      if OverCap(m, r) then (OverLimit(settings, MandateExceeded), accounts)
      else if stage != PreSettlement then (DeliverAt(settings, r, stage), accounts)
      else
        var accounts' := Reserve(accounts, m, r.nonce, r.amount, now, r.confirmed);
        match VerdictOf(AccountOf(accounts, m.id), m, r.amount, now, r.confirmed)
        case OverBudget => (OverLimit(settings, BudgetExceeded), accounts')
        case OverRate => (Rejected(RateExceeded), accounts')
        case Fits => (DeliverAt(settings, r, stage), accounts')
  }

  /** The payment got past every limit and is now held against the windows. */
  ghost predicate Holds(settings: Settings, revoked: Revocations, accounts: Accounts, r: Request, now: int) {
    && Entitlement(revoked, r, now).None?
    && !OverCap(r.mandate.value, r)
    && VerdictOf(AccountOf(accounts, r.mandate.value.id), r.mandate.value, r.amount, now, r.confirmed) == Fits
  }

  /** Before settlement the policy lets a payment settle exactly when it holds it. */
  lemma {:induction false} SettlesIffHeld(settings: Settings, revoked: Revocations, accounts: Accounts, r: Request,
      now: int)
    ensures var (d, accounts') := Decide(settings, revoked, accounts, r, now, PreSettlement);
            && (d.action == Approve || d.action == Defer <==> Holds(settings, revoked, accounts, r, now))
            && (Holds(settings, revoked, accounts, r, now) ==>
                  accounts' == Reserve(accounts, r.mandate.value, r.nonce, r.amount, now, r.confirmed))
            && (!Holds(settings, revoked, accounts, r, now) ==>
                  forall id :: AccountOf(accounts', id) == AccountOf(accounts, id))
  {
    hide VerdictOf;
  }

  /** And it approves a payment that it holds, unless the payment is large. */
  lemma {:induction false} HeldIsDelivered(settings: Settings, revoked: Revocations, accounts: Accounts, r: Request,
      now: int)
    ensures var d := Decide(settings, revoked, accounts, r, now, PreSettlement).0;
            && (Holds(settings, revoked, accounts, r, now) ==> d == DeliverAt(settings, r, PreSettlement))
            && (d.action == Approve ==> Holds(settings, revoked, accounts, r, now))
  {
    hide VerdictOf, OverCap;
  }

  class MandatePolicy {
    const settings: Settings
    const accounts: Registry
    var revoked: Revocations

    /** The policy, its registry and the account objects. */
    ghost var Repr: set<object>

    ghost predicate Valid()
      reads this, Repr
      ensures Valid() ==> this in Repr
    {
      && this in Repr && accounts in Repr && accounts.accounts.Values <= Repr
      && accounts.Valid()
    }

    ghost function View(): Accounts
      requires Valid()
      reads this, Repr
    {
      accounts.View()
    }

    constructor (settings: Settings)
      ensures this.settings == settings && revoked == {}
      ensures Valid() && fresh(Repr) && View() == map[]
    {
      this.settings := settings;
      var r := new Registry();
      accounts, revoked := r, {};
      Repr := {this, r};
    }

    method PrefixMatches(prefixes: seq<string>, resource: string) returns (allowed: bool)
      ensures allowed == PrefixAllowed(prefixes, resource)
    {
      var i := 0;
      while i < |prefixes|
        invariant 0 <= i <= |prefixes|
        invariant forall j :: 0 <= j < i ==> !(prefixes[j] <= resource)
      {
        if prefixes[i] <= resource {
          return true;
        }
        i := i + 1;
      }
      return false;
    }

    method RevokeFor(delegator: Address, id: MandateId)
      requires Valid()
      modifies Repr
      ensures Valid() && Repr == old(Repr) && View() == old(View())
      ensures revoked == old(revoked) + {(delegator, id)}
    {
      revoked := revoked + {(delegator, id)};
    }

    method RestoreSpend(id: MandateId, at: int, amount: nat)
      requires Valid()
      modifies Repr
      ensures Valid() && fresh(Repr - old(Repr)) && revoked == old(revoked)
      ensures View() == Restore(old(View()), id, at, amount)
    {
      accounts.RestoreSpend(id, at, amount);
      Repr := Repr + accounts.accounts.Values;
    }

    /** The outcome of a settlement: the reservation turns into a spend or is dropped. */
    method Settled(m: Mandate, nonce: Nonce, now: int, success: bool)
      requires Valid()
      modifies Repr
      ensures Valid() && Repr == old(Repr) && revoked == old(revoked)
      ensures View() == if success then Commit(old(View()), m, nonce, now) else Release(old(View()), m, nonce)
    {
      if success {
        accounts.CommitSpend(m, nonce, now);
      } else {
        accounts.ReleaseSpend(m, nonce);
      }
    }

    method CheckEntitlement(r: Request, now: int) returns (refusal: Option<Decision>)
      ensures refusal == Entitlement(revoked, r, now)
    {
      if r.mandate.None? {
        return Some(Rejected(MandateMissing));
      }
      var m := r.mandate.value;
      if !r.genuine || r.payer != Some(m.agent) {
        return Some(Rejected(MandateInvalid));
      }
      if UnixSeconds(now) < m.validAfter || UnixSeconds(now) >= m.validBefore {
        return Some(Rejected(MandateExpired));
      }
      if (m.delegator, m.id) in revoked {
        return Some(Rejected(MandateRevoked));
      }
      if |m.allowedPayees| > 0 && r.payTo !in m.allowedPayees {
        return Some(Rejected(MandateExceeded));
      }
      if |m.allowedResources| > 0 {
        var allowed := PrefixMatches(m.allowedResources, r.resource);
        if !allowed {
          return Some(Rejected(MandateExceeded));
        }
      }
      return None;
    }

    method Evaluate(r: Request, now: int, stage: Stage) returns (d: Decision)
      requires Valid()
      modifies Repr
      ensures Valid() && fresh(Repr - old(Repr)) && revoked == old(revoked)
      ensures (d, View()) == Decide(settings, revoked, old(View()), r, now, stage)
    {
      hide VerdictOf, Reserve, Entitlement, Registry.View, Registry.Valid, DeliverAt, OverLimit;
      var refusal := CheckEntitlement(r, now);
      if refusal.Some? {
        return refusal.value;
      }
      EntitledHasMandate(revoked, r, now);
      var m := r.mandate.value;
      if OverCap(m, r) {
        return OverLimit(settings, MandateExceeded);
      }
      if stage == PreSettlement {
        var verdict := accounts.TryReserve(m, r.nonce, r.amount, now, r.confirmed);
        Repr := Repr + accounts.accounts.Values;
        match verdict {
          case OverBudget => return OverLimit(settings, BudgetExceeded);
          case OverRate => return Rejected(RateExceeded);
          case Fits =>
        }
      }
      return DeliverAt(settings, r, stage);
    }
  }
}
