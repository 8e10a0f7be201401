/** What the mandate policy lets pass, in terms of the request and the mandate alone, and what it answers
    to everything else (x402/policy_mandate.go). */
module PolicyLaws {
  import opened Common
  import opened MandateAccounts
  import opened Policy

  /** A mandate that its delegator signed and granted to the payer. */
  predicate Granted(r: Request) {
    r.mandate.Some? && r.genuine && r.payer == Some(r.mandate.value.agent)
  }

  predicate InForce(m: Mandate, now: int) { m.validAfter <= now / SECOND < m.validBefore }

  /** An empty list restricts nothing. */
  predicate Covers(m: Mandate, payTo: Address, resource: string) {
    && (|m.allowedPayees| == 0 || payTo in m.allowedPayees)
    && (|m.allowedResources| == 0 || exists prefix :: prefix in m.allowedResources && prefix <= resource)
  }

  /** A cap of zero is no cap, and a confirmation lifts it. */
  predicate UnderCap(m: Mandate, amount: nat, confirmed: bool) {
    m.maxAmountPerPayment <= 0 || amount <= m.maxAmountPerPayment || confirmed
  }

  /** What was committed in the window, what is held, and this payment fit the budget. A confirmation
      lifts this limit too. */
  ghost predicate InBudget(acct: Account, m: Mandate, amount: nat, now: int, confirmed: bool) {
    || confirmed
    || m.budgetAmount <= 0
    || AmountFrom(acct.spends, now - WindowDur(m.budgetWindowSeconds)) + ReservedAmount(acct.reserved) + amount
         <= m.budgetAmount
  }

  /** Nothing lifts the rate cap. */
  predicate InRate(acct: Account, m: Mandate, now: int) {
    || m.maxPaymentsPerWindow <= 0
    || CountFrom(acct.spends, now - WindowDur(m.rateWindowSeconds)) + |acct.reserved| < Int64(m.maxPaymentsPerWindow)
  }

  lemma {:induction false} PrefixAllowedIff(prefixes: seq<string>, resource: string)
    ensures PrefixAllowed(prefixes, resource) <==> exists prefix :: prefix in prefixes && prefix <= resource
  {
    if prefix :| prefix in prefixes && prefix <= resource {
      var i :| 0 <= i < |prefixes| && prefixes[i] == prefix;
      assert prefixes[i] <= resource;
    }
    if i :| 0 <= i < |prefixes| && prefixes[i] <= resource {
      assert prefixes[i] in prefixes;
    }
  }

  /** The entitlement checks as a table: the first thing that is wrong decides the answer. */
  lemma {:induction false} EntitlementTable(revoked: Revocations, r: Request, now: int)
    ensures var refusal := Entitlement(revoked, r, now);
            if r.mandate.None? then refusal == Some(Decision(Reject, MandateMissing))
            else if !Granted(r) then refusal == Some(Decision(Reject, MandateInvalid))
            else if !InForce(r.mandate.value, now) then refusal == Some(Decision(Reject, MandateExpired))
            else if (r.mandate.value.delegator, r.mandate.value.id) in revoked
            then refusal == Some(Decision(Reject, MandateRevoked))
            else if !Covers(r.mandate.value, r.payTo, r.resource)
            then refusal == Some(Decision(Reject, MandateExceeded))
            else refusal == None
  {
    if r.mandate.Some? {
      PrefixAllowedIff(r.mandate.value.allowedResources, r.resource);
    }
  }

  /** Everything the policy asks at any stage. */
  predicate Admissible(revoked: Revocations, r: Request, now: int) {
    && Granted(r)
    && InForce(r.mandate.value, now)
    && (r.mandate.value.delegator, r.mandate.value.id) !in revoked
    && Covers(r.mandate.value, r.payTo, r.resource)
    && UnderCap(r.mandate.value, r.amount, r.confirmed)
  }

  /** And what it asks before settlement. */
  ghost predicate Affordable(accounts: Accounts, r: Request, now: int)
    requires r.mandate.Some?
  {
    var m := r.mandate.value;
    var acct := if m.id in accounts then accounts[m.id] else Account([], map[]);
    InBudget(acct, m, r.amount, now, r.confirmed) && InRate(acct, m, now)
  }

  lemma {:induction false} VerdictIs(acct: Account, m: Mandate, amount: nat, now: int, confirmed: bool)
    ensures VerdictOf(acct, m, amount, now, confirmed) ==
              if !InBudget(acct, m, amount, now, confirmed) then OverBudget
              else if !InRate(acct, m, now) then OverRate else Fits
  {
    hide Int64, WindowDur, AmountFrom, CountFrom, ReservedAmount;
  }

  /** A payment is let past the policy exactly when its mandate is genuine, granted to the payer, in
      force, not revoked, covers payee and resource, and has room for it: the cap always, the
      windows before settlement. It passes at once unless it is large and not yet confirmed on
      chain. Before settlement what passes is held, and nothing else changes any account. */
  lemma {:induction false} PassesIff(settings: Settings, revoked: Revocations, accounts: Accounts, r: Request, now: int,
      stage: Stage)
    ensures var (d, accounts') := Decide(settings, revoked, accounts, r, now, stage);
            var passes := Admissible(revoked, r, now) && (stage == PreSettlement ==> Affordable(accounts, r, now));
            var large := 0 < settings.deferAbove <= r.amount;
            && (d.action == Approve || d.action == Defer <==> passes)
            && (d.action == Defer <==> passes && large && stage != Confirmed)
            && (passes && stage == PreSettlement ==>
                  var m := r.mandate.value;
                  var acct := if m.id in accounts then accounts[m.id] else Account([], map[]);
                  accounts' == accounts[
                    m.id := Account(acct.spends, acct.reserved[r.nonce := Spend(now, r.amount)])])
            && (!(passes && stage == PreSettlement) ==>
                  forall id :: AccountOf(accounts', id) == AccountOf(accounts, id))
  {
    EntitlementTable(revoked, r, now);
    hide Entitlement, VerdictOf, InBudget, InRate, Covers, InForce, PrefixAllowed;
    if r.mandate.Some? {
      VerdictIs(AccountOf(accounts, r.mandate.value.id), r.mandate.value, r.amount, now, r.confirmed);
    }
  }

  /** And the answer to every other payment: what is wrong with it first. Only the two limits that a
      confirmation lifts can ask for one instead of refusing. */
  lemma {:induction false} RefusalTable(settings: Settings, revoked: Revocations, accounts: Accounts, r: Request,
      now: int, stage: Stage)
    ensures var d := Decide(settings, revoked, accounts, r, now, stage).0;
            var over := (code: Code) =>
              if settings.askOnExceed then Decision(Ask, ConfirmationRequired) else Decision(Reject, code);
            if r.mandate.None? then d == Decision(Reject, MandateMissing)
            else
              var m := r.mandate.value;
              var acct := if m.id in accounts then accounts[m.id] else Account([], map[]);
              if !Granted(r) then d == Decision(Reject, MandateInvalid)
              else if !InForce(m, now) then d == Decision(Reject, MandateExpired)
              else if (m.delegator, m.id) in revoked then d == Decision(Reject, MandateRevoked)
              else if !Covers(m, r.payTo, r.resource) then d == Decision(Reject, MandateExceeded)
              else if !UnderCap(m, r.amount, r.confirmed) then d == over(MandateExceeded)
              else if stage == PreSettlement && !InBudget(acct, m, r.amount, now, r.confirmed)
              then d == over(BudgetExceeded)
              else if stage == PreSettlement && !InRate(acct, m, now) then d == Decision(Reject, RateExceeded)
              else if 0 < settings.deferAbove <= r.amount && stage != Confirmed
              then d == Decision(Defer, PaymentDeferred)
              else d == Decision(Approve, NoCode)
  {
    EntitlementTable(revoked, r, now);
    hide Entitlement, VerdictOf, InBudget, InRate, Covers, InForce, PrefixAllowed, Reserve;
    if r.mandate.Some? {
      VerdictIs(AccountOf(accounts, r.mandate.value.id), r.mandate.value, r.amount, now, r.confirmed);
    }
  }
}
