/** What each operation on the accounts of mandates does (x402/policy_mandate.go), mandate by mandate,
    reservation by reservation, spend by spend; and how 64-bit arithmetic wraps. */
module AccountLaws {
  import opened Common
  import opened MandateAccounts

  function SpendsOf(accounts: Accounts, id: MandateId): seq<Spend> {
    if id in accounts then accounts[id].spends else []
  }

  function HeldUnder(accounts: Accounts, id: MandateId): map<Nonce, Spend> {
    if id in accounts then accounts[id].reserved else map[]
  }

  /** How often a spend is on record. */
  ghost function Times(spends: seq<Spend>, s: Spend): nat { multiset(spends)[s] }

  lemma {:induction false} TimesSnoc(spends: seq<Spend>, x: Spend, s: Spend)
    ensures Times(spends + [x], s) == Times(spends, s) + if s == x then 1 else 0
  {}

  /** Pruning keeps exactly the spends from the cutoff on. */
  lemma {:induction false} PrunedExactly(spends: seq<Spend>, cutoff: int, s: Spend)
    ensures Times(Pruned(spends, cutoff), s) == if s.at >= cutoff then Times(spends, s) else 0
  {
    if spends != [] {
      PrunedExactly(Init(spends), cutoff, s);
      assert Init(spends) + [Last(spends)] == spends;
      TimesSnoc(Init(spends), Last(spends), s);
      TimesSnoc(Pruned(Init(spends), cutoff), Last(spends), s);
    }
  }

  /** A commit turns the reservation of its nonce, and no other, into one spend of the reserved amount at
      the reading of the clock, and forgets what is older than both windows; without a reservation it does
      nothing. */
  lemma {:induction false} CommitIs(accounts: Accounts, m: Mandate, nonce: Nonce, now: int, id: MandateId, s: Spend)
    ensures var after := Commit(accounts, m, nonce, now);
            var held, before := HeldUnder(accounts, id), Times(SpendsOf(accounts, id), s);
            var oldest :=
              now - (if WindowDur(m.budgetWindowSeconds) >= WindowDur(m.rateWindowSeconds)
                     then WindowDur(m.budgetWindowSeconds) else WindowDur(m.rateWindowSeconds));
            if id == m.id && nonce in held then
              && HeldUnder(after, id) == (map n | n in held && n != nonce :: held[n])
              && Times(SpendsOf(after, id), s) ==
                   if s.at < oldest then 0 else before + if s == Spend(now, held[nonce].amount) then 1 else 0
            else HeldUnder(after, id) == held && SpendsOf(after, id) == SpendsOf(accounts, id)
  {
    hide WindowDur;
    if m.id in accounts && nonce in accounts[m.id].reserved {
      var spends, x := accounts[m.id].spends, Spend(now, accounts[m.id].reserved[nonce].amount);
      PrunedExactly(spends + [x], now - MaxWindow(m), s);
      TimesSnoc(spends, x, s);
    }
  }

  /** A release drops the reservation of its nonce, and nothing else. */
  lemma {:induction false} ReleaseIs(accounts: Accounts, m: Mandate, nonce: Nonce, id: MandateId)
    ensures var after := Release(accounts, m, nonce);
            var held := HeldUnder(accounts, id);
            && HeldUnder(after, id) == (map n | n in held && (id != m.id || n != nonce) :: held[n])
            && SpendsOf(after, id) == SpendsOf(accounts, id)
  {}

  /** What a restart restores is one more spend, with no limit asked. */
  lemma {:induction false} RestoreIs(accounts: Accounts, to: MandateId, at: int, amount: nat, id: MandateId, s: Spend)
    ensures var after := Restore(accounts, to, at, amount);
            && HeldUnder(after, id) == HeldUnder(accounts, id)
            && Times(SpendsOf(after, id), s) ==
                 Times(SpendsOf(accounts, id), s) + if id == to && s == Spend(at, amount) then 1 else 0
  {
    TimesSnoc(SpendsOf(accounts, to), Spend(at, amount), s);
  }

  /** The 64-bit reading of a number: the one in range that differs from it by whole turns. */
  lemma {:induction false} Int64Is(x: int, y: int)
    ensures y == Int64(x) <==>
              -0x8000_0000_0000_0000 <= y < 0x8000_0000_0000_0000 && (x - y) % 0x1_0000_0000_0000_0000 == 0
  {
    if -0x8000_0000_0000_0000 <= y < 0x8000_0000_0000_0000 && (x - y) % INT64_SPACE == 0 {
      SameTurn(x, y);
    }
  }

  lemma {:induction false} SameTurn(x: int, y: int)
    requires -0x8000_0000_0000_0000 <= y < 0x8000_0000_0000_0000 && (x - y) % INT64_SPACE == 0
    ensures x % INT64_SPACE == if y >= 0 then y else y + INT64_SPACE
  {
    var turns := (x - y) / INT64_SPACE;
    assert x == y + turns * INT64_SPACE;
  }
}
