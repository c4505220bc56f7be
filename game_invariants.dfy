/**
 * Properties of the game rules over one request, several requests, and
 * successive purchases of one deal.
 */
module GameInvariants {
  import opened Wrappers
  import opened TeamSchema
  import opened DealSchema
  import opened GameRules

  // ---------------------------------------------------------------------
  // Payday

  /** A new team's first payday: +150000 net, no loan. */
  lemma FreshTeamFirstPayday(tableId: TableId, id: TeamId, teamName: string)
    ensures NetPayday(NewTeam(tableId, id, teamName)) == 150000.0
    ensures Payday(NewTeam(tableId, id, teamName)).cash == 650000.0
    ensures Payday(NewTeam(tableId, id, teamName)).personalLoan == 0.0
  {
  }

  /**
   * A normal payday (not frozen, or the unfreezing one) in full: cash moves by
   * the net payday, and only a deficit becomes loan.
   */
  lemma NormalPayday(t: TeamState)
    requires !t.isAssetsFrozen || t.paydayFrozenTurn != 0
    ensures var after, r := t.cash + NetPayday(t), Payday(t);
      (after >= 0.0 ==> r.cash == after && r.personalLoan == t.personalLoan) &&
      (after < 0.0 ==> r.cash == 0.0 && r.personalLoan == t.personalLoan - after)
  {
  }

  /**
   * The first frozen payday: no income; the forced loan of `assets` is taken
   * only when expenses exceed cash, and anything still missing becomes loan.
   */
  lemma FrozenFirstPayday(t: TeamState)
    requires t.isAssetsFrozen && t.paydayFrozenTurn == 0
    ensures var r := Payday(t);
      (TotalExpenses(t) <= t.cash ==>
        r.cash == t.cash - TotalExpenses(t) && r.personalLoan == t.personalLoan) &&
      (TotalExpenses(t) > t.cash && t.cash + t.assets >= TotalExpenses(t) ==>
        r.cash == t.cash + t.assets - TotalExpenses(t) &&
        r.personalLoan == t.personalLoan + t.assets) &&
      (TotalExpenses(t) > t.cash && t.cash + t.assets < TotalExpenses(t) ==>
        r.cash == 0.0 && r.personalLoan == t.personalLoan + TotalExpenses(t) - t.cash)
  {
  }

  /**
   * Freeze followed by two paydays: one payday without income, then one
   * normal payday, and the team is unfrozen again with its turn reset.
   */
  lemma FrozenCycle(t: TeamState)
    ensures var f := Freeze(t);
      var p1 := Payday(f);
      var p2 := Payday(p1);
      p1.isAssetsFrozen && p1.paydayFrozenTurn == 1 &&
      NetCash(p1) == NetCash(t) - TotalExpenses(t) &&
      !p2.isAssetsFrozen && p2.paydayFrozenTurn == 0 &&
      NetCash(p2) == NetCash(p1) + TotalIncome(p1) - TotalExpenses(p1) &&
      p2 == t.(cash := p2.cash, personalLoan := p2.personalLoan,
               isAssetsFrozen := false, paydayFrozenTurn := 0)
  {
    var f := Freeze(t);
    assert f.personalLoan == t.personalLoan && f.loanInterestRate == t.loanInterestRate;
    assert TotalExpenses(f) == TotalExpenses(t);
  }

  // ---------------------------------------------------------------------
  // Loans

  /** Borrowing an amount and repaying it restores cash and loan exactly. */
  lemma BorrowThenRepay(t: TeamState, amount: real)
    requires amount > 0.0 && t.cash >= 0.0 && t.personalLoan >= 0.0
    ensures Borrow(t, Some(amount)).Ok?
    ensures Repay(Borrow(t, Some(amount)).value, Some(amount)) == Ok(t)
  {
    var u := Borrow(t, Some(amount)).value;
    assert u.cash - amount == t.cash && u.personalLoan - amount == t.personalLoan;
  }

  /** Repaying an amount and borrowing it again restores cash and loan exactly. */
  lemma RepayThenBorrow(t: TeamState, amount: real)
    requires Repay(t, Some(amount)).Ok?
    ensures Borrow(Repay(t, Some(amount)).value, Some(amount)) == Ok(t)
  {
    var u := Repay(t, Some(amount)).value;
    assert u.cash + amount == t.cash && u.personalLoan + amount == t.personalLoan;
  }

  // ---------------------------------------------------------------------
  // Penalty and chance do not floor cash

  /** A penalty on 5000 cash leaves cash at -5000 with no new loan. */
  lemma PenaltyLeavesCashNegative(t: TeamState)
    requires t.cash == 5000.0
    ensures Penalty(t).cash == -5000.0 && Penalty(t).personalLoan == t.personalLoan
  {
  }

  // ---------------------------------------------------------------------
  // Deal ownership

  /** Once a team has bought a deal, every team at the same table is refused it. */
  lemma SecondPurchaseAtTableRefused(t1: TeamState, t2: TeamState, d: Deal)
    requires BuyDeal(t1, Some(d)).Ok?
    requires t2.tableId == t1.tableId && !t2.isAssetsFrozen
    ensures BuyDeal(t2, Some(BuyDeal(t1, Some(d)).value.deal)) == Err(DealOwnedAtTable)
  {
    var owners := BuyDeal(t1, Some(d)).value.deal.owners;
    assert owners[|owners| - 1].tableId == t2.tableId;
  }

  /** The deal after each team in turn tries to buy it, purchases that are refused changing nothing. */
  function PurchaseRun(d: Deal, buyers: seq<TeamState>): Deal
    decreases |buyers|
  {
    if buyers == [] then d
    else
      var r := BuyDeal(buyers[0], Some(d));
      PurchaseRun(if r.Ok? then r.value.deal else d, buyers[1..])
  }

  /** No sequence of purchases gives a deal two owner entries for one table. */
  lemma {:induction false} PurchaseRunExclusive(d: Deal, buyers: seq<TeamState>)
    requires ExclusivePerTable(d.owners)
    ensures ExclusivePerTable(PurchaseRun(d, buyers).owners)
    ensures var r := PurchaseRun(d, buyers);
      r == d.(owners := r.owners) && d.owners <= r.owners &&
      forall k :: |d.owners| <= k < |r.owners| ==>
        exists b :: b in buyers && r.owners[k] == Owner(b.tableId, b.id)
    decreases |buyers|
  {
    if buyers != [] {
      var r := BuyDeal(buyers[0], Some(d));
      var next := if r.Ok? then r.value.deal else d;
      PurchaseRunExclusive(next, buyers[1..]);
    }
  }

  // ---------------------------------------------------------------------
  // Sequences of requests

  predicate AllWellFormed(qs: seq<Request>)
  {
    forall i :: 0 <= i < |qs| ==> WellFormed(qs[i])
  }

  /** The team after the requests, in order. */
  function Run(t: TeamState, qs: seq<Request>): TeamState
    requires AllWellFormed(qs)
    decreases |qs|
  {
    if qs == [] then t else Run(Step(t, qs[0]).team, qs[1..])
  }

  /** The frozen-payday phase: turn 1 only while frozen, otherwise turn 0. */
  predicate PhaseConsistent(t: TeamState)
  {
    t.paydayFrozenTurn == 0 || (t.isAssetsFrozen && t.paydayFrozenTurn == 1)
  }

  lemma StepKeepsPhase(t: TeamState, q: Request)
    requires WellFormed(q) && PhaseConsistent(t)
    ensures PhaseConsistent(Step(t, q).team)
  {
  }

  /** Every sequence of requests keeps a new team's frozen-payday phase consistent. */
  lemma {:induction false} RunKeepsPhase(t: TeamState, qs: seq<Request>)
    requires AllWellFormed(qs) && PhaseConsistent(t)
    ensures PhaseConsistent(Run(t, qs))
    decreases |qs|
  {
    if qs != [] {
      StepKeepsPhase(t, qs[0]);
      RunKeepsPhase(Step(t, qs[0]).team, qs[1..]);
    }
  }

  /** Identity, base income and expenses and loan terms never change; lists only grow. */
  lemma {:induction false} RunKeepsFixedFields(t: TeamState, qs: seq<Request>)
    requires AllWellFormed(qs)
    ensures FixedFields(t, Run(t, qs)) && ListsExtended(t, Run(t, qs))
    decreases |qs|
  {
    if qs != [] {
      RunKeepsFixedFields(Step(t, qs[0]).team, qs[1..]);
    }
  }

  /** Penalty and chance are the requests that may leave cash negative. */
  predicate Floored(q: Request)
  {
    !q.PenaltyRequest? && !q.ChanceRequest?
  }

  lemma StepKeepsCashFloor(t: TeamState, q: Request)
    requires WellFormed(q) && Floored(q) && t.cash >= 0.0
    ensures Step(t, q).team.cash >= 0.0
  {
  }

  /** Without penalties and chance cards, cash never goes negative. */
  lemma {:induction false} RunKeepsCashFloor(t: TeamState, qs: seq<Request>)
    requires AllWellFormed(qs) && t.cash >= 0.0
    requires forall i :: 0 <= i < |qs| ==> Floored(qs[i])
    ensures Run(t, qs).cash >= 0.0
    decreases |qs|
  {
    if qs != [] {
      StepKeepsCashFloor(t, qs[0]);
      RunKeepsCashFloor(Step(t, qs[0]).team, qs[1..]);
    }
  }

  /** Purchases, loans, rolls and freezes only move value between cash, assets and debt. */
  predicate Exchange(q: Request)
  {
    q.RollRequest? || q.SmallDealRequest? || q.BigDealRequest? || q.StockRequest? ||
    q.CryptoRequest? || q.FreezeRequest? || q.BorrowRequest? || q.RepayRequest?
  }

  lemma StepKeepsNetWorth(t: TeamState, q: Request)
    requires WellFormed(q) && Exchange(q)
    ensures NetWorth(Step(t, q).team) == NetWorth(t)
  {
  }

  /** Any sequence of exchanges leaves cash + assets - personal loan unchanged. */
  lemma {:induction false} RunKeepsNetWorth(t: TeamState, qs: seq<Request>)
    requires AllWellFormed(qs)
    requires forall i :: 0 <= i < |qs| ==> Exchange(qs[i])
    ensures NetWorth(Run(t, qs)) == NetWorth(t)
    decreases |qs|
  {
    if qs != [] {
      StepKeepsNetWorth(t, qs[0]);
      RunKeepsNetWorth(Step(t, qs[0]).team, qs[1..]);
    }
  }

  /** Freeze then two paydays, as requests, bring a frozen team back to normal. */
  lemma FreezeRunUnfreezes(t: TeamState)
    ensures var r := Run(t, [FreezeRequest, PaydayRequest, PaydayRequest]);
      !r.isAssetsFrozen && r.paydayFrozenTurn == 0
    ensures Run(t, [FreezeRequest, PaydayRequest]).isAssetsFrozen
  {
    assert [FreezeRequest, PaydayRequest, PaydayRequest][1..] == [PaydayRequest, PaydayRequest];
    assert [PaydayRequest, PaydayRequest][1..] == [PaydayRequest];
    assert [FreezeRequest, PaydayRequest][1..] == [PaydayRequest];
    FrozenCycle(t);
  }
}
