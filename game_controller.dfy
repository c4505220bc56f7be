/**
 * The handlers of backend/controllers/gameController.js. A loaded Team
 * document is an object whose fields each handler updates in place; the
 * deal a purchase loads is a value that comes back with its new owner entry.
 * Every method ends in the state GameRules gives for it, so the properties
 * proved about GameRules hold of the handlers.
 */
module GameController {
  import opened Wrappers
  import opened TeamSchema
  import opened DealSchema
  import GameRules

  class Team {
    var tableId: TableId
    var id: TeamId
    var teamName: string
    var cash: real
    var income: real
    var passiveIncome: real
    var assets: real
    var expenses: real
    var smallDealLoan: real
    var bigDealLoan: real
    var personalLoan: real
    var loanInterestRate: real
    var isAssetsFrozen: bool
    var paydayFrozenTurn: int
    var deals: seq<DealId>
    var stocks: seq<Position>
    var crypto: seq<Position>

    /** The document's current field values. */
    function State(): TeamState
      reads this
    {
      TeamState(tableId, id, teamName, cash, income, passiveIncome, assets, expenses,
                smallDealLoan, bigDealLoan, personalLoan, loanInterestRate,
                isAssetsFrozen, paydayFrozenTurn, deals, stocks, crypto)
    }

    /** A team created at registration, with the schema defaults. */
    constructor (tableId: TableId, id: TeamId, teamName: string)
      ensures State() == NewTeam(tableId, id, teamName)
    {
      this.tableId, this.id, this.teamName := tableId, id, teamName;
      cash, income, passiveIncome, assets, expenses := StartingCash, StartingIncome, 0.0, 0.0, StartingExpenses;
      smallDealLoan, bigDealLoan, personalLoan := 0.0, 0.0, 0.0;
      loanInterestRate := StartingInterestRate;
      isAssetsFrozen, paydayFrozenTurn := false, 0;
      deals, stocks, crypto := [], [], [];
    }

    /** handlePayday */
    method Payday()
      modifies this
      ensures State() == GameRules.Payday(old(State()))
      ensures cash >= 0.0
    {
      ghost var before := State();
      var totalIncome := income + passiveIncome;
      var totalExpenses := expenses + personalLoan * loanInterestRate
        + smallDealLoan * GameRules.SmallDealLoanRate + bigDealLoan * GameRules.BigDealLoanRate;
      assert totalIncome - totalExpenses == GameRules.NetPayday(before);
      if isAssetsFrozen {
        if paydayFrozenTurn == 0 {
          if totalExpenses > cash {
            var loanNeeded := assets;
            personalLoan := personalLoan + loanNeeded;
            cash := cash + loanNeeded;
          }
          cash := cash - totalExpenses;
          paydayFrozenTurn := 1;
        } else {
          isAssetsFrozen := false;
          paydayFrozenTurn := 0;
          var netPaydayIncome := totalIncome - totalExpenses;
          cash := cash + netPaydayIncome;
        }
      } else {
        var netPaydayIncome := totalIncome - totalExpenses;
        cash := cash + netPaydayIncome;
      }
      assert State() == GameRules.PaydayCharges(before);
      if cash < 0.0 {
        var loanNeeded := -cash;
        personalLoan := personalLoan + loanNeeded;
        cash := 0.0;
      }
    }

    /** handleRoll: `roll` is the die the source draws; no field changes. */
    method Roll(roll: int) returns (square: GameRules.Square)
      requires 1 <= roll <= 6
      ensures GameRules.RollFor(square) == roll
    {
      square := GameRules.Squares[roll - 1];
    }

    /** handleSmallDeal and handleBigDeal. `found` is the deal loaded by id, if any. */
    method BuyDeal(found: Option<Deal>) returns (r: GameRules.Result<Deal>)
      modifies this
      ensures var spec := GameRules.BuyDeal(old(State()), found);
        (spec.Ok? ==> r == GameRules.Ok(spec.value.deal) && State() == spec.value.team) &&
        (spec.Err? ==> r == GameRules.Err(spec.error) && State() == old(State()))
    {
      if isAssetsFrozen {
        return GameRules.Err(GameRules.AssetsFrozen);
      }
      if found.None? {
        return GameRules.Err(GameRules.DealNotFound);
      }
      var deal := found.value;
      if GameRules.OwnedAtTable(deal.owners, tableId) {
        return GameRules.Err(GameRules.DealOwnedAtTable);
      }
      if cash < deal.cost {
        return GameRules.Err(GameRules.NotEnoughCash);
      }
      deal := deal.(owners := deal.owners + [Owner(tableId, id)]);
      cash := cash - deal.cost;
      passiveIncome := passiveIncome + deal.passiveIncome;
      assets := assets + deal.cost;
      deals := deals + [deal.id];
      r := GameRules.Ok(deal);
    }

    /** handleBuyStock and handleBuyCrypto. */
    method BuyPosition(market: GameRules.Market, name: string, amount: real, price: real)
      returns (r: GameRules.Result<()>)
      modifies this
      ensures var spec := GameRules.BuyPosition(old(State()), market, name, amount, price);
        (spec.Ok? ==> r == GameRules.Ok(()) && State() == spec.value) &&
        (spec.Err? ==> r == GameRules.Err(spec.error) && State() == old(State()))
    {
      if isAssetsFrozen {
        return GameRules.Err(GameRules.AssetsFrozen);
      }
      var totalCost := price * amount;
      if totalCost > cash + personalLoan {
        return GameRules.Err(GameRules.NotEnoughFunds);
      }
      cash := cash - totalCost;
      if cash < 0.0 {
        personalLoan := personalLoan + (-cash);
        cash := 0.0;
      }
      var item := Position(name, amount, price);
      assets := assets + totalCost;
      if market == GameRules.Stocks {
        stocks := stocks + [item];
      } else {
        crypto := crypto + [item];
      }
      r := GameRules.Ok(());
    }

    /** handleAssetFreeze */
    method Freeze()
      modifies this
      ensures State() == GameRules.Freeze(old(State()))
    {
      isAssetsFrozen := true;
      paydayFrozenTurn := 0;
    }

    /** handlePenalty */
    method Penalty()
      modifies this
      ensures State() == GameRules.Penalty(old(State()))
    {
      cash := cash - GameRules.PenaltyAmount;
    }

    /** handleChance: `card` is the card the source draws; returns its title. */
    method Chance(card: nat) returns (title: string)
      requires card < |GameRules.ChanceCards|
      modifies this
      ensures State() == GameRules.Chance(old(State()), card)
      ensures title == GameRules.ChanceCards[card].title
    {
      var drawn := GameRules.ChanceCards[card];
      cash := cash + drawn.cashDelta;
      title := drawn.title;
    }

    /** handleBorrowLoan: `amount` is parseFloat of the request's amount, None for NaN. */
    method BorrowLoan(amount: Option<real>) returns (r: GameRules.Result<()>)
      modifies this
      ensures var spec := GameRules.Borrow(old(State()), amount);
        (spec.Ok? ==> r == GameRules.Ok(()) && State() == spec.value) &&
        (spec.Err? ==> r == GameRules.Err(spec.error) && State() == old(State()))
    {
      if amount.None? || amount.value <= 0.0 {
        return GameRules.Err(GameRules.InvalidAmount);
      }
      var loanAmount := amount.value;
      personalLoan := personalLoan + loanAmount;
      cash := cash + loanAmount;
      r := GameRules.Ok(());
    }

    /** handleRepayLoan */
    method RepayLoan(amount: Option<real>) returns (r: GameRules.Result<()>)
      modifies this
      ensures var spec := GameRules.Repay(old(State()), amount);
        (spec.Ok? ==> r == GameRules.Ok(()) && State() == spec.value) &&
        (spec.Err? ==> r == GameRules.Err(spec.error) && State() == old(State()))
    {
      if amount.None? || amount.value <= 0.0 {
        return GameRules.Err(GameRules.InvalidAmount);
      }
      var repayAmount := amount.value;
      if cash < repayAmount || personalLoan < repayAmount {
        return GameRules.Err(GameRules.CannotRepay);
      }
      personalLoan := personalLoan - repayAmount;
      cash := cash - repayAmount;
      r := GameRules.Ok(());
    }
  }

  function Answer(r: GameRules.Result<()>): GameRules.Reply
  {
    match r
    case Ok(_) => GameRules.Applied
    case Err(e) => GameRules.Refused(e)
  }

  /**
   * One request to a POST game route: `team` is the document found by the request's
   * teamId, or null when there is none (404 before anything else).
   */
  method Handle(team: Team?, q: GameRules.Request) returns (reply: GameRules.Reply)
    requires GameRules.WellFormed(q)
    modifies team
    ensures team == null ==> reply == GameRules.Refused(GameRules.TeamNotFound)
    ensures team != null ==>
      GameRules.Outcome(team.State(), reply) == GameRules.Step(old(team.State()), q)
  {
    if team == null {
      return GameRules.Refused(GameRules.TeamNotFound);
    }
    match q {
    case PaydayRequest =>
      team.Payday();
      reply := GameRules.Applied;
    case RollRequest(roll) =>
      var square := team.Roll(roll);
      reply := GameRules.Landed(GameRules.SquareName(square));
    case SmallDealRequest(found) =>
      var r := team.BuyDeal(found);
      reply := if r.Ok? then GameRules.Bought(r.value) else GameRules.Refused(r.error);
    case BigDealRequest(found) =>
      var r := team.BuyDeal(found);
      reply := if r.Ok? then GameRules.Bought(r.value) else GameRules.Refused(r.error);
    case StockRequest(name, amount, price) =>
      var r := team.BuyPosition(GameRules.Stocks, name, amount, price);
      reply := Answer(r);
    case CryptoRequest(name, amount, price) =>
      var r := team.BuyPosition(GameRules.Crypto, name, amount, price);
      reply := Answer(r);
    case FreezeRequest =>
      team.Freeze();
      reply := GameRules.Applied;
    case PenaltyRequest =>
      team.Penalty();
      reply := GameRules.Applied;
    case ChanceRequest(card) =>
      var title := team.Chance(card);
      reply := GameRules.Drew(title);
    case BorrowRequest(amount) =>
      var r := team.BorrowLoan(amount);
      reply := Answer(r);
    case RepayRequest(amount) =>
      var r := team.RepayLoan(amount);
      reply := Answer(r);
    }
  }
}
