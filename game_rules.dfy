/**
 * The rules of backend/controllers/gameController.js as functions on values:
 * for every handler, the team (and deal) it saves, or the rejection it answers
 * with. The handlers themselves, which change a loaded document field by
 * field, are the methods of GameController.Team; each is proved to end in the
 * state these functions give.
 */
module GameRules {
  import opened Wrappers
  import opened TeamSchema
  import opened DealSchema

  /** The error responses of the handlers, with their HTTP status. */
  datatype Rejection =
    | TeamNotFound      // 404 'Team not found'
    | AssetsFrozen      // 403 'Assets are frozen. ...'
    | DealNotFound      // 404 'Deal not found.'
    | DealOwnedAtTable  // 409 'This deal is already owned by a team on this table.'
    | NotEnoughCash     // 400 'Not enough cash to buy this deal.'
    | NotEnoughFunds    // 400 'Not enough funds to buy this stock/crypto.'
    | InvalidAmount     // 400 'Invalid loan amount.' / 'Invalid repayment amount.'
    | CannotRepay       // 400 'Not enough cash or loan outstanding ...'

  function StatusCode(e: Rejection): (code: int)
    ensures 400 <= code < 500
    ensures code == 404 <==> e == TeamNotFound || e == DealNotFound
    ensures code == 403 <==> e == AssetsFrozen
    ensures code == 409 <==> e == DealOwnedAtTable
    ensures code == 400 <==>
      !(e == TeamNotFound || e == DealNotFound || e == AssetsFrozen || e == DealOwnedAtTable)
  {
    match e
    case TeamNotFound => 404
    case AssetsFrozen => 403
    case DealNotFound => 404
    case DealOwnedAtTable => 409
    case _ => 400
  }

  datatype Result<T> = Ok(value: T) | Err(error: Rejection)

  // ---------------------------------------------------------------------
  // Money views

  /** What the team could pay out if it settled its personal loan. */
  function NetCash(t: TeamState): real
  {
    t.cash - t.personalLoan
  }

  /** Cash plus invested value minus personal debt. */
  function NetWorth(t: TeamState): real
  {
    t.cash + t.assets - t.personalLoan
  }

  /** Identity, base income and expenses and the loan terms: no handler writes these. */
  predicate FixedFields(t: TeamState, r: TeamState)
  {
    r.tableId == t.tableId && r.id == t.id && r.teamName == t.teamName &&
    r.income == t.income && r.expenses == t.expenses &&
    r.smallDealLoan == t.smallDealLoan && r.bigDealLoan == t.bigDealLoan &&
    r.loanInterestRate == t.loanInterestRate
  }

  /** The deal, stock and crypto lists only ever grow at their end. */
  predicate ListsExtended(t: TeamState, r: TeamState)
  {
    t.deals <= r.deals && t.stocks <= r.stocks && t.crypto <= r.crypto
  }

  // ---------------------------------------------------------------------
  // Payday

  const SmallDealLoanRate: real := 0.05
  const BigDealLoanRate: real := 0.10

  function TotalIncome(t: TeamState): real
  {
    t.income + t.passiveIncome
  }

  function TotalExpenses(t: TeamState): real
  {
    t.expenses + t.personalLoan * t.loanInterestRate
    + t.smallDealLoan * SmallDealLoanRate + t.bigDealLoan * BigDealLoanRate
  }

  function NetPayday(t: TeamState): real
  {
    TotalIncome(t) - TotalExpenses(t)
  }

  /**
   * The fix-up after a payday or a stock/crypto purchase: a negative cash
   * balance becomes additional personal loan and cash is floored to 0.
   */
  function Normalize(t: TeamState): (r: TeamState)
    ensures r.cash >= 0.0
    ensures NetCash(r) == NetCash(t)
    ensures t.cash >= 0.0 ==> r == t
    ensures t.cash < 0.0 ==> r.cash == 0.0 && r.personalLoan == t.personalLoan - t.cash
    ensures r == t.(cash := r.cash, personalLoan := r.personalLoan)
  {
    if t.cash < 0.0 then t.(personalLoan := t.personalLoan + (-t.cash), cash := 0.0) else t
  }

  /** The emergency loan of the first frozen payday: all of `assets`, when expenses exceed cash. */
  function ForcedLoan(t: TeamState): real
  {
    if TotalExpenses(t) > t.cash then t.assets else 0.0
  }

  /**
   * The payday before the floor step: the normal net payday when not frozen;
   * while frozen, first a payday without income (turn 0), after a forced loan
   * when expenses exceed cash, then the unfreezing normal payday (any other turn).
   */
  function PaydayCharges(t: TeamState): TeamState
  {
    if !t.isAssetsFrozen then
      t.(cash := t.cash + NetPayday(t))
    else if t.paydayFrozenTurn == 0 then
      var loan := ForcedLoan(t);
      t.(personalLoan := t.personalLoan + loan,
         cash := t.cash + loan - TotalExpenses(t),
         paydayFrozenTurn := 1)
    else
      t.(isAssetsFrozen := false, paydayFrozenTurn := 0,
         cash := t.cash + NetPayday(t))
  }

  /** Payday: the charges of the current phase, then the floor step. */
  function Payday(t: TeamState): (r: TeamState)
    ensures r.cash >= 0.0
    ensures r == t.(cash := r.cash, personalLoan := r.personalLoan,
                    isAssetsFrozen := r.isAssetsFrozen, paydayFrozenTurn := r.paydayFrozenTurn)
    ensures !t.isAssetsFrozen ==>
      !r.isAssetsFrozen && r.paydayFrozenTurn == t.paydayFrozenTurn &&
      NetCash(r) == NetCash(t) + TotalIncome(t) - TotalExpenses(t)
    ensures t.isAssetsFrozen && t.paydayFrozenTurn == 0 ==>
      r.isAssetsFrozen && r.paydayFrozenTurn == 1 &&
      NetCash(r) == NetCash(t) - TotalExpenses(t)
    ensures t.isAssetsFrozen && t.paydayFrozenTurn != 0 ==>
      !r.isAssetsFrozen && r.paydayFrozenTurn == 0 &&
      NetCash(r) == NetCash(t) + TotalIncome(t) - TotalExpenses(t)
    ensures (!t.isAssetsFrozen || t.paydayFrozenTurn != 0) ==>
      var after := t.cash + NetPayday(t);
      (after >= 0.0 ==> r.cash == after && r.personalLoan == t.personalLoan) &&
      (after < 0.0 ==> r.cash == 0.0 && r.personalLoan == t.personalLoan - after)
  {
    Normalize(PaydayCharges(t))
  }

  // ---------------------------------------------------------------------
  // Dice roll

  /** The six squares a roll can land on. */
  datatype Square = ChanceSquare | SmallDealSquare | BigDealSquare | StockSquare | CryptoSquare | PaydaySquare

  const Squares: seq<Square> :=
    [ChanceSquare, SmallDealSquare, BigDealSquare, StockSquare, CryptoSquare, PaydaySquare]

  /** The event names of handleRoll, in roll order. */
  const Events: seq<string> := ["Chance", "Small Deal", "Big Deal", "Stock", "Crypto", "Payday"]

  /** The event name the roll handler answers with: the square's entry in `Events`. */
  function SquareName(s: Square): (name: string)
    ensures name == Events[RollFor(s) - 1]
  {
    match s
    case ChanceSquare => "Chance"
    case SmallDealSquare => "Small Deal"
    case BigDealSquare => "Big Deal"
    case StockSquare => "Stock"
    case CryptoSquare => "Crypto"
    case PaydaySquare => "Payday"
  }

  /** The square for a roll of 1..6 (the roll is the random input). */
  function LandingOn(roll: int): (s: Square)
    requires 1 <= roll <= 6
    ensures RollFor(s) == roll
  {
    Squares[roll - 1]
  }

  /** The one roll that lands on a square. */
  function RollFor(s: Square): (roll: int)
    ensures 1 <= roll <= 6 && Squares[roll - 1] == s
  {
    match s
    case ChanceSquare => 1
    case SmallDealSquare => 2
    case BigDealSquare => 3
    case StockSquare => 4
    case CryptoSquare => 5
    case PaydaySquare => 6
  }

  // ---------------------------------------------------------------------
  // Freeze, penalty, chance

  function Freeze(t: TeamState): (r: TeamState)
    ensures r.isAssetsFrozen && r.paydayFrozenTurn == 0
    ensures r == t.(isAssetsFrozen := r.isAssetsFrozen, paydayFrozenTurn := r.paydayFrozenTurn)
  {
    t.(isAssetsFrozen := true, paydayFrozenTurn := 0)
  }

  const PenaltyAmount: real := 10000.0

  /** A flat penalty, with no frozen check and no floor: cash may go negative. */
  function Penalty(t: TeamState): (r: TeamState)
    ensures r.cash < t.cash
    ensures r == t.(cash := r.cash)
    ensures NetWorth(r) == NetWorth(t) - 10000.0
  {
    t.(cash := t.cash - PenaltyAmount)
  }

  /** A chance card: its title and the change it makes to cash. */
  datatype ChanceCard = ChanceCard(title: string, cashDelta: real)

  const ChanceCards: seq<ChanceCard> :=
    [ChanceCard("Bonus!", 50000.0), ChanceCard("Penalty", -20000.0)]

  /** Draws card number `card` (the random input); only cash changes, with no floor. */
  function Chance(t: TeamState, card: nat): (r: TeamState)
    requires card < |ChanceCards|
    ensures r == t.(cash := r.cash)
    ensures r.cash == t.cash + 50000.0 || r.cash == t.cash - 20000.0
  {
    t.(cash := t.cash + ChanceCards[card].cashDelta)
  }

  // ---------------------------------------------------------------------
  // Deal purchase (small and big deals alike)

  /** Whether some owner entry of the deal belongs to the given table. */
  function OwnedAtTable(owners: seq<Owner>, tableId: TableId): (owned: bool)
    ensures owned <==> exists i :: 0 <= i < |owners| && owners[i].tableId == tableId
  {
    if owners == [] then false
    else if owners[0].tableId == tableId then true
    else
      var rest := OwnedAtTable(owners[1..], tableId);
      assert forall i :: 1 <= i < |owners| ==> owners[i] == owners[1..][i - 1];
      rest
  }

  datatype Purchase = Purchase(team: TeamState, deal: Deal)

  /**
   * Buying deal `found` (None: no deal with the requested id). Rejections in
   * the order the handler checks them; on success the team pays the cost and
   * the deal records the team as its owner for this table.
   */
  function BuyDeal(t: TeamState, found: Option<Deal>): (r: Result<Purchase>)
    ensures r.Ok? <==>
      !t.isAssetsFrozen && found.Some? &&
      !OwnedAtTable(found.value.owners, t.tableId) && t.cash >= found.value.cost
    ensures t.isAssetsFrozen ==> r == Err(AssetsFrozen)
    ensures !t.isAssetsFrozen && found.None? ==> r == Err(DealNotFound)
    ensures !t.isAssetsFrozen && found.Some? && OwnedAtTable(found.value.owners, t.tableId) ==>
      r == Err(DealOwnedAtTable)
    ensures (!t.isAssetsFrozen && found.Some? && !OwnedAtTable(found.value.owners, t.tableId) &&
             t.cash < found.value.cost) ==> r == Err(NotEnoughCash)
    ensures r.Ok? ==>
      var d, p := found.value, r.value;
      p.deal == d.(owners := d.owners + [Owner(t.tableId, t.id)]) &&
      (ExclusivePerTable(d.owners) ==> ExclusivePerTable(p.deal.owners)) &&
      p.team == t.(cash := p.team.cash, passiveIncome := p.team.passiveIncome,
                   assets := p.team.assets, deals := p.team.deals) &&
      p.team.cash == t.cash - d.cost && p.team.cash >= 0.0 &&
      p.team.passiveIncome == t.passiveIncome + d.passiveIncome &&
      p.team.assets == t.assets + d.cost &&
      p.team.deals == t.deals + [d.id] &&
      NetWorth(p.team) == NetWorth(t)
  {
    if t.isAssetsFrozen then Err(AssetsFrozen)
    else if found.None? then Err(DealNotFound)
    else
      var d := found.value;
      if OwnedAtTable(d.owners, t.tableId) then Err(DealOwnedAtTable)
      else if t.cash < d.cost then Err(NotEnoughCash)
      else
        Ok(Purchase(
          t.(cash := t.cash - d.cost,
             passiveIncome := t.passiveIncome + d.passiveIncome,
             assets := t.assets + d.cost,
             deals := t.deals + [d.id]),
          d.(owners := d.owners + [Owner(t.tableId, t.id)])))
  }

  // ---------------------------------------------------------------------
  // Stock and crypto purchase

  datatype Market = Stocks | Crypto

  function TotalCost(price: real, amount: real): real
  {
    price * amount
  }

  /**
   * Buying `amount` units of `name` at `price` on a market. Borrowing headroom
   * counts as funds: the purchase may exceed cash by up to the current personal
   * loan, and any shortfall becomes more personal loan.
   */
  function BuyPosition(t: TeamState, market: Market, name: string, amount: real, price: real): (r: Result<TeamState>)
    ensures r.Ok? <==> !t.isAssetsFrozen && TotalCost(price, amount) <= t.cash + t.personalLoan
    ensures t.isAssetsFrozen ==> r == Err(AssetsFrozen)
    ensures !t.isAssetsFrozen && TotalCost(price, amount) > t.cash + t.personalLoan ==>
      r == Err(NotEnoughFunds)
    ensures r.Ok? ==>
      var u, cost, item := r.value, TotalCost(price, amount), Position(name, amount, price);
      u == t.(cash := u.cash, personalLoan := u.personalLoan, assets := u.assets,
              stocks := u.stocks, crypto := u.crypto) &&
      u.cash >= 0.0 && NetCash(u) == NetCash(t) - cost &&
      (cost <= t.cash ==> u.cash == t.cash - cost && u.personalLoan == t.personalLoan) &&
      (cost > t.cash ==> u.cash == 0.0 && u.personalLoan == t.personalLoan + cost - t.cash) &&
      u.assets == t.assets + cost && NetWorth(u) == NetWorth(t) &&
      (market == Stocks ==> u.stocks == t.stocks + [item] && u.crypto == t.crypto) &&
      (market == Crypto ==> u.crypto == t.crypto + [item] && u.stocks == t.stocks)
  {
    if t.isAssetsFrozen then Err(AssetsFrozen)
    else
      var cost := TotalCost(price, amount);
      if cost > t.cash + t.personalLoan then Err(NotEnoughFunds)
      else
        var paid := Normalize(t.(cash := t.cash - cost)).(assets := t.assets + cost);
        var item := Position(name, amount, price);
        if market == Stocks then Ok(paid.(stocks := t.stocks + [item]))
        else Ok(paid.(crypto := t.crypto + [item]))
  }

  // ---------------------------------------------------------------------
  // Loans. The amount is the caller's number after parseFloat; None is NaN.

  function Borrow(t: TeamState, amount: Option<real>): (r: Result<TeamState>)
    ensures r.Ok? <==> amount.Some? && amount.value > 0.0
    ensures r.Err? ==> r.error == InvalidAmount
    ensures r.Ok? ==>
      r.value == t.(cash := r.value.cash, personalLoan := r.value.personalLoan) &&
      r.value.cash == t.cash + amount.value &&
      r.value.personalLoan == t.personalLoan + amount.value &&
      NetCash(r.value) == NetCash(t)
  {
    if amount.None? || amount.value <= 0.0 then Err(InvalidAmount)
    else Ok(t.(personalLoan := t.personalLoan + amount.value, cash := t.cash + amount.value))
  }

  function Repay(t: TeamState, amount: Option<real>): (r: Result<TeamState>)
    ensures r.Ok? <==>
      amount.Some? && amount.value > 0.0 && t.cash >= amount.value && t.personalLoan >= amount.value
    ensures (amount.None? || amount.value <= 0.0) ==> r == Err(InvalidAmount)
    ensures (amount.Some? && amount.value > 0.0 &&
             (t.cash < amount.value || t.personalLoan < amount.value)) ==> r == Err(CannotRepay)
    ensures r.Ok? ==>
      r.value == t.(cash := r.value.cash, personalLoan := r.value.personalLoan) &&
      r.value.cash == t.cash - amount.value &&
      r.value.personalLoan == t.personalLoan - amount.value &&
      0.0 <= r.value.cash < t.cash && 0.0 <= r.value.personalLoan < t.personalLoan &&
      NetCash(r.value) == NetCash(t)
  {
    if amount.None? || amount.value <= 0.0 then Err(InvalidAmount)
    else if t.cash < amount.value || t.personalLoan < amount.value then Err(CannotRepay)
    else Ok(t.(personalLoan := t.personalLoan - amount.value, cash := t.cash - amount.value))
  }

  // ---------------------------------------------------------------------
  // One request to one of the POST game routes, for a team that was found

  datatype Request =
    | PaydayRequest
    | RollRequest(roll: int)
    | SmallDealRequest(smallDeal: Option<Deal>)
    | BigDealRequest(bigDeal: Option<Deal>)
    | StockRequest(stockName: string, stockAmount: real, stockPrice: real)
    | CryptoRequest(coinName: string, coinAmount: real, coinPrice: real)
    | FreezeRequest
    | PenaltyRequest
    | ChanceRequest(card: nat)
    | BorrowRequest(borrowAmount: Option<real>)
    | RepayRequest(repayAmount: Option<real>)

  /** The random inputs are within the ranges Math.random gives them. */
  predicate WellFormed(q: Request)
  {
    (q.RollRequest? ==> 1 <= q.roll <= 6) &&
    (q.ChanceRequest? ==> q.card < |ChanceCards|)
  }

  /** What a handler answers besides the refreshed table state. */
  datatype Reply =
    | Applied
    | Landed(event: string)
    | Drew(title: string)
    | Bought(deal: Deal)
    | Refused(error: Rejection)

  datatype Outcome = Outcome(team: TeamState, reply: Reply)

  function PurchaseOutcome(t: TeamState, r: Result<Purchase>): Outcome
  {
    match r
    case Ok(p) => Outcome(p.team, Bought(p.deal))
    case Err(e) => Outcome(t, Refused(e))
  }

  function UpdateOutcome(t: TeamState, r: Result<TeamState>): Outcome
  {
    match r
    case Ok(u) => Outcome(u, Applied)
    case Err(e) => Outcome(t, Refused(e))
  }

  /** The team saved (unchanged when refused) and the reply, for one request. */
  function Step(t: TeamState, q: Request): (o: Outcome)
    requires WellFormed(q)
    ensures o.reply.Refused? ==> o.team == t
    ensures FixedFields(t, o.team) && ListsExtended(t, o.team)
    ensures (q.RollRequest? || q.FreezeRequest?) ==> NetWorth(o.team) == NetWorth(t)
    ensures q.RollRequest? ==> o == Outcome(t, Landed(Events[q.roll - 1]))
  {
    match q
    case PaydayRequest => Outcome(Payday(t), Applied)
    case RollRequest(roll) => Outcome(t, Landed(SquareName(LandingOn(roll))))
    case SmallDealRequest(found) => PurchaseOutcome(t, BuyDeal(t, found))
    case BigDealRequest(found) => PurchaseOutcome(t, BuyDeal(t, found))
    case StockRequest(name, amount, price) => UpdateOutcome(t, BuyPosition(t, Stocks, name, amount, price))
    case CryptoRequest(name, amount, price) => UpdateOutcome(t, BuyPosition(t, Crypto, name, amount, price))
    case FreezeRequest => Outcome(Freeze(t), Applied)
    case PenaltyRequest => Outcome(Penalty(t), Applied)
    case ChanceRequest(card) => Outcome(Chance(t, card), Drew(ChanceCards[card].title))
    case BorrowRequest(amount) => UpdateOutcome(t, Borrow(t, amount))
    case RepayRequest(amount) => UpdateOutcome(t, Repay(t, amount))
  }
}
