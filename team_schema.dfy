/**
 * The Team record (backend/models/Team.js): one team's financial position at
 * a table, with the default values every new team starts from.
 */
module TeamSchema {

  /** Mongo object ids; the source compares them by their string form, i.e. by value. */
  type TableId = nat
  type TeamId = nat
  type DealId = nat

  /** One stock or crypto line item. Each purchase appends a new one; nothing is merged. */
  datatype Position = Position(name: string, amount: real, purchasePrice: real)

  /** A Team document as loaded from and saved to the store. */
  datatype TeamState = TeamState(
    tableId: TableId,
    id: TeamId,
    teamName: string,
    cash: real,
    income: real,
    passiveIncome: real,
    assets: real,
    expenses: real,
    smallDealLoan: real,
    bigDealLoan: real,
    personalLoan: real,
    loanInterestRate: real,
    isAssetsFrozen: bool,
    paydayFrozenTurn: int,
    deals: seq<DealId>,
    stocks: seq<Position>,
    crypto: seq<Position>)

  // Schema defaults
  const StartingCash: real := 500000.0
  const StartingIncome: real := 450000.0
  const StartingExpenses: real := 300000.0
  const StartingInterestRate: real := 0.13

  /** A freshly created team: the schema defaults with no positions. */
  function NewTeam(tableId: TableId, id: TeamId, teamName: string): (t: TeamState)
    ensures t.tableId == tableId && t.id == id && t.teamName == teamName
    ensures t.cash == 500000.0 && t.income == 450000.0 && t.expenses == 300000.0
    ensures t.passiveIncome == 0.0 && t.assets == 0.0
    ensures t.smallDealLoan == 0.0 && t.bigDealLoan == 0.0 && t.personalLoan == 0.0
    ensures t.loanInterestRate == 0.13
    ensures !t.isAssetsFrozen && t.paydayFrozenTurn == 0
    ensures t.deals == [] && t.stocks == [] && t.crypto == []
  {
    TeamState(tableId, id, teamName,
      StartingCash, StartingIncome, 0.0, 0.0, StartingExpenses,
      0.0, 0.0, 0.0, StartingInterestRate,
      false, 0,
      [], [], [])
  }
}
