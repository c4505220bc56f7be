/**
 * The Deal record (backend/models/Deal.js): a catalog asset shared by every
 * table, with the list of (table, team) pairs that bought it.
 */
module DealSchema {
  import opened TeamSchema

  datatype DealType = Small | Big

  datatype Owner = Owner(tableId: TableId, teamId: TeamId)

  datatype Deal = Deal(
    id: DealId,
    dealType: DealType,
    name: string,
    cost: real,
    passiveIncome: real,
    owners: seq<Owner>)

  /** At most one owner entry per table: the exclusivity the purchase guard keeps. */
  predicate ExclusivePerTable(owners: seq<Owner>)
  {
    forall i, j :: 0 <= i < j < |owners| ==> owners[i].tableId != owners[j].tableId
  }
}
