# Cashflow game-state engine in Dafny

A model of the game-state transitions of the Cashflow board game backend:
the handlers of `backend/controllers/gameController.js` (payday, dice roll,
small and big deal purchase, stock and crypto purchase, asset freeze,
penalty, chance card, loan borrow and repay) acting on the Team record of
`backend/models/Team.js`, and on the ownership list of the Deal a purchase
loads.

- `team_schema.dfy` (module `TeamSchema`): the Team record as a datatype,
  its default values and a new team built from them.
- `deal_schema.dfy` (module `DealSchema`): the Deal record and its
  (table, team) owner entries, with the one-owner-per-table predicate.
- `game_rules.dfy` (module `GameRules`): every handler as a function from
  the loaded team (and deal) to the saved team (and deal) or a rejection,
  with the HTTP status of each rejection; `Step` dispatches one request.
- `game_controller.dfy` (module `GameController`): the handlers as they
  are written, as methods of a `Team` class that update its fields step by
  step; each method is proved to end in the state `GameRules` gives.
  `Handle` answers 404 when no team was found and otherwise runs the handler.
- `game_invariants.dfy` (module `GameInvariants`): properties over one or
  several requests: the frozen-payday cycle, the loan round trip, deal
  exclusivity per table over any sequence of purchases, the cash floor,
  net worth under purchases and loans, and what never changes.

Money is exact `real` arithmetic. The two random draws (`Math.random` for
the die and for the chance card) are parameters: a roll in 1..6 and a card
index in 0..1. `parseFloat` of a loan amount is an `Option<real>`, `None`
standing for NaN. A missing deal is `None`; a missing team is `null`.

Penalty (`gameController.js:312`) and chance (`gameController.js:333-334`)
change cash with no floor, so cash can end negative after them;
`PenaltyLeavesCashNegative` shows it. `RunKeepsCashFloor` proves that every
other request keeps cash non-negative.

The two deal handlers have identical bodies (`gameController.js:109-153`
and `155-199`) and neither checks the deal's `dealType`, so the model has one
`BuyDeal` for both requests.

## Model

| member | source | states |
|---|---|---|
| TeamSchema.NewTeam | backend/models/Team.js:3-31 | a new team has cash 500000, income 450000, expenses 300000, no passive income, assets or loans, interest rate 0.13, is not frozen with turn 0, and has no deals, stocks or crypto |
| GameController.Team.constructor | backend/models/Team.js:6-30 | a created team document holds exactly the schema defaults |
| GameInvariants.FreshTeamFirstPayday | backend/models/Team.js:6-14 | a new team's first payday nets 150000 and leaves cash 650000 with no loan |
| GameRules.Normalize | backend/controllers/gameController.js:70-74 | afterwards cash is not negative; a negative cash becomes exactly that much more personal loan and cash 0; cash minus personal loan is unchanged; nothing else changes |
| GameRules.Payday | backend/controllers/gameController.js:43-74 | cash ends non-negative; only cash, loan and the frozen flag and turn change; unfrozen: cash minus loan moves by income + passive income − expenses − interest (personal loan × rate, small-deal loan × 0.05, big-deal loan × 0.10) and the flag stays off; frozen turn 0: stays frozen, turn becomes 1, income is forfeited and cash minus loan drops by exactly the expenses; frozen other turn: unfrozen, turn 0, the normal net payday applies; in both normal branches cash becomes cash + net payday with the loan unchanged when that is not negative, otherwise cash 0 and the loan grows by exactly the deficit |
| GameController.Team.Payday | backend/controllers/gameController.js:43-74 | the handler's field-by-field updates end in the state `GameRules.Payday` gives, with cash non-negative |
| GameInvariants.NormalPayday | backend/controllers/gameController.js:57-74 | unfrozen or unfreezing payday: cash becomes cash + net payday when that is not negative, with the loan unchanged; otherwise cash 0 and the loan grows by exactly the deficit |
| GameInvariants.FrozenFirstPayday | backend/controllers/gameController.js:46-56 | first frozen payday: when expenses do not exceed cash, no loan is taken and cash drops by the expenses; otherwise a loan of all assets is added to cash and loan, and whatever is still missing becomes loan with cash 0 |
| GameInvariants.FrozenCycle | backend/controllers/gameController.js:46-63 | freeze then two paydays: the first keeps the team frozen at turn 1 and charges expenses with no income; the second unfreezes, resets the turn and applies the normal net payday; no other field changes |
| GameInvariants.FreezeRunUnfreezes | backend/controllers/gameController.js:46-63 | as requests, freeze then one payday leaves the team frozen, and freeze then two paydays leaves it unfrozen with turn 0 |
| GameInvariants.StepKeepsPhase | backend/controllers/gameController.js:55-59 | every request keeps the frozen turn at 0, or at 1 while frozen |
| GameInvariants.RunKeepsPhase | backend/controllers/gameController.js:46-63 | any sequence of requests keeps that phase consistent |
| GameRules.LandingOn | backend/controllers/gameController.js:94-96 | a roll of 1..6 lands on the square that `RollFor` maps back to the same roll |
| GameRules.SquareName | backend/controllers/gameController.js:95-96 | a square's event name is the entry of the events list (Chance, Small Deal, Big Deal, Stock, Crypto, Payday) at its roll − 1 |
| GameRules.RollFor | backend/controllers/gameController.js:95-96 | every square is reached by exactly one roll in 1..6, the one at its position in the list Chance, Small Deal, Big Deal, Stock, Crypto, Payday |
| GameController.Team.Roll | backend/controllers/gameController.js:94-98 | the roll yields the square of that roll and changes no team field |
| GameRules.OwnedAtTable | backend/controllers/gameController.js:124 | true exactly when some owner entry of the deal has the team's table id |
| GameRules.BuyDeal | backend/controllers/gameController.js:115-140 | refusals in code order: frozen (403), deal missing (404), owned at this table (409), cash below cost (400); it succeeds exactly when none applies; then cash drops by the cost and stays non-negative, passive income grows by the deal's, assets grow by the cost, the deal id is appended, (table, team) is appended to the owners, per-table exclusivity is kept and net worth is unchanged |
| GameController.Team.BuyDeal | backend/controllers/gameController.js:115-140 | the handler returns the updated deal or the rejection of `GameRules.BuyDeal`, and on rejection the team is unchanged |
| GameInvariants.SecondPurchaseAtTableRefused | backend/controllers/gameController.js:124-128 | after one team buys a deal, any unfrozen team of the same table is refused it with a conflict |
| GameInvariants.PurchaseRunExclusive | backend/controllers/gameController.js:124-134 | over any sequence of purchase attempts a deal keeps at most one owner entry per table, only its owner list changes, and every new entry is one of the buyers |
| GameRules.BuyPosition | backend/controllers/gameController.js:207-229 | refused when frozen (403) or when price × amount exceeds cash + personal loan (400), and succeeds otherwise; then cash ends non-negative, cash minus loan drops by exactly the total cost, paid from cash when cash covers it (loan unchanged) and otherwise with cash 0 and the shortfall added to the loan, assets grow by it, net worth is unchanged and exactly one (name, amount, price) item is appended to the stock or crypto list, the other list unchanged |
| GameController.Team.BuyPosition | backend/controllers/gameController.js:249-271 | the stock and crypto handlers end in the state `GameRules.BuyPosition` gives, unchanged on rejection |
| GameRules.Freeze | backend/controllers/gameController.js:291-292 | the team is frozen with turn 0 and nothing else changes |
| GameController.Team.Freeze | backend/controllers/gameController.js:291-292 | the handler ends in the state `GameRules.Freeze` gives |
| GameRules.Penalty | backend/controllers/gameController.js:312 | only cash changes, dropping by 10000 with no floor, and net worth drops by 10000 |
| GameController.Team.Penalty | backend/controllers/gameController.js:312 | the handler ends in the state `GameRules.Penalty` gives |
| GameInvariants.PenaltyLeavesCashNegative | backend/controllers/gameController.js:312 | a penalty on cash 5000 leaves cash −5000 with the loan unchanged |
| GameRules.Chance | backend/controllers/gameController.js:332-338 | only cash changes, by +50000 or −20000 |
| GameController.Team.Chance | backend/controllers/gameController.js:332-341 | the handler ends in the state `GameRules.Chance` gives and returns the drawn card's title |
| GameRules.Borrow | backend/controllers/gameController.js:358-364 | refused (400) exactly when the amount is NaN or not positive; otherwise cash and personal loan both grow by the amount and nothing else changes |
| GameController.Team.BorrowLoan | backend/controllers/gameController.js:358-364 | the handler ends in the state `GameRules.Borrow` gives, unchanged on rejection |
| GameRules.Repay | backend/controllers/gameController.js:385-394 | refused for a NaN or non-positive amount, then when cash or the loan is below the amount; succeeds exactly otherwise, lowering cash and loan each by exactly the amount, both staying non-negative |
| GameController.Team.RepayLoan | backend/controllers/gameController.js:385-394 | the handler ends in the state `GameRules.Repay` gives, unchanged on rejection |
| GameInvariants.BorrowThenRepay | backend/controllers/gameController.js:358-394 | borrowing a positive amount and repaying it restores the team exactly, when cash and loan were not negative |
| GameInvariants.RepayThenBorrow | backend/controllers/gameController.js:358-394 | a repayment followed by borrowing the same amount restores the team exactly |
| GameRules.StatusCode | backend/controllers/gameController.js:113-131 | 404 exactly for a missing team or deal, 403 exactly for frozen assets, 409 exactly for a deal owned at the table, 400 exactly for every other rejection |
| GameRules.Step | backend/routes/gameRoutes.js:9-19 | a refused request leaves the team unchanged; no request changes identity, base income, expenses or loan terms, and the deal, stock and crypto lists only grow; a roll or freeze leaves net worth unchanged; a roll changes nothing and answers the events-list entry at roll − 1 |
| GameController.Handle | backend/controllers/gameController.js:36-41 | with no team found the answer is 404; otherwise the team document ends in the state, and the reply is the one, that `GameRules.Step` gives |
| GameInvariants.RunKeepsFixedFields | backend/controllers/gameController.js:43-394 | over any sequence of requests the fixed fields never change and the lists only grow at their end |
| GameInvariants.StepKeepsCashFloor | backend/controllers/gameController.js:70-74 | every request other than penalty and chance keeps cash non-negative |
| GameInvariants.RunKeepsCashFloor | backend/controllers/gameController.js:43-394 | any sequence of requests without penalty or chance keeps cash non-negative |
| GameInvariants.StepKeepsNetWorth | backend/controllers/gameController.js:137-139 | purchases, loans, rolls and freezes leave cash + assets − personal loan unchanged |
| GameInvariants.RunKeepsNetWorth | backend/controllers/gameController.js:211-228 | any sequence of such requests leaves that net worth unchanged |

## Left out

- Loading and saving documents, the table-wide reload after each handler and the read-only routes `getGameState` and `getDeals`: storage I/O. The model returns the new team and deal instead.
- The two saves of a deal purchase (deal first, then team) are not atomic in the source; the model treats the purchase as one step.
- `addLogEntry` and the log messages: fire-and-forget writes whose failures are swallowed; they carry narration, not state.
- `Math.random`: the roll and the card index are parameters.
- Concurrent requests: the race between two purchases of one deal at one table is outside a sequential model.
- IEEE-754 doubles: money is exact `real`, so rounding of the 0.13, 0.05 and 0.10 rates and of price × amount is not modelled.
- NaN and Infinity beyond the loan amount: a missing price or amount (NaN cost) and an `Infinity` loan amount cannot be expressed with `real`.
- Mongoose validation of required position fields on save: a failed save is a 500 outside the engine.
- Whether the requested team belongs to the caller's table: the source does not check it, and authentication is not part of this model.
- Stock and crypto price and amount are taken as given, as in the source; a negative amount is accepted there and here.
