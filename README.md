# Kingdom economy and combat, modelled in Dafny

This project models the game-economy core of a multiplayer strategy game
backend. Each route handler of the core reads and writes a relational store.
Here each one becomes one state transition over the whole database:
- resource balances per (kingdom, resource type);
- unit rows per (kingdom, unit type);
- buildings, market offers, alliances and their members;
- daily tasks and their completions;
- the log of attacks.

Each handler comes in two forms:
- a function `X(w: World, ...) : (Result<Reply>, World)` that states the
  transition on the database as a value;
- a method `HandleX(db: Db, ...)` that performs the same queries in the same
  order on the `Db` class. Its table fields are reassigned query by query and
  its cost-deduction loops are real loops. Its contract is
  `(r, db.Snapshot()) == X(old(db.Snapshot()), ...)`.

Every spec function keeps the database invariants `WorldValid`:
- at most one kingdom per user;
- at most one alliance per user;
- every id below its table's serial counter.

It also answers every refusal with an error and no change. The properties the
game promises are lemmas about these functions.

Modules:
- `Ledger`: balances and the one-row `UPDATE ... amount + delta`.
- `Store`: tables, rows, errors and the `Db` class.
- `Combat`: `calculateBattle`.
- `Battle`: the attack route and `stealResources`.
- `Market`, `Units`, `Kingdoms`, `Alliances` and `Tasks`: one module per route file.

Behaviour kept from the code:
- An UPDATE of a missing row matches nothing. A credit to a kingdom with no row
  of that type is lost (`Ledger.Adjust`).
- A purchase's affordability test looks only at the rows the kingdom has, via
  `cost[type] || 0`. A listed type with no row never blocks a purchase, and a
  negative row of a type the cost does not list blocks it (`Ledger.Affordable`).
  A listed amount may itself be negative (a training order for a negative
  quantity), and then a row only has to reach that amount.
- Combat uses exact integer arithmetic. `Math.floor(q * ratio)` is
  `floor(q * opposing / total)`, and `Math.floor(amount * 0.2)` is `amount / 5`
  with Dafny's floor division.
- When both powers are zero the JavaScript ratio is `0/0 = NaN` and the handler
  writes `NaN || 0`, that is no loss. The route's one other zero-total case
  (negative quantities in the declaration or in the defender's unit rows, so
  that the powers cancel out with a non-zero attack) is a 500 reply (`ServerError`) with no change.
- The declared-units check tests each entry of the request on its own, while
  the power sum and the loss updates run once per entry. A type declared twice
  can pass against a row that holds only one declaration's worth, counts twice
  in the attack power and is depleted twice (`Battle.RepeatedDeclarationCountsTwice`).
  The per-row loss lemmas assume distinct declared types.
- The code does not reject negative quantities or amounts, and neither does the
  model. The lemmas `Kingdoms.UpdateResourcesCanOverdraw` and
  `Alliances.SendNegativeResourcesDrainsReceiver` show the consequences.
- The successor query on leaving an alliance has no ORDER BY, so the model
  takes its first row as a parameter constrained by `Alliances.Succession`. The
  succession lemmas hold for every possible first row.
- Succession changes only the member's role. The `alliances` row keeps the old
  leader id (`Alliances.SuccessionKeepsLeaderColumn`).
- The reset route has no admin check and clears completions dated before
  `today` for everyone.

Three consequences of the code that a reader might not expect:
- A balance adjustment never fails for going negative: `UPDATE ... amount + $1`
  has no lower bound (`Kingdoms.UpdateResourcesCanOverdraw`).
- A battle with zero total power is not refused; every loss is `NaN || 0`,
  which is 0.
- Shield bearers defend with 15 each, so 10 spearmen against 10 shield bearers
  is 100 attack against 150 defence and fails
  (`Combat.SpearmenAgainstShieldBearers`). 10 spearmen against 10 spearmen is
  100 against 50 and succeeds (`Combat.TenSpearmenEach`).

## Model

| member | source | states |
|---|---|---|
| Ledger.AdjustUndo | server/game/market.js:51-54 | Undoing a one-row adjustment restores the balances exactly, whether or not the row exists. |
| Ledger.TransferConserves | server/game/alliance.js:216-224 | A debit and an equal credit of two existing rows of different kingdoms keep their sum and move exactly the amount. |
| Ledger.Deducted | server/game/kingdom.js:159-164 | Deducting a cost never adds or removes a row. |
| Ledger.Deduct | server/game/kingdom.js:159-164 | The deduction loop (one UPDATE per cost entry, in object order) yields exactly `Deducted`. |
| Ledger.RequiredUnlisted | server/game/kingdom.js:150 | `cost[type] \|\| 0` is 0 for a type the cost does not list. |
| Ledger.DeductedAt | server/game/kingdom.js:159-164 | With distinct types, deduction lowers each row of the buyer by exactly its listed amount and leaves every other row alone. |
| Ledger.PurchaseKeepsRowsCovered | server/game/kingdom.js:144-164 | A purchase that passes the `every` test leaves every buyer row non-negative and other kingdoms untouched. |
| Ledger.Scaled | src/server/game/units.js:183-191 | A cost scaled by a level keeps its types and multiplies each amount. |
| Store.AllUnitTypesListed | server/game/battle.js:134-139 | The stat table lists every unit type exactly once. |
| Store.ParseUnitType | src/server/game/units.js:47-57 | A name maps to the unit type with that name, and to none otherwise. |
| Store.ParseBuildingType | server/game/kingdom.js:130-141 | A name maps to the building type with that name, and to none otherwise. |
| Store.KingdomOf | server/game/market.js:31-38 | The user's kingdom when they have one (unique by the invariant), and None exactly when they own none. |
| Store.ValidUnderRowWrites | server/game/battle.js:56-71 | Writes to unit, resource and attack rows keep the database invariants. |
| Combat.PowersNonNegative | server/game/battle.js:146-155 | Non-negative quantities give non-negative attack and defence power. |
| Combat.FloorDivIsFloor | server/game/battle.js:163 | `FloorDiv` is `Math.floor` of the exact quotient for either sign of the divisor. |
| Combat.LossBounded | server/game/battle.js:157-168 | A loss `floor(q * opposing / total)` with `0 <= opposing <= total` is between 0 and q. |
| Combat.LossesAt | server/game/battle.js:162-168 | With distinct types, the loss table's entry for each force is that force's own loss. |
| Combat.SumAttack | server/game/battle.js:146-150 | The attack loop accumulates the sum of attack times quantity. |
| Combat.SumDefense | server/game/battle.js:152-155 | The defence loop accumulates the sum of defence times quantity over all defender rows. |
| Combat.LossTable | server/game/battle.js:162-168 | A loss loop writes one entry per force, later entries overwriting earlier ones of the same type. |
| Combat.CalculateBattle | server/game/battle.js:133-178 | The resolver returns both powers, success exactly when attack power is strictly greater, and both loss tables. |
| Combat.AttackerLossAt | server/game/battle.js:159-164 | Each declared type loses its quantity times defence power over total power, rounded down. |
| Combat.DefenderLossAt | server/game/battle.js:160-168 | Each defender type loses its quantity times attack power over total power, rounded down. |
| Combat.TieIsDefeat | server/game/battle.js:171 | Equal powers are a defeat. |
| Combat.AttackerLossBounded | server/game/battle.js:157-164 | With non-negative forces, each declared type loses between 0 and its quantity. |
| Combat.DefenderLossBounded | server/game/battle.js:157-168 | With non-negative forces, each defender row loses between 0 and its quantity. |
| Combat.LossesWithinForces | server/game/battle.js:157-168 | Every loss on both sides lies between 0 and the quantity it is taken from. |
| Combat.TenSpearmenEach | server/game/battle.js:134-171 | 10 spearmen against 10 spearmen: 100 against 50, success, losses 3 and 6. |
| Combat.SpearmenAgainstShieldBearers | server/game/battle.js:134-171 | 10 spearmen against 10 shield bearers: 100 against 150, failure, losses 6 and 4. |
| Battle.Typed | server/game/battle.js:147-149 | Declared units become forces with the declared names and quantities. |
| Battle.RowsOf | server/game/battle.js:47-50 | Picked rows are rows of the kingdom, with their quantities, of listed types. |
| Battle.RowsOfCovers | server/game/battle.js:47-50 | Every row of a listed type is picked up. |
| Battle.RowsOfDistinct | server/game/battle.js:47-50 | No type is picked up twice. |
| Battle.DefenderRows | server/game/battle.js:47-50 | The defender's rows have distinct types and carry the rows' quantities. |
| Battle.DefenderRowsCover | server/game/battle.js:47-50 | Every unit row of the defender takes part in the battle. |
| Battle.Deplete | server/game/battle.js:58-61 | A loss UPDATE never adds or removes rows. |
| Battle.ApplyLossesAt | server/game/battle.js:56-71 | A loss loop over distinct types lowers each listed row by exactly `losses[type] \|\| 0` and changes nothing else. |
| Battle.TypesOf | server/game/battle.js:188-191 | The defender's resource types are exactly those with a row. |
| Battle.Loot | server/game/battle.js:194-211 | A type is stolen exactly when the defender's row holds at least 5 (a positive fifth). |
| Battle.LootIsAFifth | server/game/battle.js:195-197 | Each stolen amount is `floor(amount * 0.2)` and positive. |
| Battle.PlunderStep | server/game/battle.js:197-210 | Stealing one more type is one debit of the defender and one credit of the attacker. |
| Battle.PlunderMovesLoot | server/game/battle.js:181-215 | The defender loses exactly the loot, the attacker gains it where it has a row (the sum is kept), and no other kingdom changes. |
| Battle.PlunderLeavesDefenderCovered | server/game/battle.js:194-202 | A non-negative defender row stays non-negative after the steal. |
| Battle.HeldUnitsAreTyped | server/game/battle.js:37-40 | A declaration that passes the unit check names only known unit types. |
| Battle.Aftermath | server/game/battle.js:55-117 | The writes of a resolved battle keep the database invariants. |
| Battle.Attack | server/game/battle.js:7-130 | The attack route keeps the invariants and changes nothing when it refuses. |
| Battle.DepleteAll | server/game/battle.js:56-71 | The loss loop updates the unit table as `ApplyLosses` says. |
| Battle.StealResources | server/game/battle.js:181-215 | `stealResources` returns no loot and moves nothing on failure; on success it returns exactly `Loot` and moves it row by row. |
| Battle.UpdateUnits | server/game/battle.js:55-71 | Both loss loops together give `Fought`. |
| Battle.Conclude | server/game/battle.js:55-117 | The post-resolver writes: unit losses, the steal of a success, one appended attack row, and the reply. |
| Battle.HandleAttack | server/game/battle.js:7-130 | The route, query by query, is the transition `Attack` and keeps the invariants. |
| Battle.Engage | server/game/battle.js:52-126 | After the checks, resolver plus writes equal `Attack`. |
| Battle.Settle | server/game/battle.js:55-117 | The writes of an accepted battle equal `Attack`'s new state. |
| Battle.AttackWrites | server/game/battle.js:52-117 | An accepted attack's new state is exactly its losses, its spoils and its appended record. |
| Battle.AttackRefused | server/game/battle.js:12-44 | Refusals, in order: no attacker kingdom, no defender kingdom, uncovered declaration; each changes nothing. |
| Battle.AttackOutcome | server/game/battle.js:73-126 | Success exactly when attack power exceeds the defence of all defender rows; one record is appended (completed with loot, or failed without); only success moves resources. |
| Battle.TwoLossesBounded | server/game/battle.js:157-168 | The attacker's and defender's loss of one row together stay within it. |
| Battle.TwoRoundsAt | server/game/battle.js:56-71 | Two loss loops on distinct types compose to one change per row. |
| Battle.FoughtAt | server/game/battle.js:56-71 | With distinct declared types, after the battle each row loses exactly its computed attacker and defender loss and keeps level and training state. |
| Battle.AttackerShare | server/game/battle.js:56-62 | A declared row loses a share of a declared quantity the row covers. |
| Battle.DefenderShare | server/game/battle.js:65-71 | A defender row loses a share of its whole quantity. |
| Battle.FoughtNonNegative | server/game/battle.js:56-71 | With covered, non-negative, distinct declarations no row goes negative, even in a self-attack. |
| Battle.RowLossesBounded | server/game/battle.js:56-71 | The two losses a row can suffer together stay within the row. |
| Battle.RowStaysNonNegative | server/game/battle.js:56-71 | A row minus its attacker and defender shares stays non-negative. |
| Battle.TypedKinds | server/game/battle.js:147-149 | The typed forces' kinds are exactly the declared names. |
| Battle.TypedDistinct | server/game/battle.js:162-164 | Distinct declared names give distinct forces. |
| Battle.RepeatedDeclarationCountsTwice | server/game/battle.js:37-62 | A unit type declared twice is checked entry by entry but counted and depleted once per entry: 10 spearmen declared twice pass against a row of 10, attack with power 200, and lose twice their loss. |
| Battle.AttackNeverOverflows | server/game/battle.js:157-168 | With non-negative unit rows and declared quantities the route never answers `ServerError`: the infinite-ratio case cannot arise. |
| Battle.AttackKeepsUnitsNonNegative | server/game/battle.js:37-71 | With non-negative rows and distinct non-negative declarations, no unit row goes negative. |
| Market.ValidAfterOfferInsert | server/game/market.js:57-62 | Inserting an offer at the next serial id keeps the invariants. |
| Market.ValidAfterOfferWrites | server/game/market.js:133-142 | Rewriting or deleting offers keeps the invariants. |
| Market.CreateOffer | server/game/market.js:26-68 | The create route keeps the invariants and changes nothing when it refuses. |
| Market.BuyOffer | server/game/market.js:71-153 | The buy route keeps the invariants and changes nothing when it refuses. |
| Market.CancelOffer | server/game/market.js:156-193 | The cancel route keeps the invariants and changes nothing when it refuses. |
| Market.HandleCreateOffer | server/game/market.js:26-68 | The create route, query by query, is `CreateOffer`. |
| Market.Escrow | server/game/market.js:50-62 | The escrow debit plus the offer insert, and nothing else. |
| Market.HandleBuyOffer | server/game/market.js:71-153 | The buy route, query by query, is `BuyOffer`. |
| Market.Trade | server/game/market.js:113-142 | The three ledger updates and the offer update or delete, and nothing else. |
| Market.HandleCancelOffer | server/game/market.js:156-193 | The cancel route, query by query, is `CancelOffer`. |
| Market.Refund | server/game/market.js:180-187 | The refund and the delete, and nothing else. |
| Market.CreateOfferOutcome | server/game/market.js:31-62 | An offer is created exactly when the seller's row covers the quantity; the row then drops by exactly the quantity, and the offer under a fresh id holds it. |
| Market.BuyOfferAccepted | server/game/market.js:82-111 | A purchase succeeds exactly when the offer exists with enough quantity and the buyer's price-type row covers price times quantity. |
| Market.BuyOfferLeavesRest | server/game/market.js:133-149 | The offer keeps `old - bought` if positive and is deleted otherwise; the reply reports quantity, total and remainder. |
| Market.SettledAt | server/game/market.js:113-131 | For any offer, each row after the three ledger updates is its old amount, minus the total on the buyer's price-type row, plus the quantity on the buyer's offered-type row, plus the total on the seller's price-type row when the seller id is truthy; rows that coincide receive every movement. |
| Market.BuyOfferBalances | server/game/market.js:101-131 | Every accepted purchase, whatever its types and whoever sells (the buyer included, seller id 0 included), moves exactly those three amounts on existing rows and adds or removes no row. |
| Market.BuyOfferMovesGoods | server/game/market.js:119-142 | When the offered type differs from the price type and the buyer has a row of it, what the buyer's row gains is exactly what leaves the offer. |
| Market.BuyOfferPaysSeller | server/game/market.js:113-131 | When a player seller other than the buyer is paid in a type other than the offered one, the seller's price-type row gains exactly what the buyer's loses. |
| Market.BuyNpcOfferPaysNobody | server/game/market.js:125-131 | For an NPC offer paid in a type other than the offered one, the buyer pays price times quantity and no other kingdom's row changes. |
| Market.NpcOfferNotCancelled | server/game/market.js:170-178 | An NPC offer can never be cancelled. |
| Market.CancelOfferOutcome | server/game/market.js:166-187 | Cancel succeeds exactly for the seller's owner; the whole remaining quantity is refunded and the offer deleted. |
| Market.CreateThenCancelRestores | server/game/market.js:51-54 | Create followed by cancel restores the seller's balances and the offer book exactly. |
| Units.Train | src/server/game/units.js:21-122 | The train route keeps the invariants and changes nothing when it refuses. |
| Units.CompleteTraining | src/server/game/units.js:125-155 | The completion route keeps the invariants and changes nothing when it refuses. |
| Units.Upgrade | src/server/game/units.js:158-229 | The upgrade route keeps the invariants and changes nothing when it refuses. |
| Units.HandleTrain | src/server/game/units.js:21-122 | The train route, query by query, is `Train`. |
| Units.Enlist | src/server/game/units.js:81-116 | The deduction loop then the row update or insert, and nothing else. |
| Units.HandleCompleteTraining | src/server/game/units.js:125-155 | The completion route is `CompleteTraining`. |
| Units.HandleUpgrade | src/server/game/units.js:158-229 | The upgrade route, query by query, is `Upgrade`. |
| Units.Promote | src/server/game/units.js:209-223 | The deduction loop then `level + 1`, and nothing else. |
| Units.TrainingCostDistinct | src/server/game/units.js:60-63 | The training cost is gold = spec gold times q and food = spec food times q, each listed once. |
| Units.TrainAccepted | src/server/game/units.js:27-78 | Training is accepted exactly for an owner with a barracks, a known type and covered rows; the refusals come in that order. |
| Units.TrainingDeduction | src/server/game/units.js:81-86 | Training takes exactly spec times quantity of gold and food, leaves other rows alone and no row of the kingdom negative. |
| Units.TrainPays | src/server/game/units.js:66-86 | An accepted order passed the affordability test and its balances are the training cost deducted. |
| Units.TrainEnlists | src/server/game/units.js:89-116 | The row grows at once by q, trains until now + time times q, keeps its level (a new row takes the default level), and no other row changes. |
| Units.FinishedTwice | src/server/game/units.js:140-149 | The completion UPDATE finds nothing left to clear in its own result. |
| Units.CompletionClearsDueRows | src/server/game/units.js:140-149 | Completion clears the flag and end time of exactly the kingdom's due rows, and keeps quantities and levels. |
| Units.CompleteTrainingIdempotent | src/server/game/units.js:140-154 | A second completion changes nothing and returns no rows. |
| Units.UpgradeCostLinear | src/server/game/units.js:183-191 | The upgrade cost at level L is the level-1 cost times L. |
| Units.UpgradeOutcome | src/server/game/units.js:163-223 | An upgrade is accepted exactly for an owner with the row and covered rows; it raises the level by exactly one and deducts the cost. |
| Kingdoms.ValidAfterFounding | server/game/kingdom.js:44-60 | A new kingdom for a user without one keeps the invariants. |
| Kingdoms.ValidAfterBuildingInsert | server/game/kingdom.js:167-172 | Inserting a building at the next serial id keeps the invariants. |
| Kingdoms.ValidAfterBuildingWrite | server/game/kingdom.js:242-248 | Rewriting existing buildings keeps the invariants. |
| Kingdoms.CreateKingdom | server/game/kingdom.js:29-66 | The create route keeps the invariants and changes nothing when it refuses. |
| Kingdoms.UpdateResources | server/game/kingdom.js:69-97 | The update route keeps the invariants and changes nothing when it refuses. |
| Kingdoms.AddBuilding | server/game/kingdom.js:114-178 | The add-building route keeps the invariants and changes nothing when it refuses. |
| Kingdoms.UpgradeBuilding | server/game/kingdom.js:181-254 | The upgrade route keeps the invariants and changes nothing when it refuses. |
| Kingdoms.HandleCreateKingdom | server/game/kingdom.js:29-66 | The create route, query by query, is `CreateKingdom`. |
| Kingdoms.HandleUpdateResources | server/game/kingdom.js:69-97 | The update route is `UpdateResources`. |
| Kingdoms.HandleAddBuilding | server/game/kingdom.js:114-178 | The add-building route, query by query, is `AddBuilding`. |
| Kingdoms.Construct | server/game/kingdom.js:158-172 | The deduction loop then the insert, and nothing else. |
| Kingdoms.HandleUpgradeBuilding | server/game/kingdom.js:181-254 | The upgrade route, query by query, is `UpgradeBuilding`. |
| Kingdoms.Raise | server/game/kingdom.js:233-248 | The deduction loop then `level + 1`, and nothing else. |
| Kingdoms.CreateKingdomAccepted | server/game/kingdom.js:34-41 | Founding is refused exactly when the user already owns a kingdom. |
| Kingdoms.CreateKingdomEndows | server/game/kingdom.js:44-60 | A new kingdom becomes the user's only one and starts with 1000 gold, 500 wood, 500 stone and 1000 food; no other row changes. |
| Kingdoms.CreateKingdomOnce | server/game/kingdom.js:34-41 | A user cannot found a second kingdom. |
| Kingdoms.UpdateResourcesOutcome | server/game/kingdom.js:75-93 | Accepted exactly for the owner; it adds the signed amount to that one row and replies with the new amount, or with nothing when there is no row. |
| Kingdoms.UpdateResourcesCanOverdraw | server/game/kingdom.js:85-91 | An owner can drive a row negative. |
| Kingdoms.BuildCostDistinct | server/game/kingdom.js:130-136 | Every building cost lists each resource type once. |
| Kingdoms.UpgradeCostIsScaledBuildCost | server/game/kingdom.js:207-214 | The upgrade cost at level L is the build cost times L, for every building type. |
| Kingdoms.AddBuildingOutcome | server/game/kingdom.js:120-172 | Accepted exactly for an owner, a known type and covered rows; the building gets a fresh id at the default level and the cost is deducted. |
| Kingdoms.UpgradeBuildingOutcome | server/game/kingdom.js:187-248 | Accepted exactly for an owner of the building with covered rows; its level rises by exactly one and the cost is deducted. |
| Kingdoms.BuildingPurchaseKeepsRowsCovered | server/game/kingdom.js:144-164 | A building purchase leaves no kingdom row negative and other kingdoms untouched. |
| Alliances.ValidAfterMembership | server/game/alliance.js:51-63 | Membership writes that keep one alliance per user keep the invariants. |
| Alliances.CreateAlliance | server/game/alliance.js:36-69 | The create route keeps the invariants and changes nothing when it refuses. |
| Alliances.JoinAlliance | server/game/alliance.js:72-108 | The join route keeps the invariants and changes nothing when it refuses. |
| Alliances.LeaveAlliance | server/game/alliance.js:111-157 | The leave route keeps the invariants and changes nothing when it refuses. |
| Alliances.SendResources | server/game/alliance.js:160-230 | The send-resources route keeps the invariants and changes nothing when it refuses. |
| Alliances.SendUnits | server/game/alliance.js:233-316 | The send-units route keeps the invariants and changes nothing when it refuses. |
| Alliances.HandleCreateAlliance | server/game/alliance.js:36-69 | The create route, query by query, is `CreateAlliance`. |
| Alliances.HandleJoinAlliance | server/game/alliance.js:72-108 | The join route, query by query, is `JoinAlliance`. |
| Alliances.HandleLeaveAlliance | server/game/alliance.js:111-157 | The leave route, query by query, is `LeaveAlliance` for the member its successor query returned. |
| Alliances.HandleSendResources | server/game/alliance.js:160-230 | The send-resources route, query by query, is `SendResources`. |
| Alliances.HandleSendUnits | server/game/alliance.js:233-316 | The send-units route, query by query, is `SendUnits`. |
| Alliances.CreateAllianceOutcome | server/game/alliance.js:41-63 | Refused exactly for a user already in an alliance; otherwise a fresh alliance led by the user, who joins it as leader. |
| Alliances.JoinAllianceOutcome | server/game/alliance.js:77-102 | Refused for a user in an alliance, then for a missing alliance; otherwise the user joins as a member. |
| Alliances.LeaveAllianceOutcome | server/game/alliance.js:116-151 | Refused exactly for a non-member; a leader hands the role to the heir or deletes a memberless alliance; the user ends in no alliance. |
| Alliances.FoundingKeepsLeadership | server/game/alliance.js:51-63 | A founded alliance keeps the leadership invariant. |
| Alliances.JoiningKeepsLeadership | server/game/alliance.js:97-102 | A join keeps the leadership invariant. |
| Alliances.LeavingKeepsLeadership | server/game/alliance.js:126-151 | A departure keeps the leadership invariant, whichever member succeeds. |
| Alliances.MembershipRoutesKeepLeadership | server/game/alliance.js:36-157 | Create, join and leave keep "every member's alliance exists and every alliance has exactly one leader member". |
| Alliances.SuccessionKeepsLeaderColumn | server/game/alliance.js:137-151 | After succession the alliance row still names the departed leader. |
| Alliances.SendResourcesOutcome | server/game/alliance.js:166-224 | Accepted exactly for two members with kingdoms and a covering sender row, a non-member sender then a non-member target refused first; the new state is the old one with exactly the sender's debit and the receiver's credit, and no other table changes. |
| Alliances.SendResourcesConserves | server/game/alliance.js:216-224 | Between two kingdoms with rows, exactly the amount moves and the sum is kept. |
| Alliances.SendNegativeResourcesDrainsReceiver | server/game/alliance.js:211-224 | A negative amount passes the check and takes from the receiver. |
| Alliances.SendUnitsAccepted | server/game/alliance.js:239-286 | Accepted exactly for two members with kingdoms, a known unit type and a sender row holding at least q; a non-member sender, then a non-member target, are refused first; the new state is the old one with the unit table replaced by `Reinforced`, and no other table changes. |
| Alliances.SendUnitsMovesUnits | server/game/alliance.js:289-310 | The sender loses q, the receiver gains q keeping its own level (a new row takes the sender's level), and the total is kept. |
| Alliances.SendUnitsToSelf | server/game/alliance.js:289-310 | Sending units to one's own kingdom changes nothing. |
| Tasks.CompleteTask | server/game/tasks.js:26-84 | The complete route keeps the invariants and changes nothing when it refuses. |
| Tasks.Reset | server/game/tasks.js:87-98 | The reset keeps the invariants. |
| Tasks.CreateTask | server/game/tasks.js:101-126 | The create route keeps the invariants and changes nothing when it refuses. |
| Tasks.HandleCompleteTask | server/game/tasks.js:26-84 | The complete route, query by query, is `CompleteTask`. |
| Tasks.HandleReset | server/game/tasks.js:87-98 | The reset route is `Reset`. |
| Tasks.HandleCreateTask | server/game/tasks.js:101-126 | The create route, query by query, is `CreateTask`. |
| Tasks.CompleteTaskOutcome | server/game/tasks.js:31-72 | Refused, in order, for a missing task, a completed one, or no kingdom; otherwise the completion is recorded and the reward credited to that one row. |
| Tasks.CompleteTaskOnce | server/game/tasks.js:41-48 | A second completion by the same user fails. |
| Tasks.ResetOutcome | server/game/tasks.js:90-92 | The reset keeps exactly the completions dated today or later, changes nothing else, and is idempotent. |
| Tasks.CompletableAgainAfterReset | server/game/tasks.js:41-92 | A task completed before the reset date can be completed again after the reset, for the same reward. |
| Tasks.CreateTaskOutcome | server/game/tasks.js:106-120 | Refused unless the user's role is admin; an admin's task gets a fresh id. |

## Left out

- Authentication and session handling (`server/auth.js`), the Express wiring (`src/server/index.js`) and the read-only GET routes are not modelled. The user id is a parameter of every route.
- `generateNPCOffers` is not modelled. It depends on `Math.random` and a floating-point multiplier. NPC offers appear only as offers with no seller.
- The unit `speed` stats are floats that resolution never uses.
- Floating-point rounding is left out. Ratios and the 20% steal are exact integer floor divisions.
- HTTP status codes and JSON bodies are left out. Replies are a `Result` of a value or an `Error`.
- The current time and date are parameters: `now` for training and task completion, `today` for the reset.
- Concurrency is left out. Each route is one atomic step, although the source awaits each query separately.
- Database defaults that the source does not show are parameters or fixed:
  - the level of a new unit row and of a new building are parameters;
  - a row inserted by send-units is taken as not training, with no end time.
- Schema constraints the source does not show are left out. Foreign keys, unique keys and column types are unchecked; an INSERT always succeeds. An insert under a key already present replaces that row; only resource rows can meet this, when a row exists for a kingdom id not yet handed out. The `units.quantity` column is assumed to be an integer column: an UPDATE by `Infinity` (the attack route's zero-total case, reached through negative quantities in the declaration or in the defender's unit rows) is then rejected, which the model answers with `ServerError` and no change. A column type that stores `Infinity` would instead write it.
- Some JavaScript object-literal behaviour is left out. A `building_type` or `unit_type` equal to an inherited property name (`constructor`, `toString`) is treated like an unknown name.
- A seller id of 0 counts as "no seller" when the seller would be paid (`Market.PaysSeller`), as `if (seller_id)` does.
- The attack record's JSON columns are left out. A failed attack's `resources_stolen` column is null (`None`), and `NaN` losses are written as 0.
- Alliances.HandleLeaveAlliance: the successor query runs for every departure, not only a leader's. It reads nothing it writes, so the outcome is the same.
- Alliances.MembershipRoutesKeepLeadership: the leadership invariant is a lemma over the three membership routes, not part of `WorldValid`. The other routes never write alliances or members.
