# A verified model of a Graphene chain node

A model, in Dafny, of the state machine of a BitShares/Graphene-style blockchain node, and proofs about it. It covers

- the undo database: nested sessions kept as per-object deltas, against the stack of full copies they stand for
  (`ObjectStore`, `UndoDelta`, `UndoMachine`, `UndoSessions`, and in place `UndoDatabase`);
- the block tree and fork switching, with undo and recovery (`ForkDatabase`, `ForkSwitch`, and in place `BlockChain`);
- the market: limit orders, margin calls, black swans, global and force settlement, and the operations with their fees,
  up to whole runs from genesis (`Prices`, `Ranking`, `MarketState` to `MarketRun`, `ExpiredOrders`, and in place `Exchange`);
  what each of them does to every account and row, said without naming how it is computed (`Effects`, `GlobalSettlement`,
  `CallRuns`, `Trades`, `Services`, `OperationEffects`, `MarketEffects`);
  the swan check against its comment (`LeastCollateral`), and markets in which the code falls short (`Shortfalls`);
- consensus bookkeeping: irreversibility, slots and turns, and the summaries nodes send each other
  (`Counting`, `Irreversibility`, `Schedule`, `Synopsis`);
- accounting: vesting, the maintenance budget, fee payouts, the index of account members, and amounts as text
  (`CoinDays`, `LinearVesting`, `VestingBalance`, `Budget`, `Maintenance`, `FeePayout`, `Memberships`, `AmountText`).

`Constants`, `Arithmetic`, `Wrappers`, `Maps`, `Stacks` and `Sums` are small tools. `dafny verify dfyconfig.toml` checks everything.

## How it is built

What the node computes is written as functions on values; what it does step by step is written as methods of classes, with
the loops of the original, whose contracts tie the new fields to those functions or state outright what is promised. What is
promised for whole runs is proved about the functions. Results the original gets by throwing are `None`, `ok == false`, or a
named outcome; an operation that throws is undone, which the undo database part justifies.

Assumptions: the time is after every hardfork; a product of an amount and a price is the floor of the exact quotient; prices
compare by cross-multiplication, and prices in different assets by the assets' ids; ids come from counters, so that a later object has a larger id; a block's number is its
parent's plus one; applying a block is a deterministic partial function of state and block; ids of blocks do not collide.

## What the code does not do

Where the code falls short of what its documentation or its assertions say, the model follows the code, and the exact
condition is proved.

- A fork switch is not always all or nothing: `SwitchIsAtomicIff`, and in terms of the node before the push `UsualIsAtomicIff`
  and `ChainIsAtomicIff`; `LedgerSwitchBreaks`, `GenesisForkBreaks`.
- Sessions nested deeper than the size limit lose changes: `TakesEffectIff`.
- The asset that backs another may change while the feeds stay, which are quoted in the old one. A settlement request then
  meets a price that is not in the backing asset, the comparison throws, and with it the run at the end of every block:
  `OptionsAskewIff`, `ClearThrowsIff`, and from genesis `BackingChangeBlocks`. An asset may even be said to back itself, and
  then margin calls throw as long as there is a feed: `SelfBackedStops`.
- The search for a position to settle against starts at one share for the most there can be, and there is no limit on what
  a position owes; so there may be positions and none is found: `ServeLoop`, `PositionNotFound`.
- Creating an asset mints core unless the fee is an even amount of core: `CreationConservesIff`, `RunConservesIff`,
  `OddFeeMints`.
- The flag that a bid was used up is not reset during a run of margin calls, so later on a live bid is stepped over:
  `CursorStaysIff`, `BidSteppedOver`.
- A margin call can use up all collateral and leave a debt (`LeftBareIff`, `LeavesBare`); over whole runs no such position is
  left, because the same run settles the asset (`CallLoopCovered`).
- The swan check is to look at the least collateralised position, by its comment. It looks at the one with the lowest call price,
  which a call that fills in part does not adjust, and so a position may have reached bids and feed without being noticed:
  `SwanFoundIff`, `CurrentIsLeast`, `SwanOverlooked`. The comment also rules out swans while there are no bids; the code then
  goes by the feed alone: `SwanSaidIff`.
- A settlement request for nothing is accepted; it goes when it comes due, and nothing else changes: `EmptyRequestGoes`.
- A holder of a globally settled asset is refused once its feed has ended: `PaidIff`, `HolderRefused`.
- A deposit that is to vest at once overflows a 64-bit product when it is large: `VestsAtOnceIff`.
- Deposits into linear vesting balances are not refused, though they are documented not to be possible: `RunHoldsIff`.
- A summary up to the head reads out of bounds when there are more undo states than blocks, as when a session for pending
  transactions is open while nothing has been trimmed: `InBoundsIff`, `OutOfBoundsAtHead`.
- The answer to a summary starts with the last shared entry, and is documented to start after it: `BlockIds` has when it does.

## Model

| member | source | states |
|---|---|---|
| UndoDelta.RewindExact | GameChainBaseCore/libraries/db/undo_database.cpp:95-125 | rewinding by a recorded state restores exactly the objects and next-id counters from before it |
| UndoDelta.RecordExact | GameChainBaseCore/libraries/db/undo_database.cpp:47-93 | what the three hooks record is exactly how the database has changed since the state was opened |
| UndoDelta.MergeFollowsMatrix | GameChainBaseCore/libraries/db/undo_database.cpp:134-172 | merging is the documented 4x4 matrix, object by object, and no cell marked N/A is ever met, so the assertions at 190 and 234 hold |
| UndoDelta.NoResurrection | GameChainBaseCore/libraries/db/undo_database.cpp:189-190 | a removed object never comes back under its id, which is why del+upd and del+del cannot happen |
| UndoDelta.ComposeExact | GameChainBaseCore/libraries/db/undo_database.cpp:174-237 | the merged state says exactly what the two states say one after the other |
| UndoDelta.RewindCompose | GameChainBaseCore/libraries/db/undo_database.cpp:127-240 | rewinding by the merged state is rewinding by the newer and then by the older state |
| UndoMachine.StepRefines | GameChainBaseCore/libraries/db/undo_database.cpp:33-283 | each of create, modify, remove, start, undo, merge, commit, pop, enable, disable and resize on deltas is the same operation on a stack of full copies |
| UndoMachine.RunRefines | GameChainBaseCore/libraries/db/undo_database.cpp:33-283 | over every run the deltas leave the database exactly as full copies would |
| UndoSessions.SnapExecBalanced | GameChainBaseCore/libraries/db/undo_database.cpp:127-139 | a program of nested sessions no deeper than the limit keeps the stack below it and acts as its kept changes |
| UndoSessions.SessionsAreTransactions | GameChainBaseCore/libraries/db/undo_database.cpp:33-240 | what an abandoned session did leaves no trace, what a merged one did is as if there had been no session, for every nesting up to the limit |
| UndoSessions.NestedSize | GameChainBaseCore/libraries/db/undo_database.cpp:40-44 | how many states are left on the stack inside k nested sessions |
| UndoSessions.TakesEffectIff | GameChainBaseCore/libraries/db/undo_database.cpp:40-41 | a change inside k sessions that are all merged takes effect if and only if k is within the limit; with one session more the merge throws, and from there on the change is lost at any depth |
| UndoDatabase.Database.Create | GameChainBaseCore/libraries/db/undo_database.cpp:47-59 | creating an object in place is the specified step, on deltas and on full copies |
| UndoDatabase.Database.Modify | GameChainBaseCore/libraries/db/undo_database.cpp:60-72 | the same for modifying |
| UndoDatabase.Database.Remove | GameChainBaseCore/libraries/db/undo_database.cpp:73-93 | the same for removing, in all three earlier relations of the object to the state |
| UndoDatabase.Database.StartUndoSession | GameChainBaseCore/libraries/db/undo_database.cpp:33-46 | the same for a new session, with the trimming loop |
| UndoDatabase.Database.Undo | GameChainBaseCore/libraries/db/undo_database.cpp:95-125 | the four restoring loops give the database of the matching copy; refused exactly when disabled or without a session |
| UndoDatabase.Database.PopCommit | GameChainBaseCore/libraries/db/undo_database.cpp:247-283 | the same for a committed state |
| UndoDatabase.Database.Merge | GameChainBaseCore/libraries/db/undo_database.cpp:127-240 | the four merging loops compute the composition of the two states |
| UndoDatabase.MergeInto | GameChainBaseCore/libraries/db/undo_database.cpp:176-237 | the loops over the newer state, run in place, leave the composition, and both assertions hold on the way |
| ForkDatabase.FetchBranchFrom | GameChainBaseCore/libraries/chain/fork_database.cpp:199-241 | ends with two parent-linked chains from the given blocks whose last elements share a parent; throws exactly when no such pair exists |
| ForkDatabase.MeetAtTip | GameChainBaseCore/libraries/chain/fork_database.cpp:226-239 | the last elements coincide exactly when one block is an ancestor of the other |
| ForkDatabase.DisjointAbove | GameChainBaseCore/libraries/chain/fork_database.cpp:226-239 | above the meeting point the two chains share no block |
| ForkDatabase.BranchesAgree | GameChainBaseCore/libraries/chain/fork_database.cpp:202-218 | two chains back from the same block agree as far as both go |
| ForkDatabase.Tree.PushBlock | GameChainBaseCore/libraries/chain/fork_database.cpp:74-106 | accepted exactly when young enough and linked; the tree, its head and the pruning afterwards |
| ForkDatabase.Tree.SetMaxSize | GameChainBaseCore/libraries/chain/fork_database.cpp:129-158 | keeps exactly the blocks within the new limit |
| ForkDatabase.PushedTree | GameChainBaseCore/libraries/chain/fork_database.cpp:74-106 | after a push the block is known, the head is it if it is higher, and exactly the blocks more than the limit below a new head are gone |
| ForkDatabase.WithinLimit | GameChainBaseCore/libraries/chain/fork_database.cpp:129-158 | after a new limit exactly the blocks within it of the head are left |
| ForkSwitch.SwitchOutcome | GameChainBaseCore/libraries/chain/db_block.cpp:143-191 | a switch ends on the new branch applied to the state at the fork if all its blocks are valid; otherwise in the state before the push, if and only if the way back is open |
| ForkSwitch.SwitchIsAtomicIff | GameChainBaseCore/libraries/chain/db_block.cpp:143-191 | a push that switches is all or nothing exactly when the new branch is valid or the undo states and parents for the way back are left, one fewer where the old head is an ancestor of the new tip |
| ForkSwitch.UsualIsAtomicIff | GameChainBaseCore/libraries/chain/db_block.cpp:143-191 | for a branch one block higher from a known block: exactly when the new branch is valid from the state at the fork, or each of its blocks that applies from there on asks for undo back to the fork, or the old head is the parent of the new tip |
| ForkSwitch.ChainIsAtomicIff | GameChainBaseCore/libraries/chain/db_update.cpp:98-99 | under the chain's undo depth of head - irreversible + 1 the second of these is that the irreversible block is no higher than the first above the fork whenever a block applies |
| ForkSwitch.LedgerSwitchRestores | GameChainBaseCore/libraries/chain/db_block.cpp:162-188 | an instance with that depth, in which an invalid second block takes everything back |
| ForkSwitch.LedgerSwitchBreaks | GameChainBaseCore/libraries/chain/db_block.cpp:162-188 | and one in which the new branch makes its own second block irreversible, its fourth is invalid, and the node is left on it |
| ForkSwitch.GenesisForkBreaks | GameChainBaseCore/libraries/chain/fork_database.cpp:39-45 | and it is not when two chains part at genesis: the recovery throws and leaves the node on the losing branch |
| ForkSwitch.SwitchedBacked | GameChainBaseCore/libraries/chain/db_block.cpp:152-164 | after a switch the undo states lead back through the new branch into the common blocks |
| ForkSwitch.RestoredBacked | GameChainBaseCore/libraries/chain/db_block.cpp:175-186 | after one that was taken back they lead through the old branch into the common blocks, as before |
| ForkSwitch.BrokenBacked | GameChainBaseCore/libraries/chain/db_block.cpp:175-186 | after a recovery that got stuck they lead through the part of the new branch that is left into the common blocks |
| ForkSwitch.PopDownExact | GameChainBaseCore/libraries/chain/db_block.cpp:148-150 | popping to the fork restores the state before the first block above it |
| BlockChain.Chain.PopBlock | GameChainBaseCore/libraries/chain/db_block.cpp:418-431 | takes back exactly the last block, or throws as specified |
| BlockChain.Chain.ApplyBranch | GameChainBaseCore/libraries/chain/db_block.cpp:152-163 | the loop over the new branch, up to its first invalid block |
| BlockChain.Chain.Switch | GameChainBaseCore/libraries/chain/db_block.cpp:146-191 | the loops of a switch compute the specified outcome |
| BlockChain.Chain.PushBlock | GameChainBaseCore/libraries/chain/db_block.cpp:129-208 | each outcome exactly when it should, on the state before the push: the block is the next one if and only if it applies on the head and the head of the tree (unless the tree is skipped) is on top of the chain; the push is ignored if and only if the head of the tree is elsewhere and no higher; the chain switches if and only if that head is higher and its branch meets the chain; otherwise it is refused. A switch ends on the new tip in the state its branch leads to, exactly when that branch is valid from the fork on, and otherwise in the state before it or on a block of the new branch; undo leads back through the blocks left in each case |
| BlockChain.Chain.FollowHead | GameChainBaseCore/libraries/chain/db_block.cpp:137-191 | a head of the tree that is elsewhere: ignored exactly when it is no higher, refused exactly when its branch never meets the chain, and otherwise switched to, through the branches of both heads |
| MarketFill.TradeFits | GameChainBaseCore/libraries/chain/db_market.cpp:226-247 | a match uses up at least one order and overfills neither |
| MarketFill.TradeFair | GameChainBaseCore/libraries/chain/db_market.cpp:226-244 | when prices cross, each side gets at least the floor of what its own limit price demands for what it pays |
| MarketFill.MatchHeld | GameChainBaseCore/libraries/chain/db_market.cpp:216-254 | a match creates and destroys nothing in any asset, fees included |
| MarketFill.MatchResult | GameChainBaseCore/libraries/chain/db_market.cpp:206-254 | the returned bits say exactly who is gone, and somebody is |
| MarketFill.FillLimitHeld | GameChainBaseCore/libraries/chain/db_market.cpp:295-335 | filling a limit order moves what it pays out of the books and what it receives in |
| MarketFill.FillLimitOrder | GameChainBaseCore/libraries/chain/db_market.cpp:320-334 | an order is gone or reduced by what it paid, and a culling fill leaves no dust |
| MarketFill.FillCallHeld | GameChainBaseCore/libraries/chain/db_market.cpp:338-389 | debt that is bought back leaves supply and debts, collateral that is paid leaves the books, the rest goes to the borrower |
| MarketFill.FillSettleHeld | GameChainBaseCore/libraries/chain/db_market.cpp:391-415 | the same for a settlement request |
| MarketFill.CancelLimitHeld | GameChainBaseCore/libraries/chain/db_market.cpp:111-133 | cancelling gives back what was for sale and the deferred fee |
| MarketFill.FeeAtMost | GameChainBaseCore/libraries/chain/db_market.cpp:561-584 | the market fee never exceeds the amount it is taken from |
| Effects.FeeIs | GameChainBaseCore/libraries/chain/db_market.cpp:561-579 | the market fee is the percentage of the amount, rounded down, and the maximum if that is less |
| Effects.PayOutEffect | GameChainBaseCore/libraries/chain/db_market.cpp:581-597 | who is paid gains the amount less the fee, the fee is accumulated, and nobody else gains anything |
| Effects.FillLimitEffect | GameChainBaseCore/libraries/chain/db_market.cpp:295-335 | what filling an order does to every account and row: the seller gains what is received less the fee, and what is left if that is culled, exactly when it asks for nothing; the deferred fee is pending |
| Effects.TradeEffect | GameChainBaseCore/libraries/chain/db_market.cpp:226-244 | a trade is at the resting order's price: one side is used up, and the other gives the exact quotient rounded down, bounded from both sides |
| Effects.MatchEffect | GameChainBaseCore/libraries/chain/db_market.cpp:206-254 | a match at the resting order's price, on all balances: each seller gains what the other order pays less the fee, the resting one what is culled, and nobody else anything; what is left of both orders |
| Effects.FillCallEffect | GameChainBaseCore/libraries/chain/db_market.cpp:338-389 | what a position buys leaves circulation, and its borrower gains the rest of the collateral exactly when its debt is paid |
| Effects.ExecuteEffect | GameChainBaseCore/libraries/chain/db_market.cpp:516-542 | a margin call buys the debt or the bid, whichever is less, at the bid's price, rounded down; the bidder gains the payment less the fee, the borrower what is left, and nobody else anything |
| Effects.FillSettleEffect | GameChainBaseCore/libraries/chain/db_market.cpp:391-415 | the owner of a request gains what it receives less the fee, and nobody else anything |
| Effects.CancelLimitEffect | GameChainBaseCore/libraries/chain/db_market.cpp:111-133 | the seller gains what was for sale and the deferred fee, and nobody else anything |
| Effects.CancelSettleEffect | GameChainBaseCore/libraries/chain/db_market.cpp:96-109 | the owner gains what the request was for, and nobody else anything |
| Sound.SomebodyOwes | GameChainBaseCore/libraries/chain/db_update.cpp:396-399 | an unsettled asset circulates exactly when some position owes it |
| MarginCalls.CloseAllHeld | GameChainBaseCore/libraries/chain/db_market.cpp:66-78 | closing all positions takes exactly what was gathered out of the books |
| MarginCalls.GlobalSettleSound | GameChainBaseCore/libraries/chain/db_market.cpp:44-94 | global settlement ends, conserves every asset, closes every position and leaves a fund that covers the supply |
| MarginCalls.GlobalSettleTerms | GameChainBaseCore/libraries/chain/db_market.cpp:80-92 | the settlement price is the supply before for what was gathered, which is the fund; the supply is put back, and no other asset, order or request changes |
| GlobalSettlement.CloseAllPays | GameChainBaseCore/libraries/chain/db_market.cpp:64-78 | closing all positions: each pays what its debt is worth, rounded down, or all its collateral if that is less; what is gathered is the sum, and each borrower gains exactly the rest of the collateral |
| GlobalSettlement.GlobalSettlePays | GameChainBaseCore/libraries/chain/db_market.cpp:44-94 | so the fund is the sum of what the positions pay, and every account has gained the rest of its collateral and nothing else |
| MarginCalls.CheckSwanSound | GameChainBaseCore/libraries/chain/db_update.cpp:200-255 | a swan check keeps the books sound, changes nothing unless it settles, and throws only on a swan that is not allowed or a feed not quoted in what backs the asset |
| CallRuns.SwanAtIff | GameChainBaseCore/libraries/chain/db_update.cpp:226-240 | there is a swan exactly when the collateral of the position with the lowest call price is worth no more than its debt at the feed and to every bid |
| CallRuns.CheckSwanEffect | GameChainBaseCore/libraries/chain/db_update.cpp:200-255 | the check settles the asset at the terms of that position exactly when there is a swan and swans are allowed, throws exactly on one that is not allowed or an asset with a feed that backs itself, and changes nothing otherwise |
| LeastCollateral.SwanFoundIff | GameChainBaseCore/libraries/chain/db_update.cpp:191-255 | whatever the feed, the check finds a swan whenever the least collateralised position has reached bids and feed, if and only if no position that reaches the bids has less collateral for its debt than the first by call price |
| LeastCollateral.SwanSaidIff | GameChainBaseCore/libraries/chain/db_update.cpp:191-255 | it agrees with its comment, by which there is none without a bid, if and only if there is a bid besides |
| LeastCollateral.CurrentIsLeast | GameChainBaseCore/libraries/chain/db_market.cpp:345-354 | the condition holds while all call prices come from the present amounts at one ratio |
| Shortfalls.SwanOverlooked | GameChainBaseCore/libraries/chain/db_update.cpp:226-236 | a market in good order, with positions as a partial call leaves them, in which the check finds nothing and the second position has reached the feed |
| MarginLoop.NeverOverdrawn | GameChainBaseCore/libraries/chain/db_market.cpp:507-533 | the test on the whole debt makes the collateral assertion at 343 hold in the full and in the partial branch |
| MarginLoop.ExecuteShrinks | GameChainBaseCore/libraries/chain/db_market.cpp:535-542 | every margin call removes a position or an order |
| MarginLoop.ExecuteSound | GameChainBaseCore/libraries/chain/db_market.cpp:516-542 | a margin call keeps conservation and debts equal to supply |
| CheckCalls.CallLoopSound | GameChainBaseCore/libraries/chain/db_market.cpp:467-544 | the loop ends with sound books; orders only shrink and leave no dust; it throws only on a forbidden swan or a feed that is askew |
| CheckCalls.CheckCallOrdersSound | GameChainBaseCore/libraries/chain/db_market.cpp:429-547 | the same for the whole run, which changes nothing if it calls nothing and swans are forbidden |
| CallRuns.TurnIs | GameChainBaseCore/libraries/chain/db_market.cpp:467-514 | a turn calls the position with the lowest call price against the best bid within the squeeze limit exactly when its call price has reached feed and bid and its collateral pays for its debt; when it does not pay, the asset is settled at the feed; otherwise the run is over |
| CallRuns.CallLoopCalls | GameChainBaseCore/libraries/chain/db_market.cpp:464-544 | the loop is a sequence of such calls, each with its payments, up to the turn that must end it, with its result |
| CallRuns.CheckCallOrdersCalls | GameChainBaseCore/libraries/chain/db_market.cpp:429-547 | the same for the whole run, which calls nobody in an asset that is settled, has no feed or is a prediction market |
| CheckCalls.CursorStaysIff | GameChainBaseCore/libraries/chain/db_market.cpp:464-541 | a bid that survives a call stays the cursor exactly when no bid was used up before in the run, since the flag is never reset |
| Shortfalls.BidSteppedOver | GameChainBaseCore/libraries/chain/db_market.cpp:464-541 | a market in good order in which a run ends beside a bid and a position that the next run does call |
| OrderBook.MatchLoopSound | GameChainBaseCore/libraries/chain/db_market.cpp:177-188 | matching ends, and if the taker is left no offer on the other side overlaps with it |
| Trades.MatchLoopTrades | GameChainBaseCore/libraries/chain/db_market.cpp:169-188 | a new order trades with one offer after the other, always the best and of equal ones the oldest, at the offer's price, until it is used up or nothing overlaps with it |
| OrderBook.ApplyOrderSound | GameChainBaseCore/libraries/chain/db_market.cpp:156-204 | a new order on an uncrossed book without dust leaves an uncrossed book without dust and sound books; the result says whether the order is gone; it throws only if a feed of one of its assets is askew |
| Trades.ApplyOrderApplies | GameChainBaseCore/libraries/chain/db_market.cpp:147-204 | what becomes of a new order: margin calls in both assets, trades with the book, margin calls again, and what is left is given back exactly when it asks for nothing |
| Coverage.LeftBareIff | GameChainBaseCore/libraries/chain/db_market.cpp:517-533 | a margin call leaves a position with debt but no collateral exactly when the bid is smaller than the debt and costs all of it, rounded down |
| Shortfalls.LeavesBare | GameChainBaseCore/libraries/chain/db_market.cpp:517-533 | a market in good order whose next margin call does |
| Coverage.CallLoopCovered | GameChainBaseCore/libraries/chain/db_market.cpp:467-544 | but no run of margin calls ends with one: the next swan check settles the asset |
| ForceSettlement.MaxVolumeStable | GameChainBaseCore/libraries/chain/asset_object.cpp:33-44 | the volume limit does not move while settlements use it up |
| ForceSettlement.LimitIs | GameChainBaseCore/libraries/chain/asset_object.cpp:33-44 | it is the permitted percentage of what circulates and what has been settled, rounded down |
| ForceSettlement.LimitAtMost | GameChainBaseCore/libraries/chain/asset_object.cpp:33-44 | it never exceeds what circulates and what has been settled |
| ForceSettlement.AlwaysAPosition | GameChainBaseCore/libraries/chain/db_update.cpp:396-399 | the search finds a position only if the asset circulates, and always does if no position is without collateral or owes more than there can be of anything |
| Shortfalls.PositionNotFound | GameChainBaseCore/libraries/chain/db_update.cpp:396-399 | a position that owes more than the maximum for each unit of collateral is not found, and the run throws |
| ForceSettlement.OutrunFaint | GameChainBaseCore/libraries/chain/db_update.cpp:396-399 | the positions that are found run out only if some position is too faint to be found |
| ForceSettlement.ServeSound | GameChainBaseCore/libraries/chain/db_market.cpp:262-293 | one settlement match keeps all books |
| ForceSettlement.SliceEffect | GameChainBaseCore/libraries/chain/db_market.cpp:262-293 | one settlement match: as many units as are requested, may be settled and are owed, at the request's price, rounded down, which leaves some collateral; the owner gains the payment less the fee, the borrower the rest of the collateral when the debt is paid, and nobody else anything |
| ForceSettlement.SwanIff | GameChainBaseCore/libraries/chain/db_market.cpp:276-284 | it fails as a swan exactly when the payment would take all the collateral or more |
| ForceSettlement.TurnEffect | GameChainBaseCore/libraries/chain/db_update.cpp:392-416 | each match is with the least collateralised position that the search finds, and of equal ones the oldest |
| ForceSettlement.PaymentIs | GameChainBaseCore/libraries/chain/db_update.cpp:383-386 | the owner of a request is to get what the feed says it is worth, rounded down, less the offset, rounded down, bounded from both sides |
| ForceSettlement.ServeLoop | GameChainBaseCore/libraries/chain/db_update.cpp:392-416 | serving a request is one such match after the other, from one volume to the next, until the request is gone or the volume is used up exactly; it is withdrawn, and its owner gets back what is left, exactly when it asks for nothing or the next position would have to give all it has. It is refused exactly when something is wanted and the feed is askew, or what the positions found owe is less than wanted and none of them is a swan |
| ForceSettlement.SettleOneDeals | GameChainBaseCore/libraries/chain/db_update.cpp:383-422 | a due request is served at one price for all of it, what the feed says less the offset, up to the limit, and what has been settled is booked; no other request, order or asset is touched; or it is refused exactly in that case |
| ForceSettlement.EmptyRequestGoes | GameChainBaseCore/libraries/chain/db_update.cpp:402-407 | a due request for nothing goes without a position being looked at, and nothing else changes |
| ClearSettlements.ClearFrom | GameChainBaseCore/libraries/chain/db_update.cpp:287-424 | the run goes over the requests by asset, date and id: one whose asset is settled or, when due, has no feed is given back, one that is due and may be settled is dealt with as above, and the rest of an asset is passed over. It ends; afterwards every request left waits for its date or for new volume, nothing that was not due has been touched, and volumes are within limits; it throws if a pressing request meets a feed that is askew, and otherwise only for positions too faint to be found |
| ClearSettlements.SkippedNext | GameChainBaseCore/libraries/chain/db_update.cpp:365-381 | a request that is still there after it was served is skipped the next time, which is why the run ends |
| Coverage.ApplyOrderCovered | GameChainBaseCore/libraries/chain/db_market.cpp:156-204 | a new order leaves collateral behind every position |
| Operations.PlacedSound | GameChainBaseCore/libraries/chain/market_evaluator.cpp:73-93 | a new order with its fee booked and not yet taken starts from sound books |
| Operations.CreateLimitKeeps | GameChainBaseCore/libraries/chain/market_evaluator.cpp:41-98 | a new limit order, from booking its fee to taking it, keeps the market healthy, or throws |
| OperationEffects.CreateLimitDoes | GameChainBaseCore/libraries/chain/market_evaluator.cpp:41-98 | a new limit order: when it is refused, what leaves the balance, what becomes of it, and the fee |
| Operations.CancelOrderKeeps | GameChainBaseCore/libraries/chain/market_evaluator.cpp:100-126 | cancelling keeps the market healthy, and succeeds for the seller of an open order unless a feed of its assets is askew |
| OperationEffects.CancelOrderDoes | GameChainBaseCore/libraries/chain/market_evaluator.cpp:100-126 | only the seller cancels, gains what is left and the deferred fee, and margin calls in both assets follow |
| Operations.TakeFeeSound | GameChainBaseCore/libraries/chain/include/graphene/chain/evaluator.hpp:162-175 | fees taken last keep the books |
| OperationEffects.ConvertBooks | GameChainBaseCore/libraries/chain/evaluator.cpp:82-107 | a fee in another asset is accumulated there and its worth taken from that asset's pool; the payer has its worth pending |
| OperationEffects.TakeFeeTakes | GameChainBaseCore/libraries/chain/include/graphene/chain/evaluator.hpp:162-175 | exactly what is due is taken from the payer, and the operation fails exactly if it is not there |
| Operations.ConvertHeld | GameChainBaseCore/libraries/chain/evaluator.cpp:82-93 | converting a fee takes its worth out of the fee pool and nothing else |
| UpdateCall.AppliedSound | GameChainBaseCore/libraries/chain/market_evaluator.cpp:168-239 | new debt is new supply, and collateral only changes places |
| UpdateCall.NotCalledStays | GameChainBaseCore/libraries/chain/market_evaluator.cpp:258-272 | when no call was made the position is unchanged, so the assertion on it holds, and what decides is whether the feed is above its call price |
| UpdateCall.UpdateKeeps | GameChainBaseCore/libraries/chain/market_evaluator.cpp:128-276 | opening, changing and closing a position keeps the market healthy, or throws |
| OperationEffects.UpdateDoes | GameChainBaseCore/libraries/chain/market_evaluator.cpp:128-276 | a change of position goes through exactly when the account has the collateral and the units, both amounts end above zero or both at zero, and afterwards, unless it is in a prediction market, the position has been used up if anybody was called and is protected by the feed if not; the borrower gains the new debt and loses the new collateral |
| AssetOperations.FundSuffices | GameChainBaseCore/libraries/chain/asset_evaluator.cpp:462-466 | after global settlement the assertion on the fund never fails, whatever has been redeemed before and in whatever portions |
| AssetOperations.PaidIff | GameChainBaseCore/libraries/chain/asset_evaluator.cpp:441-455 | a holder is paid if and only if the asset is a prediction market or still has a feed |
| Shortfalls.HolderRefused | GameChainBaseCore/libraries/chain/asset_evaluator.cpp:441-455 | a market in good order whose fund would pay a holder who is refused |
| AssetOperations.RedeemSound | GameChainBaseCore/libraries/chain/asset_evaluator.cpp:457-481 | redeeming keeps fund * initial supply >= supply * initial fund |
| AssetOperations.SettleKeeps | GameChainBaseCore/libraries/chain/asset_evaluator.cpp:441-490 | settling, at once or by request, keeps the market healthy |
| OperationEffects.SettleDoes | GameChainBaseCore/libraries/chain/asset_evaluator.cpp:441-490 | a settled asset is redeemed at the settlement price, rounded down, out of the fund to the holder; otherwise the units wait in a new request |
| AssetOperations.SettleAllKeeps | GameChainBaseCore/libraries/chain/asset_evaluator.cpp:414-439 | global settlement by the issuer does |
| OperationEffects.SettleAllDoes | GameChainBaseCore/libraries/chain/asset_evaluator.cpp:414-439 | the issuer settles all of an asset exactly when the least collateralised position that is found can pay its debt at the price; every borrower gains the rest of the collateral |
| AssetOperations.NewFeedKeeps | GameChainBaseCore/libraries/chain/asset_evaluator.cpp:492-555 | a new median with its margin calls, which are made only if it is a different one or was not just published, does; it goes through if it is quoted in what backs the asset |
| OperationEffects.NewFeedSets | GameChainBaseCore/libraries/chain/asset_evaluator.cpp:492-555 | a new median is booked, and a whole run of margin calls follows unless it was published and is like the old one |
| AssetOperations.NewOptionsKeep | GameChainBaseCore/libraries/chain/asset_evaluator.cpp:317-367 | new options keep the market healthy, whatever comes to back an asset without supply |
| AssetOperations.OptionsAskewIff | GameChainBaseCore/libraries/chain/asset_evaluator.cpp:352-367 | the feed stays as it is unless another number of feeds is needed; so they set a feed askew exactly when there is one and the backing changes, and right again exactly by changing back to what it is quoted in |
| AssetOperations.IssueKeeps | GameChainBaseCore/libraries/chain/asset_evaluator.cpp:158-184 | issuing adds the same to supply and holdings |
| AssetOperations.ReserveKeeps | GameChainBaseCore/libraries/chain/asset_evaluator.cpp:186-216 | reserving takes the same from both |
| AssetOperations.TransferKeeps | GameChainBaseCore/libraries/chain/transfer_evaluator.cpp:31-82 | a transfer moves units |
| AssetOperations.ClaimKeeps | GameChainBaseCore/libraries/chain/asset_evaluator.cpp:559-585 | claiming fees moves units |
| AssetOperations.FundPoolKeeps | GameChainBaseCore/libraries/chain/asset_evaluator.cpp:218-238 | funding a fee pool moves units |
| OperationEffects.TransferMoves | GameChainBaseCore/libraries/chain/transfer_evaluator.cpp:31-82 | a transfer goes through exactly when the sender has the amount; the sender loses it, the receiver gains it, and nobody else anything |
| OperationEffects.IssueAdds | GameChainBaseCore/libraries/chain/asset_evaluator.cpp:158-184 | issuing goes through exactly up to the maximum supply, and the receiver gains what the supply does |
| OperationEffects.ReserveTakes | GameChainBaseCore/libraries/chain/asset_evaluator.cpp:186-216 | reserving takes the same from the holder and from the supply |
| OperationEffects.ClaimPays | GameChainBaseCore/libraries/chain/asset_evaluator.cpp:559-585 | the issuer gains what the accumulated fees lose |
| OperationEffects.FundPoolFunds | GameChainBaseCore/libraries/chain/asset_evaluator.cpp:218-238 | the pool gains the core that the account loses |
| AssetCreation.CreateAssetKeeps | GameChainBaseCore/libraries/chain/asset_evaluator.cpp:122-156 | creating an asset keeps the market healthy, up to the core it makes from nothing |
| OperationEffects.CreateAssetDoes | GameChainBaseCore/libraries/chain/asset_evaluator.cpp:94-156 | half of the fee, rounded up, is pending and as much in the new pool; the payer loses the whole fee |
| AssetCreation.CreationConservesIff | GameChainBaseCore/libraries/chain/asset_evaluator.cpp:94-128 | it conserves core if and only if its fee is an even amount of core or worth nothing: the fee is halved before it is converted, rounding up, and goes into the new pool once more |
| Shortfalls.OddFeeMints | GameChainBaseCore/libraries/chain/asset_evaluator.cpp:94-128 | a fee of one in a world with one unit of core makes two |
| MarketRun.ClearKeeps | GameChainBaseCore/libraries/chain/db_update.cpp:287-424 | the settlement run of a healthy market leaves a healthy one with everything due dealt with, or throws as said |
| MarketRun.ClearThrowsIff | GameChainBaseCore/libraries/chain/db_update.cpp:287-424 | as long as no unsettled asset has more supply than the maximum, it throws if and only if a pressing request meets a feed that is askew |
| Shortfalls.BackingChangeBlocks | GameChainBaseCore/libraries/chain/asset_evaluator.cpp:352-367 | from genesis, six operations after which it does: an asset gets a feed, another asset comes to back it, somebody borrows it and asks for settlement |
| MarketRun.RunKeeps | GameChainBaseCore/libraries/chain/db_debug.cpp:51-81 | over every run: what is held of each asset is its supply, and in core also what creating assets has minted; debts equal supply until settlement, the fund covers it afterwards, no orders cross or ask for nothing, every position has collateral |
| MarketEffects.ResultHappens | GameChainBaseCore/libraries/chain/db_update.cpp:262-425 | every event of such a run, operations with their fees, new medians and new intervals, does to every account and row exactly what the relations above say, and fails exactly when they say; a settlement run that does not throw goes turn by turn as said |
| MarketRun.RunConservesIff | GameChainBaseCore/libraries/chain/db_debug.cpp:51-81 | a run conserves core if and only if every asset creation in it has paid an even fee in core or nothing; other assets it always conserves |
| MarketRun.AlwaysPaid | GameChainBaseCore/libraries/chain/asset_evaluator.cpp:462-466 | after every run the fund pays any balance of a settled asset |
| MarketRun.GenesisHealthy | GameChainBaseCore/libraries/chain/db_debug.cpp:51-81 | such runs can start with nothing but core in accounts; all other assets are created in them |
| ExpiredOrders.CheckCallOrdersRicher | GameChainBaseCore/libraries/chain/db_market.cpp:429-547 | margin calls never lower a balance |
| ExpiredOrders.ExpireSucceeds | GameChainBaseCore/libraries/chain/db_update.cpp:265-284 | cancelling an expired order at a fee capped by its deferred fee removes it, and throws only if a feed of its assets is askew |
| ExpiredOrders.ExpireCancels | GameChainBaseCore/libraries/chain/db_update.cpp:265-284 | it is a cancellation by the seller at the usual fee or the deferred one, whichever is less |
| ExpiredOrders.SelfBackedStops | GameChainBaseCore/libraries/chain/db_update.cpp:265-284 | it does throw when the asset for sale backs itself and has a feed |
| ExpiredOrders.ExpireAllSucceeds | GameChainBaseCore/libraries/chain/db_update.cpp:265-284 | so all expired orders go and the block goes on, unless a feed is askew |
| Exchange.Tables.MatchOrders | GameChainBaseCore/libraries/chain/db_market.cpp:216-254 | the match in place, at the resting order's price: the tables and result of the function that `MatchEffect` and `MatchResult` are about |
| Exchange.Tables.FillOrder | GameChainBaseCore/libraries/chain/db_market.cpp:295-335 | filling a limit order in place, with its fees |
| Exchange.Tables.FillPosition | GameChainBaseCore/libraries/chain/db_market.cpp:338-389 | filling a position in place |
| Exchange.Tables.SettleGlobally | GameChainBaseCore/libraries/chain/db_market.cpp:44-94 | the closing loop in place: the tables of the function that `GlobalSettlePays` is about |
| Exchange.Tables.CheckCallOrders | GameChainBaseCore/libraries/chain/db_market.cpp:429-547 | the margin call loop in place, with its flags and cursor: the tables and result of the function that `CheckCallOrdersCalls` is about |
| Exchange.Tables.MatchAll | GameChainBaseCore/libraries/chain/db_market.cpp:177-188 | the matching loop in place |
| Exchange.Tables.ApplyNew | GameChainBaseCore/libraries/chain/db_market.cpp:156-204 | the whole of a new order in place ends uncrossed, without dust and sound |
| Exchange.Tables.ServeAll | GameChainBaseCore/libraries/chain/db_update.cpp:392-416 | the inner settlement loop in place: a sequence of matches with the least collateralised positions at the given price, never beyond the volume, and refused exactly as said |
| Exchange.Tables.ClearRequests | GameChainBaseCore/libraries/chain/db_update.cpp:287-424 | the outer settlement loop in place: turn by turn over all requests, leaving only requests that wait, or throwing as said |
| Exchange.Tables.CreateOrder | GameChainBaseCore/libraries/chain/market_evaluator.cpp:73-98 | the evaluator steps of a new order in place |
| Exchange.Tables.CancelByOwner | GameChainBaseCore/libraries/chain/market_evaluator.cpp:100-126 | those of a cancellation |
| Exchange.Tables.NewAsset | GameChainBaseCore/libraries/chain/asset_evaluator.cpp:122-156 | those of a new asset |
| Exchange.Tables.UpdatePosition | GameChainBaseCore/libraries/chain/market_evaluator.cpp:168-276 | those of a change of position |
| Exchange.Tables.SettleAsset | GameChainBaseCore/libraries/chain/asset_evaluator.cpp:457-490 | those of a settlement |
| CoinDays.LazyIsExact | GameChainBaseCore/libraries/chain/vesting_balance_object.cpp:90-103 | earning coin-seconds over any time at once is earning them second by second up to the cap |
| CoinDays.RunAgrees | GameChainBaseCore/libraries/chain/vesting_balance_object.cpp:90-158 | over every run of deposits and withdrawals the lazily updated account is the one updated every second, and earned <= balance * max(vesting seconds, 1) |
| CoinDays.AllowedIsCovered | GameChainBaseCore/libraries/chain/vesting_balance_object.cpp:111-142 | what may be withdrawn is in the balance and has been earned, so the assertions at 117 and 139 hold |
| CoinDays.AllowedIff | GameChainBaseCore/libraries/chain/vesting_balance_object.cpp:111-119 | a withdrawal is allowed exactly when claims have started, the balance has it, and the vesting seconds have been earned for each of its units |
| CoinDays.NeverWraps | GameChainBaseCore/libraries/chain/vesting_balance_object.cpp:90-103 | coin-seconds fit into their 128-bit type |
| CoinDays.VestsAtOnceIff | GameChainBaseCore/libraries/chain/vesting_balance_object.cpp:126-130 | a deposit meant to vest at once does if and only if its coin-seconds fit into 63 bits |
| CoinDays.TooLargeToVest | GameChainBaseCore/libraries/chain/vesting_balance_object.cpp:126-130 | an amount that does not fit, and the account it leaves |
| CoinDays.VestedIff | GameChainBaseCore/libraries/chain/vesting_balance_object.cpp:111-119 | the whole balance may be withdrawn exactly when the cap is reached, and after the vesting period at the latest |
| LinearVesting.RunValid | GameChainBaseCore/libraries/chain/vesting_balance_object.cpp:37-68 | whatever is withdrawn when, never more is out than has vested, and the assertions at 59 and 62 hold all along |
| LinearVesting.RunHoldsIff | GameChainBaseCore/libraries/chain/vesting_balance_object.cpp:37-88 | over every run of withdrawals and deposits, which are not refused, the assertions hold all along if and only if no deposit takes the balance above what it was at the beginning |
| LinearVesting.DepositHoldsIff | GameChainBaseCore/libraries/chain/vesting_balance_object.cpp:74-78 | from any balance in order the assertions go on holding after a deposit if and only if it puts back no more than was withdrawn |
| LinearVesting.VestedGrows | GameChainBaseCore/libraries/chain/vesting_balance_object.cpp:49-56 | vesting never goes back |
| LinearVesting.VestedIs | GameChainBaseCore/libraries/chain/vesting_balance_object.cpp:49-56 | what has vested is the share of the time that has passed, rounded down, and all of it at the end |
| LinearVesting.AllowedIff | GameChainBaseCore/libraries/chain/vesting_balance_object.cpp:37-68 | a withdrawal is allowed exactly when the cliff has passed and what is out with it is within the share of the time that has passed |
| VestingBalance.Balance.Withdraw | GameChainBaseCore/libraries/chain/vesting_balance_object.cpp:198-232 | refused exactly when more than allowed is asked for; otherwise the specified account |
| VestingBalance.Balance.DepositVested | GameChainBaseCore/libraries/chain/vesting_balance_object.cpp:214-219 | throws exactly for a linear policy |
| Counting.LargestReached | GameChainBaseCore/libraries/chain/db_update.cpp:142-148 | the element at a place of the sorted list is the largest bound that all but so many elements reach |
| Irreversibility.RaisedIff | GameChainBaseCore/libraries/chain/db_update.cpp:124-157 | a block becomes irreversible exactly when enough active witnesses have confirmed it or a later one, and stays so |
| Irreversibility.EnoughIff | GameChainBaseCore/libraries/chain/db_update.cpp:140 | enough are exactly seventy percent of them, for any number of witnesses |
| Irreversibility.PushDoes | GameChainBaseCore/libraries/chain/db_update.cpp:43-157 | what a block does: it is refused exactly when it is bad or too far from the last irreversible one; otherwise it can be undone, the undo depth is head - irreversible + 1, and a block is irreversible afterwards exactly when it was, or seventy percent of the witnesses, the signer with this block included, have confirmed it |
| Irreversibility.NeverDecreases | GameChainBaseCore/libraries/chain/db_update.cpp:150-156 | over pushed blocks the last irreversible block never goes back and never passes the head |
| Irreversibility.RunReaches | GameChainBaseCore/libraries/chain/db_update.cpp:98-99 | however blocks are pushed, refused and popped, the trimmed undo stack leads back block by block to the highest that has been irreversible, whatever states were opened below |
| Irreversibility.GenesisReaches | GameChainBaseCore/libraries/db/include/graphene/db/undo_database.hpp:144 | such runs can start with a new chain |
| Irreversibility.CanRewind | GameChainBaseCore/libraries/db/undo_database.cpp:40-43 | and over pushed blocks it can be popped down to exactly the last irreversible one |
| Irreversibility.Tracker.UpdateLastIrreversible | GameChainBaseCore/libraries/chain/db_update.cpp:124-157 | the update in place |
| Irreversibility.Tracker.PushBlock | GameChainBaseCore/libraries/chain/db_update.cpp:43-100 | head, limits and undo stack after a block, when it is refused, and the state that is then opened on an empty stack |
| Schedule.SlotOfTime | GameChainBaseCore/libraries/chain/db_witness_schedule.cpp:72-78 | the slot at the start of a slot is that slot |
| Schedule.SlotTimeIs | GameChainBaseCore/libraries/chain/db_witness_schedule.cpp:42-70 | slots start at the interval: from genesis on at first, and then from the last multiple of the interval the head block has reached, with the slots skipped after maintenance in between |
| Schedule.SlotAtIff | GameChainBaseCore/libraries/chain/db_witness_schedule.cpp:42-78 | a time is in a slot exactly from its start to the start of the next, with or without maintenance slots skipped |
| Schedule.StartedIff | GameChainBaseCore/libraries/chain/db_witness_schedule.cpp:72-78 | a slot has started exactly if it is no later than the slot of the time, so that there is none before the first |
| Schedule.TimesStayIff | GameChainBaseCore/libraries/chain/db_witness_schedule.cpp:42-70 | slots keep their times when the head moves on, unless genesis was off the grid and this is the first block |
| Schedule.OneTurnEach | GameChainBaseCore/libraries/chain/db_witness_schedule.cpp:34-40 | under a fixed schedule each witness has exactly one of any n slots in a row |
| Schedule.ShuffledPermutes | GameChainBaseCore/libraries/chain/db_witness_schedule.cpp:95-116 | the shuffle permutes the active witnesses, whatever the random numbers |
| Schedule.AnyOrder | GameChainBaseCore/libraries/chain/db_witness_schedule.cpp:95-116 | every order of the active witnesses comes of exactly one choice of places to swap with |
| Schedule.PlaceIff | GameChainBaseCore/libraries/chain/db_witness_schedule.cpp:104-110 | each of the places left is chosen by one remainder of the random number |
| Schedule.FairRound | GameChainBaseCore/libraries/chain/db_witness_schedule.cpp:86-119 | in any n slots after it every active witness has exactly one turn |
| Schedule.Scheduler.Update | GameChainBaseCore/libraries/chain/db_witness_schedule.cpp:86-119 | the shuffle in place, at the end of a round only |
| Synopsis.PointsCount | GameChainBaseCore/libraries/app/application.cpp:831-843 | a summary has floor(log2(d+1))+1 entries for a span d, or fewer when more blocks follow |
| Synopsis.PointsEnd | GameChainBaseCore/libraries/app/application.cpp:831-843 | it ends at the high block when nothing follows |
| Synopsis.InBoundsIff | GameChainBaseCore/libraries/app/application.cpp:737-822 | every lookup of a summary is in bounds, except that one up to the head is exactly when there are no more undo states than blocks |
| Synopsis.GetSynopsis | GameChainBaseCore/libraries/app/application.cpp:730-847 | a whole summary: blocks of the chain or of the fork at strictly increasing heights from the first that can be undone, each halving what there is up to the top, floor(log2(d+1))+1 of them for a span d if nothing follows and then ending at the reference block; none for an empty chain, and refused for a fork that left too long ago |
| Synopsis.OutOfBoundsAtHead | GameChainBaseCore/libraries/app/application.cpp:737-822 | one block and two undo states |
| Synopsis.Summarise | GameChainBaseCore/libraries/app/application.cpp:831-846 | the loop ends and names the blocks at the points |
| Synopsis.PointsIncrease | GameChainBaseCore/libraries/app/application.cpp:832-843 | heights are strictly increasing and between low and high |
| Synopsis.PointAt | GameChainBaseCore/libraries/app/application.cpp:831-843 | each point named halves what there is from it up to the top, rounding down, and the points are all that are at or below the high block |
| Synopsis.PlanIs | GameChainBaseCore/libraries/app/application.cpp:737-822 | what a summary covers: from the first block that can be undone, or the reference if that is lower, up to the reference; nothing on a new chain, and refused for a fork that left before what can be undone |
| Synopsis.BlockIds | GameChainBaseCore/libraries/app/application.cpp:601-646 | the answer is a contiguous run from the highest shared entry, that entry included if and only if it is a block and not the zero id, and what remains is counted |
| Synopsis.SharedIsBest | GameChainBaseCore/libraries/app/application.cpp:624-633 | the peer recognises exactly the entries up to the last common block |
| Synopsis.AnswerHelps | GameChainBaseCore/libraries/app/application.cpp:601-646 | whatever the summarised chain and the peer's, on a fork or not, the answer starts at a common block and reaches past the last one if there is room for half of what is above its start |
| Budget.ProcessSound | GameChainBaseCore/libraries/chain/db_maint.cpp:371-466 | the budget conserves core and never brings more into circulation than the maximum, for any workers, times and leftovers |
| Budget.NeverOutOfReach | GameChainBaseCore/libraries/chain/db_maint.cpp:346-365 | as long as there is a reserve and time has passed, some of it is released, since budgets are rounded up |
| Budget.BudgetsAre | GameChainBaseCore/libraries/chain/db_maint.cpp:320-420 | the total is the reserve's share for the time passed, rounded up, witnesses have their pay for all blocks until the next maintenance, workers their daily budget for the time until then, rounded down, each as far as there is budget |
| Budget.ProcessTerms | GameChainBaseCore/libraries/chain/db_maint.cpp:371-466 | fees are gone, the budget of witnesses is the new one, and workers get no more than theirs |
| Budget.ApprovalCounts | GameChainBaseCore/libraries/chain/db_maint.cpp:129-156 | a worker is paid only if every worker with more approval has been paid in full |
| Budget.PaidInOrder | GameChainBaseCore/libraries/chain/db_maint.cpp:137-156 | whoever gets less than asked for leaves nothing to the rest |
| Budget.RequestedIs | GameChainBaseCore/libraries/chain/db_maint.cpp:140-147 | a worker asks for its daily pay for the time that has passed, rounded down |
| Budget.PaysShares | GameChainBaseCore/libraries/chain/db_maint.cpp:137-156 | each worker gets that or what those before it have left, whichever is less |
| Budget.PayAllPays | GameChainBaseCore/libraries/chain/worker_evaluator.cpp:106-126 | each vesting balance, the null account and the supply change by exactly what the workers of that kind are paid |
| Budget.PaidOverAtMost | GameChainBaseCore/libraries/chain/db_maint.cpp:120-156 | over any run of maintenance intervals a worker gets no more than its daily pay for all the time between |
| Budget.PayAllHeld | GameChainBaseCore/libraries/chain/worker_evaluator.cpp:106-126 | refunds leave circulation, other pay is held by somebody |
| Budget.Books.PayWorkers | GameChainBaseCore/libraries/chain/db_maint.cpp:137-156 | the payroll loop in place: the payments of the function that `PaysShares` and `PayAllPays` are about, and what is left of the budget |
| Budget.Books.ProcessBudget | GameChainBaseCore/libraries/chain/db_maint.cpp:371-466 | the whole budget in place |
| Maintenance.NextTimeLeast | GameChainBaseCore/libraries/chain/db_maint.cpp:838-863 | the next maintenance is in the future and is the first on its grid |
| Maintenance.FirstTimeLeast | GameChainBaseCore/libraries/chain/db_maint.cpp:840-842 | the same after the first block |
| Maintenance.CountVotes | GameChainBaseCore/libraries/chain/db_maint.cpp:159-180 | the number of witnesses is the median the voting stake asks for |
| FeePayout.ReferralIff | GameChainBaseCore/libraries/chain/account_object.cpp:64-76 | no share of a fee is negative, for any fee, exactly when network and lifetime percentages do not exceed the whole |
| FeePayout.CutsAddUp | GameChainBaseCore/libraries/chain/account_object.cpp:64-91 | the shares of a fee add up to it |
| FeePayout.CutsAre | GameChainBaseCore/libraries/chain/account_object.cpp:64-85 | network and lifetime referrer get their percentages, the referrer its percentage of the rest, all rounded down, and the registrar what is left |
| FeePayout.ShareShares | GameChainBaseCore/libraries/chain/account_object.cpp:78-89 | each account's cashback, the accumulated fees and the supply change by exactly their shares |
| FeePayout.Statistics.PayOut | GameChainBaseCore/libraries/chain/account_object.cpp:55-92 | one kind of pending fees, cut up and shared out as said |
| FeePayout.Statistics.ProcessFees | GameChainBaseCore/libraries/chain/account_object.cpp:51-104 | both kinds of pending fees are cut up and shared out as said, one after the other, and are pending no longer; nothing is lost or made, cashback to chain accounts included |
| Memberships.Index.FollowAll | GameChainBaseCore/libraries/chain/account_object.cpp:143-255 | after any run of inserts, removes and modifications each of the three maps has an account under a key exactly when recomputing that account's members gives the key |
| Memberships.Index.ObjectInserted | GameChainBaseCore/libraries/chain/account_object.cpp:143-159 | an account that is new, in all three maps |
| Memberships.Index.ObjectModified | GameChainBaseCore/libraries/chain/account_object.cpp:190-255 | one that changes: only the differences to the remembered members are written |
| Memberships.Index.ObjectRemoved | GameChainBaseCore/libraries/chain/account_object.cpp:161-177 | and one that is removed |
| AmountText.RoundTripIff | GameChainBaseCore/libraries/chain/asset_object.cpp:93-159 | writing an amount and reading it back gives the amount, exactly for amounts up to the maximum |
| AmountText.ReadIff | GameChainBaseCore/libraries/chain/asset_object.cpp:93-142 | text is read exactly when it is digits around at most one point, with no more decimals than the precision, and says no more than the maximum, and then as the number it says |
| AmountText.WrittenAs | GameChainBaseCore/libraries/chain/asset_object.cpp:144-159 | an amount is written as its whole units without leading zeros and, unless they are zero, as many decimals as the precision has |

## Left out

- The fork database's own head after a successful switch, and the file of blocks: only object state, undo states and tree are modelled.
- Invalid flags of fork items and the cache of unlinked blocks, which nothing fills.
- Parents of fork items are looked up among the blocks of the tree and of the branches a switch holds on to, where the original keeps weak pointers.
- Wrap-around of block numbers and slot numbers in 32 bits.
- Pending transactions, proposals and the validation of transactions.
- Changes made while undo is disabled: rewinding states that were open then is excluded from the refinement (`UndoMachine.Tracked`).
- The limit on single share amounts in a product of amount and price; amounts are unbounded in the market part. Of the bounds
  of searches by price only the one for settlement is modelled, where it matters for amounts that can occur.
- Assertions that a release build leaves out do not stop the model; the searches around them go on as they would there.
- Where a feed is quoted in an asset newer than the backing, the search for bids in the original runs past the end of the book if
  there is nothing behind them; the model takes it that the feed protects every position, as it does with any order there.
- The statistic of core in orders, and lifetime statistics.
- Pending fees of the two kinds are one number in the market part; `FeePayout` has both.
- Call prices as they are computed (`LeastCollateral.Current` says when one is up to date), the short squeeze limit and the core exchange rate of fees are parameters; medians of feeds are too, and may be
  quoted in any asset, as the feeds they are made of may be older than what backs the asset now.
- ExpiredOrders.ExpireSucceeds: when exactly it throws on a feed that is askew, other than in an asset that backs itself, depends
  on the whole run of margin calls.
- MarketRun.ClearKeeps: for positions too faint to be found the condition is exact for each request (`ServeLoop`), not for the run.
- The symbols of new assets, and who may create which.
- Whitelists, flags and permissions of assets, other than whether they allow force settlement; issuers are not checked.
- Expiration dates of orders: which orders have expired, and in which order, is a parameter of `ExpiredOrders.ExpireAll`.
- In margin calls the cursor of the original dangles when the bid it points at is culled; the model moves on to the next bid.
- A call price index by account allows one position for an account and asset; the model takes the first if there are more.
- Vesting balances and witness pay are not part of the market's books; `CoinDays`, `Budget` and `FeePayout` have their own.
- Which workers are active, and their ranking by approval, is a parameter of the budget.
- Schedule.Shuffled: the random numbers are a parameter, because the shuffle permutes whatever they are.
- Signatures, hashes, serialization, the network, indexes on disk, and code before hardforks.
- AmountText.RoundTripIff: amounts that are not negative, and text without a sign.
- Irreversibility.CanRewind: for runs in which blocks are only pushed; with pops the stack reaches back to the highest block that has been irreversible.
