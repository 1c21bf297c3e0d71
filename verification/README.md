# A verified model of the SimpleOrderbook matching engine

The engine is a vector of price levels, each with a chain of limit orders, a chain of stops and
two chains of all-or-none (AON) orders. Cached edge pointers and an id cache make it fast; an
execution window runs one external request and every order it gives rise to. The model follows
the source operation by operation and proves that the fast form does what a plain one would do,
and what holds after every window of every session.

## How it is laid out

- `Ladder.dfy`, `Matcher.dfy`, `Priority.dfy`, `Service.dfy`: levels and chains, and a reference matcher that walks
  every level with no cached edges, with its price-time priority; told once more as serving one flat queue.
- `Overlaps.dfy`, `Reference.dfy`, `Plain.dfy`: overlapping AON orders; what every operation and a whole
  window does to a `Floor`, all that later windows depend on, as pure functions; books without AON orders.
- `Faults.dfy`: exactly when an operation faults (see below), told by looking at the book.
- `Turns.dfy`, `Arrivals.dfy`, `Checks.dfy`, `Kills.dfy`, `Bounds.dfy`: what the reference does, told in other terms: which
  AON order is paired at its turn, who comes to rest behind whom, what trades mean for the stops, what an order that
  cannot be filled leaves, and that no order trades beyond its limit.
- `Desk.dfy`, `Edges.dfy`, `Growth.dfy`, `Sweep.dfy`: the book-keeping (id cache, an account for every
  order ever accepted, the tape of sales, the internal queue), what the edges promise, growth, and
  the passes over triggered stops, each with one lemma per part of the invariant.
- `Groundwork.dfy`, `Orderbook.dfy`: lemmas about values that the class needs, and the class `Book` with the
  fields of the source, every method of which leaves the floor that the reference says.
- `Properties.dfy`, `Queries.dfy`, `Stops.dfy`, `Hazards.dfy`: what the invariant means between windows, the
  queries against a plain scan, when stops that are not due are triggered, when fill-or-kill orders are
  split, and sessions from an empty book for each thing that goes wrong.
- `Sessions.dfy`: sessions from an empty book that turn on one rule each.
- `Worlds.dfy`: the book as requests and growth come one after the other, as a function of these.
- `Linked.dfy`, `Routing.dfy`, `Contingent.dfy`, `Legs.dfy`, `Windows.dfy`, `Handlers.dfy`, `Positions.dfy`:
  one-cancels-other, one-triggers-other and bracket orders, and whole windows and sessions of them. Which orders
  are hit and which stops are triggered is a parameter there, so the results hold for every behaviour of the
  matching engine.
- `Couples.dfy`: linked orders two by two, for partial and for full fills: who enters, who is linked by what, and what a
  fill, a trigger or a pull of one does to the other.
- `OneCancels.dfy`, `Pairing.dfy`: one-cancels-other pairs by price, entering a book without links.
- `Joint.dfy`, `Lookout.dfy`, `Upkeep.dfy`, `Foresight.dfy`, `Linkups.dfy`: the same in a book of linked orders. The
  book and what its orders are linked to, walked together: whoever trades or is triggered pulls its partner out of
  the book in mid-walk. What such a walk will do is told by looking; what holds of book and links between windows;
  and a session in which a pull in mid-walk decides whether a pair is spoilt.
- `TickPrices.dfy`, `NarySearch.dfy`: prices as ticks, and compile-time rounding.
- `AsyncCallbacks.dfy`: the hand-off of callbacks to their thread, as a machine of interleaved steps.

Level 0 is the pad below the book and level `|book|` its end, as `_beg - 1` and `_end` are in the
source; prices are in ticks. The accounts (`ledger`), the orders in hand (`hand`) and the tape
ids are ghost: they record what the callbacks of the source report. So are, for linked orders, the sets of
those that traded and of those filled to the last unit, and the list of legs that fired.

## Where the model departs from the letter of the source

- The operations of the model end with the status `Fault` in two places, and exactly there. When the AON
  chain of a level takes everything an incoming order has and the level also has limit orders,
  `_hit_chain` steps an iterator before the chain (`src/orderbook/core.cpp:441-443`): that is undefined.
  And `copy_bndl_to_aon_chain` files sells under the buys (`src/orderbook/specials.tpp:557`): that is
  defined in itself, a push into the wrong list with the cache tagged for the other; what is undefined is
  the erase that later looks there. The model stops at the filing, so nothing is claimed of runs in which an AON
  sell steps aside, nor of the list it was meant for. `Faults` says for every order exactly when either happens,
  and `Hazards.EmptyHanded` and `Hazards.Misfiled` reach them with three orders each.
- A used-up order leaves its chain at once instead of with all others at the end of the chain; a stop
  chain is queued before, not after, the stop window moves; the front of the internal queue is taken out
  before, not after, it is entered. Nothing looks at the difference in between.
- The comment that the first order of a limit chain cannot be all-or-none
  (`src/orderbook/core.cpp:383-385`) is not relied on: an exact fill can leave one there.
- A fill-or-kill order that may be filled in part is, and what is left of it rests; the name promises otherwise.
- Of a one-cancels-other pair both orders can trade, before they are linked; `Joint.SpoiltIff` says when, and
  `OneCancels.SpoiltIff` for a book in which nothing is linked.
- The far edge of the AON buys is moved as far as the highest AON sell (`src/orderbook/specials.tpp:188`);
  the claim is that edges cover, and that is proved of this code.

## Model

| member | source | states |
|---|---|---|
| `Matcher.MatchConserves` | src/orderbook/core.cpp:298-379 | what a match is given to trade is traded or left, to the unit, whatever it meets |
| `Matcher.MatchLeft` | src/orderbook/core.cpp:1057-1111 | looking without touching foretells what matching leaves: levels already passed do not matter to the rest |
| `Matcher.MatchMaximal` | src/orderbook/core.cpp:298-379 | when size is left, no order within the limit could still trade: its limit chains are empty and every all-or-none order there is larger than what is left |
| `Matcher.MatchFrame` | src/orderbook/core.cpp:298-379 | a match leaves stops, levels it does not visit and the limit chains of its own side alone; the other AON chains too, unless it faults |
| `Faults.StepsAsideIff` | src/orderbook/core.cpp:404-443 | an order of a limit chain steps aside if and only if the size runs out inside an all-or-none order: those before it sum to less, those up to it to more |
| `Faults.MatchFaultsIff` | src/orderbook/core.cpp:332-350 | a match faults if and only if some level in reach is hazardous for what arrives there, which is added up from chain sizes alone: its AON chain takes exactly what arrives with limit orders behind, or the size runs out inside an all-or-none sell |
| `Matcher.MatchJump` | src/orderbook/specials.tpp:78-80 | jumping over levels with nothing to hit gives the same match as walking them |
| `Priority.MatchInPriority` | src/orderbook/core.cpp:298-379 | those who trade are, in order, among the queue of the book: best level first, AON chain before limit chain, oldest first |
| `Priority.MatchFits` | src/orderbook/core.cpp:298-379 | no trade is at a level worse than the limit; each is with an order that rested at that level, for no more than it had, and for all of it if it is all-or-none |
| `Priority.MatchKeepsOrder` | src/orderbook/core.cpp:387-473 | who stays at a level, and who steps aside there, keeps the order of priority there was |
| `Service.MatchServes` | src/orderbook/core.cpp:298-473 | matching chain by chain and level by level is serving one flat queue of the orders in reach |
| `Service.MatchInTurn` | src/orderbook/core.cpp:387-473 | every order in reach has its turn, with what those of higher priority left: it trades all it has if that fits, else all that is left, or, if it is all-or-none, nothing; and no one else trades |
| `Service.OfferedSorted` | src/orderbook/core.cpp:298-351 | those in reach come with the better levels first |
| `Service.OfferedTogether` | src/orderbook/core.cpp:321-343 | and every level in reach offers its AON chain and then, on the side being hit, its limit chain, oldest first |
| `Plain.MatchPlain` | src/orderbook/core.cpp:298-379 | without all-or-none orders nobody is skipped: those who trade are a prefix of the queue, all of it while size is left, and nothing faults |
| `Orderbook.Book.HitAonChain` | src/orderbook/core.cpp:452-473 | the trades, the chain left and the size left are those of the reference, and the books stay in order |
| `Orderbook.Book.HitChain` | src/orderbook/core.cpp:387-444 | the same for a limit chain, with the AON orders that step aside; it fails exactly when one of them is a sell |
| `Orderbook.Book.CopyToAonChain` | src/orderbook/specials.tpp:546-568 | the order goes from the front of the limit chain to the back of the AON buys of its level, and no other chain changes; that is where its cache entry leads only if it is a buy |
| `Orderbook.Book.TradeHasOccured` | src/orderbook/core.cpp:476-498 | the sale is on the tape, last price, last size and volume are those of the tape, and both accounts are credited |
| `Orderbook.Book.FindNewBestInside` | src/orderbook/specials.tpp:62-101 | the inside of the side moves outwards to a level that is not empty, and the edges go on covering the side |
| `Orderbook.Book.AonEmptied` | src/orderbook/specials.tpp:176-198 | after the last AON order of a level the window of its side still covers all AON orders of the side |
| `Orderbook.Book.TradeLevel` | src/orderbook/core.cpp:321-343 | one level, AON chain then limit chain, is the level of the reference; it fails exactly where the source faults |
| `Orderbook.Book.MatchBook` | src/orderbook/core.cpp:298-351 | the loop over cached edges, with its jumps, terminates and equals the reference walk over every level: same trades in the same order, same book, same rest |
| `Orderbook.Book.Trade` | src/orderbook/core.cpp:298-379 | sending an order is the reference match, the inside moved outwards to levels with limit orders, its sales on the tape, and then a check of stops if and only if anything traded; what is not filled no longer crosses; every part of the invariant holds again |
| `Orderbook.Book.LimitIsFillable` | src/orderbook/core.cpp:1057-1111 | without partial fills it answers yes if and only if matching would leave nothing, and otherwise reports exactly what matching would fill; with partial fills, if and only if something would |
| `Reference.LookedSent` | src/orderbook/core.cpp:1057-1111 | looking ahead foretells what sending the order leaves of it, stops checked and all |
| `Orderbook.Book.HandleTriggeredStopChain` | src/orderbook/core.cpp:839-935 | every stop of the level becomes one new order at the back of the queue, in order, under the next ids: of its side and size, a limit order at its limit if it has one and a market order if it has not |
| `Orderbook.Book.LookForTriggeredStops` | src/orderbook/core.cpp:817-834 | what it takes out and queues is the reference check: those taken are queued lowest level first for the buys, then highest first for the sells, oldest first within a level; no stop that is due is left, and both windows are what the scan of the levels taken leaves of them |
| `Sweep.TicketAt` | src/orderbook/core.cpp:889-915 | order k that triggered stops become has the side and size of stop k, and is a limit order at its limit or, without one, a market order, under the next ids |
| `Stops.CheckedQueue` | src/orderbook/core.cpp:809-834 | the place in the queue of every stop a check takes, counted from chain lengths: after all stops of lower levels on the way up, which come before any taken on the way down, after those of higher levels there, and behind the older ones of its level; and what it is queued as |
| `Checks.EnteredChecks` | src/orderbook/core.cpp:372-379 | once a limit or market order has entered and anything has traded, no stop that the last price makes due still rests, unless the closing trade of an AON order has a check to come; if nothing has traded, no stop is gone and nothing queued |
| `Joint.SpringTerms` | src/orderbook/core.cpp:864-933 | the order a triggered stop is queued as among linked orders has the terms of the one that the book queues for it, next in the queue |
| `Bounds.StopLimitFair` | src/orderbook/core.cpp:890-915 | no order that a stop with a limit has become trades beyond that limit while the queue is worked off, whether as it enters or from where it rests |
| `Bounds.DrainedFair` | src/orderbook/core.cpp:215-223 | the same of every queued limit order and of every limit order that rests: it buys at its limit or below, sells at its limit or above, and at exactly its limit once it rests |
| `Bounds.WindowedFair` | src/orderbook/core.cpp:190-226 | and of an order that rests, over every window to come |
| `Sessions.StopLimitRests` | src/orderbook/core.cpp:890-915 | three orders, from an empty book: a triggered stop with a limit becomes a limit order, which rests |
| `Stops.AllDueTriggered` | src/orderbook/core.cpp:809-834 | no stop that is due is passed over, given edges that cover the stops |
| `Stops.OnlyDueTriggered` | src/orderbook/core.cpp:858-862 | stops that are not due stay if and only if no stop of the other side lies on the way of either pass |
| `Stops.RestedSwept` | src/orderbook/specials.tpp:386-394 | whatever the last price of a check to come, a level is swept by it after a stop was inserted if and only if it was before or lies between the stop and that price on the way of the pass of its side |
| `Stops.CheckedWindows` | src/orderbook/core.cpp:817-834 | after a check the buy window is what it was above the last price, and the sell window what it was below |
| `Stops.CheckedSwept` | src/orderbook/core.cpp:817-834 | no later check sweeps a level that it would not have swept before, nor one that this check came by |
| `Groundwork.StopGoneWindow` | src/orderbook/specials.tpp:721-740 | a pull takes a level out of the window of its side if and only if it was the end of that and has no stop left; nothing else enters or leaves either window |
| `Growth.GrownWindows` | src/orderbook/impl.tpp:131-174 | growth moves the stop windows with their levels, and later checks sweep what they would have swept |
| `Sessions.UndueStay` | src/orderbook/core.cpp:817-834 | four orders, from an empty book: a trade between a sell stop below and a buy stop above triggers neither |
| `Hazards.UndueTriggered` | src/orderbook/core.cpp:858-862 | three orders, from an empty book, and a fourth that enters: a sell stop below the last price is triggered along with a buy stop of its level |
| `Orderbook.Book.Overlapping` | src/orderbook/specials.tpp:208-291 | finds the AON orders of the other side that reach the limit, as a plain scan of all levels does |
| `Overlaps.OverlappedIff` | src/orderbook/specials.tpp:208-291 | the scan finds an order if and only if it rests in an AON chain of that side at the limit or better |
| `Overlaps.OverlappedOnce` | src/orderbook/specials.tpp:208-291 | and no order twice |
| `Turns.OverlappedSorted` | src/orderbook/specials.tpp:208-291 | those found farther from the limit come later in the scan, so that their turn is earlier |
| `Turns.OverlappedTogether` | src/orderbook/specials.tpp:208-291 | and those of a level are together, in the order of its chain |
| `Orderbook.Book.TryAon` | src/orderbook/core.cpp:524-549 | with what a match of the book before would leave of the overlapping AON order: that order is out of its chain afterwards if and only if this is nothing, or exactly the size of a new all-or-none order, or less than the size of another new order; the new order gives up just what was missing, in a last sale at its own level; otherwise nothing changes at all |
| `Orderbook.Book.FillAon` | src/orderbook/core.cpp:529-549 | the AON order is filled whole from the book and the new order, at the levels each rests at; left-over size is reported only if the new order is smaller than what is missing |
| `Orderbook.Book.MatchAonsPre` | src/orderbook/core.cpp:510-556 | the pass before matching is the reference pass, and it never throws for left-over size; for an all-or-none order all or nothing is left |
| `Orderbook.Book.MatchAonsPost` | src/orderbook/core.cpp:568-588 | the pass after matching is the reference pass, and it never throws for left-over size |
| `Turns.PreTurn` | src/orderbook/core.cpp:524-549 | one turn of the pass before matching: which AON order is executed, told by the match of the book at that turn, and what it takes from the new order, at the level of that |
| `Turns.AonPairs` | src/orderbook/core.cpp:510-556 | a new all-or-none order is filled by the pass if and only if it meets an order that, at its turn, lacks exactly its size; otherwise all of it is left, and the pass has executed just those orders that the book sufficed for |
| `Turns.PlainUnspent` | src/orderbook/core.cpp:524-549 | a new order that is not all-or-none is never used up by the pass |
| `Turns.PostTurn` | src/orderbook/core.cpp:568-588 | one turn of the pass after matching: the AON order is executed if and only if a match of the book at that turn fills it |
| `Sessions.ExactlyPaired` | src/orderbook/core.cpp:524-549 | four orders, from an empty book: an all-or-none buy is paired with the AON sell that lacks exactly its size, and a plain sell it could have hit stays |
| `Orderbook.Book.CrossBook` | src/orderbook/core.cpp:602-617 | a new order crosses if a limit or AON order of the other side is in reach, an all-or-none order only if that fills it; what is left of another order does not cross the book |
| `Turns.CrossedLeft` | src/orderbook/core.cpp:602-617 | a new order takes what matching the book gives it; an all-or-none order nothing, unless that is all of it |
| `Orderbook.Book.RestOrder` | src/orderbook/core.cpp:620-646 | what is left rests in the AON chain of its side if and only if it is all-or-none and a limit order of the other side rests at its level or better, or the limit chain of its level is empty; otherwise on that chain, uncrossed; either way behind all orders of its side at that level; size, side and id are in the books |
| `Arrivals.RestsLast` | src/orderbook/core.cpp:620-646 | time priority: in the order in which its side is hit at that level, whoever comes to rest is last, behind those there were |
| `Sessions.OlderFirst` | src/orderbook/core.cpp:622-645 | three orders, from an empty book: an all-or-none buy behind an older plain buy of its level is come to later, and steps aside |
| `Orderbook.Book.InsertLimit` | src/orderbook/core.cpp:591-661 | entering a limit order, all-or-none or not, among any orders at all, is the pure reference LimitPass: same book, inside, tape, last price, stop windows and queue; the result says what no longer rests |
| `Orderbook.Book.InsertMarket` | src/orderbook/core.cpp:665-680 | a market order is the reference MarketPass; it throws if and only if something is left, with the exact shortfall, and the books are in order even then |
| `Kills.MarketExhausts` | src/orderbook/core.cpp:665-680 | a market order falls short only of a book that has nothing more for it: no limit order of the other side is left, and no AON order there as small as what is missing |
| `Faults.LimitFaultsIff` | src/orderbook/core.cpp:591-661 | entering a limit order faults if and only if the order itself, or an overlapping AON order whose turn comes and which can be filled, meets a hazardous level |
| `Faults.MarketFaultsIff` | src/orderbook/core.cpp:665-680 | the same for a market order |
| `Faults.FaultsAlone` | src/orderbook/core.cpp:591-680 | with no opposing AON chain in reach the book before the call tells: a market order, and any limit order to buy, faults if and only if its own way through the book meets a hazardous level; so does a limit order to sell that the book fills whole, or any if no all-or-none bid rests in a limit chain in reach |
| `Orderbook.Book.InsertStop` | src/orderbook/core.cpp:683-702 | the stop rests at the back of its chain with side, size and limit, untriggered, and in the cache; the near and far edge of its side are the least and greatest of what they were and its level, those of the other side stay, and nothing else changes |
| `Plain.PlainLimit` | src/orderbook/core.cpp:591-661 | without all-or-none orders and with an inside that is not empty a limit order is matched and what is left rests, and that is all: neither pass over AON orders nor the guard before crossing makes a difference |
| `Plain.EnteredPlain` | src/orderbook/core.cpp:229-277 | orders that are not all-or-none never fault in a book without all-or-none orders, and leave it such a book |
| `Faults.EnterFaultsIff` | src/orderbook/core.cpp:229-277 | whatever the order, exactly when entering it faults |
| `Faults.WindowFaultsIff` | src/orderbook/core.cpp:190-226 | a window faults if and only if one of the orders that enter in it does, internal orders included |
| `Orderbook.Book.InsertFok` | src/orderbook/advanced.cpp:697-719 | with what a match of the book before would leave of it: killed if and only if that is all of it, for one that may be filled in part, or anything at all, for one that may not; then nothing in the book, the cache or the edges has changed; otherwise it enters as the reference limit order |
| `Kills.MatchNothing` | src/orderbook/core.cpp:1057-1111 | a match gives nothing if and only if every order in reach is all-or-none and larger than the size |
| `Kills.FokAny` | src/orderbook/advanced.cpp:703-711 | one that may be filled in part is killed without trace if and only if no order in reach could trade with it; otherwise it enters, and something trades unless it faults |
| `Sessions.FilledInPart` | src/orderbook/advanced.cpp:703-711 | two orders, from an empty book: one that may be filled in part is, and its rest comes to rest |
| `Hazards.FokWhole` | src/orderbook/advanced.cpp:697-719 | with no opposing all-or-none order in reach it is killed without trace, or filled to its whole size with nothing resting, or its own way through the book meets a hazardous level; which of these is told by looking |
| `Hazards.FokSplitIff` | src/orderbook/advanced.cpp:697-719 | one that is not killed comes to rest in part if and only if, after the overlapping AON orders have had their turns, the book no longer suffices for what is left of it |
| `Hazards.FokSplit` | src/orderbook/advanced.cpp:697-719 | three orders, from an empty book, the last of which is fill-or-kill, is filled in part and rests |
| `Hazards.EmptyHanded` | src/orderbook/core.cpp:332-350 | three orders, from an empty book, after which the source hits a limit chain with nothing left to trade |
| `Hazards.Misfiled` | src/orderbook/specials.tpp:545-562 | three orders, from an empty book, after which the source files an all-or-none sell under the buys |
| `Orderbook.Book.PopAon` | src/orderbook/specials.tpp:645-668 | exactly that order leaves the book and the cache, and the books stay in order |
| `Orderbook.Book.PopLimit` | src/orderbook/specials.tpp:579-611 | that order leaves, AON orders then in front step aside, and the inside and the edges are right again; it fails exactly when one of those is a sell |
| `Orderbook.Book.PopStop` | src/orderbook/specials.tpp:721-740 | exactly that order leaves, and the stop windows still cover |
| `Groundwork.PulledChains` | src/orderbook/core.cpp:1139-1186 | whoever is pulled leaves its chain, the others staying in their order; the AON orders then in front of a limit chain, and no others, go to the back of the AON buys; no other chain changes |
| `Orderbook.Book.PushLimit` | src/orderbook/specials.tpp:571-577 | an order that does not cross goes to the back of its chain, no other chain changes, and the inside stays exact |
| `Orderbook.Book.PushAon` | src/orderbook/specials.tpp:635-642 | an order goes to the back of its AON chain, no other chain changes, and the window covers it |
| `Orderbook.Book.PushStop` | src/orderbook/specials.tpp:712-719 | a stop goes to the back of its chain, and the window of its side covers it |
| `Orderbook.Book.PullOrder` | src/orderbook/core.cpp:1139-1186 | finds the order if and only if it is cached; exactly that order leaves, AON orders then in front of its chain step aside, inside and stop windows follow, and its open size is released; it faults if and only if one of those that step aside is a sell |
| `Orderbook.Book.constructor` | src/orderbook/impl.tpp:57-80 | an empty book of the given prices is the opening floor and satisfies the invariant |
| `Orderbook.Book.InsertOrder` | src/orderbook/core.cpp:229-277 | routing an order by condition and type comes to the reference for that kind of order, on everything later windows depend on: a stop rests, tickets of triggered stops are queued; it throws if and only if a market order is left with size |
| `Orderbook.Book.RunQueue` | src/orderbook/core.cpp:215-223 | the loop over internal orders terminates, every iteration using up one of the queued orders and resting stops, and what it leaves is a function of what there was: the queued orders enter oldest first, then those they give rise to, and no others |
| `Orderbook.Book.ClearQueue` | src/orderbook/core.cpp:179-185 | an exception empties the queue, and the open size of what is dropped is accounted for |
| `Orderbook.Book.EnterOrder` | src/orderbook/core.cpp:205-225 | a new order gets an id never used before, and what the window leaves - book, inside, tape, stop windows, queue, ids - is the pure function Windowed of what there was and of the order |
| `Orderbook.Book.ReplaceOrder` | src/orderbook/core.cpp:195-204 | the old order is gone for good, and the window is the pure function of the book without it and of the new order; nothing changes if there is none |
| `Orderbook.Book.Execute` | src/orderbook/core.cpp:190-226 | whatever the request, what the window leaves is a function of what there was and of the request; it is refused, and nothing changed, if and only if its size is zero, a condition comes with anything but a limit order, or a price it needs is not in the book; it ends with the invariant, an empty queue and fills that are never undone; the left-over exceptions never happen; without all-or-none orders nothing faults |
| `Orderbook.Book.GrowBook` | src/orderbook/impl.tpp:131-174 | the larger book satisfies the invariant: no order is lost, empty edges stay empty |
| `Orderbook.Book.GrowBookAbove` | src/orderbook/impl.tpp:83-101 | the valid prices are those there were and all up to the new maximum; the book is the old one with empty levels on top, or unchanged |
| `Orderbook.Book.GrowBookBelow` | src/orderbook/impl.tpp:103-128 | the valid prices are those there were and all positive ones from the new minimum on; chains, cache and edges move with their levels, or nothing changes |
| `Growth.GrownKeeps` | src/orderbook/impl.tpp:131-174 | every resting order is still found through the cache, unchanged and at the same price |
| `Properties.AllOrNothing` | src/orderbook/core.cpp:510-588 | an all-or-none order is filled entirely or not at all, and rests with its whole size |
| `Properties.CacheBijection` | src/orderbook/specials.tpp:504-515 | cache and resting orders are in bijection, by chain and level, and no two orders share an id |
| `Properties.SideRecovered` | src/orderbook/core.cpp:1215-1217 | the side a limit order was entered with is recovered from its level, by comparison with the ask and with the bid |
| `Properties.InsideExact` | src/orderbook/specials.tpp:62-165 | the bid is the highest level with a buy, the ask the lowest with a sell, and they do not cross |
| `Properties.EdgesCover` | src/orderbook/specials.tpp:36-455 | nothing of a side rests outside the cached edges of that side |
| `Properties.SizeConserved` | src/orderbook/core.cpp:387-498 | every order ever accepted was filled, as the tape has it, was released, or rests with the rest |
| `Properties.Turnover` | src/orderbook/core.cpp:476-498 | all buys together were filled what all sells were: the total volume and the sum of the time-and-sales sizes |
| `Properties.InternalPointers` | src/orderbook/core.cpp:1283-1327 | all that debug builds assert of the pointers after a window holds |
| `Properties.Session` | src/orderbook/core.cpp:128-154 | any sequence of requests and of growth at either end leaves the floor that a fold of their pure functions from the opening floor says; it is cut short at an event if and only if that one faults, and one without all-or-none orders never is |
| `Properties.Happen` | src/orderbook/core.cpp:128-154 | one event leaves floor, lowest price and cached places as its pure function says, and is refused as a fault if and only if looking says so |
| `Worlds.HappenedFaultsIff` | src/orderbook/core.cpp:190-226 | whether a request faults is told by looking at the world it meets: for a pull, by the AON sells that would come to the front; for an order, by the hazardous levels on its way |
| `Queries.InsidePrice` | src/orderbook/query.cpp:37-65 | the price is that of the best level of the whole book with an order of that side that is not all-or-none, by the order accounts; 0 if and only if there is none |
| `Queries.InsideSize` | src/orderbook/query.cpp:98-127 | the size of those orders at that level |
| `Queries.TotalDepth` | src/orderbook/query.cpp:296-343 | for the two kinds of chain the template is instantiated for, limit and AON, the total equals a scan of every level that counts each order by its own side |
| `Linked.HitOk` | src/orderbook/core.cpp:418-443 | a fill of any resting order, with the handlers it sets off, keeps links symmetric, pairs exclusive, sizes of a pair equal and positions accounted for, and adds nothing to what was still to come |
| `Linked.TriggeredOk` | src/orderbook/core.cpp:864-933 | so does triggering a stop, which uses up some of what was still to come |
| `Routing.RoutedOk` | src/orderbook/core.cpp:298-379 | so does matching an order in any way at all; without a trade nothing happens |
| `Contingent.OcoEnteredOk` | src/orderbook/advanced.cpp:451-503 | entering a one-cancels-other pair keeps all that; for partial fills it never throws, and both orders trade if and only if, by what the engine answers, the first is touched while the second enters: Joint.SpoiltIff says by price when that is |
| `OneCancels.SpoiltIff` | src/orderbook/advanced.cpp:451-503 | in a book in which nothing is linked, without AON orders, both orders of a pair trade or are triggered if and only if the first is a stop, the second a limit order that would trade on entry, and the level of the stop lies in the range the check for stops then sweeps, from the edge of its side to the level of the last of those trades |
| `OneCancels.SpoiltSession` | src/orderbook/advanced.cpp:451-503 | a sell and then such a pair, from an empty book, all by price |
| `Hazards.BothLimits` | src/orderbook/advanced.cpp:967-989 | with an all-or-none sell in the book even two limit orders that pass the checks of a pair both trade |
| `Pairing.EnterPair` | src/orderbook/advanced.cpp:451-503 | the same done on the order book: what the window leaves is the pure function of what there was - the first order, the second if that did not trade, the pull of the first if the second did, then the queue; both are touched if and only if the prices said so before the call; and whenever the second trades the first is out of the cache |
| `Joint.EnteringRouted` | src/orderbook/core.cpp:298-379 | walking the book and the links together comes, for the linked orders, to routing the answer that this book gives |
| `Joint.SpoiltIff` | src/orderbook/advanced.cpp:451-503 | whatever else is linked in a book without AON orders: the account of linked orders says a pair is spoilt if and only if the first order is a stop, the second a limit order that trades on entry, and its walk, pulls in mid-walk and all, ends where the check for stops takes out the level of the first |
| `Lookout.LookoutIs` | src/orderbook/core.cpp:387-444 | the trades of a walk through a book of linked orders, the size left and the last level are told by looking at the book before, passing over whoever an earlier trade would pull |
| `Lookout.DueTaken` | src/orderbook/core.cpp:809-834 | whatever is pulled on the way, a stop that is due by the last of those trades is triggered |
| `Lookout.SpoiltByLook` | src/orderbook/advanced.cpp:451-503 | as long as no stop is linked, a pair is spoilt if and only if such a look says so |
| `Lookout.NoLinks` | src/orderbook/advanced.cpp:451-503 | where nothing is linked yet the condition is that of OneCancels.SpoiltIff |
| `Upkeep.EntersInOrder` | src/orderbook/core.cpp:591-702 | a limit or stop order that enters a book of linked orders keeps book, inside and links in order and in agreement with each other |
| `Upkeep.PairInOrder` | src/orderbook/advanced.cpp:451-503 | so does a pair, linked or with its first order pulled |
| `Upkeep.SpoiltAnywhere` | src/orderbook/advanced.cpp:451-503 | after any sequence of orders and pairs from an empty book, the exact condition holds of the next pair |
| `Foresight.ForeseenAnywhere` | src/orderbook/core.cpp:387-444 | and what a limit order will trade then is told by looking |
| `Foresight.SpoiltForeseen` | src/orderbook/advanced.cpp:451-503 | and so is whether a pair will be spoilt, as long as no stop is linked |
| `Linkups.PulledInWalk` | src/orderbook/core.cpp:418-430 | two sells that cancel each other, a third, and a pair of a buy stop and a buy limit, all from an empty book: the first trade pulls the sell that was next, so the pair is spoilt; without the link it would not be |
| `Contingent.OtoEnteredOk` | src/orderbook/advanced.cpp:425-448 | entering a one-triggers-other order keeps all that, whatever the engine answers; it throws for a market leg only |
| `Legs.OtoLegged` | src/orderbook/advanced.cpp:425-448 | an accepted leg has fired on the way in if and only if it met its condition there, its contingent order being the last queued; otherwise it rests with it; no leg has ever fired twice or without its condition met |
| `Legs.HitLegged` | src/orderbook/advanced.cpp:82-152 | a fill that meets the condition of a leg queues its contingent order and notes the leg as fired, no other fill does; and it keeps that no leg fires twice or with its condition unmet |
| `Legs.TriggeredLegged` | src/orderbook/core.cpp:864-933 | a triggered stop is queued, right before the order contingent on it if it is a leg, which is noted as fired; and it keeps that no leg fires twice or with its condition unmet |
| `Legs.RoutedLegged` | src/orderbook/core.cpp:298-379 | however an order is matched, no leg fires twice or without its condition met |
| `Contingent.EntryEnteredOk` | src/orderbook/advanced.cpp:507-547 | entering a bracket keeps all that: what is filled at once opens one pair of exits of that size, queued last and booked as the position of the entry; the rest rests as an entry without exits; nothing filled, nothing opened |
| `Contingent.ExitsEnteredOk` | src/orderbook/advanced.cpp:550-634 | entering a target order keeps all that: what is left of it rests linked with a loss order of the same size |
| `Handlers.LinkedBook.HandleOco` | src/orderbook/advanced.cpp:154-174 | the partner is gone, the order rests and is free, and no other order changes |
| `Handlers.LinkedBook.HandleBracket` | src/orderbook/advanced.cpp:177-236 | both active exits grow by the fill, no other order changes and nothing is queued; or, if they are not both there, one ticket for a pair of exits of that size is queued and no order changes |
| `Handlers.LinkedBook.HitOrder` | src/orderbook/core.cpp:418-437 | a fill, with its handlers, does what the step function says and keeps the invariant of linked orders |
| `Handlers.LinkedBook.TriggerStop` | src/orderbook/core.cpp:864-933 | so does a triggered stop |
| `Handlers.LinkedBook.RouteOrder` | src/orderbook/core.cpp:298-379 | the loops over hits and triggers do what the recursion says |
| `Handlers.LinkedBook.InsertOco` | src/orderbook/advanced.cpp:451-503 | the loops and branches are the step function; for partial and for full fills the second order enters if and only if the first has not met its condition on the way in, the first is gone if the second has, and otherwise each is linked to the other by that condition; the pairs both orders of which trade grow by this one if and only if the first is touched while the second enters: Joint.SpoiltIff states this by price |
| `Couples.PairEnters` | src/orderbook/advanced.cpp:451-503 | the same of the step function, whatever the engine answers: the condition is read off who is filled to the last unit or triggered, for full fills, or touched at all, for partial ones |
| `Couples.FullPair` | src/orderbook/advanced.cpp:464-503 | a pair for full fills whose first order is filled in part on the way in: the second enters, and the rests are linked |
| `Couples.HitPair` | src/orderbook/advanced.cpp:154-174 | a fill that meets the condition of a pair takes the partner out and leaves the order free; one that does not only shrinks the order |
| `Couples.HitExit` | src/orderbook/advanced.cpp:238-263 | a fill of a target shrinks the loss order by as much, which is gone when all is filled, and is booked |
| `Couples.SpringPair` | src/orderbook/core.cpp:864-933 | a triggered stop takes its partner along whatever the condition, no one else changes, and it is the next order queued |
| `Couples.PullPair` | src/orderbook/core.cpp:1161-1202 | a pull takes both orders out whatever the condition, and no one else |
| `Handlers.LinkedBook.InsertOto` | src/orderbook/advanced.cpp:425-448 | the invariant of linked orders holds whatever the engine answers, and that of legs, so that the leg waits or has fired |
| `Handlers.LinkedBook.InsertBracket` | src/orderbook/advanced.cpp:507-547 | the invariant of linked orders holds whatever the engine answers |
| `Handlers.LinkedBook.InsertActiveBracket` | src/orderbook/advanced.cpp:550-634 | the target in work becomes filled size or a linked pair |
| `Handlers.LinkedBook.PullOrder` | src/orderbook/core.cpp:1161-1202 | a pull takes the linked order along, and cancelled exits are accounted for |
| `Handlers.LinkedBook.RunQueue` | src/orderbook/core.cpp:215-223 | the window loop terminates for every engine - a weight over queued orders, resting stops, waiting contingent orders and unfilled entries goes down with every iteration - and what it leaves is a function of what there was and of the answers of the engine: each queued order enters in turn, exits included, with all it gives rise to |
| `Windows.DrainedOk` | src/orderbook/core.cpp:215-223 | whatever the engine answers, working off the queue keeps the invariants; unless an order throws, no exits are cancelled, and the entries keep the size they were accepted for, traded or resting |
| `Windows.ExitsCome` | src/orderbook/advanced.cpp:550-634 | exits whose turn it is become filled size or come to rest as a pair of what is left: together the size that was queued |
| `Windows.EntryAccounted` | src/orderbook/advanced.cpp:507-547 | in a session without exceptions and pulls of brackets the size an entry was accepted for is what it traded and what of it rests |
| `Positions.PositionTracked` | src/orderbook/advanced.cpp:177-263 | what an entry traded, noted where it trades, is what its exits have open, were filled by targets, triggered as losses or cancelled, summed over its pairs |
| `Positions.PositionKept` | src/orderbook/advanced.cpp:177-263 | and in a session without exceptions and pulls of brackets none of it is cancelled: it rests as exits, was filled by targets or triggered as losses |
| `Positions.ExitsRest` | src/orderbook/advanced.cpp:550-634 | open exits rest, as a limit and a stop order of the same size linked with each other |
| `Positions.ExitsFollow` | README.md:82-86 | a fill of the target shrinks both exits, another fill of the entry makes both grow, by the same amounts |
| `Positions.LinksSymmetric` | src/orderbook/advanced.cpp:451-503 | the partner of a linked order rests and links back |
| `Positions.OneCancelsOther` | src/orderbook/advanced.cpp:451-503 | of a pair at most one order is ever touched, and the other is gone then, but for the pairs spoilt on entry; which those are, Joint.SpoiltIff says by price for every book without AON orders |
| `Positions.FiresOnce` | src/orderbook/advanced.cpp:140-152 | in every state between windows a leg has fired at most once; it has if and only if it traded or was triggered, to the last unit if it needs a full fill; until then it waits with its contingent order for as long as it rests |
| `Positions.Window` | src/orderbook/core.cpp:190-226 | every window with linked orders - new orders, new orders in place of a resting one, pulls - leaves what the pure function of what there was, of the request and of the answers of the engine says, with the invariants and an empty queue; a replacement of nothing changes nothing; without an exception or a pull of brackets no exit is cancelled and no entry loses size |
| `Positions.Session` | src/orderbook/core.cpp:128-154 | any sequence of windows leaves the fold of these functions from the beginning |
| `TickPrices.Make` | include/tick_price.hpp:95-104 | the ticks come into range and the number of ticks is kept, for negative ticks too |
| `TickPrices.TicksBijection` | include/tick_price.hpp:126-128 | a price in range is determined by its ticks, and comes back from them |
| `TickPrices.Additive` | include/tick_price.hpp:139-159 | sums and differences are those of the ticks, and stay in range |
| `TickPrices.PlusMinus` | include/tick_price.hpp:139-145 | taking away what was added gives the price back |
| `TickPrices.Ordered` | include/tick_price.hpp:219-237 | the order of prices is the order of their ticks |
| `TickPrices.NearestTick` | include/tick_price.hpp:114-123 | a number becomes the tick nearest to it, halves upwards, for negative numbers too |
| `NarySearch.IPowIsPower` | include/cx_math.h:74-89 | squaring computes the power; a negative exponent its inverse |
| `NarySearch.FloorFrom` | include/cx_math.h:142-155 | the search ends, with the true floor of any number above a whole guess |
| `NarySearch.CeilFrom` | include/cx_math.h:169-182 | the search ends, with the true ceiling of any number below a whole guess, and with the guess itself for one above |
| `NarySearch.FloorIff` | include/cx_math.h:187-196 | the result is the floor if and only if the number is not below the opposite of the first step |
| `NarySearch.CeilIff` | include/cx_math.h:198-208 | the result is the ceiling if and only if the number is not above the first step |
| `NarySearch.RoundNearest` | include/cx_math.h:210-212 | rounding is to the nearest whole number, halves away from zero, for every number |
| `AsyncCallbacks.StepInv` | src/orderbook/core.cpp:724-807 | every step of dispatcher, callback thread or waiting client keeps the order of callbacks and the flag right |
| `AsyncCallbacks.InOrderOnce` | src/orderbook/core.cpp:724-785 | in every interleaving callbacks are executed in the order pushed, each once; none is lost when the thread is gone |
| `AsyncCallbacks.WaitsForAll` | src/orderbook/core.cpp:787-807 | a waiting client is let go only when everything pushed so far has been executed |
| `AsyncCallbacks.AllComes` | src/orderbook/core.cpp:742-807 | however the steps have gone, some further steps execute all that was pushed, without another push, and a waiting client is let go then |

## Left out

- Trade: trailing stops, which the source adjusts at the start of a trade, are not modelled.
- HandleTriggeredStopChain: conditions of stops are those of the linked orders, and looked at there; trailing stops are not modelled.
- GrowBookAbove: the guard against growing by more than the largest `long` is not modelled, nor is the rounding of the argument.
- GrowBookBelow: the same guard and rounding are not modelled.
- FaultsAlone: for a limit order to sell that the book does not fill whole, with all-or-none bids in the limit chains in
  reach, `LimitFaultsIff` tells, by turns; the book before alone does not.
- EnterPair: books without AON orders and without links. With AON orders more pairs are spoilt (`Hazards.BothLimits` is
  one), as the pass over overlapping orders may trade with a first order that rests; links are in `Joint`.
- SpoiltIff: books without AON orders, as EnterPair.
- SpoiltByLook: where stops are linked, the windows after the pulls decide, too; `Joint.SpoiltIff` has them.
- Joint.PairEnters: the book of linked orders does not run the queue of a window: on the book that is `Drained`, for linked
  orders `Windows.Drained`. It is a function of values: the loop with cached edges is proved for the book without links.
- InsertOco: what the engine touches while the second order enters is a parameter; `Joint.SpoiltIff` puts prices to it.
- One-cancels-other pairs for full fills: each step is stated in `Couples`; that at most one order of a pair trades is
  claimed over runs for partial fills only, since with full fills both may.
- EnteredChecks: after the closing trade of an AON order the check is still to come, as in the source, which makes it with
  the next trade.
- InsertBracket: limit entries triggered by partial fills only, as the source promises the sizes only for these.
- Trailing stops and trailing brackets: they compare with the last price at the start of a trade, and hold no clean invariant.
- AON orders together with linked orders, bracket entries that are stops and bracket sizes for full fills.
- Runs on from where an AON sell was filed under the buys.
- The checks of prices and offsets of linked orders other than pairs, the building of advanced tickets and what they report
  about resting orders.
- User callbacks, timestamps and messages: only the record of who traded what with whom, and of what was released, is kept.
- Mutexes, condition variables, promises: a window is atomic, the callback hand-off a sequence of critical sections.
- The widths of sizes, ids and ticks, which are unbounded here, and floating-point error: rounding is over the reals.
- The conversion of a price to a `double`, and the comparison and arithmetic operators with the operands the other way round.
- Market depth by level, depth of stops, dumps and order information: loops of the same kind as the queries that are modelled.
- Exponentials, logarithms and real powers of the compile-time mathematics.
- Python bindings, the resource manager, factories, tests and measurements.
