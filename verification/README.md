# Verified model of the screener, the controller and the execution engine

This project models the decision-making code of the trading system in Dafny and proves what its
documentation and tests promise. Prices, quantities and notionals are exact reals, times are integers in the
source's units, and everything a step reads from outside (statuses, clocks, drains, frames, marks) is a
parameter, so the theorems hold for every behaviour of the surroundings.

Run `dafny verify dfyconfig.toml` in this directory to check all of it.

## What is modelled

- **The compressed recording** (`Quotes`, `Gates`, `Collector`, `Samplings`, `Report`, `Bookings`, `TakerCash`,
  `XemmCash`, `History`, `Replay`, `Moments`, `SameTrades`, `Restart`). The recorder keeps a ring of recent states,
  a pre-roll, a tail and a trigger taken from a percentile gate; the report replays what was written. `Collector`
  gives the recorder's steps as functions and as the class `Recorder`, and `Samplings` says of the books what they
  sample and record. `Report` gives the two simulations as functions and loops; `TakerCash` and `XemmCash` say of
  the books alone what each run fills, at which prices, and what it earns. `History` and `Moments` hold the
  invariant that ties every state the recorder saw to what it wrote, and `SameTrades` ends with the replay
  theorems. "Full" means the unknown state at the start, every state passed to `changed` and every trade, all at
  the clock `tick` returns. The assumptions are those the recording's own check makes: equal depth and gate span,
  percentile and required edges no lower than the recorded ones, lags within the tail, a quote age within the
  pre-roll and at least a millisecond, fees not below zero, a maker fee below one, positive trade prices.
- **The supervisor and the regime** (`Regime`, `Decisions`, `Supervisor`, `Signals`, `Exits`, `Controller`,
  `Rights`, `Warrants`, `Leases`). `Supervisor` is the state machine over a world read step by step; `Controller` is the same
  machine as an object whose methods update its fields and keep the invariant. `Decisions` says what a decision
  must be for the positions, margins, lease and clocks it read, `Signals` when a burst or a trade moves a lease, and
  `Exits` what ends, stops and switches come to.
  `Rights` reads the event log with a small monitor, proves the invariant of every reachable state, and restates
  the rules over the log itself; `Warrants` does the same for what each switch rests on. `Leases` relates any two
  points of a run.
- **The feed hub** (`Feed`, `Standings`, `Connections`, `Subscribers`, `Readers`). One follower among any number,
  with every interleaving of arrivals, publications, subscriptions, relays and breaks; `Standings` says row by row
  what is served.
- **Money** (`Economics`, `Journal`, `Coverage`, `Accounts`, `Inventory`, `Decimals`, `Reals`, `Sums`). Averaged
  positions, both implementations of the execution economics, the journal fold and its coverage, the simulated
  account, and pending inventory.
- **Books and quotes** (`Books`, `Vwap`, `Edge`, `Quoting`, `Answers`, `Refusals`, `Replica`, `Dedup`). Bounded sorted
  insertion, the VWAP walk, the price solver, the sizing and pricing pipeline and what its answers say of the
  books, the replica's own impact, and the trade filter.

Where the code and a promise disagree the code is kept, with an input that shows it and the exact condition:
`Economics.GrossIsCash` with `Economics.IdleQuoteLost` (fills without a quantity but with a quote),
`Readers.LateExactly` with `Readers.NonceLeftOut` (a venue snapshot without a nonce field), `Replicas.EveryRunExactly` with
`Replicas.NegativeSizeOffersMore` (a negative size on the feed) and `Journal.ReadTwiceExactly`
with `Journal.UnidentifiedDoubles` (fills identified only by their line). Three more exact conditions are met by
the program's configuration or callers: `Regimes.HysteresisExactly` (a taker's clip that is not positive is refused),
`Edge.AskFound` (a negative minimum or buffer is refused, and the fees of the venues are far from one) and
`Dedup.AllReturned` (the collector resets the filter after a failed frame).

## Model

| member | source | states |
|---|---|---|
| SameTrades.TakerReplay | SCREENER/src/report.rs:199-250 | for every event sequence of one run, from `new` to `finish`, `simulate_taker` over the recorded lines takes the same trades, unresolved count and position as over the unknown start and every state passed to `changed`, under the settings the recording accepts |
| SameTrades.XemmReplay | SCREENER/src/report.rs:302-359 | the same for `simulate_xemm`: same fills (time, price, quantity, hedge price), unresolved count and position as over every state and every trade |
| SameTrades.TakerResultReplay | SCREENER/src/report.rs:230-268 | with both books known at the end, the whole taker result agrees, the closing mark of a left-over position included |
| SameTrades.XemmResultReplay | SCREENER/src/report.rs:345-359 | with both books known at the end, the whole maker-taker result agrees, the closing mark included |
| SameTrades.FillsCouldFill | SCREENER/src/collect.rs:123-142 | a trade that fills a quote the report prices passes the recorder's `could_fill`, for fees not below zero and a required edge not below the recorded one |
| SameTrades.BuyBound | SCREENER/src/collect.rs:123-142 | the pricing bound for a trade above an ask quote: it prints through the hedge price plus the recorded edge |
| SameTrades.SellBound | SCREENER/src/collect.rs:123-142 | the pricing bound for a trade below a bid quote |
| SameTrades.PassesFires | SCREENER/src/collect.rs:513-521 | a state the report's entry gate lets through reached the recorder's trigger when it was seen |
| SameTrades.LookupsAgree | SCREENER/src/report.rs:76-78 | within a written span, a lookup by time finds the same state among the written lines as among all states, or none in both |
| Samplings.SampleIs | SCREENER/src/collect.rs:510-513 | a change is sampled exactly when the better executable edge, from the touches and the depth, reaches the floor an interval after the last sample, into the quarter of a basis point it lies in |
| Samplings.WholeRunCounts | SCREENER/src/collect.rs:449-465 | every run with its end: one summary line for each window from the first to the last, each with exactly the bins of the samples taken in it, as the events' books, times and interval give them |
| Samplings.TriggersIs | SCREENER/src/collect.rs:514-520 | a state reaches a trigger exactly when its better executable edge does |
| Samplings.CouldFillIs | SCREENER/src/collect.rs:127-142 | `could_fill` says that a trade printed beyond its own touch, and beyond the other side's by the least edge where that side holds the depth |
| Samplings.TradeRecorded | SCREENER/src/collect.rs:392-409 | a trade's line is written exactly when it printed so against some state in the ring |
| Moments.RunTells | SCREENER/src/collect.rs:380-446 | a run from `new` to `finish` keeps: every state at or above its trigger and every recorded trade has its pre-roll and tail written, and no trade left out could fill |
| Moments.EventKeeps | SCREENER/src/collect.rs:380-410 | one event, of any kind, keeps that invariant |
| Moments.ChangeKeeps | SCREENER/src/collect.rs:501-521 | a changed state keeps it: ring trimmed to the pre-roll, sample taken, written on a trigger or in a tail |
| Moments.TradeKeeps | SCREENER/src/collect.rs:392-409 | a trade keeps it: recorded with its pre-roll and tail if a state still in the ring could have filled, and otherwise unable to fill |
| Moments.ClosedKeeps | SCREENER/src/collect.rs:413-425 | a closed connection keeps it, its gap line included |
| Moments.FinishKeeps | SCREENER/src/collect.rs:439-446 | ending the run keeps it: the closing mark is written before both connections close |
| Moments.NotRecordedNoFill | SCREENER/src/collect.rs:402-409 | a trade no state of the ring could fill could fill no quote priced in its whole pre-roll |
| History.WriteKeeps | SCREENER/src/collect.rs:524-537 | writing from a time on leaves every lookup from that time on covered, and its lines inserted by time are exactly the newly written states |
| History.LinesAreKept | SCREENER/src/collect.rs:524-537 | the lines written are, in time order, the states marked written; a state replaced within its millisecond is in neither |
| History.KeptAt | SCREENER/src/report.rs:76-78 | a lookup by time in the written states finds the last state at or before it when that one is written, and none when there is none |
| Quotes.FlagsAnswerAsSizes | SCREENER/src/collect.rs:101-121 | a state read back from its depth flags answers `best_edge` and each hedge depth as its sizes did, at the recorded depth |
| Gates.GateDominance | SCREENER/src/collect.rs:183-196 | whenever the report's threshold exists over the same samples, the recorder's trigger is at most it: nearest rank at a lower percentile, from a lower floor, or the floor in warm-up |
| Gates.LevelIsNearestRank | SCREENER/src/collect.rs:183-196 | `level` is the nearest-rank element, by its bin's lower edge, of the flattened retained samples from the floor's bin up, and none under the minimum count |
| Gates.RankIs | SCREENER/src/collect.rs:183-196 | the rank is the least count, from one up, that covers the percentile, or all of them |
| Gates.EdgeBinIs | SCREENER/src/collect.rs:144-146 | an edge's bin is the quarter of a basis point it lies in |
| Gates.Gate.Push | SCREENER/src/collect.rs:160-165 | pushing a window adds its samples bin by bin; the total stays the recount of the retained windows |
| Gates.Gate.Expire | SCREENER/src/collect.rs:168-179 | expiry drops exactly the leading windows that started before a time; the total stays their recount |
| Gates.Gate.LevelNow | SCREENER/src/collect.rs:183-196 | the level computed from the kept total is the level of the retained windows |
| Gates.DropIsFilter | SCREENER/src/collect.rs:168-179 | for windows in time order, dropping from the front is keeping those of the span |
| Restart.GateFollows | SCREENER/src/collect.rs:449-465 | after any events, the gate counts in every bin what the windows of the span before the current one count, and the trigger is theirs |
| Restart.RestartKeepsGate | SCREENER/src/collect.rs:561-580 | a second run started, even mid-window, from what the first wrote has at every later moment the gate and trigger of all summaries of both runs within the span |
| Replay.StartMirrors | SCREENER/src/collect.rs:353-378 | a run starting from summary lines starts with the gate, the carried samples and the trigger those lines give |
| Replay.AddGatesIs | SCREENER/src/collect.rs:561-580 | loading gates keeps the windows of the span before the current one, and counts the current window's own as carried |
| Replay.CloseMirrors | SCREENER/src/collect.rs:449-465 | closing a window keeps the gate equal to the recount of the written windows, carried samples counted once |
| Collector.Recorder.constructor | SCREENER/src/collect.rs:353-378 | a new recorder: one unknown state in the ring, the gate and trigger of its history |
| Collector.Recorder.Receive | SCREENER/src/collect.rs:380-410 | one event's effect on the recorder and the lines it writes |
| Collector.Recorder.Closed | SCREENER/src/collect.rs:413-425 | a closed connection's effect and lines |
| Collector.Recorder.MoveClock | SCREENER/src/collect.rs:429-435 | the clock never goes back, and every window ended by it is summarized in turn |
| Collector.Recorder.CloseWindowAt | SCREENER/src/collect.rs:449-465 | one window's summary line, its gate and the new trigger |
| Collector.Recorder.OnChange | SCREENER/src/collect.rs:501-521 | a changed state: kept, sampled, written and its tail begun |
| Collector.Recorder.Traded | SCREENER/src/collect.rs:392-409 | a trade's effect and lines |
| Collector.Recorder.WriteRingSince | SCREENER/src/collect.rs:524-537 | the ring's unwritten states from a time on, written once each, those replaced at once skipped |
| Collector.Recorder.End | SCREENER/src/collect.rs:439-446 | the end of a run: the closing mark, both gaps, the last summary |
| Report.SimulateTaker | SCREENER/src/report.rs:199-250 | the taker loop, its gate followed window by window, computes the run over states and windows that the replay theorem speaks of |
| Report.SimulateXemm | SCREENER/src/report.rs:302-359 | the maker-taker loop computes the run over trades and states that the replay theorem speaks of |
| Report.FollowGate | SCREENER/src/report.rs:213-222 | moving the report's gate to a window leaves exactly the windows of its span |
| TakerCash.EveryFill | SCREENER/src/report.rs:229-247 | every fill of every run: a clip at the left mid of a state whose better edge opens the gate, bought at the ask and sold at the bid of the states in force after each leg's own lag; its net is what the sold leg brought less what the bought leg cost and each leg's fee on its own price |
| TakerCash.TakerRunIs | SCREENER/src/report.rs:206-250 | every run: at each state it fills, leaves a fill out for an unknown book or does nothing, exactly as that state's books, the gate, the cooldown and the position cap say; position, cash, days and means are the sums over its fills |
| TakerCash.TakerResultIs | SCREENER/src/report.rs:251-274 | the result: pnl is the sum of the fills' nets less the closing cost, the days sum to the pnl, the cost is the basis on the position at the last known left mid, booked on the last day both books were known |
| TakerCash.SamplesAre | SCREENER/src/report.rs:202-203 | the samples reported are those of all windows from the required edge's bin up, and fewer than the gate needs is a warm-up |
| XemmCash.EveryFill | SCREENER/src/report.rs:308-357 | for a maker fee between minus one and one, every fill of every run: a print through the quote priced a quote's age before, hedged at the ask bought or the bid sold of the book in force after notice and latency, a clip when flat and else at most what flattens; its net is that cash less each leg's fee on its own price |
| XemmCash.QuotePriceIs | SCREENER/src/report.rs:326-336 | the quote is the most aggressive price, no better than the own touch, that nets the required edge after both fees when hedged at once |
| XemmCash.XemmRunIs | SCREENER/src/report.rs:308-357 | likewise for every run: each trade fills, is left out for an unknown hedge book or does nothing, exactly as the books, the cooldown and the position say; position, pnl, days and edge are the sums over the fills |
| XemmCash.XemmResultIs | SCREENER/src/report.rs:345-365 | the result: pnl is the sum of the fills' nets less the closing cost, and the days sum to it |
| XemmCash.FillsFlatten | SCREENER/src/report.rs:312-351 | with a position open, a fill brings it nearer to flat and never past it |
| Bookings.CloseOutIs | SCREENER/src/report.rs:265-274 | closing costs the basis on the position at the last known left mid, and is booked on the last day both books were known |
| Bookings.BestIs | SCREENER/src/collect.rs:109-121 | the better executable direction, left on a tie, and its edge, from the touches and sizes alone |
| Bookings.StateAtIs | SCREENER/src/report.rs:76-78 | a lookup by time finds the state in force: at or before the time, with none later at or before it |
| Common.SortByIsStable | SCREENER/src/report.rs:142-150 | sorting loaded lines by time is stable: states of one millisecond keep their order |
| Rights.Exclusivity | LIGHTER_ASTER_BOT/src/controller/supervisor.rs:341-369 | every reachable state: a held lease means an active reduce-mode taker, an active taker means no observer, the published lease is the held one, no expiry passes the cap, a halt leaves no engine and no lease |
| Rights.EveryRunRuled | LIGHTER_ASTER_BOT/src/controller/supervisor.rs:487-503 | every run's event log: a taker start, promotion or lease after an XEMM start comes only once XEMM ended by itself or stopped cleanly and both venues were then seen clear; nothing starts after a halt; leases are granted only when none is held; a pause begins only on three failed reads in a row, lets nothing start and no rights move while it lasts, and lifts on the fourth readable read in a row; a confirmed switch held at every look of its window in one mode; and every decision is the right one (`Decisions.Right`) for the statuses read, the clocks and the lease last granted or extended and not revoked |
| Rights.ShutdownLeavesNothing | LIGHTER_ASTER_BOT/src/controller/supervisor.rs:290-301 | however a run is ended, stopping the writer and then the observer leaves no engine and no lease, and the log still keeps the rules |
| Rights.EveryRunGood | LIGHTER_ASTER_BOT/src/controller/supervisor.rs:307-443 | the invariant of slots, rights, lease, custody of XEMM's orders, pause counter and confirm windows, after startup and any sequence of ticks |
| Rights.HaltKeeps | LIGHTER_ASTER_BOT/src/controller/supervisor.rs:754-779 | a halt from any reachable state empties both slots and gives up the lease |
| Rights.HandRights | LIGHTER_ASTER_BOT/src/controller/supervisor.rs:353-368 | with XEMM gone and its orders verified clear, the lease and the rights go to the reduce taker and the invariant holds |
| Rights.ActivateKeeps | LIGHTER_ASTER_BOT/src/controller/supervisor.rs:341-369 | the burst hand-over, with every failure on its way, keeps the invariant |
| Rights.EnsureBotKeeps | LIGHTER_ASTER_BOT/src/controller/supervisor.rs:543-577 | a switch keeps the invariant and ends with the target active, a halt or a stop |
| Rights.CheckExitsKeeps | LIGHTER_ASTER_BOT/src/controller/supervisor.rs:649-676 | reaping an engine that ended keeps the invariant, crash loops and failures included |
| Rights.XemmGone | LIGHTER_ASTER_BOT/src/controller/supervisor.rs:543-555 | XEMM is restarted only once it has ended and been reaped |
| Warrants.EveryRunWarranted | LIGHTER_ASTER_BOT/src/controller/supervisor.rs:543-577 | every run's event log: a normal taker that had not ended gives way only to XEMM and only after the last look confirmed its margin limit; XEMM gives way to a normal taker only after the last look confirmed it ready; no engine is switched to itself in one mode |
| Warrants.DecideFits | LIGHTER_ASTER_BOT/src/controller/regime.rs:149-199 | a decision asks for the engine that runs, or for a switch that its own confirmation warrants |
| Warrants.EnsureBotLinked | LIGHTER_ASTER_BOT/src/controller/supervisor.rs:543-577 | a switch rests on the rights found when it was decided, or on none if their engine ended before it |
| Rights.DecideKeeps | LIGHTER_ASTER_BOT/src/controller/regime.rs:149-199 | what a decision leaves in its confirm windows agrees with the looks in the log, and it confirms only what has held for the window |
| Rights.DecidedBy | LIGHTER_ASTER_BOT/src/controller/regime.rs:178-190 | a decision that asks a confirm window switches exactly when the window has run, for the condition of its mode |
| Rights.CountStableKeeps | LIGHTER_ASTER_BOT/src/controller/supervisor.rs:404-413 | a pause counts readable ticks in a row and lifts on the fourth |
| Leases.LeaseLife | LIGHTER_ASTER_BOT/src/controller/supervisor.rs:696-742 | any two points of any run under a clock that never goes back: one lease's expiry never moves earlier, nor at all once expired, and any other lease is newer than all granted before |
| Exits.ExitsAre | LIGHTER_ASTER_BOT/src/controller/supervisor.rs:649-676 | an engine that ended gives up its rights and windows, and halts the supervisor exactly when it failed or was the third in a row up for less than ten minutes |
| Exits.BackoffIs | LIGHTER_ASTER_BOT/src/controller/supervisor.rs:679-694 | an observer that ended waits one, two, four and then five minutes, starting over after one up for ten |
| Exits.ObserverIs | LIGHTER_ASTER_BOT/src/controller/supervisor.rs:579-600 | beside XEMM an observer is started exactly when there is none and its wait has passed; otherwise none is kept, and one that does not drain halts |
| Exits.SwitchIs | LIGHTER_ASTER_BOT/src/controller/supervisor.rs:553-577 | a switch halts exactly when the observer in a taker's way or the writer fails to stop, or no poll shows both venues clear after XEMM; else it ends with the target started now, or with a stop asked for and nobody active |
| Exits.CarryOutIs | LIGHTER_ASTER_BOT/src/controller/supervisor.rs:416-443 | a decision carried out: a halt; XEMM only once its status is read and, on a second read, reduce-only; else the target holds the rights unless something halts it or a stop was asked for |
| Exits.StatusFailedIs | LIGHTER_ASTER_BOT/src/controller/supervisor.rs:380-394 | an unreadable status counts, and the third in a row begins a pause |
| Exits.ResolveIs | LIGHTER_ASTER_BOT/src/controller/supervisor.rs:400-413 | a breach halts, and a pause that goes on lets nothing move |
| Exits.TickIs | LIGHTER_ASTER_BOT/src/controller/supervisor.rs:371-403 | a slow tick counts a silence of the status it needs and moves nothing, or judges what it read |
| Exits.BootIs | LIGHTER_ASTER_BOT/src/controller/supervisor.rs:267-274 | startup halts exactly when no poll shows both venues clear, and starts no engine |
| Exits.StoppedForGood | LIGHTER_ASTER_BOT/src/controller/supervisor.rs:275-305 | every run: once halted or asked to stop, no further tick does anything |
| Regimes.LimitedAtResume | LIGHTER_ASTER_BOT/src/controller/regime.rs:210-268 | margin-limited at the switch clips implies margin-limited at higher resume clips, for a clip not below zero |
| Decisions.DecideIsRight | LIGHTER_ASTER_BOT/src/controller/regime.rs:144-199 | for every regime, status and clock: the reduce taker is kept exactly when its position is above the near-flat bound and the clock is before the held lease's expiry, and goes back to XEMM exactly when it is above and the expiry is reached or no lease is held; halts, confirmed switches and bootstrap likewise, over the reported positions, margins and opportunities |
| Signals.FastTickIs | LIGHTER_ASTER_BOT/src/controller/supervisor.rs:307-339 | a fast tick acts on a confirmed signal of this market with enough samples, newer than the last used and not too old, and on no other; it extends a reduce taker's lease, or takes XEMM off the rights |
| Signals.GrantIs | LIGHTER_ASTER_BOT/src/controller/supervisor.rs:696-715 | a lease granted starts now under a new id and a new cap, ending after its seconds or at the cap; one held is renewed under its own cap |
| Signals.ExtendIs | LIGHTER_ASTER_BOT/src/controller/supervisor.rs:718-735 | an unexpired lease is moved to those terms exactly when that is more than a second later; else nothing changes |
| Signals.TradesExtend | LIGHTER_ASTER_BOT/src/controller/supervisor.rs:395-399 | new trades extend the lease of a reduce taker and of nobody else |
| Regimes.HysteresisExactly | LIGHTER_ASTER_BOT/src/controller/regime.rs:210-268 | for every non-empty status and higher resume clips: being limited at the switch clips implies it at the resume clips, whatever its headroom and available margins, exactly when an opportunity already binds, the clip is not negative, or the thresholds are equal |
| Regimes.BlockedNotReady | LIGHTER_ASTER_BOT/src/controller/regime.rs:179-190 | so for a reported positive clip, as every configured taker has, a taker blocked at one look is ready at it near flat only |
| Regimes.NegativeClipFlips | LIGHTER_ASTER_BOT/src/controller/regime.rs:326-336 | a negative clip, which the taker's configuration refuses (taker/config.rs:45-46), would turn it round: some headroom or margins are then limited at the switch clips only |
| Controllers.Controller.GrantLease | LIGHTER_ASTER_BOT/src/controller/supervisor.rs:696-715 | grants or renews the lease and publishes it, with the log entry saying which |
| Controllers.Controller.ExtendLease | LIGHTER_ASTER_BOT/src/controller/supervisor.rs:718-735 | extends only by more than a second, never an expired lease |
| Controllers.Controller.RevokeLease | LIGHTER_ASTER_BOT/src/controller/supervisor.rs:737-742 | gives up the lease and its publication |
| Controllers.Controller.StopActive | LIGHTER_ASTER_BOT/src/controller/supervisor.rs:617-628 | revokes the reduce lease before the stop and clears the rights whatever the stop returned |
| Controllers.Controller.Halt | LIGHTER_ASTER_BOT/src/controller/supervisor.rs:754-779 | latches the halt, then stops writer and observer |
| Controllers.Controller.CheckExits | LIGHTER_ASTER_BOT/src/controller/supervisor.rs:649-676 | reaps ended engines, counting short uptimes |
| Controllers.Controller.VerifyOrdersClear | LIGHTER_ASTER_BOT/src/controller/supervisor.rs:487-503 | the polling loop answers yes exactly when some poll before the deadline shows no open order on either venue |
| Controllers.Controller.ActivateReduce | LIGHTER_ASTER_BOT/src/controller/supervisor.rs:341-369 | stop, verify, grant, promote, in that order and no further than the first failure |
| Controllers.Controller.constructor | LIGHTER_ASTER_BOT/src/controller/supervisor.rs:267-274 | startup: no engine before both venues are verified clear; the invariant holds |
| Controllers.Controller.Step | LIGHTER_ASTER_BOT/src/controller/supervisor.rs:275-289 | one pass of the run loop, from and to a state with the invariant of every reachable state |
| Controllers.Controller.FastTick | LIGHTER_ASTER_BOT/src/controller/supervisor.rs:307-325 | one fast tick |
| Controllers.Controller.ShutDown | LIGHTER_ASTER_BOT/src/controller/supervisor.rs:290-301 | the writer stopped first, then the observer; no engine and no lease left |
| Controllers.Controller.EnsureBot | LIGHTER_ASTER_BOT/src/controller/supervisor.rs:543-552 | leaves a running target alone; else reaps what ended and switches |
| Controllers.Controller.Switch | LIGHTER_ASTER_BOT/src/controller/supervisor.rs:553-577 | stops observer and writer, verifies after XEMM, starts the target, no further than the first failure or a stop |
| Controllers.Controller.EnsureObserver | LIGHTER_ASTER_BOT/src/controller/supervisor.rs:579-600 | keeps the standby only beside XEMM, with its restart backoff |
| Controllers.Controller.Decide | LIGHTER_ASTER_BOT/src/controller/regime.rs:149-199 | the decision, its confirm windows updated in place |
| Controllers.Controller.Tick | LIGHTER_ASTER_BOT/src/controller/supervisor.rs:371-443 | one slow tick: statuses, pause, loss stop, decision, switch, standby |
| Readers.LateSubscriberGiven | LIGHTER_ASTER_BOT/src/dryrun/feed.rs:384-394 | every interleaving: since its subscription an open follower was given the book of the published prefix, then exactly the remaining frames it has reached, in arrival order, no break among them; once caught up these are all the session's frames of the stream |
| Readers.LateSubscriberReads | LIGHTER_ASTER_BOT/src/dryrun/feed.rs:219-228 | every interleaving: reading what it was given leaves a caught-up late subscriber with the book and sequence that every frame of the session gives, when the snapshot it was served could carry the place in the sequence |
| Readers.LateExactly | LIGHTER_ASTER_BOT/src/dryrun/feed.rs:246-273 | for every continuous published frames: the late reader has the book, whatever continuous frames follow, exactly when the venue's last snapshot has the fields a served one fills in; and then its whole state is the full reader's |
| Readers.LateLoses | LIGHTER_ASTER_BOT/src/dryrun/feed.rs:256-260 | whenever it does not, one more continuous delta loses the late reader, with another book, and not the full one |
| Readers.SynthesizedContinues | LIGHTER_ASTER_BOT/src/dryrun/feed.rs:246-273 | the served snapshot gives the served book always, and the served place in the sequence exactly when those fields were there |
| Readers.NonceLeftOut | LIGHTER_ASTER_BOT/src/dryrun/feed.rs:256-260 | such frames: a snapshot with an offset only, a delta with a nonce, and that one more |
| Readers.SnapshotRoundTrip | LIGHTER_ASTER_BOT/src/dryrun/feed.rs:250-255 | a book listed as a snapshot reads back as the same book |
| Readers.ServedIsRead | LIGHTER_ASTER_BOT/src/dryrun/feed.rs:230-244 | the book and sequence served after any continuous frames are those a reader of the frames has |
| Standings.ServedShows | LIGHTER_ASTER_BOT/src/dryrun/feed.rs:230-244 | after any frames, on each side and at each price, the size served is that of the last row for the price since the last snapshot (in the snapshot itself the last that is not zero), and the price is absent when that is zero or there is none |
| Standings.ReaderShows | LIGHTER_ASTER_BOT/src/dryrun/feed.rs:230-244 | so is the book of a reader of continuous frames |
| Standings.ContinuousExactly | LIGHTER_ASTER_BOT/src/dryrun/feed.rs:199-215 | frames are followed exactly when each delta comes after a snapshot and continues the last nonce, or the last offset where a nonce is missing |
| Standings.FollowedIs | LIGHTER_ASTER_BOT/src/dryrun/feed.rs:199-215 | the sequence kept is the nonce and offset last given since the last snapshot |
| Standings.ContinuesIs | LIGHTER_ASTER_BOT/src/dryrun/feed.rs:199-215 | after continuous frames a message is applied exactly when it continues them, skipped exactly when they already cover it, and leaves a gap otherwise |
| Standings.ReceivesOne | LIGHTER_ASTER_BOT/src/dryrun/feed.rs:463-471 | a relay closes a follower exactly when it is a break or 4096 more have followed it; else a frame beyond its stream's cut is queued and any other let by |
| Standings.StampsAre | LIGHTER_ASTER_BOT/src/dryrun/feed.rs:246-273 | a served snapshot carries the time of serving and the shifted engine time of the last frame, in the fields the venue's own had |
| Standings.AdvancePublishes | LIGHTER_ASTER_BOT/src/dryrun/feed.rs:355-362 | what is published is exactly the front of what is in flight that is due |
| Standings.PushReleases | LIGHTER_ASTER_BOT/src/dryrun/feed.rs:294-298 | a frame's release is its publication plus its latency draw, or the release ahead of it where that is later |
| Readers.ReleasedInOrder | LIGHTER_ASTER_BOT/src/dryrun/feed.rs:294-298 | every run: frames are queued in release order, none to be released before its shifted publication |
| Subscribers.EveryRun | LIGHTER_ASTER_BOT/src/dryrun/feed.rs:355-394 | the hub's invariant over every run: in flight is the tail of the session, the rest is in the served books, relays are numbered by arrival |
| Subscribers.ForwardKeeps | LIGHTER_ASTER_BOT/src/dryrun/feed.rs:199-215 | the upstream forwards only frames that continue each stream's sequence, snapshots first |
| Subscribers.CutDivides | LIGHTER_ASTER_BOT/src/dryrun/feed.rs:465-468 | a relayed frame is beyond a stream's cut exactly when it was relayed after the subscription |
| Subscribers.OpensWithAll | LIGHTER_ASTER_BOT/src/dryrun/feed.rs:384-394 | a subscription opens with the published book and all of the stream's frames in flight |
| Connections.Relayer.Advance | LIGHTER_ASTER_BOT/src/dryrun/feed.rs:355-362 | publishes from the front what is due into the served books |
| Connections.Relayer.Arrive | LIGHTER_ASTER_BOT/src/dryrun/feed.rs:365-371 | queues, publishes and relays a frame under the next number, and keeps the hub's invariant |
| Connections.Relayer.Break | LIGHTER_ASTER_BOT/src/dryrun/feed.rs:375-379 | drops what is in flight and the books, and relays the break, and keeps the hub's invariant |
| Connections.Relayer.Subscribe | LIGHTER_ASTER_BOT/src/dryrun/feed.rs:384-394 | the first items of a subscription, in order, and its cut |
| Connections.Connection.Push | LIGHTER_ASTER_BOT/src/dryrun/feed.rs:294-298 | a frame is released after its latency draw and never before the frame ahead of it |
| Connections.Connection.Subscribe | LIGHTER_ASTER_BOT/src/dryrun/feed.rs:416-431 | refuses a stream not carried; else follows it from the hub's present, and keeps that it is given all of it |
| Connections.Connection.Receive | LIGHTER_ASTER_BOT/src/dryrun/feed.rs:463-471 | queues a relayed frame past its stream's cut; closes on a break or on falling too far behind; keeps what each stream was given whole |
| Connections.Connection.Take | LIGHTER_ASTER_BOT/src/dryrun/feed.rs:304-310 | hands over the front frame when it is due, and only then; keeps what each stream was given whole |
| Economics.GrossIsCash | LIGHTER_ASTER_BOT/src/live_report.rs:303-317 | with prices known and flat venue positions, gross is sell quote less buy quote less the quotes of fills without quantity, so it is the cash exactly when those cancel |
| Economics.GrossKnown | LIGHTER_ASTER_BOT/src/live_report.rs:256-317 | gross is reported exactly when every fill that moved a quantity has a price |
| Economics.IdleQuoteLost | LIGHTER_ASTER_BOT/src/live_report.rs:430-431 | a trade bought and sold at one price and a fill without quantity but with a quote, which parsing accepts: a group the report prices, with gross 0 and cash 5 |
| Economics.ApplyMovesCash | LIGHTER_ASTER_BOT/src/live_report.rs:244-272 | opening, adding, closing or flipping changes realized less open cost by exactly the fill's cash |
| Economics.TotalsAre | LIGHTER_ASTER_BOT/src/live_report.rs:244-272 | volume, quote and fees of a venue are the sums over its fills, the unknown left out, and the fee is unknown exactly when some fill's is |
| Economics.AccountSays | LIGHTER_ASTER_BOT/src/live_report.rs:303-326 | fees exactly when all are known, net as gross less fees, the matched part of opposite holdings and the residual of both |
| Economics.GrossAnyOrder | LIGHTER_ASTER_BOT/src/live_report.rs:300-317 | gross of a flat pair does not depend on the order of the fills |
| Economics.ImplementationsAgree | economics.py:99-150 | both implementations give the same account of the same fills in one order |
| Economics.ImplementationsAgreeAnyOrder | economics.py:99-135 | and the same gross of a flat pair however each orders them |
| Economics.Book.Take | LIGHTER_ASTER_BOT/src/live_report.rs:244-272 | the in-place position update |
| Economics.Summarize | LIGHTER_ASTER_BOT/src/live_report.rs:303-326 | the loop over fills gives the account of both venues' positions |
| Journal.ReadTwice | LIGHTER_ASTER_BOT/src/live_report.rs:363-419 | a journal of identified rows appended to itself gives the same groups |
| Journal.ReadTwiceExactly | LIGHTER_ASTER_BOT/src/live_report.rs:376-419 | for every journal, appended to itself it gives the same groups exactly when, for each fill row, the last report of its second identity in the second reading is, but for its place, the last report of that identity in the first |
| Journal.ReadTwiceApart | LIGHTER_ASTER_BOT/src/live_report.rs:223-228 | so, where no row reports the identity a line number gives on the second reading, exactly when every fill row has an identity of its own |
| Journal.FoldKeeps | LIGHTER_ASTER_BOT/src/live_report.rs:412-416 | the fill kept under an identity is the last one reported, in the place of the first |
| Journal.ReadTwiceOnly | LIGHTER_ASTER_BOT/src/live_report.rs:223-228 | the groups are the same only if the second reading gives each unidentified fill an identity that another row of its obligation reports |
| Journal.UnidentifiedDoubles | LIGHTER_ASTER_BOT/src/live_report.rs:223-228 | a hedge without ids is another fill when the journal is read twice |
| Journal.CollisionHidesLine | LIGHTER_ASTER_BOT/src/live_report.rs:225-226 | two hedges, the second with trade id 2: read twice they give the same groups, though the first has no identity |
| Journal.LockStep | LIGHTER_ASTER_BOT/src/live_report.rs:376-419 | one row read a second time leaves what the first reading had settled by it |
| Journal.FoldJournal | LIGHTER_ASTER_BOT/src/live_report.rs:363-420 | the grouping loop computes the fold |
| Coverages.CoverageSums | LIGHTER_ASTER_BOT/src/live_report.rs:274-298 | with no ids shared, each attempt's fills in the final list sum to the larger of raw and cumulative quantity, and to the cumulative quote where coverage was added and quotes are known |
| Coverages.RestIs | LIGHTER_ASTER_BOT/src/live_report.rs:281-298 | an attempt's rest: none once its fills reach the cumulative quantity, malformed without a side or with a known quote left that is not positive, else one fill of exactly what is left |
| Coverages.FinalOrder | LIGHTER_ASTER_BOT/src/live_report.rs:299-299 | the final list is what coverage gave, in order of time and then line, a fill without a time first, and stable |
| Coverages.UncoverableCounts | LIGHTER_ASTER_BOT/src/live_report.rs:290-291 | with no ids shared, the malformed count is that of the attempts whose rest over the raw fills has no side or no positive quote left |
| Coverages.FinallyCovered | LIGHTER_ASTER_BOT/src/live_report.rs:274-298 | before the final sort, an attempt's fills are its raw ones and its own coverage, whatever the others added |
| Coverages.Coverage | LIGHTER_ASTER_BOT/src/live_report.rs:274-300 | the loop over attempts adds each one's rest in turn, counts the malformed ones and sorts |
| Accounts.EquityIdentity | LIGHTER_ASTER_BOT/src/dryrun/account.rs:3-4 | every sequence of fills and funding over any markets and marks: balance is initial plus realized less fees plus funding, equity is initial less fees plus funding plus every fill's gain against its mark |
| Accounts.FillMovesCost | LIGHTER_ASTER_BOT/src/position.rs:35-75 | averaging, partial close and flip move open cost less realized by exactly the fill's cost |
| Accounts.MarginCovers | LIGHTER_ASTER_BOT/src/dryrun/account.rs:89-108 | however the working orders fill in part, the positions left need no more margin than was counted |
| Accounts.MarginIsWorst | LIGHTER_ASTER_BOT/src/dryrun/account.rs:89-108 | for working sizes and marks not below zero, it is the least such margin: some filling of one side of each market in full, and nothing of the other, needs exactly it |
| Accounts.MaintenanceIs | LIGHTER_ASTER_BOT/src/dryrun/account.rs:111-141 | the maintenance margin is 2% of the marked positions |
| Accounts.FlatHasNoPrice | LIGHTER_ASTER_BOT/src/position.rs:35-75 | every run: a market with nothing open has no price |
| Accounts.OpenPosition.Fill | LIGHTER_ASTER_BOT/src/position.rs:35-75 | the in-place position update and what it realized |
| Accounts.Ledger.Fill | LIGHTER_ASTER_BOT/src/dryrun/account.rs:74-81 | books a fill in its market; returns the realized part |
| Accounts.Ledger.Fund | LIGHTER_ASTER_BOT/src/dryrun/account.rs:84-87 | books a funding payment |
| Accounts.Ledger.CountMargin | LIGHTER_ASTER_BOT/src/dryrun/account.rs:91-109 | the loop over positions and working orders sums each market's larger exposure |
| Accounts.Ledger.Look | LIGHTER_ASTER_BOT/src/dryrun/account.rs:111-141 | equity, margin and what is available, and a breach exactly when fifty times the equity is below the marked positions, summed in one pass |
| Inventory.Conservation | LIGHTER_ASTER_BOT/src/inventory.rs:90-183 | every run of fills: signed fills are exactly what was hedged plus what is pending, and their cost is what those are carried at less the gains netting realized |
| Inventory.NetMoves | LIGHTER_ASTER_BOT/src/inventory.rs:90-150 | one netting: the quantity moves by the fill, and the cost by the fill less what it realizes, which is the netted pnl plus the rate on both prices of what was closed |
| Inventory.NettedIs | LIGHTER_ASTER_BOT/src/inventory.rs:90-150 | only a fill against the pending side nets, at the two prices, what both sizes lose |
| Inventory.HedgesWhenLargeEnough | LIGHTER_ASTER_BOT/src/inventory.rs:155-182 | a hedge is sent exactly when the net is not zero and reaches the minimum, for the whole net; otherwise the net stays pending |
| Inventory.MinHedgeIsLeast | LIGHTER_ASTER_BOT/src/inventory.rs:56-64 | the minimum hedge is the least whole number of steps, at least one, worth the venue's minimum |
| Inventory.HandleFillParts | LIGHTER_ASTER_BOT/src/inventory.rs:90-183 | the in-place netting of one fill |
| Decimals.FloorIsLargest | LIGHTER_ASTER_BOT/src/decimal.rs:19-27 | rounding down gives the largest step at or below |
| Decimals.CeilIsSmallest | LIGHTER_ASTER_BOT/src/decimal.rs:29-37 | rounding up gives the smallest step at or above |
| Books.BuildSide | LIGHTER_ASTER_BOT/src/book.rs:88-100 | every row sequence: the side built is the best twenty levels of the full book that drops non-positive rows and sums duplicate prices |
| Books.BestIsUnique | LIGHTER_ASTER_BOT/src/book.rs:28-34 | the rows alone determine that side |
| Books.InsertKeeps | LIGHTER_ASTER_BOT/src/book.rs:103-127 | a new price inserted, a full side first giving up its last level, keeps that: an evicted level never belongs again |
| Books.UpsertSorted | LIGHTER_ASTER_BOT/src/book.rs:103-127 | one row into the side |
| Books.Locate | LIGHTER_ASTER_BOT/src/book.rs:107-119 | the binary search finds the level of a price, or the place between two |
| Vwap.AsksWorsen | LIGHTER_ASTER_BOT/src/vwap.rs:36-82 | lifting asks: the average lies between touch and worst price and never falls as the quantity grows |
| Vwap.BidsWorsen | LIGHTER_ASTER_BOT/src/vwap.rs:36-82 | hitting bids: the average lies between worst price and touch and never rises as the quantity grows |
| Vwap.TakenIsLess | LIGHTER_ASTER_BOT/src/vwap.rs:51-63 | filled is the smaller of quantity and depth |
| Vwap.TakePartial | LIGHTER_ASTER_BOT/src/vwap.rs:39-82 | the walking loop: filled, the average as the touch moved by the slippage, the worst price and number of levels used, and exhausted exactly when the side fills less than asked |
| Vwap.SlippageNotNegative | LIGHTER_ASTER_BOT/src/vwap.rs:19-20 | slippage from the touch is never negative on an ordered side |
| Vwap.SlippageIs | LIGHTER_ASTER_BOT/src/vwap.rs:71-83 | the average is the touch moved by the slippage over ten thousand, up when buying and down when selling |
| Vwap.SlippageWithin | LIGHTER_ASTER_BOT/src/quote_engine.rs:374-377 | the slippage is within a bound exactly when the average is within that of the touch |
| Vwap.WalkIs | LIGHTER_ASTER_BOT/src/vwap.rs:51-66 | what the walk pays is, level by level, what is left to take of each; the worst price is that of the last level used |
| Vwap.BuiltSolid | LIGHTER_ASTER_BOT/src/book.rs:28-34 | a built side is in book order at positive prices and quantities, as the walk takes it |
| Edge.BidInverts | LIGHTER_ASTER_BOT/src/edge.rs:54-69 | a bid clears the required edge exactly when no higher than the solver's price; with none, no positive bid clears |
| Edge.AskInverts | LIGHTER_ASTER_BOT/src/edge.rs:71-85 | an ask clears the required edge exactly when no lower than the solver's price; with none for a maker fee below one, every positive ask clears it |
| Edge.AskFound | LIGHTER_ASTER_BOT/src/edge.rs:71-85 | under what the configuration accepts (no negative minimum or buffer, a taker fee above minus one) and positive prices, the solver has an ask exactly when the maker fee is below one |
| Edge.BetterHedge | LIGHTER_ASTER_BOT/src/edge.rs:87-111 | a better hedge price is a better edge |
| Quoting.QuoteSound | LIGHTER_ASTER_BOT/src/quote_engine.rs:262-460 | every quote given rests strictly behind the opposite touch on a tick, clears both venues' minimums, keeps both legs within enforced caps, shrinks both without flipping under reduce-only, clears the edge and its distances; the two rejections that recheck a rounded price are never given |
| Refusals.QuotedExactly | LIGHTER_ASTER_BOT/src/quote_engine.rs:262-460 | under a loaded configuration: a quote is given exactly when the books are usable and there is one to make, and it is that one: the largest allowed size, hedged within the slippage bound, at the best price for that hedge, worth the minimum and within the distances of the effective touch |
| Refusals.QuoteRefused | LIGHTER_ASTER_BOT/src/quote_engine.rs:262-460 | every refusal on usable books with its reason: no allowed size, no profitable price for the hedge, too small, no touch, too far or too close |
| Refusals.SizeRefused | LIGHTER_ASTER_BOT/src/quote_engine.rs:285-367 | the reason where no size is allowed, and the cap that shrank one: reduce-only, the leg with the least room in notional, the minimum past the caps, or below the minimum |
| Answers.QuoteSays | LIGHTER_ASTER_BOT/src/quote_engine.rs:262-460 | every quote given was made on usable books: its hedge average is that of the depth multiple, within the slippage bound of the hedge touch, its edge is what a unit nets after both fees less the buffers, and its price lies within the distances of the effective touch |
| Answers.BookReasons | LIGHTER_ASTER_BOT/src/quote_engine.rs:264-302 | each rejection of a book is given exactly for the first defect there is: a missing side, a crossed touch, no mid, a stale book |
| Answers.HedgeReasons | LIGHTER_ASTER_BOT/src/quote_engine.rs:372-377 | a size found is rejected for its hedge exactly when the side cannot fill the multiple, or its average is outside the slippage bound |
| Answers.TouchHere | LIGHTER_ASTER_BOT/src/quote_engine.rs:469-515 | the effective touch is the best offer where that holds the target, else the first level of a usable depth by which it is covered |
| Quoting.SizeSound | LIGHTER_ASTER_BOT/src/quote_engine.rs:285-367 | every size found satisfies every cap and minimum at once, on a step |
| Quoting.SizeBest | LIGHTER_ASTER_BOT/src/quote_engine.rs:285-367 | it is the largest size on a step that does and is no more than desired (or is the minimum, where the configuration clamps up to it), and one is found exactly when there is any |
| Quoting.PriceSound | LIGHTER_ASTER_BOT/src/quote_engine.rs:377-406 | the price found is post-only, on a tick and clears the edge, so no recheck fails |
| Quoting.PriceBest | LIGHTER_ASTER_BOT/src/edge.rs:1-4 | it is the most aggressive price on a tick, a tick behind the opposite touch or more, that clears the edge, and one is found exactly when there is any |
| Quoting.CapsHold | LIGHTER_ASTER_BOT/src/quote_engine.rs:309-337 | legs inside their caps before stay inside after a full fill and hedge |
| Quoting.EdgeAtOwnSize | LIGHTER_ASTER_BOT/src/quote_engine.rs:369-406 | the edge at the quote's own size is at least the one priced at the depth multiple |
| Quoting.ChooseSize | LIGHTER_ASTER_BOT/src/quote_engine.rs:285-367 | the quantity rewritten gate by gate |
| Quoting.FindTouch | LIGHTER_ASTER_BOT/src/quote_engine.rs:463-515 | the loop finds the first level by which the target depth is covered |
| Quoting.ComputeDesiredQuote | LIGHTER_ASTER_BOT/src/quote_engine.rs:240-460 | the whole pipeline, each rejection in its order |
| Replicas.EveryRunExactly | LIGHTER_ASTER_BOT/src/dryrun/book.rs:99-146 | every interleaving of feed updates, gaps and fills of at most what was offered: what was taken stays between nothing and the level's size throughout exactly when no accepted update shows a negative size where something was taken |
| Replicas.EveryRunBounded | LIGHTER_ASTER_BOT/src/dryrun/book.rs:99-146 | so on a feed that shows no negative size, while warm, what was taken at each price is between nothing and its visible size |
| Replicas.NegativeSizeOffersMore | LIGHTER_ASTER_BOT/src/dryrun/book.rs:112-146 | a snapshot with a negative size, which parsing accepts (dryrun/feed.rs:69-80), makes a level of 4 offered as 6 by the next |
| Replicas.TakeableExactly | LIGHTER_ASTER_BOT/src/dryrun/book.rs:158-178 | a taker is offered, best first, exactly the opposite levels within its limit, at the smaller of both states' sizes less what was taken, where something is left |
| Replicas.WarmExactly | LIGHTER_ASTER_BOT/src/dryrun/book.rs:105-125 | every run: the book is warm exactly when a snapshot came since the last gap |
| Replicas.DeltaShows | LIGHTER_ASTER_BOT/src/dryrun/book.rs:112-146 | after a delta each price has its last row's size, and what it had where there is none |
| Replicas.ReplaceShows | LIGHTER_ASTER_BOT/src/dryrun/book.rs:112-146 | after a snapshot each price has its last row that is not zero, a newer uncrossed top laid over it |
| Replicas.BestShows | LIGHTER_ASTER_BOT/src/dryrun/book.rs:112-156 | a top laid over removes better prices, sets its own and leaves worse ones |
| Replicas.TakenAfter | LIGHTER_ASTER_BOT/src/dryrun/book.rs:130-146 | what was taken is cut to the size shown after an accepted update, and kept by a stale one |
| Replicas.StaleIs | LIGHTER_ASTER_BOT/src/dryrun/book.rs:112-130 | an update is refused exactly when older than what it would overwrite, and then changes nothing |
| Replicas.TopStands | LIGHTER_ASTER_BOT/src/dryrun/book.rs:112-156 | in any state, an accepted top with bid below ask is at once the uncrossed book's best, and so after a snapshot older than it |
| Replicas.EveryRunShowsTop | LIGHTER_ASTER_BOT/src/dryrun/book.rs:112-156 | every run without deltas: a warm book shows the last top newer than its snapshot |
| Replicas.VisibleCut | LIGHTER_ASTER_BOT/src/dryrun/book.rs:86-93 | a size is unknown exactly past the worst price of a side the depth cut |
| Replicas.AppliedBounded | LIGHTER_ASTER_BOT/src/dryrun/book.rs:112-146 | one update keeps the bound exactly when it is stale or shows no negative size where something was taken |
| Replicas.Replica.Apply | LIGHTER_ASTER_BOT/src/dryrun/book.rs:112-146 | one feed update in place; false for a stale one |
| Replicas.Replica.Overlay | LIGHTER_ASTER_BOT/src/dryrun/book.rs:149-156 | better levels removed, the best laid over, a crossed top ignored |
| Replicas.Replica.Consume | LIGHTER_ASTER_BOT/src/dryrun/book.rs:99-101 | adds to what was taken at a price |
| Dedup.BoundedAsGood | SCREENER/src/hyperliquid.rs:57-76 | every run: the pruned id set accepts exactly the trades a set of every id since the reset would, with the same counters |
| Dedup.PrintIs | SCREENER/src/hyperliquid.rs:56-76 | one print after any run: not followed, history (no known book, not after the first, or a minute before the newest accepted), unreadable, a duplicate exactly when accepted before, or accepted |
| Dedup.BooksAre | SCREENER/src/hyperliquid.rs:80-110 | the boundary is the first known book since there was none, cleared by an unknown book, half a minute's quiet or a reset |
| Dedup.NothingTwice | SCREENER/src/hyperliquid.rs:69-75 | between resets no trade is returned twice |
| Dedup.KeptIsRecent | SCREENER/src/hyperliquid.rs:70-73 | every id kept is within a minute of the newest trade |
| Dedup.AllReturned | SCREENER/src/hyperliquid.rs:56-76 | every run: every print accepted since the reset has been returned exactly when no frame failed after accepting one, and then all in order |
| Dedup.DroppedForGood | SCREENER/src/hyperliquid.rs:64-69 | a print of a frame that failed later on is returned by no later frame before the next reset |
| Dedup.RetryIsDuplicate | SCREENER/src/hyperliquid.rs:64-69 | such a print sent again is counted as a duplicate and not returned |
| Dedup.CollectorMissesNothing | SCREENER/src/collect.rs:823-836 | under the collector, which resets the filter after a failed frame, everything accepted since has been returned |
| Dedup.Filter.TradeFrame | SCREENER/src/hyperliquid.rs:57-76 | the loop over one frame's trades, stopping at one that cannot be read |
| Dedup.Filter.BookFrame | SCREENER/src/hyperliquid.rs:80-97 | a book frame moves the history boundary, unless it is older than the last |
| Dedup.Filter.Expire | SCREENER/src/hyperliquid.rs:102-110 | quiet markets lose their book and boundary |

## Left out

- Sockets, REST calls, files, JSON and TOML parsing, logging, tables, signing: rows, frames and statuses arrive parsed, and no line is lost.
- Floating-point rounding, 28-digit decimals and integer widths: reals and integers are exact, so the `i32` edge bins and the saturating offset successor do not overflow.
- The sentinels `i64::MIN` of the recorder and the outbox are absent values, and a gate's `BTreeMap` of counts is a multiset of bins.
- The recorder's time-weighted summary (`advance`) and its other columns: a summary line carries its window and its gate samples only.
- The recorder's other pairs: their events reach a pair only through the common clock, as ticks.
- A restart inside a tail or a pre-roll, and a quote age of zero: the recorded lines then miss states, so the replay theorems exclude them.
- SameTrades.TakerResultReplay: assumes both books known when the run ends, because a mark older than the ring may not have been written.
- SameTrades.XemmResultReplay: assumes both books known when the run ends, for the same reason.
- The supervisor's equity record and status backoff: a breach and a missing status are inputs, so every outcome of both is covered.
- Order verification after XEMM ends cleanly by itself: the supervisor does not do it, so the hand-over rule admits that end without it.
- Rights.Exclusivity: an active reduce taker need not hold a lease (one may be restarted in that mode), so only the other direction is stated.
- The observer's own behaviour, engine internals and task scheduling: an engine is a slot that may end, and its drain may fail.
- Frame texts: a frame is its parsed message with shifted stamps, the combined-stream wrapper is the stream name beside it, and one market is one stream.
- A book in the feed and the replica is a pair of price-to-size maps; the sorted vectors behind them are not modelled.
- Latency draws are any non-negative numbers; the wall clock of each step is any integer, and milliseconds are taken from it by flooring.
- Readers.LateSubscriberReads: assumes that the snapshot served could carry the sequence (`Positioned`), which `Readers.LateExactly` shows is exactly when the promise holds.
- Replicas.EveryRunBounded: assumes a feed without negative sizes; `Replicas.EveryRunExactly` drops that.
- The economics' labels, ids, time filter and aggregation over groups, and the Python journal reader.
- Order books' receive and exchange stamps: a book carries its age in milliseconds.
- Quote hysteresis, requote deadbands and the resting-quote recheck, which reuse the same edge.
- The dedup filter's book parsing: a book frame is known or not, and a failed parse before any state change is not an operation.
