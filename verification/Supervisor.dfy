/**
 The supervisor (LIGHTER_ASTER_BOT/src/controller/supervisor.rs): it runs the engine tasks, hands
 execution rights between them and halts fail-closed. Everything it cannot decide (whether an engine
 has finished, how a drain ends, what a status says, the clocks, a stop request) is read from a world
 at a step number, so a world ranges over every behaviour of its surroundings.
 */
module Supervisor {
  import opened Common
  import opened Regimes

  const MAX_STATUS_FAILURES := 3
  const STABLE_TICKS := 4
  const CRASH_LOOP_EXITS := 3
  const SHORT_UPTIME_SEC := 600
  const OBSERVER_RESTART_BASE_SEC := 60
  const OBSERVER_RESTART_MAX_SEC := 300

  datatype Role = TakerRole(mode: Mode) | XemmRole | ObserverRole

  datatype Task = Task(role: Role, startedAt: int)

  datatype Published = Published(id: nat, expiresAt: int)

  datatype Signal = Signal(timestamp: int, confirmed: bool, ownMarket: bool, samples: nat)

  /** One read of XEMM's status: the open orders it counts on each venue, if readable. */
  datatype Poll = Unreadable | Orders(aster: Option<nat>, lighter: Option<nat>)

  datatype Config = Config(observer: bool, leaseSec: int, leaseMaxSec: int, burstMinSamples: nat, signalFresh: int,
                           thresholds: Thresholds)

  /** What each step number reads, and from which one on a stop was asked for. */
  datatype World = World(
    time: nat -> int, mono: nat -> int, cancelled: Option<nat>, activeDone: nat -> bool, observerDone: nat -> bool,
    exitOk: nat -> bool, drainOk: nat -> bool, polls: nat -> seq<Poll>, signal: nat -> Option<Signal>,
    taker: nat -> Option<Status>, xemm: nat -> Option<Status>, newTrades: nat -> bool, breach: nat -> bool)

  /** What the event log records. */
  datatype Act =
    | Spawned(role: Role) | Stopped(role: Role, ok: bool) | Exited(role: Role, ok: bool) | Verified(clear: bool)
    | Promoted | Granted(id: nat, isNew: bool, expiresAt: int) | Extended(id: nat, expiresAt: int) | Revoked(id: nat)
    | Halted
    | StatusRead(readable: bool) | PauseBegun | PauseLifted
    | Asked(key: Condition, holds: bool, at: int) | Confirmed(key: Condition, at: int) | Switched(bot: Bot, mode: Mode)
    | Decided(regime: Regime, taker: Option<Status>, xemm: Option<Status>, mono: int, utc: int, decision: Decision)

  datatype Sup = Sup(
    n: nat, active: Option<Task>, observer: Option<Task>, bot: Option<Bot>, mode: Mode, lease: Option<Lease>,
    published: Option<Published>, since: map<Condition, int>, lastSignalAt: Option<int>, leasesGranted: nat,
    statusFailures: nat, pausedSince: Option<int>, stableTicks: nat, activeExits: nat, observerExits: nat,
    retryAfter: Option<int>, halted: bool, log: seq<Act>)

  function Fresh(): Sup {
    Sup(0, None, None, None, Normal, None, None, map[], None, 0, 0, None, 0, 0, 0, None, false, [])
  }

  function Noted(s: Sup, a: Act): Sup { s.(log := s.log + [a]) }

  /** An await: the world moves on. */
  function Wait(s: Sup): Sup { s.(n := s.n + 1) }

  /** Halted, or asked to stop: once cancelled, for good. */
  predicate Stopping(w: World, s: Sup) { s.halted || (w.cancelled.Some? && w.cancelled.value <= s.n) }

  // ---------------------------------------------------------------- the lease

  function Publish(s: Sup): Sup {
    if s.lease.None? then s else s.(published := Some(Published(s.lease.value.id, s.lease.value.expiresAt)))
  }

  function GrantLease(w: World, cfg: Config, s: Sup): Sup {
    var now := w.time(s.n);
    var held := if s.lease.Some? then s.lease.value
                else Lease(s.leasesGranted + 1, now, now, now + cfg.leaseMaxSec);
    var lease := held.(expiresAt := Min(now + cfg.leaseSec, held.maxExpiresAt));
    var granted := if s.lease.Some? then s.leasesGranted else s.leasesGranted + 1;
    Noted(Publish(s.(lease := Some(lease), leasesGranted := granted)),
          Granted(lease.id, s.lease.None?, lease.expiresAt))
  }

  /** Extends only when that moves the expiry by more than a second; an expired lease stays expired. */
  function ExtendLease(w: World, cfg: Config, s: Sup): Sup {
    if s.lease.None? then GrantLease(w, cfg, s)
    else
      var now, lease := w.time(s.n), s.lease.value;
      var desired := Min(now + cfg.leaseSec, lease.maxExpiresAt);
      if lease.expiresAt <= now || desired <= lease.expiresAt + 1 then s
      else Noted(Publish(s.(lease := Some(lease.(expiresAt := desired)))), Extended(lease.id, desired))
  }

  function RevokeLease(s: Sup): Sup {
    var t := s.(published := None, lease := None);
    if s.lease.Some? then Noted(t, Revoked(s.lease.value.id)) else t
  }

  // ---------------------------------------------------------------- stopping

  datatype Ended = Ended(s: Sup, ok: bool)

  function StopTask(w: World, s: Sup, role: Role): Ended {
    Ended(Noted(Wait(s), Stopped(role, w.drainOk(s.n))), w.drainOk(s.n))
  }

  /** Stops the engine holding the rights; the reduce lease is revoked before its stop. */
  function StopActive(w: World, s: Sup): Ended {
    var r := if s.bot == Some(TakerBot) && s.mode == Reduce then RevokeLease(s) else s;
    var e := if r.active.Some? then StopTask(w, r.(active := None), r.active.value.role) else Ended(r, true);
    Ended(e.s.(bot := None, mode := Normal), e.ok)
  }

  /** Observer exits never halt; they back off 60/120/240/300 s. */
  function OnObserverExit(w: World, s: Sup, task: Task): Sup {
    var now := w.time(s.n + 1);
    var exits := (if now - task.startedAt >= SHORT_UPTIME_SEC then 0 else s.observerExits) + 1;
    var factor := match Min(exits - 1, 3) case 0 => 1 case 1 => 2 case 2 => 4 case _ => 8;
    var retry := Min(OBSERVER_RESTART_BASE_SEC * factor, OBSERVER_RESTART_MAX_SEC);
    Wait(s).(observerExits := exits, retryAfter := Some(now + retry))
  }

  function StopObserver(w: World, s: Sup): Ended {
    if s.observer.None? then Ended(s, true)
    else
      var task, t := s.observer.value, s.(observer := None);
      if w.observerDone(s.n) then Ended(OnObserverExit(w, t, task), true) else StopTask(w, t, task.role)
  }

  /** Stops the active writer, then the observer, for good. */
  function SafeHalt(w: World, s: Sup): Sup {
    if s.halted then s
    else StopObserver(w, StopActive(w, Noted(s.(halted := true), Halted)).s).s
  }

  function ReapObserver(w: World, s: Sup): Sup {
    if s.observer.Some? && w.observerDone(s.n) then OnObserverExit(w, s.(observer := None), s.observer.value) else s
  }

  /** The active engine has ended: its rights, its lease and its confirm windows go with it. */
  function Bereft(w: World, s: Sup): Sup
    requires s.active.Some?
  {
    var r := Noted(Wait(s.(active := None)), Exited(s.active.value.role, w.exitOk(s.n)));
    var r := if s.active.value.role == TakerRole(Reduce) then RevokeLease(r) else r;
    r.(bot := None, mode := Normal, since := map[])
  }

  /** The exits in a row of engines that had not been up for long, counting one started at that time. */
  function ExitsAfter(w: World, s: Sup, startedAt: int): nat {
    if w.time(s.n) - startedAt >= SHORT_UPTIME_SEC then 0 else s.activeExits + 1
  }

  function CheckExits(w: World, s: Sup): Sup {
    if s.active.Some? && w.activeDone(s.n) then
      var r := Bereft(w, s);
      if !w.exitOk(s.n) then SafeHalt(w, r)
      else
        var r := r.(activeExits := ExitsAfter(w, r, s.active.value.startedAt));
        if r.activeExits >= CRASH_LOOP_EXITS then SafeHalt(w, r) else ReapObserver(w, r)
    else ReapObserver(w, s)
  }

  predicate ClearPoll(p: Poll) { p == Orders(Some(0), Some(0)) }

  /** Some status read before the deadline shows no open order on either venue. */
  predicate AnyClear(polls: seq<Poll>) { exists i :: 0 <= i < |polls| && ClearPoll(polls[i]) }

  function Verify(w: World, s: Sup): Ended {
    var clear := AnyClear(w.polls(s.n));
    Ended(Noted(Wait(s), Verified(clear)), clear)
  }

  // ---------------------------------------------------------------- starting

  function Spawn(w: World, s: Sup, role: Role): Sup { Noted(s, Spawned(role)) }

  function SetActive(s: Sup, bot: Bot, mode: Mode): Sup {
    var m := if bot == TakerBot then mode else Normal;
    Noted(s.(bot := Some(bot), mode := m), Switched(bot, m))
  }

  /** Promotes the observer to reduce taker, or starts one cold. */
  function Promote(w: World, s: Sup): Sup {
    var r := ReapObserver(w, s);
    if r.observer.Some?
    then Noted(r.(active := Some(r.observer.value.(role := TakerRole(Reduce))), observer := None), Promoted)
    else Spawn(w, r, TakerRole(Reduce)).(active := Some(Task(TakerRole(Reduce), w.time(r.n))))
  }

  /** XEMM to reduce taker: stop XEMM, verify both venues clear, grant the lease, then promote. */
  function ActivateReduce(w: World, cfg: Config, s: Sup): Sup {
    var stop := StopActive(w, s.(since := map[]));
    if !stop.ok then SafeHalt(w, stop.s)
    else
      var verify := Verify(w, stop.s);
      if !verify.ok then SafeHalt(w, verify.s)
      else if Stopping(w, verify.s) then verify.s
      else SetActive(Promote(w, GrantLease(w, cfg, verify.s)), TakerBot, Reduce)
  }

  function FreshSignal(w: World, cfg: Config, s: Sup): Option<Signal> {
    var x := w.signal(s.n);
    if x.None? || !x.value.confirmed || !x.value.ownMarket || x.value.samples < cfg.burstMinSamples then None
    else if s.lastSignalAt.Some? && x.value.timestamp <= s.lastSignalAt.value then None
    else if 0 <= w.time(s.n) - x.value.timestamp <= cfg.signalFresh then x else None
  }

  function FastTick(w: World, cfg: Config, s: Sup): Sup {
    var r := CheckExits(w, s);
    if Stopping(w, r) || r.pausedSince.Some? then r
    else
      var signal := FreshSignal(w, cfg, r);
      if signal.None? then r
      else if r.bot == Some(TakerBot) && r.mode == Reduce
      then ExtendLease(w, cfg, r.(lastSignalAt := Some(signal.value.timestamp)))
      else if r.bot == Some(XemmBot)
      then ActivateReduce(w, cfg, r.(lastSignalAt := Some(signal.value.timestamp)))
      else r
  }

  // ---------------------------------------------------------------- the slow tick

  function Start(w: World, s: Sup, target: Bot, mode: Mode): Sup {
    var role := if target == XemmBot then XemmRole else TakerRole(mode);
    SetActive(Spawn(w, s, role).(active := Some(Task(role, w.time(s.n))), since := map[]), target, mode)
  }

  /** After a look at the active engine: one that was running may end before the next look. */
  function Glanced(w: World, s: Sup): Sup { if s.active.Some? && w.activeDone(s.n) then s else Wait(s) }

  /** Stops the observer and the writer, verifies after XEMM, and starts the target. */
  function Switch(w: World, s: Sup, target: Bot, mode: Mode): Sup {
    var o := if target == TakerBot then StopObserver(w, s) else Ended(s, true);
    if !o.ok then SafeHalt(w, o.s)
    else
      var a := StopActive(w, o.s);
      if !a.ok then SafeHalt(w, a.s)
      else
        var v := if s.bot == Some(XemmBot) && target == TakerBot then Verify(w, a.s) else a;
        if !v.ok then SafeHalt(w, v.s)
        else if Stopping(w, v.s) then v.s
        else Start(w, v.s, target, mode)
  }

  function EnsureBot(w: World, s: Sup, target: Bot, mode: Mode): Sup {
    if s.bot == Some(target) && s.active.Some? && !w.activeDone(s.n) && (target != TakerBot || s.mode == mode) then s
    else
      var r := CheckExits(w, Glanced(w, s));
      if Stopping(w, r) then r else Switch(w, r, target, mode)
  }

  function EnsureObserver(w: World, cfg: Config, s: Sup, target: Bot): Sup {
    if !cfg.observer || target != XemmBot then
      var o := StopObserver(w, s);
      if o.ok then o.s else SafeHalt(w, o.s)
    else
      var r := ReapObserver(w, s);
      if r.observer.Some? || (r.retryAfter.Some? && w.time(r.n) < r.retryAfter.value) then r
      else Spawn(w, r, ObserverRole).(observer := Some(Task(ObserverRole, w.time(r.n))))
  }

  datatype Statuses = Statuses(s: Sup, taker: Option<Status>, xemm: Option<Status>)

  function PollStatuses(w: World, s: Sup): Statuses {
    match s.bot
    case Some(TakerBot) => Statuses(Wait(s), w.taker(s.n), None)
    case Some(XemmBot) => Statuses(Wait(Wait(s)), w.taker(s.n + 1), w.xemm(s.n))
    case None =>
      if w.taker(s.n).Some? then Statuses(Wait(s), w.taker(s.n), None)
      else Statuses(Wait(Wait(s)), None, w.xemm(s.n + 1))
  }

  predicate Readable(s: Sup, taker: Option<Status>, xemm: Option<Status>) {
    match s.bot
    case Some(TakerBot) => taker.Some?
    case Some(XemmBot) => xemm.Some?
    case None => taker.Some? || xemm.Some?
  }

  /** An unreadable status: after three in a row, no engine may open new exposure. */
  function StatusFailed(w: World, s: Sup): Sup {
    var r := Noted(s.(statusFailures := s.statusFailures + 1, stableTicks := 0), StatusRead(false));
    if r.statusFailures >= MAX_STATUS_FAILURES && r.pausedSince.None?
    then Noted(r.(pausedSince := Some(w.time(r.n))), PauseBegun) else r
  }

  /** The decision, and what it asked of its confirm window. */
  function DecideNow(w: World, cfg: Config, s: Sup, taker: Option<Status>, xemm: Option<Status>): (Sup, Decision) {
    var regime := Regime(s.bot, s.mode, s.lease, s.since);
    var d := Decide(cfg.thresholds, regime, taker, xemm, w.mono(s.n), w.time(s.n));
    var asked := Question(cfg.thresholds, regime, taker, xemm);
    var r := s.(since := d.0);
    var r := if asked.Some? then Noted(r, Asked(asked.value.0, asked.value.1, w.mono(s.n))) else r;
    var r := if d.1.reason == TakerMarginLimited then Noted(r, Confirmed(MarginLimited, w.mono(s.n)))
             else if d.1.reason == ResumeTaker then Noted(r, Confirmed(ReadyForTaker, w.mono(s.n))) else r;
    (Noted(r, Decided(regime, taker, xemm, w.mono(s.n), w.time(s.n), d.1)), d.1)
  }

  function CarryOut(w: World, cfg: Config, s: Sup, d: Decision, xemm: Option<Status>): Sup {
    if d.target == ToHalt then SafeHalt(w, s)
    else
      var target := d.target.bot;
      var again := target == XemmBot && xemm.None?;
      var r := if again then Wait(s) else s;
      var status := if again then w.xemm(s.n) else xemm;
      if target == XemmBot && status.None? then r
      else if again && !status.value.reduceOnly then SafeHalt(w, r)
      else
        var r := EnsureBot(w, r, target, if d.mode.Some? then d.mode.value else Normal);
        if Stopping(w, r) then r else EnsureObserver(w, cfg, r, target)
  }

  /** Still inside a pause after this readable tick? */
  function CountStable(s: Sup): Sup {
    if s.pausedSince.None? then s
    else
      var r := s.(stableTicks := s.stableTicks + 1);
      if r.stableTicks < STABLE_TICKS then r else Noted(r.(pausedSince := None), PauseLifted)
  }

  /** A readable tick after its trades were counted: the loss stop, the pause, the decision. */
  function Resolve(w: World, cfg: Config, s: Sup, taker: Option<Status>, xemm: Option<Status>): Sup {
    if w.breach(s.n) then SafeHalt(w, s)
    else
      var r := CountStable(s);
      if r.pausedSince.Some? then r
      else
        var d := DecideNow(w, cfg, r, taker, xemm);
        CarryOut(w, cfg, d.0, d.1, xemm)
  }

  /** New trades of a reduce taker extend its lease. */
  function OnTrades(w: World, cfg: Config, s: Sup): Sup {
    if s.bot == Some(TakerBot) && s.mode == Reduce && w.newTrades(s.n) then ExtendLease(w, cfg, s) else s
  }

  function Judge(w: World, cfg: Config, s: Sup, taker: Option<Status>, xemm: Option<Status>): Sup {
    var r := Noted(s.(statusFailures := 0), StatusRead(true));
    Resolve(w, cfg, OnTrades(w, cfg, r), taker, xemm)
  }

  function Tick(w: World, cfg: Config, s: Sup): Sup {
    var r := CheckExits(w, s);
    if Stopping(w, r) then r
    else
      var p := PollStatuses(w, r);
      if !Readable(p.s, p.taker, p.xemm) then StatusFailed(w, p.s) else Judge(w, cfg, p.s, p.taker, p.xemm)
  }

  // ---------------------------------------------------------------- runs

  datatype Op = Fast | Slow

  /** Startup: no engine starts until both venues are verified clear. */
  function Boot(w: World): Sup {
    var v := Verify(w, Fresh());
    if v.ok then v.s else SafeHalt(w, v.s)
  }

  function StepOp(w: World, cfg: Config, s: Sup, op: Op): Sup {
    if Stopping(w, s) then Wait(s)
    else Wait(if op == Fast then FastTick(w, cfg, s) else Tick(w, cfg, s))
  }

  /** The state after startup and these ticks, in this order. */
  function RunOps(w: World, cfg: Config, ops: seq<Op>): Sup {
    if ops == [] then Boot(w) else StepOp(w, cfg, RunOps(w, cfg, ops[..|ops| - 1]), ops[|ops| - 1])
  }

  /** The end of the run: the active writer first, then the observer. */
  function Shutdown(w: World, s: Sup): Sup { StopObserver(w, StopActive(w, s).s).s }
}
