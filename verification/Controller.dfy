/**
 The supervisor as it runs: one object whose fields each step updates in place. Every method is proved
 to do to the fields what the function of the same name in module Supervisor does to their values, and
 startup and each pass of the run loop to keep the invariant of module Rights.
 */
module Controllers {
  import opened Common
  import opened Regimes
  import opened Supervisor
  import Rights

  lemma BereftIs(w: World, s: Sup)
    requires s.active.Some?
    ensures var r := Noted(Wait(s.(active := None)), Exited(s.active.value.role, w.exitOk(s.n)));
      Bereft(w, s) == (if s.active.value.role == TakerRole(Reduce) then Supervisor.RevokeLease(r) else r)
                        .(bot := None, mode := Normal, since := map[])
  {
  }

  class Controller {
    const w: World
    const cfg: Config
    var n: nat
    var active: Option<Task>
    var observer: Option<Task>
    var bot: Option<Bot>
    var mode: Mode
    var lease: Option<Lease>
    var published: Option<Published>
    var since: map<Condition, int>
    var lastSignalAt: Option<int>
    var leasesGranted: nat
    var statusFailures: nat
    var pausedSince: Option<int>
    var stableTicks: nat
    var activeExits: nat
    var observerExits: nat
    var retryAfter: Option<int>
    var halted: bool
    var log: seq<Act>

    function View(): Sup
      reads this
    {
      Sup(n, active, observer, bot, mode, lease, published, since, lastSignalAt, leasesGranted, statusFailures,
          pausedSince, stableTicks, activeExits, observerExits, retryAfter, halted, log)
    }

    /** The invariant of slots, rights, lease, log, pause and confirm windows. */
    ghost predicate Valid()
      reads this
    {
      Rights.Good(cfg, View())
    }

    constructor (w: World, cfg: Config)
      ensures this.w == w && this.cfg == cfg && View() == Boot(w)
      ensures Valid()
    {
      hide Rights.Good;
      this.w, this.cfg := w, cfg;
      n, active, observer, bot, mode, lease, published, since := 0, None, None, None, Normal, None, None, map[];
      lastSignalAt, leasesGranted, statusFailures, pausedSince := None, 0, 0, None;
      stableTicks, activeExits, observerExits, retryAfter, halted, log := 0, 0, 0, None, false, [];
      new;
      var ok := VerifyOrdersClear();
      if !ok { Halt(); }
      Rights.BootGood(w, cfg);
    }

    method Emit(a: Act)
      modifies this`log
      ensures View() == Noted(old(View()), a)
    {
      log := log + [a];
    }

    method GrantLease()
      modifies this`lease, this`leasesGranted, this`published, this`log
      ensures View() == Supervisor.GrantLease(w, cfg, old(View()))
    {
      var now, isNew := w.time(n), lease.None?;
      if lease.None? {
        leasesGranted := leasesGranted + 1;
        lease := Some(Lease(leasesGranted, now, now, now + cfg.leaseMaxSec));
      }
      lease := Some(lease.value.(expiresAt := Min(now + cfg.leaseSec, lease.value.maxExpiresAt)));
      published := Some(Published(lease.value.id, lease.value.expiresAt));
      Emit(Granted(lease.value.id, isNew, lease.value.expiresAt));
    }

    method ExtendLease()
      modifies this`lease, this`leasesGranted, this`published, this`log
      ensures View() == Supervisor.ExtendLease(w, cfg, old(View()))
    {
      if lease.None? {
        GrantLease();
        return;
      }
      var now := w.time(n);
      if lease.value.expiresAt <= now { return; }
      var desired := Min(now + cfg.leaseSec, lease.value.maxExpiresAt);
      if desired <= lease.value.expiresAt + 1 { return; }
      lease := Some(lease.value.(expiresAt := desired));
      published := Some(Published(lease.value.id, lease.value.expiresAt));
      Emit(Extended(lease.value.id, desired));
    }

    method RevokeLease()
      modifies this`lease, this`published, this`log
      ensures View() == Supervisor.RevokeLease(old(View()))
    {
      published := None;
      if lease.Some? {
        var id := lease.value.id;
        lease := None;
        Emit(Revoked(id));
      }
    }

    method StopTask(role: Role) returns (ok: bool)
      modifies this`n, this`log
      ensures Ended(View(), ok) == Supervisor.StopTask(w, old(View()), role)
    {
      ok := w.drainOk(n);
      n := n + 1;
      Emit(Stopped(role, ok));
    }

    method StopActive() returns (ok: bool)
      modifies this
      ensures Ended(View(), ok) == Supervisor.StopActive(w, old(View()))
    {
      if bot == Some(TakerBot) && mode == Reduce { RevokeLease(); }
      ok := true;
      if active.Some? {
        var task := active.value;
        active := None;
        ok := StopTask(task.role);
      }
      bot, mode := None, Normal;
    }

    method OnObserverExit(task: Task)
      modifies this`n, this`observerExits, this`retryAfter
      ensures View() == Supervisor.OnObserverExit(w, old(View()), task)
    {
      n := n + 1;
      var now := w.time(n);
      if now - task.startedAt >= SHORT_UPTIME_SEC { observerExits := 0; }
      observerExits := observerExits + 1;
      var factor := match Min(observerExits - 1, 3) case 0 => 1 case 1 => 2 case 2 => 4 case _ => 8;
      retryAfter := Some(now + Min(OBSERVER_RESTART_BASE_SEC * factor, OBSERVER_RESTART_MAX_SEC));
    }

    method StopObserver() returns (ok: bool)
      modifies this
      ensures Ended(View(), ok) == Supervisor.StopObserver(w, old(View()))
    {
      ok := true;
      if observer.Some? {
        var task, done := observer.value, w.observerDone(n);
        observer := None;
        if done { OnObserverExit(task); } else { ok := StopTask(task.role); }
      }
    }

    method ReapObserver()
      modifies this
      ensures View() == Supervisor.ReapObserver(w, old(View()))
    {
      if observer.Some? && w.observerDone(n) {
        var task := observer.value;
        observer := None;
        OnObserverExit(task);
      }
    }

    method Halt()
      modifies this
      ensures View() == SafeHalt(w, old(View()))
    {
      hide Supervisor.StopActive, Supervisor.StopObserver;
      if halted { return; }
      halted := true;
      Emit(Halted);
      var _ := StopActive();
      var _ := StopObserver();
    }

    /** The active engine ended: takes its rights, its lease and its confirm windows. */
    method TakeEnded() returns (ok: bool)
      requires active.Some?
      modifies this
      ensures View() == Bereft(w, old(View())) && ok == w.exitOk(old(n))
    {
      hide Supervisor.RevokeLease, Noted, Bereft, Wait;
      ghost var was := View();
      var role := active.value.role;
      ok := w.exitOk(n);
      LeaveSlot();
      Emit(Exited(role, ok));
      if role == TakerRole(Reduce) { RevokeLease(); }
      ClearRights();
      BereftIs(w, was);
    }

    method LeaveSlot()
      modifies this`active, this`n
      ensures View() == Wait(old(View()).(active := None))
    {
      active := None;
      n := n + 1;
    }

    method ClearRights()
      modifies this`bot, this`mode, this`since
      ensures View() == old(View()).(bot := None, mode := Normal, since := map[])
    {
      bot, mode, since := None, Normal, map[];
    }

    method CheckExits()
      modifies this
      ensures View() == Supervisor.CheckExits(w, old(View()))
    {
      hide SafeHalt, Supervisor.ReapObserver, Bereft;
      if active.Some? && w.activeDone(n) {
        var startedAt := active.value.startedAt;
        var ok := TakeEnded();
        if !ok {
          Halt();
          return;
        }
        activeExits := if w.time(n) - startedAt >= SHORT_UPTIME_SEC then 0 else activeExits + 1;
        if activeExits >= CRASH_LOOP_EXITS {
          Halt();
          return;
        }
      }
      ReapObserver();
    }

    /** Polls until both venues show no open order, or the deadline ends the polling. */
    method VerifyOrdersClear() returns (clear: bool)
      modifies this`n, this`log
      ensures Ended(View(), clear) == Verify(w, old(View()))
    {
      var polls, i := w.polls(n), 0;
      clear := false;
      while i < |polls| && !clear
        invariant 0 <= i <= |polls|
        invariant clear <==> AnyClear(polls[..i])
      {
        assert polls[..i + 1] == polls[..i] + [polls[i]];
        clear := ClearPoll(polls[i]);
        i := i + 1;
      }
      assert clear ==> AnyClear(polls);
      assert !clear ==> polls[..i] == polls;
      n := n + 1;
      Emit(Verified(clear));
    }

    method SetActive(next: Bot, nextMode: Mode)
      modifies this`bot, this`mode, this`log
      ensures View() == Supervisor.SetActive(old(View()), next, nextMode)
    {
      bot := Some(next);
      mode := if next == TakerBot then nextMode else Normal;
      Emit(Switched(next, mode));
    }

    method Promote()
      modifies this
      ensures View() == Supervisor.Promote(w, old(View()))
    {
      hide Supervisor.ReapObserver;
      ReapObserver();
      if observer.Some? {
        active, observer := Some(observer.value.(role := TakerRole(Reduce))), None;
        Emit(Promoted);
      } else {
        Emit(Spawned(TakerRole(Reduce)));
        active := Some(Task(TakerRole(Reduce), w.time(n)));
      }
    }

    method ActivateReduce()
      modifies this
      ensures View() == Supervisor.ActivateReduce(w, cfg, old(View()))
    {
      hide Supervisor.StopActive, SafeHalt, Verify, Supervisor.GrantLease, Supervisor.Promote, Supervisor.SetActive;
      since := map[];
      var stopped := StopActive();
      if !stopped {
        Halt();
        return;
      }
      var clear := VerifyOrdersClear();
      if !clear {
        Halt();
        return;
      }
      if Stopping(w, View()) { return; }
      GrantLease();
      Promote();
      SetActive(TakerBot, Reduce);
    }

    method FastTick()
      modifies this
      ensures View() == Supervisor.FastTick(w, cfg, old(View()))
    {
      hide Supervisor.CheckExits, Supervisor.ExtendLease, Supervisor.ActivateReduce, FreshSignal;
      CheckExits();
      if Stopping(w, View()) || pausedSince.Some? { return; }
      var signal := FreshSignal(w, cfg, View());
      if signal.None? { return; }
      if bot == Some(TakerBot) && mode == Reduce {
        lastSignalAt := Some(signal.value.timestamp);
        ExtendLease();
      } else if bot == Some(XemmBot) {
        lastSignalAt := Some(signal.value.timestamp);
        ActivateReduce();
      }
    }

    method Start(target: Bot, next: Mode)
      modifies this
      ensures View() == Supervisor.Start(w, old(View()), target, next)
    {
      hide Supervisor.SetActive;
      var role := if target == XemmBot then XemmRole else TakerRole(next);
      Emit(Spawned(role));
      active := Some(Task(role, w.time(n)));
      since := map[];
      SetActive(target, next);
    }

    method Switch(target: Bot, next: Mode)
      modifies this
      ensures View() == Supervisor.Switch(w, old(View()), target, next)
    {
      hide Supervisor.StopActive, Supervisor.StopObserver, SafeHalt, Verify, Supervisor.Start;
      var fromXemm := bot == Some(XemmBot) && target == TakerBot;
      if target == TakerBot {
        var gone := StopObserver();
        if !gone {
          Halt();
          return;
        }
      }
      var stopped := StopActive();
      if !stopped {
        Halt();
        return;
      }
      if fromXemm {
        var clear := VerifyOrdersClear();
        if !clear {
          Halt();
          return;
        }
      }
      if Stopping(w, View()) { return; }
      Start(target, next);
    }

    method EnsureBot(target: Bot, next: Mode)
      modifies this
      ensures View() == Supervisor.EnsureBot(w, old(View()), target, next)
    {
      hide Supervisor.CheckExits, Supervisor.Switch;
      if bot == Some(target) && active.Some? && !w.activeDone(n) && (target != TakerBot || mode == next) { return; }
      if !(active.Some? && w.activeDone(n)) { n := n + 1; }
      CheckExits();
      if Stopping(w, View()) { return; }
      Switch(target, next);
    }

    method EnsureObserver(target: Bot)
      modifies this
      ensures View() == Supervisor.EnsureObserver(w, cfg, old(View()), target)
    {
      hide Supervisor.StopObserver, SafeHalt, Supervisor.ReapObserver;
      if !cfg.observer || target != XemmBot {
        var ok := StopObserver();
        if !ok { Halt(); }
        return;
      }
      ReapObserver();
      if observer.Some? || (retryAfter.Some? && w.time(n) < retryAfter.value) { return; }
      Emit(Spawned(ObserverRole));
      observer := Some(Task(ObserverRole, w.time(n)));
    }

    method PollStatuses() returns (taker: Option<Status>, xemm: Option<Status>)
      modifies this`n
      ensures Statuses(View(), taker, xemm) == Supervisor.PollStatuses(w, old(View()))
    {
      taker, xemm := None, None;
      match bot
      case Some(TakerBot) =>
        taker, n := w.taker(n), n + 1;
      case Some(XemmBot) =>
        xemm, n := w.xemm(n), n + 1;
        taker, n := w.taker(n), n + 1;
      case None =>
        taker, n := w.taker(n), n + 1;
        if taker.None? {
          xemm, n := w.xemm(n), n + 1;
        }
    }

    method Decide(taker: Option<Status>, xemm: Option<Status>) returns (d: Decision)
      modifies this`since, this`log
      ensures (View(), d) == DecideNow(w, cfg, old(View()), taker, xemm)
    {
      hide Regimes.Decide, Question, Noted;
      var regime := Regime(bot, mode, lease, since);
      var asked := Question(cfg.thresholds, regime, taker, xemm);
      var decided := Regimes.Decide(cfg.thresholds, regime, taker, xemm, w.mono(n), w.time(n));
      since, d := decided.0, decided.1;
      if asked.Some? { Emit(Asked(asked.value.0, asked.value.1, w.mono(n))); }
      if d.reason == TakerMarginLimited {
        Emit(Confirmed(MarginLimited, w.mono(n)));
      } else if d.reason == ResumeTaker {
        Emit(Confirmed(ReadyForTaker, w.mono(n)));
      }
      Emit(Decided(regime, taker, xemm, w.mono(n), w.time(n), d));
    }

    method CarryOut(d: Decision, xemm: Option<Status>)
      modifies this
      ensures View() == Supervisor.CarryOut(w, cfg, old(View()), d, xemm)
    {
      hide SafeHalt, Supervisor.EnsureBot, Supervisor.EnsureObserver;
      if d.target == ToHalt {
        Halt();
        return;
      }
      var target := d.target.bot;
      if target == XemmBot && xemm.None? {
        var status := w.xemm(n);
        n := n + 1;
        if status.None? { return; }
        if !status.value.reduceOnly {
          Halt();
          return;
        }
      }
      EnsureBot(target, if d.mode.Some? then d.mode.value else Normal);
      if Stopping(w, View()) { return; }
      EnsureObserver(target);
    }

    method StatusFailed()
      modifies this
      ensures View() == Supervisor.StatusFailed(w, old(View()))
    {
      hide Noted;
      ghost var was := View();
      statusFailures, stableTicks := statusFailures + 1, 0;
      assert View() == was.(statusFailures := was.statusFailures + 1, stableTicks := 0);
      Emit(StatusRead(false));
      ghost var told := View();
      if statusFailures >= MAX_STATUS_FAILURES && pausedSince.None? {
        pausedSince := Some(w.time(n));
        assert View() == told.(pausedSince := Some(w.time(told.n)));
        Emit(PauseBegun);
      }
    }

    method CountStable()
      modifies this
      ensures View() == Supervisor.CountStable(old(View()))
    {
      if pausedSince.None? { return; }
      stableTicks := stableTicks + 1;
      if stableTicks < STABLE_TICKS { return; }
      pausedSince := None;
      Emit(PauseLifted);
    }

    method Resolve(taker: Option<Status>, xemm: Option<Status>)
      modifies this
      ensures View() == Supervisor.Resolve(w, cfg, old(View()), taker, xemm)
    {
      hide SafeHalt, Supervisor.CountStable, DecideNow, Supervisor.CarryOut;
      if w.breach(n) {
        Halt();
        return;
      }
      CountStable();
      if pausedSince.Some? { return; }
      var d := Decide(taker, xemm);
      CarryOut(d, xemm);
    }

    method Tick()
      modifies this
      ensures View() == Supervisor.Tick(w, cfg, old(View()))
    {
      hide Supervisor.CheckExits, Supervisor.PollStatuses, Readable, Supervisor.ExtendLease;
      hide Supervisor.StatusFailed, Supervisor.Resolve;
      CheckExits();
      if Stopping(w, View()) { return; }
      var taker, xemm := PollStatuses();
      if !Readable(View(), taker, xemm) {
        StatusFailed();
        return;
      }
      statusFailures := 0;
      Emit(StatusRead(true));
      if bot == Some(TakerBot) && mode == Reduce && w.newTrades(n) { ExtendLease(); }
      Resolve(taker, xemm);
    }

    method ShutDown()
      requires Valid()
      modifies this
      ensures View() == Shutdown(w, old(View()))
      ensures active.None? && observer.None? && lease.None? && published.None? && bot.None?
    {
      hide Supervisor.StopActive, Supervisor.StopObserver;
      Rights.ShutdownEmpties(w, cfg, View());
      var _ := StopActive();
      var _ := StopObserver();
    }

    /** One pass of the run loop. */
    method Step(op: Op)
      requires Valid()
      modifies this
      ensures View() == StepOp(w, cfg, old(View()), op)
      ensures Valid() && old(n) < n
    {
      hide Supervisor.FastTick, Supervisor.Tick, Rights.Good;
      Rights.StepKeeps(w, cfg, View(), op);
      if !Stopping(w, View()) {
        if op == Fast { FastTick(); } else { Tick(); }
      }
      n := n + 1;
    }
  }
}
