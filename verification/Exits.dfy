/**
 What the supervisor does when an engine ends, is stopped or replaced, and when it stops itself
 (LIGHTER_ASTER_BOT/src/controller/supervisor.rs), said of the clocks, the drains and the counts.
 */
module Exits {
  import opened Common
  import opened Regimes
  import opened Supervisor

  // ---------------------------------------------------------------- engines that ended

  /** The active engine has ended by itself. */
  ghost predicate Gone(w: World, s: Sup) { s.active.Some? && w.activeDone(s.n) }

  /** Ended with an error, or as the third in a row that was up for less than ten minutes. */
  ghost predicate Crashed(w: World, s: Sup) {
    && s.active.Some? && w.activeDone(s.n)
    && (!w.exitOk(s.n) || (w.time(s.n + 1) - s.active.value.startedAt < 600 && s.activeExits >= 2))
  }

  /** An engine that ended gives up its rights and windows; it halts the supervisor exactly when it crashed. */
  lemma ExitsAre(w: World, s: Sup)
    requires !s.halted
    ensures var r := CheckExits(w, s);
      && (r.halted <==> Crashed(w, s))
      && (Gone(w, s) ==> r.active.None? && r.bot.None? && r.mode == Normal && r.since == map[])
      && (Gone(w, s) && !Crashed(w, s) ==>
            r.activeExits == if w.time(s.n + 1) - s.active.value.startedAt >= 600 then 0 else s.activeExits + 1)
      && (!Gone(w, s) ==> r.active == s.active && r.bot == s.bot && r.mode == s.mode && r.lease == s.lease
                          && r.activeExits == s.activeExits && r.since == s.since)
  {
    hide SafeHalt, ReapObserver, Bereft;
    ReapIs(w, s);
    if Gone(w, s) {
      var r := Bereft(w, s);
      BereftIs(w, s);
      var q := r.(activeExits := ExitsAfter(w, r, s.active.value.startedAt));
      HaltIs(w, r);
      HaltIs(w, q);
      ReapIs(w, q);
    }
  }

  lemma BereftIs(w: World, s: Sup)
    requires s.active.Some?
    ensures var r := Bereft(w, s);
      && r.n == s.n + 1 && r.active.None? && r.bot.None? && r.mode == Normal && r.since == map[]
      && r.halted == s.halted && r.activeExits == s.activeExits
  {
  }

  /** A halt stops both engines and gives up all rights. */
  lemma HaltIs(w: World, s: Sup)
    requires !s.halted
    ensures var r := SafeHalt(w, s);
      && r.halted && r.active.None? && r.observer.None? && r.bot.None? && r.mode == Normal && r.since == s.since
  {
    hide StopActive, StopObserver;
    var t := Noted(s.(halted := true), Halted);
    StopActiveIs(w, t);
    StopObserverIs(w, StopActive(w, t).s);
  }

  // ---------------------------------------------------------------- the observer's restarts

  /** A minute after its first exit in a row, then two, four and five; one up for ten minutes starts over. */
  ghost predicate BacksOff(w: World, s: Sup, task: Task, r: Sup) {
    var now := w.time(s.n + 1);
    var inRow := if now - task.startedAt >= 600 then 1 else s.observerExits + 1;
    && r.observerExits == inRow
    && r.retryAfter == Some(now + match inRow case 1 => 60 case 2 => 120 case 3 => 240 case _ => 300)
  }

  lemma BackoffIs(w: World, s: Sup, task: Task)
    ensures var r := OnObserverExit(w, s, task);
      BacksOff(w, s, task, r) && r == s.(n := s.n + 1, observerExits := r.observerExits, retryAfter := r.retryAfter)
  {
  }

  /** An observer that ended is gone and backs off; any other is left alone. */
  lemma ReapIs(w: World, s: Sup)
    ensures var r := ReapObserver(w, s); var ended := s.observer.Some? && w.observerDone(s.n);
      && (!ended ==> r == s)
      && (ended ==>
            && BacksOff(w, s, s.observer.value, r)
            && r == s.(n := s.n + 1, observer := None, observerExits := r.observerExits, retryAfter := r.retryAfter))
  {
    hide OnObserverExit, BacksOff;
    if s.observer.Some? {
      BackoffIs(w, s.(observer := None), s.observer.value);
      Unobserved(w, s, s.observer.value);
    }
  }

  lemma Unobserved(w: World, s: Sup, task: Task)
    ensures forall r :: BacksOff(w, s.(observer := None), task, r) <==> BacksOff(w, s, task, r)
  {
  }

  /** Beside XEMM an observer is started when there is none and its backoff has passed; else none is kept. */
  lemma ObserverIs(w: World, cfg: Config, s: Sup, target: Bot)
    requires !s.halted
    ensures var r, wanted := EnsureObserver(w, cfg, s, target), cfg.observer && target == XemmBot;
      && (!wanted ==> r.observer.None?)
      && (!wanted ==> (r.halted <==> s.observer.Some? && !w.observerDone(s.n) && !w.drainOk(s.n)))
      && (!r.halted ==> r.active == s.active && r.bot == s.bot && r.mode == s.mode && r.lease == s.lease)
      && (wanted ==> !r.halted)
      && (wanted && s.observer.Some? && !w.observerDone(s.n) ==> r.observer == s.observer)
      && (wanted && s.observer.None? ==>
            (r.observer.None? <==> s.retryAfter.Some? && w.time(s.n) < s.retryAfter.value))
      && (wanted && r.observer.Some? && r.observer != s.observer ==> r.observer.value.role == ObserverRole)
  {
    hide StopObserver, ReapObserver, SafeHalt;
    StopObserverIs(w, s);
    ReapIs(w, s);
    if !StopObserver(w, s).ok { HaltIs(w, StopObserver(w, s).s); }
  }

  // ---------------------------------------------------------------- stops and switches

  /** The observer is gone after its stop, which fails exactly when it still ran and did not drain. */
  lemma StopObserverIs(w: World, s: Sup)
    ensures var e := StopObserver(w, s);
      && e.s.observer.None?
      && (e.ok <==> s.observer.None? || w.observerDone(s.n) || w.drainOk(s.n))
      && e.s.n == (if s.observer.None? then s.n else s.n + 1)
      && (s.observer.Some? && w.observerDone(s.n) ==> BacksOff(w, s, s.observer.value, e.s))
      && e.s == s.(n := e.s.n, observer := None, observerExits := e.s.observerExits, retryAfter := e.s.retryAfter,
                   log := e.s.log)
  {
    hide OnObserverExit, BacksOff;
    if s.observer.Some? {
      BackoffIs(w, s.(observer := None), s.observer.value);
      Unobserved(w, s, s.observer.value);
    }
  }

  /** No rights are left after a stop of the active engine, which fails exactly when it did not drain. */
  lemma StopActiveIs(w: World, s: Sup)
    ensures var e := StopActive(w, s);
      && e.s.active.None? && e.s.bot.None? && e.s.mode == Normal
      && (e.ok <==> s.active.None? || w.drainOk(s.n))
      && e.s.n == (if s.active.None? then s.n else s.n + 1)
      && (if s.bot == Some(TakerBot) && s.mode == Reduce then e.s.lease.None? && e.s.published.None?
          else e.s.lease == s.lease && e.s.published == s.published)
      && e.s == s.(n := e.s.n, active := None, bot := None, mode := Normal, lease := e.s.lease,
                   published := e.s.published, log := e.s.log)
  {
  }

  /**
   A switch halts exactly when the observer in a taker's way or the writer fails to stop, or, from XEMM to a
   taker, no poll shows both venues clear. Else it ends with the target, started now, or with a stop asked for.
   */
  lemma SwitchIs(w: World, s: Sup, target: Bot, mode: Mode)
    requires !s.halted
    ensures var r := Switch(w, s, target, mode);
      var stops := target == TakerBot && s.observer.Some?;
      var n := if stops then s.n + 1 else s.n;
      var m := if s.active.Some? then n + 1 else n;
      var verifies := s.bot == Some(XemmBot) && target == TakerBot;
      && (r.halted <==>
            || (stops && !w.observerDone(s.n) && !w.drainOk(s.n)) || (s.active.Some? && !w.drainOk(n))
            || (verifies && forall i :: 0 <= i < |w.polls(m)| ==> w.polls(m)[i] != Orders(Some(0), Some(0))))
      && (!r.halted && !Stopping(w, r) ==>
            && r.bot == Some(target) && r.mode == (if target == TakerBot then mode else Normal)
            && r.active == Some(Task(if target == XemmBot then XemmRole else TakerRole(mode), w.time(r.n)))
            && r.since == map[])
      && (!r.halted && Stopping(w, r) ==> r.bot.None? && r.active.None?)
  {
    hide StopObserver, StopActive, SafeHalt, AnyClear, Stopping, Start;
    var o := if target == TakerBot then StopObserver(w, s) else Ended(s, true);
    StopObserverIs(w, s);
    StopActiveIs(w, o.s);
    var a := StopActive(w, o.s);
    ClearIs(w, a.s);
    if !o.ok { HaltIs(w, o.s); }
    if !a.ok { HaltIs(w, a.s); }
    HaltIs(w, Verify(w, a.s).s);
    StartIs(w, a.s, target, mode);
    StartIs(w, Verify(w, a.s).s, target, mode);
  }

  lemma StartIs(w: World, s: Sup, target: Bot, mode: Mode)
    ensures var r := Start(w, s, target, mode);
      && r.bot == Some(target) && r.mode == (if target == TakerBot then mode else Normal) && r.since == map[]
      && r.active == Some(Task(if target == XemmBot then XemmRole else TakerRole(mode), w.time(r.n)))
      && r.halted == s.halted && (Stopping(w, r) <==> Stopping(w, s))
  {
  }

  lemma ClearIs(w: World, s: Sup)
    ensures Verify(w, s).ok <==> exists i :: 0 <= i < |w.polls(s.n)| && w.polls(s.n)[i] == Orders(Some(0), Some(0))
  {
  }

  /** The target keeps running, or is started after what ended was reaped; unless the switch fails or is stopped. */
  lemma EnsureIs(w: World, s: Sup, target: Bot, mode: Mode)
    requires !s.halted
    ensures var r := EnsureBot(w, s, target, mode);
      !r.halted && !Stopping(w, r) ==> r.bot == Some(target) && (target == TakerBot ==> r.mode == mode)
  {
    hide Glanced, CheckExits, Switch;
    var r := CheckExits(w, Glanced(w, s));
    if !Stopping(w, r) { SwitchIs(w, r, target, mode); }
  }

  // ---------------------------------------------------------------- a slow tick

  /** Whose status is read: the taker's when it is active; XEMM's and the taker's; XEMM's only if the taker has none. */
  lemma PollIs(w: World, s: Sup)
    ensures var p := PollStatuses(w, s);
      && p.s == s.(n := p.s.n)
      && (s.bot == Some(XemmBot) ==> p.xemm == w.xemm(s.n) && p.taker == w.taker(s.n + 1))
      && (s.bot != Some(XemmBot) ==> p.taker == w.taker(s.n))
      && (s.bot == Some(TakerBot) || (s.bot.None? && p.taker.Some?) ==> p.xemm.None?)
      && (s.bot.None? && p.taker.None? ==> p.xemm == w.xemm(s.n + 1))
  {
  }

  /** An unreadable status counts; the third in a row begins a pause. */
  lemma StatusFailedIs(w: World, s: Sup)
    ensures var r := StatusFailed(w, s);
      && r.statusFailures == s.statusFailures + 1 && r.stableTicks == 0
      && r.pausedSince == (if s.pausedSince.None? && s.statusFailures >= 2 then Some(w.time(s.n)) else s.pausedSince)
      && r == s.(statusFailures := r.statusFailures, stableTicks := 0, pausedSince := r.pausedSince, log := r.log)
  {
  }

  /** What a pause leaves after a readable tick: nothing from the fourth in a row on. */
  lemma StableIs(s: Sup)
    ensures var r := CountStable(s);
      && r.pausedSince == (if s.stableTicks >= 3 then None else s.pausedSince)
      && r == s.(stableTicks := r.stableTicks, pausedSince := r.pausedSince, log := r.log)
      && (s.pausedSince.Some? ==> r.stableTicks == s.stableTicks + 1)
  {
  }

  /** A breach halts; a pause that goes on lets nothing move. */
  lemma ResolveIs(w: World, cfg: Config, s: Sup, taker: Option<Status>, xemm: Option<Status>)
    requires !s.halted
    ensures var r := Resolve(w, cfg, s, taker, xemm);
      && (w.breach(s.n) ==> r.halted)
      && (!w.breach(s.n) && s.pausedSince.Some? && s.stableTicks < 3 ==>
            r == s.(stableTicks := s.stableTicks + 1))
  {
    hide SafeHalt, DecideNow, CarryOut;
    HaltIs(w, s);
  }

  /**
   A decision carried out: a halt; XEMM only once its status is read, and, when it takes a second read, only if
   that is reduce-only; else the target holds the rights, unless something halts it or a stop was asked for.
   */
  lemma CarryOutIs(w: World, cfg: Config, s: Sup, d: Decision, xemm: Option<Status>)
    requires !s.halted
    ensures var r := CarryOut(w, cfg, s, d, xemm);
      && (d.target == ToHalt ==> r.halted)
      && (d.target == ToBot(XemmBot) && xemm.None? && w.xemm(s.n).None? ==> r == s.(n := s.n + 1))
      && (d.target == ToBot(XemmBot) && xemm.None? && w.xemm(s.n).Some? && !w.xemm(s.n).value.reduceOnly ==> r.halted)
      && (d.target == ToBot(TakerBot) || (d.target == ToBot(XemmBot) && (xemm.Some? || w.xemm(s.n).Some?)) ==>
            r.halted || Stopping(w, r)
            || (r.bot == Some(d.target.bot)
                && (d.target.bot == TakerBot ==> r.mode == if d.mode.Some? then d.mode.value else Normal)))
  {
    hide SafeHalt, EnsureBot, EnsureObserver;
    HaltIs(w, s);
    HaltIs(w, Wait(s));
    if d.target != ToHalt {
      var mode := if d.mode.Some? then d.mode.value else Normal;
      Settles(w, cfg, s, d.target.bot, mode);
      Settles(w, cfg, Wait(s), d.target.bot, mode);
    }
  }

  lemma Settles(w: World, cfg: Config, s: Sup, target: Bot, mode: Mode)
    requires !s.halted
    ensures var e := EnsureBot(w, s, target, mode);
      var r := if Stopping(w, e) then e else EnsureObserver(w, cfg, e, target);
      r.halted || Stopping(w, r) || (r.bot == Some(target) && (target == TakerBot ==> r.mode == mode))
  {
    hide EnsureBot, EnsureObserver;
    EnsureIs(w, s, target, mode);
    var e := EnsureBot(w, s, target, mode);
    if !Stopping(w, e) { ObserverIs(w, cfg, e, target); }
  }

  /** No status can be read that the active engine needs: its own; and, with no engine active, any. */
  ghost predicate Silent(w: World, s: Sup) {
    match s.bot
    case Some(TakerBot) => w.taker(s.n).None?
    case Some(XemmBot) => w.xemm(s.n).None?
    case None => w.taker(s.n).None? && w.xemm(s.n + 1).None?
  }

  /** A slow tick, once what ended is reaped: it counts a silence and moves nothing, or judges what it read. */
  lemma TickIs(w: World, cfg: Config, s: Sup)
    ensures var r, t := CheckExits(w, s), Tick(w, cfg, s); var p := PollStatuses(w, r);
      && (Stopping(w, r) ==> t == r)
      && (!Stopping(w, r) && Silent(w, r) ==>
            t.statusFailures == r.statusFailures + 1 && t.active == r.active && t.bot == r.bot && t.mode == r.mode
            && t.lease == r.lease && t.observer == r.observer && t.halted == r.halted)
      && (!Stopping(w, r) && !Silent(w, r) ==> t == Judge(w, cfg, p.s, p.taker, p.xemm))
  {
    hide CheckExits, Judge, StatusFailed, Stopping;
    var r := CheckExits(w, s);
    StatusFailedIs(w, PollStatuses(w, r).s);
  }

  /** Startup halts exactly when no poll shows both venues clear, and starts no engine. */
  lemma BootIs(w: World, cfg: Config)
    ensures var s := RunOps(w, cfg, []);
      && (s.halted <==> forall i :: 0 <= i < |w.polls(0)| ==> w.polls(0)[i] != Orders(Some(0), Some(0)))
      && s.active.None? && s.observer.None? && s.lease.None?
  {
    hide AnyClear, SafeHalt;
    ClearIs(w, Fresh());
    var v := Verify(w, Fresh());
    HaltIs(w, v.s);
    HaltLeases(w, v.s);
  }

  lemma HaltLeases(w: World, s: Sup)
    requires s.lease.None?
    ensures SafeHalt(w, s).lease.None?
  {
    hide StopActive, StopObserver;
    var t := Noted(s.(halted := true), Halted);
    StopActiveIs(w, t);
    StopObserverIs(w, StopActive(w, t).s);
  }

  // ---------------------------------------------------------------- a stop is for good

  /** Once halted, or at or past the step a stop was asked for, no further tick does anything. */
  lemma {:induction false} StoppedForGood(w: World, cfg: Config, ops: seq<Op>, more: seq<Op>)
    requires var s := RunOps(w, cfg, ops); s.halted || (w.cancelled.Some? && w.cancelled.value <= s.n)
    ensures var s := RunOps(w, cfg, ops); RunOps(w, cfg, ops + more) == s.(n := s.n + |more|)
  {
    hide FastTick, Tick, Boot;
    if more == [] {
      assert ops + more == ops;
    } else {
      var init := more[..|more| - 1];
      StoppedForGood(w, cfg, ops, init);
      assert (ops + more)[..|ops + more| - 1] == ops + init;
    }
  }
}
