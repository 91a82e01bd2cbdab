/**
 What every change of engine rests on (LIGHTER_ASTER_BOT/src/controller/supervisor.rs): a second reading of
 the event log, beside the one of module Rights, that ties each switch to the rights it takes over and to
 the confirmation it follows.
 */
module Warrants {
  import opened Common
  import opened Regimes
  import opened Supervisor
  import opened Rights

  // ---------------------------------------------------------------- reading the event log

  /** Who holds the rights, and which condition the last look confirmed; whether every switch was warranted. */
  datatype Note = Note(holder: Option<(Bot, Mode)>, confirmed: Option<Condition>, warranted: bool)

  /**
   A switch out of an engine that had not ended: a normal taker gives way to XEMM only, once its margin
   limit is confirmed; a reduce taker never to itself; XEMM to a reduce taker, or to a normal one once
   that is confirmed ready.
   */
  predicate Warrant(holder: Option<(Bot, Mode)>, confirmed: Option<Condition>, bot: Bot, mode: Mode) {
    match holder
    case None => true
    case Some((TakerBot, Normal)) => bot == XemmBot && confirmed == Some(MarginLimited)
    case Some((TakerBot, Reduce)) => bot == XemmBot || mode == Normal
    case Some((XemmBot, _)) => bot == TakerBot && (mode == Normal ==> confirmed == Some(ReadyForTaker))
  }

  function NoteAct(r: Note, a: Act): Note {
    match a
    case Switched(bot, mode) => Note(Some((bot, mode)), None, r.warranted && Warrant(r.holder, r.confirmed, bot, mode))
    case Exited(_, _) => r.(holder := None)
    case Confirmed(key, _) => r.(confirmed := Some(key))
    case Asked(_, _, _) => r.(confirmed := None)
    case _ => r
  }

  function NoteOf(log: seq<Act>): Note {
    if log == [] then Note(None, None, true) else NoteAct(NoteOf(log[..|log| - 1]), log[|log| - 1])
  }

  lemma NotedNote(s: Sup, a: Act)
    ensures NoteOf(Noted(s, a).log) == NoteAct(NoteOf(s.log), a)
  {
    assert (s.log + [a])[..|s.log|] == s.log;
  }

  // ---------------------------------------------------------------- the invariant

  function RightsOf(s: Sup): Option<(Bot, Mode)> { if s.bot.Some? then Some((s.bot.value, s.mode)) else None }

  /** Every switch so far was warranted, and the log names the engine that holds the rights. */
  ghost predicate Tied(s: Sup) { NoteOf(s.log).warranted && NoteOf(s.log).holder == RightsOf(s) }

  /** As between two passes: a run that is stopping may have stopped an engine without a switch. */
  ghost predicate Linked(w: World, s: Sup) { NoteOf(s.log).warranted && (Stopping(w, s) || Tied(s)) }

  /** Is this engine running already, or would a switch to it be warranted? */
  ghost predicate Fits(s: Sup, target: Bot, mode: Mode) {
    || (s.bot == Some(target) && (target == TakerBot ==> s.mode == mode))
    || Warrant(NoteOf(s.log).holder, NoteOf(s.log).confirmed, target, if target == TakerBot then mode else Normal)
  }

  // ---------------------------------------------------------------- steps that switch nothing

  lemma StopTaskQuiet(w: World, s: Sup, role: Role)
    ensures NoteOf(StopTask(w, s, role).s.log) == NoteOf(s.log)
  {
    NotedNote(Wait(s), Stopped(role, w.drainOk(s.n)));
  }

  lemma RevokeQuiet(s: Sup)
    ensures NoteOf(RevokeLease(s).log) == NoteOf(s.log)
  {
    if s.lease.Some? { NotedNote(s.(published := None, lease := None), Revoked(s.lease.value.id)); }
  }

  lemma StopActiveQuiet(w: World, s: Sup)
    ensures NoteOf(StopActive(w, s).s.log) == NoteOf(s.log) && s.n <= StopActive(w, s).s.n
    ensures StopActive(w, s).s.halted == s.halted && StopActive(w, s).s.bot.None?
  {
    hide NoteOf;
    RevokeQuiet(s);
    var r := if s.bot == Some(TakerBot) && s.mode == Reduce then RevokeLease(s) else s;
    if r.active.Some? { StopTaskQuiet(w, r.(active := None), r.active.value.role); }
  }

  lemma StopObserverQuiet(w: World, s: Sup)
    ensures var e := StopObserver(w, s);
      NoteOf(e.s.log) == NoteOf(s.log) && s.n <= e.s.n && e.s.halted == s.halted && RightsOf(e.s) == RightsOf(s)
  {
    hide NoteOf;
    if s.observer.Some? { StopTaskQuiet(w, s.(observer := None), s.observer.value.role); }
  }

  lemma HaltQuiet(w: World, s: Sup)
    ensures NoteOf(SafeHalt(w, s).log) == NoteOf(s.log) && SafeHalt(w, s).halted
  {
    hide NoteOf, StopActive, StopObserver;
    if !s.halted {
      var h := Noted(s.(halted := true), Halted);
      NotedNote(s.(halted := true), Halted);
      StopActiveQuiet(w, h);
      StopObserverQuiet(w, StopActive(w, h).s);
    }
  }

  lemma VerifyQuiet(w: World, s: Sup)
    ensures var v := Verify(w, s);
      NoteOf(v.s.log) == NoteOf(s.log) && RightsOf(v.s) == RightsOf(s) && v.s.halted == s.halted
  {
    NotedNote(Wait(s), Verified(Verify(w, s).ok));
  }

  lemma GrantQuiet(w: World, cfg: Config, s: Sup)
    ensures var r := GrantLease(w, cfg, s); NoteOf(r.log) == NoteOf(s.log) && RightsOf(r) == RightsOf(s)
  {
    hide NoteOf;
    var r := GrantLease(w, cfg, s);
    NotedNote(r.(log := s.log), Granted(r.lease.value.id, s.lease.None?, r.lease.value.expiresAt));
  }

  lemma ExtendQuiet(w: World, cfg: Config, s: Sup)
    ensures var r := ExtendLease(w, cfg, s);
      NoteOf(r.log) == NoteOf(s.log) && RightsOf(r) == RightsOf(s) && r.halted == s.halted && r.n == s.n
  {
    hide NoteOf;
    GrantQuiet(w, cfg, s);
    var r := ExtendLease(w, cfg, s);
    if s.lease.Some? { NotedNote(r.(log := s.log), Extended(s.lease.value.id, r.lease.value.expiresAt)); }
  }

  lemma PromoteQuiet(w: World, s: Sup)
    ensures NoteOf(Promote(w, s).log) == NoteOf(s.log)
  {
    hide NoteOf;
    var r := ReapObserver(w, s);
    if r.observer.Some? {
      NotedNote(r.(active := Some(r.observer.value.(role := TakerRole(Reduce))), observer := None), Promoted);
    } else {
      NotedNote(r, Spawned(TakerRole(Reduce)));
    }
  }

  lemma StatusFailedTied(w: World, s: Sup)
    requires Tied(s)
    ensures Tied(StatusFailed(w, s))
  {
    hide NoteOf;
    var t := s.(statusFailures := s.statusFailures + 1, stableTicks := 0);
    NotedNote(t, StatusRead(false));
    var r := Noted(t, StatusRead(false));
    NotedNote(r.(pausedSince := Some(w.time(r.n))), PauseBegun);
  }

  lemma CountStableTied(s: Sup)
    requires Tied(s)
    ensures Tied(CountStable(s)) && CountStable(s).halted == s.halted
  {
    hide NoteOf;
    NotedNote(s.(stableTicks := s.stableTicks + 1, pausedSince := None), PauseLifted);
  }

  // ---------------------------------------------------------------- steps that end or start an engine

  /** An engine that ended gives up its rights; otherwise nothing is noted. */
  lemma CheckExitsTied(w: World, s: Sup)
    requires Tied(s)
    ensures var r := CheckExits(w, s);
      && NoteOf(r.log).warranted
      && (r.halted || (Tied(r) && (NoteOf(r.log) == NoteOf(s.log) || NoteOf(r.log).holder.None?)))
  {
    hide NoteOf, SafeHalt;
    if s.active.Some? && w.activeDone(s.n) {
      var q := Noted(Wait(s.(active := None)), Exited(s.active.value.role, w.exitOk(s.n)));
      NotedNote(Wait(s.(active := None)), Exited(s.active.value.role, w.exitOk(s.n)));
      RevokeQuiet(q);
      var r := Bereft(w, s);
      HaltQuiet(w, r);
      HaltQuiet(w, r.(activeExits := r.activeExits + 1));
      HaltQuiet(w, r.(activeExits := 0));
    }
  }

  lemma SetActiveTied(s: Sup, bot: Bot, mode: Mode)
    requires NoteOf(s.log).warranted
    requires Warrant(NoteOf(s.log).holder, NoteOf(s.log).confirmed, bot, if bot == TakerBot then mode else Normal)
    ensures Tied(SetActive(s, bot, mode))
  {
    hide NoteOf, Warrant;
    var m := if bot == TakerBot then mode else Normal;
    NotedNote(s.(bot := Some(bot), mode := m), Switched(bot, m));
  }

  lemma StartTied(w: World, s: Sup, target: Bot, mode: Mode)
    requires NoteOf(s.log).warranted
    requires Warrant(NoteOf(s.log).holder, NoteOf(s.log).confirmed, target, if target == TakerBot then mode else Normal)
    ensures Tied(Start(w, s, target, mode))
  {
    hide NoteOf, Warrant, Tied;
    var role := if target == XemmBot then XemmRole else TakerRole(mode);
    NotedNote(s, Spawned(role));
    SetActiveTied(Spawn(w, s, role).(active := Some(Task(role, w.time(s.n))), since := map[]), target, mode);
  }

  lemma ActivateLinked(w: World, cfg: Config, s: Sup)
    requires Tied(s) && s.bot == Some(XemmBot)
    ensures Linked(w, ActivateReduce(w, cfg, s))
  {
    hide NoteOf, StopActive, SafeHalt, Verify, GrantLease, Promote, SetActive;
    var stop := StopActive(w, s.(since := map[]));
    StopActiveQuiet(w, s.(since := map[]));
    HaltQuiet(w, stop.s);
    var verify := Verify(w, stop.s);
    VerifyQuiet(w, stop.s);
    HaltQuiet(w, verify.s);
    var g := GrantLease(w, cfg, verify.s);
    GrantQuiet(w, cfg, verify.s);
    PromoteQuiet(w, g);
    SetActiveTied(Promote(w, g), TakerBot, Reduce);
  }

  lemma FastTickLinked(w: World, cfg: Config, s: Sup)
    requires Tied(s)
    ensures Linked(w, FastTick(w, cfg, s))
  {
    hide NoteOf, CheckExits, ExtendLease, ActivateReduce, FreshSignal;
    CheckExitsTied(w, s);
    var r := CheckExits(w, s);
    var signal := FreshSignal(w, cfg, r);
    if signal.Some? {
      var q := r.(lastSignalAt := Some(signal.value.timestamp));
      assert RightsOf(q) == RightsOf(r);
      ExtendQuiet(w, cfg, q);
      if Tied(r) && r.bot == Some(XemmBot) { ActivateLinked(w, cfg, q); }
    }
  }

  lemma SwitchLinked(w: World, s: Sup, target: Bot, mode: Mode)
    requires Tied(s)
    requires Warrant(NoteOf(s.log).holder, NoteOf(s.log).confirmed, target, if target == TakerBot then mode else Normal)
    ensures Linked(w, Switch(w, s, target, mode))
  {
    hide NoteOf, StopActive, StopObserver, SafeHalt, Verify, Start, Warrant;
    var o := if target == TakerBot then StopObserver(w, s) else Ended(s, true);
    StopObserverQuiet(w, s);
    HaltQuiet(w, o.s);
    var a := StopActive(w, o.s);
    StopActiveQuiet(w, o.s);
    HaltQuiet(w, a.s);
    VerifyQuiet(w, a.s);
    var v := if s.bot == Some(XemmBot) && target == TakerBot then Verify(w, a.s) else a;
    HaltQuiet(w, v.s);
    StartTied(w, v.s, target, mode);
  }

  lemma EnsureBotLinked(w: World, cfg: Config, s: Sup, target: Bot, mode: Mode)
    requires Tied(s) && Slots(s) && Fits(s, target, mode)
    ensures Linked(w, EnsureBot(w, s, target, mode))
  {
    hide NoteOf, CheckExits, Switch, Warrant;
    if !(s.bot == Some(target) && s.active.Some? && !w.activeDone(s.n) && (target != TakerBot || s.mode == mode)) {
      var g := Glanced(w, s);
      CheckExitsTied(w, g);
      var r := CheckExits(w, g);
      if g.active.Some? && w.activeDone(g.n) { EndedLoses(w, g); }
      if !Stopping(w, r) {
        NoHolder(NoteOf(r.log).confirmed, target, if target == TakerBot then mode else Normal);
        SwitchLinked(w, r, target, mode);
      }
    }
  }

  lemma NoHolder(confirmed: Option<Condition>, bot: Bot, mode: Mode)
    ensures Warrant(None, confirmed, bot, mode)
  {
  }

  lemma EnsureObserverLinked(w: World, cfg: Config, s: Sup, target: Bot)
    requires Tied(s)
    ensures Linked(w, EnsureObserver(w, cfg, s, target))
  {
    hide NoteOf, StopObserver, SafeHalt;
    StopObserverQuiet(w, s);
    HaltQuiet(w, StopObserver(w, s).s);
    NotedNote(ReapObserver(w, s), Spawned(ObserverRole));
  }

  // ---------------------------------------------------------------- the decision

  /** What a decision asks for is what runs, or what its confirmation warrants. */
  lemma DecideFits(w: World, cfg: Config, s: Sup, taker: Option<Status>, xemm: Option<Status>)
    requires Tied(s) && Slots(s)
    ensures var r := DecideNow(w, cfg, s, taker, xemm);
      && Tied(r.0) && r.0 == s.(since := r.0.since, log := r.0.log)
      && (r.1.target != ToHalt ==> Fits(r.0, r.1.target.bot, if r.1.mode.Some? then r.1.mode.value else Normal))
  {
    hide Limited, Ready, TakerBlocked, NearFlat, Sustained, LeaseActiveAt, NoteOf;
    var th, regime, at := cfg.thresholds, Regime(s.bot, s.mode, s.lease, s.since), w.mono(s.n);
    var d := Decide(th, regime, taker, xemm, at, w.time(s.n));
    var asked := Question(th, regime, taker, xemm);
    var r := s.(since := d.0);
    var last := Decided(regime, taker, xemm, at, w.time(s.n), d.1);
    if asked.Some? {
      DecidedBy(th, regime, taker, xemm, at, w.time(s.n));
      var q := Noted(r, Asked(asked.value.0, asked.value.1, at));
      NotedNote(r, Asked(asked.value.0, asked.value.1, at));
      NotedNote(q, Confirmed(asked.value.0, at));
      NotedNote(Noted(q, Confirmed(asked.value.0, at)), last);
      NotedNote(q, last);
    }
    NotedNote(r, last);
  }

  lemma CarryOutLinked(w: World, cfg: Config, s: Sup, d: Decision, xemm: Option<Status>)
    requires Tied(s) && Good(cfg, s) && !s.halted && s.pausedSince.None?
    requires d.target != ToHalt ==> Fits(s, d.target.bot, if d.mode.Some? then d.mode.value else Normal)
    ensures Linked(w, CarryOut(w, cfg, s, d, xemm))
  {
    hide SafeHalt, EnsureBot, EnsureObserver, NoteOf, Warrant, Slots;
    HaltQuiet(w, s);
    if d.target != ToHalt {
      var target := d.target.bot;
      var r := if target == XemmBot && xemm.None? then Wait(s) else s;
      HaltQuiet(w, r);
      SameSlots(s, r);
      assert RightsOf(r) == RightsOf(s);
      var mode := if d.mode.Some? then d.mode.value else Normal;
      EnsureBotLinked(w, cfg, r, target, mode);
      var b := EnsureBot(w, r, target, mode);
      if !Stopping(w, b) { EnsureObserverLinked(w, cfg, b, target); }
    }
  }

  lemma SameSlots(s: Sup, r: Sup)
    requires r == s.(n := r.n)
    ensures Slots(r) == Slots(s)
  {
  }

  lemma ResolveLinked(w: World, cfg: Config, s: Sup, taker: Option<Status>, xemm: Option<Status>)
    requires Tied(s) && Counting(cfg, s)
    ensures Linked(w, Resolve(w, cfg, s, taker, xemm))
  {
    hide SafeHalt, CountStable, DecideNow, CarryOut, NoteOf, Fits, Read;
    HaltQuiet(w, s);
    CountStableTied(s);
    CountStableKeeps(cfg, s);
    var c := CountStable(s);
    if c.pausedSince.None? {
      DecideFits(w, cfg, c, taker, xemm);
      DecideKeeps(w, cfg, c, taker, xemm);
      var d := DecideNow(w, cfg, c, taker, xemm);
      CarryOutLinked(w, cfg, d.0, d.1, xemm);
    }
  }

  lemma JudgeLinked(w: World, cfg: Config, s: Sup, taker: Option<Status>, xemm: Option<Status>)
    requires Tied(s) && Good(cfg, s) && !s.halted
    ensures Linked(w, Judge(w, cfg, s, taker, xemm))
  {
    hide ExtendLease, Resolve, NoteOf, Counting, Good;
    var t := s.(statusFailures := 0);
    NotedNote(t, StatusRead(true));
    var r0 := Noted(t, StatusRead(true));
    assert RightsOf(r0) == RightsOf(s);
    ExtendQuiet(w, cfg, r0);
    JudgeCounts(w, cfg, s);
    ResolveLinked(w, cfg, OnTrades(w, cfg, r0), taker, xemm);
  }

  lemma TickLinked(w: World, cfg: Config, s: Sup)
    requires Tied(s) && Good(cfg, s)
    ensures Linked(w, Tick(w, cfg, s))
  {
    hide CheckExits, StatusFailed, Judge, Good, NoteOf;
    CheckExitsKeeps(w, cfg, s);
    CheckExitsTied(w, s);
    var r := CheckExits(w, s);
    if !Stopping(w, r) {
      var p := PollStatuses(w, r);
      CountersFree(cfg, r, p.s);
      assert RightsOf(p.s) == RightsOf(r);
      StatusFailedTied(w, p.s);
      JudgeLinked(w, cfg, p.s, p.taker, p.xemm);
    }
  }

  // ---------------------------------------------------------------- every run

  lemma BootTied(w: World)
    ensures Linked(w, Boot(w))
  {
    hide SafeHalt, Verify, NoteOf;
    EmptyNote();
    VerifyQuiet(w, Fresh());
    HaltQuiet(w, Verify(w, Fresh()).s);
  }

  lemma EmptyNote()
    ensures NoteOf([]) == Note(None, None, true)
  {
  }

  lemma StepLinked(w: World, cfg: Config, s: Sup, op: Op)
    requires Linked(w, s) && Good(cfg, s)
    ensures Linked(w, StepOp(w, cfg, s, op))
  {
    hide FastTick, Tick, Good, NoteOf;
    if !Stopping(w, s) {
      FastTickLinked(w, cfg, s);
      TickLinked(w, cfg, s);
    }
  }

  lemma {:induction false} EveryRunLinked(w: World, cfg: Config, ops: seq<Op>)
    ensures Linked(w, RunOps(w, cfg, ops))
  {
    hide Linked, Boot, StepOp, Good;
    if ops == [] {
      BootTied(w);
    } else {
      var init := ops[..|ops| - 1];
      EveryRunLinked(w, cfg, init);
      EveryRunGood(w, cfg, init);
      StepLinked(w, cfg, RunOps(w, cfg, init), ops[|ops| - 1]);
    }
  }

  // ---------------------------------------------------------------- the rule, read off the log

  /** Between j and i no engine was switched to and none ended by itself: the rights are those of the switch at j. */
  ghost predicate Undisturbed(log: seq<Act>, j: nat, i: nat)
    requires j < i <= |log|
  {
    log[j].Switched? && forall k :: j < k < i ==> !log[k].Switched? && !log[k].Exited?
  }

  predicate LastLook(log: seq<Act>, k: nat, i: nat)
    requires k < i <= |log|
  {
    forall m :: k < m < i ==> !log[m].Switched? && !log[m].Asked?
  }

  /** The last look before i confirmed the condition, and no switch has used it up. */
  ghost predicate ConfirmedBefore(log: seq<Act>, key: Condition, i: nat)
    requires i <= |log|
  {
    exists k :: 0 <= k < i && log[k].Confirmed? && log[k].key == key && LastLook(log, k, i)
  }

  /** A switch from the engine switched to at j, which was still running. */
  ghost predicate Rests(log: seq<Act>, j: nat, i: nat)
    requires j < i < |log| && log[i].Switched? && log[j].Switched?
  {
    match (log[j].bot, log[j].mode)
    case (TakerBot, Normal) => log[i].bot == XemmBot && ConfirmedBefore(log, MarginLimited, i)
    case (TakerBot, Reduce) => log[i].bot == XemmBot || log[i].mode == Normal
    case (XemmBot, _) => log[i].bot == TakerBot && (log[i].mode == Normal ==> ConfirmedBefore(log, ReadyForTaker, i))
  }

  ghost predicate SwitchesRest(log: seq<Act>) {
    forall j, i :: 0 <= j < i < |log| && log[i].Switched? && Undisturbed(log, j, i) ==> Rests(log, j, i)
  }

  lemma NoteLast(log: seq<Act>)
    requires log != []
    ensures NoteOf(log) == NoteAct(NoteOf(log[..|log| - 1]), log[|log| - 1])
  {
  }

  lemma {:induction false} HolderTells(log: seq<Act>, j: nat)
    requires j < |log| && Undisturbed(log, j, |log|)
    ensures NoteOf(log).holder == Some((log[j].bot, log[j].mode))
  {
    hide NoteOf;
    var n := |log| - 1;
    NoteLast(log);
    if j < n {
      assert Undisturbed(log[..n], j, n);
      HolderTells(log[..n], j);
    }
  }

  lemma {:induction false} ConfirmedTells(log: seq<Act>)
    requires NoteOf(log).confirmed.Some?
    ensures ConfirmedBefore(log, NoteOf(log).confirmed.value, |log|)
  {
    hide NoteOf;
    if log == [] { EmptyNote(); }
    var n := |log| - 1;
    var before, key := log[..n], NoteOf(log).confirmed.value;
    NoteLast(log);
    if log[n].Confirmed? {
      assert log[n].key == key;
    } else {
      ConfirmedTells(before);
      var k :| 0 <= k < n && before[k].Confirmed? && before[k].key == key && LastLook(before, k, n);
      assert log[k].Confirmed? && LastLook(log, k, n + 1);
    }
  }

  lemma ConfirmedLonger(log: seq<Act>, a: Act, key: Condition, i: nat)
    requires i <= |log| && ConfirmedBefore(log, key, i)
    ensures ConfirmedBefore(log + [a], key, i)
  {
    var k :| 0 <= k < i && log[k].Confirmed? && log[k].key == key && LastLook(log, k, i);
    assert (log + [a])[k].Confirmed? && LastLook(log + [a], k, i);
  }

  /** The last act of a log, if it is a switch from an engine that was running. */
  lemma LastRests(log: seq<Act>, j: nat)
    requires 0 < |log| && j < |log| - 1 && log[|log| - 1].Switched? && Undisturbed(log, j, |log| - 1)
    requires NoteOf(log).warranted
    ensures Rests(log, j, |log| - 1)
  {
    hide NoteOf;
    var n := |log| - 1;
    var before := log[..n];
    assert log == before + [log[n]];
    NoteLast(log);
    assert Undisturbed(before, j, n);
    HolderTells(before, j);
    if NoteOf(before).confirmed.Some? {
      ConfirmedTells(before);
      ConfirmedLonger(before, log[n], NoteOf(before).confirmed.value, n);
    }
  }

  lemma {:induction false} WarrantedRead(log: seq<Act>)
    requires NoteOf(log).warranted
    ensures SwitchesRest(log)
  {
    hide NoteOf, ConfirmedBefore;
    if log != [] {
      var n := |log| - 1;
      var before := log[..n];
      assert log == before + [log[n]];
      NoteLast(log);
      WarrantedRead(before);
      forall j, i | 0 <= j < i < |log| && log[i].Switched? && Undisturbed(log, j, i) ensures Rests(log, j, i) {
        if i == n {
          LastRests(log, j);
        } else {
          assert Undisturbed(before, j, i) && Rests(before, j, i);
          RestsLonger(before, log[n], j, i);
        }
      }
    }
  }

  lemma RestsLonger(log: seq<Act>, a: Act, j: nat, i: nat)
    requires j < i < |log| && log[i].Switched? && log[j].Switched? && Rests(log, j, i)
    ensures Rests(log + [a], j, i)
  {
    hide ConfirmedBefore;
    if ConfirmedBefore(log, MarginLimited, i) { ConfirmedLonger(log, a, MarginLimited, i); }
    if ConfirmedBefore(log, ReadyForTaker, i) { ConfirmedLonger(log, a, ReadyForTaker, i); }
  }

  /**
   Every run: a switch away from an engine that had not ended rests on what the last look confirmed. A
   normal taker gives way only to XEMM, on a confirmed margin limit; XEMM to a normal taker only on a
   confirmed readiness; a reduce taker is never switched to itself, nor XEMM.
   */
  lemma EveryRunWarranted(w: World, cfg: Config, ops: seq<Op>)
    ensures SwitchesRest(RunOps(w, cfg, ops).log)
  {
    hide RunOps, NoteOf, SwitchesRest;
    EveryRunLinked(w, cfg, ops);
    WarrantedRead(RunOps(w, cfg, ops).log);
  }
}
