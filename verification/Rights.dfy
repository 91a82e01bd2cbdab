/**
 Safety of the supervisor over every run: who may hold execution rights, when they change hands, what
 a halt leaves behind, how long a lease can live, and what a switch or the end of a pause rests on.
 */
module Rights {
  import opened Common
  import opened Regimes
  import opened Supervisor
  import opened Decisions

  // ---------------------------------------------------------------- reading the event log

  /** What is known of XEMM and its resting orders. */
  datatype Custody =
    | Free       // not running, and its orders verified clear (or it ended by itself)
    | Held       // running
    | Drained    // stopped cleanly, its orders not verified yet
    | Lost       // it failed

  /** The unbroken run of looks at which a condition held, in one mode. */
  datatype Hold = Hold(key: Condition, first: int)

  datatype Reading = Reading(
    custody: Custody, halted: bool, inRow: nat, failed: nat, paused: bool, held: Option<Hold>, expiry: Option<int>,
    // no rule broken so far:
    handOver: bool, quiet: bool, idle: bool, newGrants: bool, begins: bool, lifts: bool, confirms: bool, decides: bool)

  const NOTHING_YET := Reading(Free, false, 0, 0, false, None, None, true, true, true, true, true, true, true, true)

  predicate Waited(th: Thresholds, held: Option<Hold>, key: Condition, at: int) {
    held.Some? && held.value.key == key && Max(at - held.value.first, 0) >= WindowOfCondition(th, key)
  }

  predicate TakesOver(a: Act) { a == Promoted || a.Granted? || (a.Spawned? && a.role.TakerRole?) }

  predicate Starts(a: Act) { a == Promoted || a.Spawned? }

  function CustodyAfter(c: Custody, a: Act): Custody {
    match a
    case Spawned(role) => if role == XemmRole then Held else c
    case Stopped(role, ok) => if role != XemmRole then c else if ok then Drained else Lost
    case Exited(role, ok) => if role != XemmRole then c else if ok then Free else Lost
    case Verified(clear) => if clear && c == Drained then Free else c
    case _ => c
  }

  function HeldAfter(held: Option<Hold>, a: Act): Option<Hold> {
    match a
    case Asked(key, holds, at) =>
      if !holds then None else if held.Some? && held.value.key == key then held else Some(Hold(key, at))
    case Switched(_, _) => None
    case _ => held
  }

  function InRowAfter(n: nat, a: Act, good: bool): nat {
    if !a.StatusRead? then n else if a.readable == good then n + 1 else 0
  }

  function ExpiryOf(lease: Option<Lease>): Option<int> {
    if lease.Some? then Some(lease.value.expiresAt) else None
  }

  /** The expiry of the lease last granted or extended and not revoked. */
  function ExpiryAfter(expiry: Option<int>, a: Act): Option<int> {
    match a
    case Granted(_, _, expiresAt) => Some(expiresAt)
    case Extended(_, expiresAt) => Some(expiresAt)
    case Revoked(_) => None
    case _ => expiry
  }

  /** A decision logged is the right one for what it read, and the lease it read is the one in force. */
  ghost predicate DecidesRight(th: Thresholds, expiry: Option<int>, a: Act) {
    a.Decided? ==>
      ExpiryOf(a.regime.lease) == expiry && Right(th, a.regime, a.taker, a.xemm, a.mono, a.utc, a.decision)
  }

  ghost function ReadAct(th: Thresholds, r: Reading, a: Act): Reading {
    Reading(
      CustodyAfter(r.custody, a), r.halted || a == Halted, InRowAfter(r.inRow, a, true), InRowAfter(r.failed, a, false),
      a == PauseBegun || (r.paused && a != PauseLifted), HeldAfter(r.held, a), ExpiryAfter(r.expiry, a),
      r.handOver && (TakesOver(a) ==> r.custody == Free),
      r.quiet && (Starts(a) ==> !r.halted),
      r.idle && (Starts(a) || a.Switched? ==> !r.paused),
      r.newGrants && (a.Granted? ==> a.isNew),
      r.begins && (a == PauseBegun ==> r.failed >= 3),
      r.lifts && (a == PauseLifted ==> r.inRow == 4),
      r.confirms && (a.Confirmed? ==> Waited(th, r.held, a.key, a.at)),
      r.decides && DecidesRight(th, r.expiry, a))
  }

  ghost function Read(th: Thresholds, log: seq<Act>): Reading {
    if log == [] then NOTHING_YET else ReadAct(th, Read(th, log[..|log| - 1]), log[|log| - 1])
  }

  lemma ReadLast(th: Thresholds, log: seq<Act>)
    requires log != []
    ensures Read(th, log) == ReadAct(th, Read(th, log[..|log| - 1]), log[|log| - 1])
  {
  }

  lemma NotedRead(th: Thresholds, s: Sup, a: Act)
    ensures Read(th, Noted(s, a).log) == ReadAct(th, Read(th, s.log), a)
  {
    assert (s.log + [a])[..|s.log|] == s.log;
  }

  // ---------------------------------------------------------------- the invariant

  /** The slots, the rights and the mode agree; an active taker leaves no observer. */
  ghost predicate Slots(s: Sup) {
    && (s.bot.None? <==> s.active.None?) && (s.bot != Some(TakerBot) ==> s.mode == Normal)
    && (s.bot == Some(TakerBot) ==> s.active.value.role == TakerRole(s.mode) && s.observer.None?)
    && (s.bot == Some(XemmBot) ==> s.active.value.role == XemmRole)
    && (s.observer.Some? ==> s.observer.value.role == ObserverRole)
  }

  /** A held lease belongs to the reduce taker, is the one published, and ends within its cap. */
  ghost predicate LeaseOk(cfg: Config, s: Sup) {
    && (s.lease.Some? ==> s.bot == Some(TakerBot) && s.mode == Reduce)
    && s.published == (if s.lease.Some? then Some(Published(s.lease.value.id, s.lease.value.expiresAt)) else None)
    && (s.lease.Some? ==>
          s.lease.value.expiresAt <= s.lease.value.maxExpiresAt == s.lease.value.startedAt + cfg.leaseMaxSec)
    && (s.lease.Some? ==> s.lease.value.id <= s.leasesGranted)
  }

  ghost predicate Ruled(r: Reading) {
    r.handOver && r.quiet && r.idle && r.newGrants && r.begins && r.lifts && r.confirms && r.decides
  }

  /** The log names the expiry of the lease held. */
  ghost predicate LeaseNoted(cfg: Config, s: Sup) { Read(cfg.thresholds, s.log).expiry == ExpiryOf(s.lease) }

  ghost predicate Base(cfg: Config, s: Sup) {
    && Slots(s) && LeaseOk(cfg, s) && LeaseNoted(cfg, s)
    && Ruled(Read(cfg.thresholds, s.log)) && Read(cfg.thresholds, s.log).halted == s.halted
    && (s.halted ==> s.active.None? && s.observer.None? && s.lease.None?)
  }

  ghost predicate CustodyOk(cfg: Config, s: Sup) {
    !s.halted ==> Read(cfg.thresholds, s.log).custody == if s.bot == Some(XemmBot) then Held else Free
  }

  ghost predicate PauseOk(cfg: Config, s: Sup) {
    !s.halted ==>
      var r := Read(cfg.thresholds, s.log);
      && (s.pausedSince.Some? <==> r.paused) && s.statusFailures == r.failed
      && (s.pausedSince.Some? ==> s.stableTicks == r.inRow < STABLE_TICKS)
  }

  /** The confirm window in force is the one of the current mode. */
  ghost predicate WindowsOk(cfg: Config, s: Sup) {
    !s.halted && s.bot.Some? ==>
      var held := Read(cfg.thresholds, s.log).held;
      && s.since == (if held.Some? then map[held.value.key := held.value.first] else map[])
      && (held.Some? ==> held.value.key == (if s.bot == Some(XemmBot) then ReadyForTaker else MarginLimited))
      && (s.mode == Reduce ==> held.None?)
  }

  ghost predicate Good(cfg: Config, s: Sup) {
    Base(cfg, s) && CustodyOk(cfg, s) && PauseOk(cfg, s) && WindowsOk(cfg, s)
  }

  // ---------------------------------------------------------------- stopping and halting

  lemma RevokeKeeps(th: Thresholds, s: Sup)
    ensures var r := RevokeLease(s);
      && r == s.(lease := None, published := None, log := r.log)
      && Read(th, r.log) == if s.lease.Some? then Read(th, s.log).(expiry := None) else Read(th, s.log)
  {
    if s.lease.Some? { NotedRead(th, s.(published := None, lease := None), Revoked(s.lease.value.id)); }
  }

  lemma StopTaskKeeps(w: World, th: Thresholds, s: Sup, role: Role)
    ensures var e := StopTask(w, s, role);
      && e.s == s.(n := s.n + 1, log := e.s.log)
      && Read(th, e.s.log) == (if role == XemmRole then Read(th, s.log).(custody := if e.ok then Drained else Lost)
                               else Read(th, s.log))
  {
    NotedRead(th, Wait(s), Stopped(role, w.drainOk(s.n)));
  }

  /** After a stop: no rights, no lease, everything else untouched. */
  lemma StopActiveKeeps(w: World, cfg: Config, s: Sup)
    requires Slots(s) && LeaseOk(cfg, s) && LeaseNoted(cfg, s)
    ensures var e := StopActive(w, s); var r, r' := Read(cfg.thresholds, s.log), Read(cfg.thresholds, e.s.log);
      && e.s.active.None? && e.s.bot.None? && e.s.mode == Normal && e.s.lease.None? && e.s.published.None?
      && e.s == s.(n := e.s.n, active := None, bot := None, mode := Normal, lease := None, published := None,
                    log := e.s.log)
      && s.n <= e.s.n
      && r' == (if s.bot == Some(XemmBot) then r.(custody := if e.ok then Drained else Lost) else r).(expiry := None)
  {
    hide RevokeLease, StopTask, Read, Slots, LeaseOk;
    var r := StopRevokes(cfg, s);
    if r.active.Some? {
      StopTaskKeeps(w, cfg.thresholds, r.(active := None), r.active.value.role);
    }
  }

  /** Before the stop: the lease is given up, and the engine's role is known. */
  lemma StopRevokes(cfg: Config, s: Sup) returns (r: Sup)
    requires Slots(s) && LeaseOk(cfg, s) && LeaseNoted(cfg, s)
    ensures r == if s.bot == Some(TakerBot) && s.mode == Reduce then RevokeLease(s) else s
    ensures r == s.(lease := None, published := None, log := r.log)
    ensures Read(cfg.thresholds, r.log) == Read(cfg.thresholds, s.log).(expiry := None)
    ensures s.active.Some? <==> s.bot.Some?
    ensures s.active.Some? ==> (s.active.value.role == XemmRole <==> s.bot == Some(XemmBot))
  {
    hide Read;
    RevokeKeeps(cfg.thresholds, s);
    r := if s.bot == Some(TakerBot) && s.mode == Reduce then RevokeLease(s) else s;
    if s.bot.Some? {
      match s.bot.value
      case TakerBot => assert s.active.value.role != XemmRole;
      case XemmBot => assert s.active.value.role == XemmRole;
    }
  }

  lemma StopObserverKeeps(w: World, cfg: Config, s: Sup)
    requires s.observer.Some? ==> s.observer.value.role == ObserverRole
    ensures var e := StopObserver(w, s);
      && e.s.observer.None? && s.n <= e.s.n
      && e.s == s.(n := e.s.n, observer := None, observerExits := e.s.observerExits, retryAfter := e.s.retryAfter,
                    log := e.s.log)
      && Read(cfg.thresholds, e.s.log) == Read(cfg.thresholds, s.log)
  {
    hide StopTask, Read;
    if s.observer.Some? { StopTaskKeeps(w, cfg.thresholds, s.(observer := None), s.observer.value.role); }
  }

  lemma ReapKeeps(w: World, s: Sup)
    ensures var r := ReapObserver(w, s);
      && s.n <= r.n && (r.observer.Some? ==> r.observer == s.observer)
      && r == s.(n := r.n, observer := r.observer, observerExits := r.observerExits, retryAfter := r.retryAfter)
  {
  }

  /** A halt leaves no engine and no lease, and is final. */
  lemma HaltKeeps(w: World, cfg: Config, s: Sup)
    requires Slots(s) && LeaseOk(cfg, s) && LeaseNoted(cfg, s) && !s.halted
    requires Ruled(Read(cfg.thresholds, s.log)) && !Read(cfg.thresholds, s.log).halted
    ensures Good(cfg, SafeHalt(w, s)) && SafeHalt(w, s).halted && s.n <= SafeHalt(w, s).n
    ensures SafeHalt(w, s).pausedSince == s.pausedSince
  {
    hide StopActive, StopObserver, Read;
    var h := Noted(s.(halted := true), Halted);
    NotedRead(cfg.thresholds, s.(halted := true), Halted);
    StopActiveKeeps(w, cfg, h);
    StopObserverKeeps(w, cfg, StopActive(w, h).s);
  }

  lemma ReapGood(w: World, cfg: Config, s: Sup)
    requires Good(cfg, s)
    ensures Good(cfg, ReapObserver(w, s))
  {
    ReapKeeps(w, s);
  }

  /** The active engine ended: its rights and lease are gone before anything else happens. */
  lemma ReapActive(w: World, cfg: Config, s: Sup) returns (r: Sup)
    requires Good(cfg, s) && s.active.Some?
    ensures r == Bereft(w, s)
    ensures Slots(r) && LeaseOk(cfg, r) && LeaseNoted(cfg, r) && Ruled(Read(cfg.thresholds, r.log))
    ensures r.n == s.n + 1 && !r.halted && !s.halted
    ensures r.active.None? && !Read(cfg.thresholds, r.log).halted && r.pausedSince == s.pausedSince
    ensures w.exitOk(s.n) ==> Good(cfg, r)
  {
    hide RevokeLease, Read;
    var task, th := s.active.value, cfg.thresholds;
    var r0 := Noted(Wait(s.(active := None)), Exited(task.role, w.exitOk(s.n)));
    NotedRead(th, Wait(s.(active := None)), Exited(task.role, w.exitOk(s.n)));
    RevokeKeeps(th, r0);
    r := Bereft(w, s);
  }

  lemma CheckExitsKeeps(w: World, cfg: Config, s: Sup)
    requires Good(cfg, s)
    ensures Good(cfg, CheckExits(w, s)) && s.n <= CheckExits(w, s).n && CheckExits(w, s).pausedSince == s.pausedSince
  {
    hide SafeHalt, ReapObserver, Bereft, Read, Slots, LeaseOk;
    ReapGood(w, cfg, s);
    ReapKeeps(w, s);
    if s.active.Some? && w.activeDone(s.n) {
      var r := ReapActive(w, cfg, s);
      if !w.exitOk(s.n) {
        HaltKeeps(w, cfg, r);
      } else {
        var q := r.(activeExits := ExitsAfter(w, r, s.active.value.startedAt));
        CountersFree(cfg, r, q);
        HaltKeeps(w, cfg, q);
        ReapGood(w, cfg, q);
        ReapKeeps(w, q);
      }
    }
  }

  /** The invariant says nothing of the exit counter, the signal clock or the step number. */
  lemma CountersFree(cfg: Config, s: Sup, q: Sup)
    requires q == s.(n := q.n, activeExits := q.activeExits, lastSignalAt := q.lastSignalAt)
    ensures Slots(q) == Slots(s) && LeaseOk(cfg, q) == LeaseOk(cfg, s) && Good(cfg, q) == Good(cfg, s)
  {
  }

  // ---------------------------------------------------------------- the lease

  lemma ExtendKeeps(w: World, cfg: Config, s: Sup)
    requires Base(cfg, s) && CustodyOk(cfg, s) && WindowsOk(cfg, s)
    requires !s.halted && s.bot == Some(TakerBot) && s.mode == Reduce
    ensures var r := ExtendLease(w, cfg, s);
      && Base(cfg, r) && CustodyOk(cfg, r) && WindowsOk(cfg, r)
      && r == s.(lease := r.lease, published := r.published, leasesGranted := r.leasesGranted, log := r.log)
      && var x, x' := Read(cfg.thresholds, s.log), Read(cfg.thresholds, r.log);
      x'.inRow == x.inRow && x'.failed == x.failed && x'.paused == x.paused
  {
    hide Read;
    var r := ExtendLease(w, cfg, s);
    if s.lease.None? {
      GrantKeeps(w, cfg, s);
    } else if r != s {
      var t := Publish(s.(lease := Some(s.lease.value.(expiresAt := r.lease.value.expiresAt))));
      NotedRead(cfg.thresholds, t, Extended(s.lease.value.id, r.lease.value.expiresAt));
    }
  }

  lemma GrantKeeps(w: World, cfg: Config, s: Sup)
    requires s.lease.None? && !s.halted
    ensures var r := GrantLease(w, cfg, s); var x := Read(cfg.thresholds, s.log);
      && r == s.(lease := r.lease, published := r.published, leasesGranted := r.leasesGranted, log := r.log)
      && r.lease.Some? && r.published == Some(Published(r.lease.value.id, r.lease.value.expiresAt))
      && r.lease.value.expiresAt <= r.lease.value.maxExpiresAt == r.lease.value.startedAt + cfg.leaseMaxSec
      && r.lease.value.id == r.leasesGranted == s.leasesGranted + 1
      && Read(cfg.thresholds, r.log)
         == x.(handOver := x.handOver && x.custody == Free, expiry := Some(r.lease.value.expiresAt))
  {
    hide Read, ReadAct;
    var now := w.time(s.n);
    var lease := Lease(s.leasesGranted + 1, now, Min(now + cfg.leaseSec, now + cfg.leaseMaxSec), now + cfg.leaseMaxSec);
    GrantRead(cfg.thresholds, Read(cfg.thresholds, s.log), lease.id, lease.expiresAt);
    NotedRead(cfg.thresholds, Publish(s.(lease := Some(lease), leasesGranted := s.leasesGranted + 1)),
      Granted(lease.id, true, lease.expiresAt));
  }

  lemma GrantRead(th: Thresholds, r: Reading, id: nat, expiresAt: int)
    ensures ReadAct(th, r, Granted(id, true, expiresAt))
      == r.(handOver := r.handOver && r.custody == Free, expiry := Some(expiresAt))
  {
  }

  lemma PromoteKeeps(w: World, cfg: Config, s: Sup)
    requires !Read(cfg.thresholds, s.log).paused
    requires !s.halted && s.bot.None? && s.active.None? && (s.observer.Some? ==> s.observer.value.role == ObserverRole)
    requires Ruled(Read(cfg.thresholds, s.log)) && !Read(cfg.thresholds, s.log).halted
      && Read(cfg.thresholds, s.log).custody == Free
    ensures var r := Promote(w, s); var x, x' := Read(cfg.thresholds, s.log), Read(cfg.thresholds, r.log);
      && r.active.Some? && r.active.value.role == TakerRole(Reduce) && r.observer.None? && s.n <= r.n && x' == x
      && r == s.(n := r.n, active := r.active, observer := None, observerExits := r.observerExits,
                 retryAfter := r.retryAfter, log := r.log)
  {
    hide Read;
    ReapKeeps(w, s);
    var r := ReapObserver(w, s);
    if r.observer.Some? {
      NotedRead(cfg.thresholds, r.(active := Some(r.observer.value.(role := TakerRole(Reduce))), observer := None),
        Promoted);
    } else {
      NotedRead(cfg.thresholds, r, Spawned(TakerRole(Reduce)));
    }
  }

  lemma ActivateKeeps(w: World, cfg: Config, s: Sup)
    requires Good(cfg, s) && !s.halted && s.bot == Some(XemmBot) && s.pausedSince.None?
    ensures Good(cfg, ActivateReduce(w, cfg, s)) && s.n <= ActivateReduce(w, cfg, s).n
  {
    hide StopActive, SafeHalt, Promote, AnyClear, GrantLease, Read;
    var stop := StopActive(w, s.(since := map[]));
    StopActiveKeeps(w, cfg, s.(since := map[]));
    if !stop.ok {
      HaltKeeps(w, cfg, stop.s);
    } else {
      var verify := Verify(w, stop.s);
      NotedRead(cfg.thresholds, Wait(stop.s), Verified(verify.ok));
      if !verify.ok {
        HaltKeeps(w, cfg, verify.s);
      } else {
        assert Good(cfg, verify.s);
        HandRights(w, cfg, verify.s);
      }
    }
  }

  /** With XEMM gone and its orders verified clear, the lease and the rights go to the reduce taker. */
  lemma HandRights(w: World, cfg: Config, s: Sup)
    requires Good(cfg, s) && !s.halted && s.bot.None? && s.since == map[] && s.pausedSince.None?
    ensures var r := SetActive(Promote(w, GrantLease(w, cfg, s)), TakerBot, Reduce); Good(cfg, r) && s.n <= r.n
  {
    hide Promote, GrantLease, Read;
    GrantKeeps(w, cfg, s);
    var g := GrantLease(w, cfg, s);
    PromoteKeeps(w, cfg, g);
    NotedRead(cfg.thresholds, Promote(w, g).(bot := Some(TakerBot), mode := Reduce), Switched(TakerBot, Reduce));
  }

  lemma FastTickKeeps(w: World, cfg: Config, s: Sup)
    requires Good(cfg, s)
    ensures Good(cfg, FastTick(w, cfg, s)) && s.n <= FastTick(w, cfg, s).n
  {
    hide CheckExits, ActivateReduce, ExtendLease, FreshSignal, Read, Slots, LeaseOk;
    var r := CheckExits(w, s);
    CheckExitsKeeps(w, cfg, s);
    var signal := FreshSignal(w, cfg, r);
    if !Stopping(w, r) && r.pausedSince.None? && signal.Some? {
      var q := r.(lastSignalAt := Some(signal.value.timestamp));
      CountersFree(cfg, r, q);
      if r.bot == Some(TakerBot) && r.mode == Reduce {
        ExtendKeeps(w, cfg, q);
      } else if r.bot == Some(XemmBot) {
        ActivateKeeps(w, cfg, q);
      }
    }
  }

  // ---------------------------------------------------------------- the slow tick

  lemma StartKeeps(w: World, cfg: Config, s: Sup, target: Bot, mode: Mode)
    requires Base(cfg, s) && PauseOk(cfg, s) && !s.halted && s.bot.None? && s.lease.None? && s.pausedSince.None?
    requires Read(cfg.thresholds, s.log).custody == Free && (target == TakerBot ==> s.observer.None?)
    ensures Good(cfg, Start(w, s, target, mode)) && Start(w, s, target, mode).n == s.n
    ensures Start(w, s, target, mode).bot == Some(target)
  {
    hide Read;
    var role := if target == XemmBot then XemmRole else TakerRole(mode);
    var t := Spawn(w, s, role).(active := Some(Task(role, w.time(s.n))), since := map[]);
    NotedRead(cfg.thresholds, s, Spawned(role));
    var m := if target == TakerBot then mode else Normal;
    NotedRead(cfg.thresholds, t.(bot := Some(target), mode := m), Switched(target, m));
  }

  /** From checked exits on: stop what runs, verify after XEMM, start the target. */
  lemma SwitchKeeps(w: World, cfg: Config, r: Sup, target: Bot, mode: Mode, o: Ended, a: Ended, v: Ended)
    requires Good(cfg, r) && !r.halted && r.pausedSince.None? && (target == XemmBot ==> r.bot != Some(XemmBot))
    requires o == if target == TakerBot then StopObserver(w, r) else Ended(r, true)
    requires a == StopActive(w, o.s)
    requires v == if r.bot == Some(XemmBot) && target == TakerBot then Verify(w, a.s) else a
    ensures o.ok && a.ok && v.ok ==> v.s.pausedSince == r.pausedSince
    ensures !o.ok ==> Good(cfg, SafeHalt(w, o.s)) && r.n <= SafeHalt(w, o.s).n
    ensures o.ok && !a.ok ==> Good(cfg, SafeHalt(w, a.s)) && r.n <= SafeHalt(w, a.s).n
    ensures o.ok && a.ok && !v.ok ==> Good(cfg, SafeHalt(w, v.s)) && r.n <= SafeHalt(w, v.s).n
    ensures o.ok && a.ok && v.ok ==>
      Good(cfg, v.s) && r.n <= v.s.n && Good(cfg, Start(w, v.s, target, mode)) && Start(w, v.s, target, mode).n == v.s.n
  {
    hide StopActive, StopObserver, SafeHalt, Start, AnyClear, Read;
    StopObserverKeeps(w, cfg, r);
    if !o.ok { HaltKeeps(w, cfg, o.s); }
    StopActiveKeeps(w, cfg, o.s);
    if o.ok && !a.ok { HaltKeeps(w, cfg, a.s); }
    if o.ok && a.ok {
      NotedRead(cfg.thresholds, Wait(a.s), Verified(AnyClear(w.polls(a.s.n))));
      if !v.ok {
        HaltKeeps(w, cfg, v.s);
      } else {
        StartKeeps(w, cfg, v.s, target, mode);
      }
    }
  }

  lemma EnsureBotKeeps(w: World, cfg: Config, s: Sup, target: Bot, mode: Mode)
    requires Good(cfg, s) && !s.halted && s.pausedSince.None?
    ensures var r := EnsureBot(w, s, target, mode);
      Good(cfg, r) && s.n <= r.n && (r.halted || (r.bot == Some(target) && r.pausedSince.None?) || Stopping(w, r))
  {
    hide CheckExits, Switch, Good;
    if !(s.bot == Some(target) && s.active.Some? && !w.activeDone(s.n) && (target != TakerBot || s.mode == mode)) {
      var g := Glanced(w, s);
      CountersFree(cfg, s, g);
      var r := CheckExits(w, g);
      CheckExitsKeeps(w, cfg, g);
      if !Stopping(w, r) {
        if target == XemmBot { XemmGone(w, cfg, s); }
        SwitchEnds(w, cfg, r, target, mode);
      }
    }
  }

  lemma SwitchEnds(w: World, cfg: Config, r: Sup, target: Bot, mode: Mode)
    requires Good(cfg, r) && !r.halted && r.pausedSince.None? && (target == XemmBot ==> r.bot != Some(XemmBot))
    ensures var q := Switch(w, r, target, mode);
      Good(cfg, q) && r.n <= q.n && (q.halted || (q.bot == Some(target) && q.pausedSince.None?) || Stopping(w, q))
  {
    hide StopActive, StopObserver, SafeHalt, Start, Verify, Good;
    var o := if target == TakerBot then StopObserver(w, r) else Ended(r, true);
    var a := StopActive(w, o.s);
    var v := if r.bot == Some(XemmBot) && target == TakerBot then Verify(w, a.s) else a;
    SwitchKeeps(w, cfg, r, target, mode, o, a, v);
    StartSets(w, v.s, target, mode);
    HaltHalts(w, o.s);
    HaltHalts(w, a.s);
    HaltHalts(w, v.s);
  }

  lemma StartSets(w: World, s: Sup, target: Bot, mode: Mode)
    ensures Start(w, s, target, mode).bot == Some(target) && Start(w, s, target, mode).pausedSince == s.pausedSince
  {
  }

  lemma HaltHalts(w: World, s: Sup)
    ensures SafeHalt(w, s).halted
  {
  }

  /** XEMM is only restarted after it has ended: the look that found it done is the look that reaps it. */
  lemma XemmGone(w: World, cfg: Config, s: Sup)
    requires Good(cfg, s) && !(s.bot == Some(XemmBot) && s.active.Some? && !w.activeDone(s.n))
    ensures CheckExits(w, Glanced(w, s)).bot != Some(XemmBot)
  {
    hide SafeHalt, ReapObserver, Bereft, Read, LeaseOk;
    var g := Glanced(w, s);
    if g.active.Some? && w.activeDone(g.n) {
      EndedLoses(w, g);
    } else {
      ReapKeeps(w, g);
    }
  }

  lemma EndedLoses(w: World, s: Sup)
    requires s.active.Some? && w.activeDone(s.n)
    ensures CheckExits(w, s).bot.None?
  {
    hide RevokeLease, SafeHalt, ReapObserver;
    var r := Bereft(w, s);
    HaltTakes(w, r);
    var n := ExitsAfter(w, r, s.active.value.startedAt);
    HaltTakes(w, r.(activeExits := n));
    ReapKeeps(w, r.(activeExits := n));
  }

  lemma HaltTakes(w: World, s: Sup)
    requires s.bot.None?
    ensures SafeHalt(w, s).bot.None?
  {
  }

  lemma EnsureObserverKeeps(w: World, cfg: Config, s: Sup, target: Bot)
    requires Good(cfg, s) && !s.halted && s.bot == Some(target) && s.pausedSince.None?
    ensures Good(cfg, EnsureObserver(w, cfg, s, target)) && s.n <= EnsureObserver(w, cfg, s, target).n
  {
    hide StopObserver, SafeHalt, ReapObserver, Read;
    NotedRead(cfg.thresholds, ReapObserver(w, s), Spawned(ObserverRole));
    StopObserverKeeps(w, cfg, s);
    ReapKeeps(w, s);
    var o := StopObserver(w, s);
    if !cfg.observer || target != XemmBot {
      if !o.ok { HaltKeeps(w, cfg, o.s); }
    }
  }

  lemma StatusFailedKeeps(w: World, cfg: Config, s: Sup)
    requires Good(cfg, s) && !s.halted
    ensures Good(cfg, StatusFailed(w, s)) && s.n <= StatusFailed(w, s).n
  {
    hide Read, Slots, LeaseOk;
    var t := s.(statusFailures := s.statusFailures + 1, stableTicks := 0);
    NotedRead(cfg.thresholds, t, StatusRead(false));
    var r := Noted(t, StatusRead(false));
    NotedRead(cfg.thresholds, r.(pausedSince := Some(w.time(r.n))), PauseBegun);
    PausesFree(cfg, s, StatusFailed(w, s));
  }

  /** The slots and the lease say nothing of the pause, its counters or the log. */
  lemma PausesFree(cfg: Config, s: Sup, q: Sup)
    requires q == s.(statusFailures := q.statusFailures, stableTicks := q.stableTicks, pausedSince := q.pausedSince,
                     log := q.log)
    ensures Slots(q) == Slots(s) && LeaseOk(cfg, q) == LeaseOk(cfg, s)
  {
  }

  /** Between reading a status and counting it. */
  ghost predicate Counting(cfg: Config, s: Sup) {
    && Base(cfg, s) && CustodyOk(cfg, s) && WindowsOk(cfg, s) && !s.halted
    && var r := Read(cfg.thresholds, s.log);
    && (s.pausedSince.Some? <==> r.paused) && s.statusFailures == r.failed
    && (s.pausedSince.Some? ==> s.stableTicks + 1 == r.inRow <= STABLE_TICKS)
  }

  lemma CountStableKeeps(cfg: Config, s: Sup)
    requires Counting(cfg, s)
    ensures Good(cfg, CountStable(s)) && CountStable(s).n == s.n && !CountStable(s).halted
  {
    hide Read;
    if s.pausedSince.Some? {
      NotedRead(cfg.thresholds, s.(stableTicks := s.stableTicks + 1, pausedSince := None), PauseLifted);
    }
  }

  /** A look keeps the window and the log in step, and a window that has run supports a confirmation. */
  lemma AskKeeps(cfg: Config, s: Sup, key: Condition, holds: bool, at: int)
    requires Good(cfg, s) && !s.halted && s.bot.Some? && s.mode != Reduce
    requires key == if s.bot == Some(XemmBot) then ReadyForTaker else MarginLimited
    ensures var w := Sustained(s.since, key, holds, WindowOfCondition(cfg.thresholds, key), at);
      var q := Noted(s.(since := w.0), Asked(key, holds, at));
      Good(cfg, q) && (w.1 ==> Good(cfg, Noted(q, Confirmed(key, at))))
  {
    hide Read, Slots, LeaseOk, WindowOfCondition;
    var w := Sustained(s.since, key, holds, WindowOfCondition(cfg.thresholds, key), at);
    var r := s.(since := w.0);
    var q := Noted(r, Asked(key, holds, at));
    NotedRead(cfg.thresholds, r, Asked(key, holds, at));
    NotedRead(cfg.thresholds, q, Confirmed(key, at));
    SinceOnly(cfg, s, r);
    LogOnly(cfg, r, q);
    LogOnly(cfg, q, Noted(q, Confirmed(key, at)));
    var held := Read(cfg.thresholds, s.log).held;
    assert w.0 == if !holds then map[] else map[key := if held.Some? then held.value.first else at];
  }

  lemma LogOnly(cfg: Config, s: Sup, r: Sup)
    requires r == s.(log := r.log)
    ensures Slots(r) == Slots(s) && LeaseOk(cfg, r) == LeaseOk(cfg, s)
  {
  }

  lemma DecideKeeps(w: World, cfg: Config, s: Sup, taker: Option<Status>, xemm: Option<Status>)
    requires Good(cfg, s) && !s.halted
    ensures var r := DecideNow(w, cfg, s, taker, xemm).0;
      Good(cfg, r) && r.n == s.n && !r.halted && r.pausedSince == s.pausedSince
  {
    hide Limited, Ready, TakerBlocked, NearFlat, Good, Sustained, Right;
    var th, regime := cfg.thresholds, Regime(s.bot, s.mode, s.lease, s.since);
    var d := Decide(th, regime, taker, xemm, w.mono(s.n), w.time(s.n));
    var asked := Question(th, regime, taker, xemm);
    var last := Decided(regime, taker, xemm, w.mono(s.n), w.time(s.n), d.1);
    DecideIsRight(th, regime, taker, xemm, w.mono(s.n), w.time(s.n));
    if asked.Some? {
      DecidedBy(th, regime, taker, xemm, w.mono(s.n), w.time(s.n));
      XemmIsNormal(cfg, s);
      AskKeeps(cfg, s, asked.value.0, asked.value.1, w.mono(s.n));
      var q := Noted(s.(since := d.0), Asked(asked.value.0, asked.value.1, w.mono(s.n)));
      DecidedKeeps(cfg, q, last);
      DecidedKeeps(cfg, Noted(q, Confirmed(asked.value.0, w.mono(s.n))), last);
    } else {
      assert d.0 == s.since && d.1.reason != TakerMarginLimited && d.1.reason != ResumeTaker;
      DecidedKeeps(cfg, s, last);
      assert DecideNow(w, cfg, s, taker, xemm).0 == Noted(s, last);
    }
  }

  lemma DecidedKeeps(cfg: Config, s: Sup, a: Act)
    requires a.Decided? && DecidesRight(cfg.thresholds, ExpiryOf(s.lease), a)
    ensures Good(cfg, s) ==> Good(cfg, Noted(s, a))
  {
    hide Read, DecidesRight;
    NotedRead(cfg.thresholds, s, a);
  }

  lemma XemmIsNormal(cfg: Config, s: Sup)
    requires Good(cfg, s)
    ensures s.bot == Some(XemmBot) ==> s.mode == Normal
    ensures s.bot.Some? ==> s.bot.value == TakerBot || s.bot.value == XemmBot
  {
  }

  /** A decision that asks its window follows it: it confirms exactly when the window has run. */
  lemma DecidedBy(th: Thresholds, r: Regime, taker: Option<Status>, xemm: Option<Status>, mono: int, utc: int)
    requires Question(th, r, taker, xemm).Some?
    ensures var q := Question(th, r, taker, xemm).value; var d := Decide(th, r, taker, xemm, mono, utc);
      var w := Sustained(r.since, q.0, q.1, WindowOfCondition(th, q.0), mono);
      && d.0 == w.0 && (d.1.reason == TakerMarginLimited <==> w.1 && q.0 == MarginLimited)
      && (d.1.reason == ResumeTaker <==> w.1 && q.0 == ReadyForTaker)
      && r.active.Some? && (r.active == Some(TakerBot) ==> r.mode != Reduce)
      && q.0 == (if r.active == Some(XemmBot) then ReadyForTaker else MarginLimited)
  {
    hide Limited, Ready, TakerBlocked, NearFlat, Sustained;
  }

  lemma SinceOnly(cfg: Config, s: Sup, r: Sup)
    requires r == s.(since := r.since)
    ensures Slots(r) == Slots(s) && LeaseOk(cfg, r) == LeaseOk(cfg, s)
  {
  }

  lemma CarryOutKeeps(w: World, cfg: Config, s: Sup, d: Decision, xemm: Option<Status>)
    requires Good(cfg, s) && !s.halted && s.pausedSince.None?
    ensures Good(cfg, CarryOut(w, cfg, s, d, xemm)) && s.n <= CarryOut(w, cfg, s, d, xemm).n
  {
    hide SafeHalt, EnsureBot, EnsureObserver, Read, Slots, LeaseOk;
    HaltKeeps(w, cfg, s);
    if d.target != ToHalt {
      var target := d.target.bot;
      var again := target == XemmBot && xemm.None?;
      var r := if again then Wait(s) else s;
      CountersFree(cfg, s, r);
      HaltKeeps(w, cfg, r);
      var mode := if d.mode.Some? then d.mode.value else Normal;
      EnsureBotKeeps(w, cfg, r, target, mode);
      var b := EnsureBot(w, r, target, mode);
      if !Stopping(w, b) { EnsureObserverKeeps(w, cfg, b, target); }
    }
  }

  lemma ResolveKeeps(w: World, cfg: Config, s: Sup, taker: Option<Status>, xemm: Option<Status>)
    requires Counting(cfg, s)
    ensures Good(cfg, Resolve(w, cfg, s, taker, xemm)) && s.n <= Resolve(w, cfg, s, taker, xemm).n
  {
    hide SafeHalt, CountStable, DecideNow, CarryOut, Read;
    HaltKeeps(w, cfg, s);
    CountStableKeeps(cfg, s);
    var c := CountStable(s);
    if c.pausedSince.None? {
      DecideKeeps(w, cfg, c, taker, xemm);
      var d := DecideNow(w, cfg, c, taker, xemm);
      CarryOutKeeps(w, cfg, d.0, d.1, xemm);
    }
  }

  /** The state that a readable tick resolves. */
  lemma JudgeCounts(w: World, cfg: Config, s: Sup)
    requires Good(cfg, s) && !s.halted
    ensures var r := Noted(s.(statusFailures := 0), StatusRead(true));
      Counting(cfg, OnTrades(w, cfg, r))
  {
    hide ExtendLease, Read;
    var t := s.(statusFailures := 0);
    NotedRead(cfg.thresholds, t, StatusRead(true));
    var r := Noted(t, StatusRead(true));
    if r.bot == Some(TakerBot) && r.mode == Reduce { ExtendKeeps(w, cfg, r); }
  }

  lemma JudgeKeeps(w: World, cfg: Config, s: Sup, taker: Option<Status>, xemm: Option<Status>)
    requires Good(cfg, s) && !s.halted
    ensures Good(cfg, Judge(w, cfg, s, taker, xemm)) && s.n <= Judge(w, cfg, s, taker, xemm).n
  {
    hide ExtendLease, Resolve, Read, Counting, Good;
    JudgeCounts(w, cfg, s);
    var r := Noted(s.(statusFailures := 0), StatusRead(true));
    ExtendStays(w, cfg, r);
    ResolveKeeps(w, cfg, OnTrades(w, cfg, r), taker, xemm);
  }

  lemma ExtendStays(w: World, cfg: Config, s: Sup)
    ensures ExtendLease(w, cfg, s).n == s.n
  {
  }

  lemma TickKeeps(w: World, cfg: Config, s: Sup)
    requires Good(cfg, s)
    ensures Good(cfg, Tick(w, cfg, s)) && s.n <= Tick(w, cfg, s).n
  {
    hide CheckExits, StatusFailed, Judge, Good;
    CheckExitsKeeps(w, cfg, s);
    var r := CheckExits(w, s);
    if !Stopping(w, r) {
      var p := PollStatuses(w, r);
      CountersFree(cfg, r, p.s);
      StatusFailedKeeps(w, cfg, p.s);
      JudgeKeeps(w, cfg, p.s, p.taker, p.xemm);
    }
  }

  // ---------------------------------------------------------------- every run

  lemma BootGood(w: World, cfg: Config)
    ensures Good(cfg, Boot(w))
  {
    hide SafeHalt, Read, AnyClear;
    assert Read(cfg.thresholds, []) == NOTHING_YET by { EmptyRead(cfg.thresholds); }
    NotedRead(cfg.thresholds, Wait(Fresh()), Verified(AnyClear(w.polls(0))));
    HaltKeeps(w, cfg, Verify(w, Fresh()).s);
  }

  lemma EmptyRead(th: Thresholds)
    ensures Read(th, []) == NOTHING_YET
  {
  }

  lemma StepKeeps(w: World, cfg: Config, s: Sup, op: Op)
    requires Good(cfg, s)
    ensures Good(cfg, StepOp(w, cfg, s, op)) && s.n < StepOp(w, cfg, s, op).n
  {
    hide FastTick, Tick, Good;
    FastTickKeeps(w, cfg, s);
    TickKeeps(w, cfg, s);
    CountersFree(cfg, s, Wait(s));
    CountersFree(cfg, FastTick(w, cfg, s), Wait(FastTick(w, cfg, s)));
    CountersFree(cfg, Tick(w, cfg, s), Wait(Tick(w, cfg, s)));
  }

  lemma {:induction false} EveryRunGood(w: World, cfg: Config, ops: seq<Op>)
    ensures Good(cfg, RunOps(w, cfg, ops))
  {
    hide Good, Boot, StepOp;
    if ops == [] {
      BootGood(w, cfg);
    } else {
      EveryRunGood(w, cfg, ops[..|ops| - 1]);
      StepKeeps(w, cfg, RunOps(w, cfg, ops[..|ops| - 1]), ops[|ops| - 1]);
    }
  }

  /** Every reachable state: who holds the rights, the lease and the slots, and what a halt leaves. */
  lemma Exclusivity(w: World, cfg: Config, ops: seq<Op>)
    ensures var s := RunOps(w, cfg, ops);
      && (s.lease.Some? ==> s.active.Some? && s.active.value.role == TakerRole(Reduce))
      && (s.active.Some? && s.active.value.role.TakerRole? ==> s.observer.None?)
      && s.published == (if s.lease.Some? then Some(Published(s.lease.value.id, s.lease.value.expiresAt)) else None)
      && (s.lease.Some? ==> s.lease.value.expiresAt <= s.lease.value.startedAt + cfg.leaseMaxSec)
      && (s.halted ==> s.active.None? && s.observer.None? && s.lease.None? && s.published.None?)
      && (s.active.Some? <==> s.bot.Some?)
  {
    hide RunOps, Read;
    EveryRunGood(w, cfg, ops);
    var s := RunOps(w, cfg, ops);
    assert s.bot.Some? ==> s.bot.value == TakerBot || s.bot.value == XemmBot;
  }

  // ---------------------------------------------------------------- the rules, read off the log

  /** The XEMM spawned at j had left nothing behind by i: it ended by itself, or stopped cleanly and was verified. */
  ghost predicate ClearedBetween(log: seq<Act>, j: nat, i: nat)
    requires j <= i <= |log|
  {
    exists k :: j < k < i && (
      || log[k] == Exited(XemmRole, true)
      || (log[k] == Stopped(XemmRole, true) && exists m :: k < m < i && log[m] == Verified(true)))
  }

  ghost predicate HandsOver(log: seq<Act>) {
    forall j, i :: 0 <= j < i < |log| && log[j] == Spawned(XemmRole) && TakesOver(log[i]) ==> ClearedBetween(log, j, i)
  }

  ghost predicate StaysHalted(log: seq<Act>) {
    forall j, i :: 0 <= j < i < |log| && log[j] == Halted ==> !Starts(log[i])
  }

  ghost predicate GrantsAreNew(log: seq<Act>) {
    forall i :: 0 <= i < |log| && log[i].Granted? ==> log[i].isNew
  }

  /** The status reads so far, in order: was each readable? */
  function Reads(log: seq<Act>): seq<bool> {
    if log == [] then []
    else
      var last := log[|log| - 1];
      Reads(log[..|log| - 1]) + if last.StatusRead? then [last.readable] else []
  }

  /** The last four reads, and no more than those in a row, were readable. */
  predicate FourInRow(seen: seq<bool>) {
    var n := |seen|;
    n >= 4 && seen[n - 4..] == [true, true, true, true] && (n > 4 ==> !seen[n - 5])
  }

  ghost predicate LiftsOnFourth(log: seq<Act>) {
    forall i :: 0 <= i < |log| && log[i] == PauseLifted ==> FourInRow(Reads(log[..i]))
  }

  /** A pause begins only when the last three reads have failed. */
  ghost predicate BeginsOnThird(log: seq<Act>) {
    forall i :: 0 <= i < |log| && log[i] == PauseBegun ==> LastFailed(Reads(log[..i]), 3)
  }

  predicate LastFailed(seen: seq<bool>, k: nat) { k <= |seen| && forall i :: |seen| - k <= i < |seen| ==> !seen[i] }

  /** Between the begin of a pause and its lifting nothing starts and no rights move. */
  ghost predicate IdleWhilePaused(log: seq<Act>) {
    forall j, i :: 0 <= j < i < |log| && log[j] == PauseBegun && (Starts(log[i]) || log[i].Switched?) ==>
      LiftedBetween(log, j, i)
  }

  ghost predicate LiftedBetween(log: seq<Act>, j: nat, i: nat)
    requires j <= i <= |log|
  {
    exists k :: j < k < i && log[k] == PauseLifted
  }

  /** From j to i every look found the condition holding, with no change of rights between. */
  ghost predicate HeldFrom(log: seq<Act>, key: Condition, first: int, j: nat, i: nat)
    requires j <= i <= |log|
  {
    && j < i && log[j] == Asked(key, true, first)
    && forall k :: j <= k < i ==> !log[k].Switched? && (log[k].Asked? ==> log[k].key == key && log[k].holds)
  }

  ghost predicate ConfirmsHeld(th: Thresholds, log: seq<Act>) {
    forall i :: 0 <= i < |log| && log[i].Confirmed? ==>
      (exists j, first :: 0 <= j < i && HeldFrom(log, log[i].key, first, j, i)
        && Max(log[i].at - first, 0) >= WindowOfCondition(th, log[i].key))
  }

  lemma ClearedLonger(log: seq<Act>, a: Act, j: nat, i: nat)
    requires j <= i <= |log| && ClearedBetween(log, j, i)
    ensures ClearedBetween(log + [a], j, i) && ClearedBetween(log + [a], j, |log| + 1)
  {
    var k :| j < k < i && (
      || log[k] == Exited(XemmRole, true)
      || (log[k] == Stopped(XemmRole, true) && exists m :: k < m < i && log[m] == Verified(true)));
    var more := log + [a];
    assert more[k] == log[k];
    if log[k] != Exited(XemmRole, true) {
      var m :| k < m < i && log[m] == Verified(true);
      assert more[m] == Verified(true);
    }
  }

  /** Stopped cleanly since it was spawned at j, perhaps not verified yet. */
  ghost predicate StoppedSince(log: seq<Act>, j: nat) {
    exists k :: j < k < |log| && log[k] == Stopped(XemmRole, true)
  }

  /** What the custody remembered means for the log it was read from. */
  lemma {:induction false} CustodyTells(th: Thresholds, log: seq<Act>, j: nat)
    requires j < |log| && log[j] == Spawned(XemmRole)
    ensures Read(th, log).custody == Free ==> ClearedBetween(log, j, |log|)
    ensures Read(th, log).custody == Drained ==> ClearedBetween(log, j, |log|) || StoppedSince(log, j)
  {
    hide Read;
    var n := |log| - 1;
    var before, a := log[..n], log[n];
    assert log == before + [a];
    ReadLast(th, log);
    if j < n {
      CustodyTells(th, before, j);
      if ClearedBetween(before, j, n) {
        ClearedLonger(before, a, j, n);
      } else {
        CustodyStep(th, log, j);
      }
    }
  }

  /** One act later, for a spawn not known cleared before it. */
  lemma CustodyStep(th: Thresholds, log: seq<Act>, j: nat)
    requires 0 < |log| && j < |log| - 1
    requires Read(th, log) == ReadAct(th, Read(th, log[..|log| - 1]), log[|log| - 1])
    requires Read(th, log[..|log| - 1]).custody != Free
    requires Read(th, log[..|log| - 1]).custody == Drained ==> StoppedSince(log[..|log| - 1], j)
    ensures Read(th, log).custody == Free ==> ClearedBetween(log, j, |log|)
    ensures Read(th, log).custody == Drained ==> StoppedSince(log, j)
  {
    hide Read;
    var n := |log| - 1;
    var before, a := log[..n], log[n];
    if Read(th, before).custody == Drained {
      var k :| j < k < n && before[k] == Stopped(XemmRole, true);
      assert log[k] == Stopped(XemmRole, true);
    }
    assert log[n] == a;
  }

  lemma {:induction false} HandsOverRead(th: Thresholds, log: seq<Act>)
    requires Read(th, log).handOver
    ensures HandsOver(log)
  {
    hide Read;
    if log != [] {
      var n := |log| - 1;
      var before, a := log[..n], log[n];
      assert log == before + [a];
      ReadLast(th, log);
      HandsOverRead(th, before);
      forall j, i | 0 <= j < i < |log| && log[j] == Spawned(XemmRole) && TakesOver(log[i])
        ensures ClearedBetween(log, j, i)
      {
        if i == n { CustodyTells(th, before, j); }
        ClearedLonger(before, a, j, i);
      }
    }
  }

  lemma {:induction false} HaltedRead(th: Thresholds, log: seq<Act>)
    ensures Read(th, log).halted <==> Halted in log
    ensures Read(th, log).quiet ==> StaysHalted(log)
    ensures Read(th, log).newGrants ==> GrantsAreNew(log)
  {
    hide Read;
    if log == [] {
      EmptyRead(th);
    } else {
      var n := |log| - 1;
      var before, a := log[..n], log[n];
      assert log == before + [a];
      ReadLast(th, log);
      HaltedRead(th, before);
      HaltedStep(before, a, Read(th, before).halted);
    }
  }

  lemma HaltedStep(before: seq<Act>, a: Act, halted: bool)
    requires halted <==> Halted in before
    ensures Halted in before + [a] <==> halted || a == Halted
    ensures StaysHalted(before + [a]) <==> StaysHalted(before) && (halted ==> !Starts(a))
    ensures GrantsAreNew(before + [a]) <==> GrantsAreNew(before) && (a.Granted? ==> a.isNew)
  {
    var log := before + [a];
    assert log[|before|] == a && log[..|before|] == before;
    assert forall i :: 0 <= i < |before| ==> log[i] == before[i];
  }

  /** The trailing run of readable reads is what the monitor counts. */
  predicate Trailing(seen: seq<bool>, k: nat) {
    k <= |seen| && (forall i :: |seen| - k <= i < |seen| ==> seen[i]) && (k < |seen| ==> !seen[|seen| - 1 - k])
  }

  lemma TrailingStep(seen: seq<bool>, k: nat, b: bool)
    requires Trailing(seen, k)
    ensures Trailing(seen + [b], if b then k + 1 else 0)
    ensures k == 4 ==> FourInRow(seen)
  {
    if k == 4 { FourTrail(seen); }
    var more := seen + [b];
    assert more[|seen|] == b;
    assert forall i :: 0 <= i < |seen| ==> more[i] == seen[i];
  }

  lemma FourTrail(seen: seq<bool>)
    requires Trailing(seen, 4)
    ensures FourInRow(seen)
  {
    var n := |seen|;
    assert seen[n - 4] && seen[n - 3] && seen[n - 2] && seen[n - 1];
    assert seen[n - 4..] == [seen[n - 4], seen[n - 3], seen[n - 2], seen[n - 1]];
  }

  lemma {:induction false} LiftsRead(th: Thresholds, log: seq<Act>)
    ensures Trailing(Reads(log), Read(th, log).inRow)
    ensures Read(th, log).lifts ==> LiftsOnFourth(log)
  {
    hide Read, Trailing, FourInRow;
    if log == [] {
      EmptyRead(th);
      assert Trailing([], 0) by { NoneTrail(); }
    } else {
      var n := |log| - 1;
      ReadLast(th, log);
      LiftsRead(th, log[..n]);
      assert Reads(log[..n]) + [] == Reads(log[..n]);
      TrailingStep(Reads(log[..n]), Read(th, log[..n]).inRow, log[n].StatusRead? && log[n].readable);
      if Read(th, log).lifts {
        forall i | 0 <= i < |log| && log[i] == PauseLifted ensures FourInRow(Reads(log[..i])) {
          if i < n { assert log[..n][i] == PauseLifted && log[..n][..i] == log[..i]; }
        }
      }
    }
  }

  lemma NoneTrail()
    ensures Trailing([], 0)
  {
  }

  lemma LastFailedStep(seen: seq<bool>, k: nat, b: bool)
    requires LastFailed(seen, k)
    ensures LastFailed(seen + [b], if b then 0 else k + 1)
  {
  }

  lemma NoneFailed()
    ensures LastFailed([], 0)
  {
  }

  lemma FewerFailed(seen: seq<bool>, k: nat, j: nat)
    requires LastFailed(seen, k) && j <= k
    ensures LastFailed(seen, j)
  {
  }

  lemma {:induction false} BeginsRead(th: Thresholds, log: seq<Act>)
    ensures LastFailed(Reads(log), Read(th, log).failed)
    ensures Read(th, log).begins ==> BeginsOnThird(log)
  {
    hide Read, LastFailed;
    if log == [] {
      EmptyRead(th);
      NoneFailed();
    } else {
      var n := |log| - 1;
      ReadLast(th, log);
      BeginsRead(th, log[..n]);
      assert Reads(log[..n]) + [] == Reads(log[..n]);
      LastFailedStep(Reads(log[..n]), Read(th, log[..n]).failed, log[n].StatusRead? && log[n].readable);
      if Read(th, log).begins {
        forall i | 0 <= i < |log| && log[i] == PauseBegun ensures LastFailed(Reads(log[..i]), 3) {
          if i < n {
            assert log[..n][i] == PauseBegun && log[..n][..i] == log[..i];
          } else {
            FewerFailed(Reads(log[..n]), Read(th, log[..n]).failed, 3);
          }
        }
      }
    }
  }

  lemma LiftedLonger(log: seq<Act>, a: Act, j: nat, i: nat)
    requires j <= i <= |log| && LiftedBetween(log, j, i)
    ensures LiftedBetween(log + [a], j, i) && LiftedBetween(log + [a], j, |log| + 1)
  {
    var k :| j < k < i && log[k] == PauseLifted;
    assert (log + [a])[k] == PauseLifted;
  }

  /** Not paused any more: every pause begun has been lifted since. */
  lemma {:induction false} PausedTells(th: Thresholds, log: seq<Act>, j: nat)
    requires j < |log| && log[j] == PauseBegun && !Read(th, log).paused
    ensures LiftedBetween(log, j, |log|)
  {
    hide Read;
    var n := |log| - 1;
    var before, a := log[..n], log[n];
    assert log == before + [a];
    ReadLast(th, log);
    if a == PauseLifted {
      assert log[n] == PauseLifted;
    } else {
      PausedTells(th, before, j);
      LiftedLonger(before, a, j, n);
    }
  }

  lemma {:induction false} IdleRead(th: Thresholds, log: seq<Act>)
    requires Read(th, log).idle
    ensures IdleWhilePaused(log)
  {
    hide Read;
    if log != [] {
      var n := |log| - 1;
      var before, a := log[..n], log[n];
      assert log == before + [a];
      ReadLast(th, log);
      IdleRead(th, before);
      forall j, i | 0 <= j < i < |log| && log[j] == PauseBegun && (Starts(log[i]) || log[i].Switched?)
        ensures LiftedBetween(log, j, i)
      {
        if i == n { PausedTells(th, before, j); }
        LiftedLonger(before, a, j, i);
      }
    }
  }

  lemma HeldLonger(log: seq<Act>, a: Act, key: Condition, first: int, j: nat, i: nat)
    requires j <= i <= |log| && HeldFrom(log, key, first, j, i)
    ensures HeldFrom(log + [a], key, first, j, i)
    ensures i == |log| && !a.Switched? && (a.Asked? ==> a.key == key && a.holds) ==>
      HeldFrom(log + [a], key, first, j, i + 1)
  {
  }

  /** The hold remembered is a real one, reaching back unbroken to its first look. */
  lemma {:induction false} HoldTells(th: Thresholds, log: seq<Act>) returns (j: nat)
    requires Read(th, log).held.Some?
    ensures var held := Read(th, log).held.value; j < |log| && HeldFrom(log, held.key, held.first, j, |log|)
  {
    hide Read;
    if log == [] { EmptyRead(th); }
    var n := |log| - 1;
    var before, a := log[..n], log[n];
    assert log == before + [a];
    ReadLast(th, log);
    if Read(th, before).held == Read(th, log).held {
      j := HoldTells(th, before);
      HeldLonger(before, a, Read(th, log).held.value.key, Read(th, log).held.value.first, j, n);
    } else {
      j := n;
    }
  }

  lemma {:induction false} ConfirmsRead(th: Thresholds, log: seq<Act>)
    requires Read(th, log).confirms
    ensures ConfirmsHeld(th, log)
  {
    hide Read, WindowOfCondition;
    if log != [] {
      var n := |log| - 1;
      var before, a := log[..n], log[n];
      assert log == before + [a];
      ReadLast(th, log);
      ConfirmsRead(th, before);
      forall i | 0 <= i < |log| && log[i].Confirmed?
        ensures exists j, first ::
          && 0 <= j < i && HeldFrom(log, log[i].key, first, j, i)
          && Max(log[i].at - first, 0) >= WindowOfCondition(th, log[i].key)
      {
        if i == n {
          var j := HoldTells(th, before);
          HeldLonger(before, a, a.key, Read(th, before).held.value.first, j, n);
        } else {
          assert before[i] == log[i];
          var j, first :| 0 <= j < i && HeldFrom(before, log[i].key, first, j, i)
            && Max(log[i].at - first, 0) >= WindowOfCondition(th, log[i].key);
          HeldLonger(before, a, log[i].key, first, j, i);
        }
      }
    }
  }

  function LastExpiry(log: seq<Act>): Option<int> {
    if log == [] then None else ExpiryAfter(LastExpiry(log[..|log| - 1]), log[|log| - 1])
  }

  /** Every decision was right for the lease last granted or extended and not revoked by then. */
  ghost predicate DecisionsRight(th: Thresholds, log: seq<Act>) {
    forall i :: 0 <= i < |log| ==> DecidesRight(th, LastExpiry(log[..i]), log[i])
  }

  lemma {:induction false} DecidesRead(th: Thresholds, log: seq<Act>)
    ensures Read(th, log).expiry == LastExpiry(log)
    ensures Read(th, log).decides ==> DecisionsRight(th, log)
  {
    hide Read, DecidesRight;
    if log == [] {
      EmptyRead(th);
    } else {
      var init := log[..|log| - 1];
      ReadLast(th, log);
      DecidesRead(th, init);
      forall i | 0 <= i < |log| && Read(th, log).decides ensures DecidesRight(th, LastExpiry(log[..i]), log[i]) {
        if i < |init| { assert log[i] == init[i] && log[..i] == init[..i]; }
      }
    }
  }

  /** All the rules of the log. */
  ghost predicate LogRules(th: Thresholds, log: seq<Act>) {
    && HandsOver(log) && StaysHalted(log) && GrantsAreNew(log) && BeginsOnThird(log) && IdleWhilePaused(log)
    && LiftsOnFourth(log) && ConfirmsHeld(th, log) && DecisionsRight(th, log)
  }

  lemma RuledLog(th: Thresholds, log: seq<Act>)
    requires Ruled(Read(th, log))
    ensures LogRules(th, log)
  {
    hide Read, HandsOver, StaysHalted, GrantsAreNew, BeginsOnThird, IdleWhilePaused, LiftsOnFourth, ConfirmsHeld;
    hide DecisionsRight;
    DecidesRead(th, log);
    HandsOverRead(th, log);
    HaltedRead(th, log);
    BeginsRead(th, log);
    IdleRead(th, log);
    LiftsRead(th, log);
    ConfirmsRead(th, log);
  }

  /**
   Every run: rights pass from XEMM to a taker only once XEMM is gone and its orders verified clear;
   nothing starts after a halt; a lease is granted only when none is held; a pause begins on failed reads
   only, lets nothing start while it lasts and lifts on the fourth readable read in a row; a confirmed switch
   rests on a condition that held at every look of its window.
   */
  lemma EveryRunRuled(w: World, cfg: Config, ops: seq<Op>)
    ensures LogRules(cfg.thresholds, RunOps(w, cfg, ops).log)
  {
    hide RunOps, Read, LogRules, Slots, LeaseOk;
    EveryRunGood(w, cfg, ops);
    RuledLog(cfg.thresholds, RunOps(w, cfg, ops).log);
  }

  /** Stopping the writer and then the observer leaves no engine and no lease, and no rule of the log broken. */
  lemma ShutdownEmpties(w: World, cfg: Config, s: Sup)
    requires Good(cfg, s)
    ensures var r := Shutdown(w, s);
      && r.active.None? && r.observer.None? && r.lease.None? && r.published.None? && r.bot.None?
      && Ruled(Read(cfg.thresholds, r.log))
  {
    hide Read, StopActive, StopObserver;
    StopActiveKeeps(w, cfg, s);
    StopObserverKeeps(w, cfg, StopActive(w, s).s);
  }

  /** However a run is ended, it leaves no engine and no lease, and its log still keeps the rules. */
  lemma ShutdownLeavesNothing(w: World, cfg: Config, ops: seq<Op>)
    ensures var s := Shutdown(w, RunOps(w, cfg, ops));
      && s.active.None? && s.observer.None? && s.lease.None? && s.published.None? && s.bot.None?
      && LogRules(cfg.thresholds, s.log)
  {
    hide RunOps, Read, LogRules, Shutdown, Good;
    EveryRunGood(w, cfg, ops);
    var s := RunOps(w, cfg, ops);
    ShutdownEmpties(w, cfg, s);
    RuledLog(cfg.thresholds, Shutdown(w, s).log);
  }
}
