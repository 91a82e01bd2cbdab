/**
 The life of a reduce lease across a run: under a clock that never goes back, one lease's expiry never
 moves earlier, an expired lease never revives, and a lease given up never comes back.
 */
module Leases {
  import opened Common
  import opened Regimes
  import opened Supervisor
  import opened Rights

  ghost predicate Clocked(w: World) { forall i: nat, j: nat :: i <= j ==> w.time(i) <= w.time(j) }

  /** The same lease at a later step: no earlier an expiry, and none once expired. */
  ghost predicate Later(w: World, n: nat, l: Lease, l': Lease) {
    && l'.id == l.id && l'.startedAt == l.startedAt && l'.maxExpiresAt == l.maxExpiresAt && l.expiresAt <= l'.expiresAt
    && (l.expiresAt <= w.time(n) ==> l' == l)
  }

  /** From s to s': a lease held at both is the same one, later, or one granted since under a new id. */
  ghost predicate Follows(w: World, s: Sup, s': Sup) {
    && s.n <= s'.n && s.leasesGranted <= s'.leasesGranted
    && (s'.lease.Some? ==>
          || s.leasesGranted < s'.lease.value.id <= s'.leasesGranted
          || (s.lease.Some? && Later(w, s.n, s.lease.value, s'.lease.value)))
  }

  /** The lease is kept as it is or given up. */
  ghost predicate Calm(s: Sup, s': Sup) {
    s.n <= s'.n && s'.leasesGranted == s.leasesGranted && (s'.lease == s.lease || s'.lease.None?)
  }

  lemma CalmFollows(w: World, s: Sup, s': Sup)
    requires Calm(s, s')
    ensures Follows(w, s, s')
  {
  }

  lemma FollowsOn(w: World, s: Sup, t: Sup, u: Sup)
    requires Clocked(w) && Follows(w, s, t) && Follows(w, t, u)
    ensures Follows(w, s, u)
  {
  }

  lemma StopsCalm(w: World, s: Sup)
    ensures Calm(s, StopActive(w, s).s) && Calm(s, StopObserver(w, s).s)
  {
    hide StopActive, StopObserver, Calm;
    StopActiveCalm(w, s);
    StopObserverCalm(w, s);
  }

  lemma StopActiveCalm(w: World, s: Sup)
    ensures Calm(s, StopActive(w, s).s)
  {
  }

  lemma StopObserverCalm(w: World, s: Sup)
    ensures Calm(s, StopObserver(w, s).s)
  {
  }

  lemma ReapCalm(w: World, s: Sup)
    ensures Calm(s, ReapObserver(w, s))
  {
  }

  lemma HaltCalm(w: World, s: Sup)
    ensures Calm(s, SafeHalt(w, s))
  {
    hide StopActive, StopObserver;
    var h := Noted(s.(halted := true), Halted);
    StopsCalm(w, h);
    StopsCalm(w, StopActive(w, h).s);
  }

  lemma CalmOn(s: Sup, t: Sup, u: Sup)
    requires Calm(s, t) && Calm(t, u)
    ensures Calm(s, u)
  {
  }

  lemma BereftCalm(w: World, s: Sup)
    requires s.active.Some?
    ensures Calm(s, Bereft(w, s))
  {
  }

  lemma ExitsCalm(w: World, s: Sup)
    ensures Calm(s, CheckExits(w, s))
  {
    hide SafeHalt, ReapObserver, Bereft, Calm;
    ReapCalm(w, s);
    if s.active.Some? && w.activeDone(s.n) {
      var r := Bereft(w, s);
      BereftCalm(w, s);
      HaltCalm(w, r);
      CalmOn(s, r, SafeHalt(w, r));
      var q := r.(activeExits := ExitsAfter(w, r, s.active.value.startedAt));
      CounterCalm(r, q);
      HaltCalm(w, q);
      ReapCalm(w, q);
      CalmOn(s, r, q);
      CalmOn(s, q, SafeHalt(w, q));
      CalmOn(s, q, ReapObserver(w, q));
    }
  }

  lemma CounterCalm(s: Sup, r: Sup)
    requires s.n <= r.n && r == s.(n := r.n, activeExits := r.activeExits, stableTicks := r.stableTicks,
                                   pausedSince := r.pausedSince, since := r.since, log := r.log)
    ensures Calm(s, r)
  {
  }

  lemma PromoteCalm(w: World, s: Sup)
    ensures Calm(s, Promote(w, s))
  {
    hide ReapObserver;
    ReapCalm(w, s);
  }

  lemma ActivateFollows(w: World, cfg: Config, s: Sup)
    requires Clocked(w) && Good(cfg, s) && !s.halted && s.bot == Some(XemmBot)
    ensures Follows(w, s, ActivateReduce(w, cfg, s))
  {
    hide StopActive, SafeHalt, Promote, AnyClear, GrantLease, Good;
    var stop := StopActive(w, s.(since := map[])).s;
    StopsCalm(w, s.(since := map[]));
    HaltCalm(w, stop);
    var v := Verify(w, stop).s;
    HaltCalm(w, v);
    XemmHoldsNone(cfg, s);
    Granting(w, cfg, v);
    PromoteCalm(w, GrantLease(w, cfg, v));
  }

  lemma XemmHoldsNone(cfg: Config, s: Sup)
    requires Good(cfg, s) && s.bot != Some(TakerBot)
    ensures s.lease.None?
  {
  }

  lemma Granting(w: World, cfg: Config, s: Sup)
    requires s.lease.None?
    ensures Follows(w, s, GrantLease(w, cfg, s)) && GrantLease(w, cfg, s).n == s.n
    ensures GrantLease(w, cfg, s).lease.Some? && GrantLease(w, cfg, s).lease.value.id == s.leasesGranted + 1
    ensures GrantLease(w, cfg, s).leasesGranted == s.leasesGranted + 1
  {
  }

  lemma ExtendFollows(w: World, cfg: Config, s: Sup)
    ensures Follows(w, s, ExtendLease(w, cfg, s)) && ExtendLease(w, cfg, s).n == s.n
  {
    if s.lease.None? { Granting(w, cfg, s); }
  }

  lemma FastFollows(w: World, cfg: Config, s: Sup)
    requires Clocked(w) && Good(cfg, s)
    ensures Follows(w, s, FastTick(w, cfg, s))
  {
    hide CheckExits, ActivateReduce, ExtendLease, FreshSignal, Good, Clocked;
    var r := CheckExits(w, s);
    ExitsCalm(w, s);
    CheckExitsKeeps(w, cfg, s);
    CalmFollows(w, s, r);
    var signal := FreshSignal(w, cfg, r);
    if !Stopping(w, r) && r.pausedSince.None? && signal.Some? {
      var q := r.(lastSignalAt := Some(signal.value.timestamp));
      CountersFree(cfg, r, q);
      CalmFollows(w, r, q);
      FollowsOn(w, s, r, q);
      if r.bot == Some(TakerBot) && r.mode == Reduce {
        ExtendFollows(w, cfg, q);
        FollowsOn(w, s, q, ExtendLease(w, cfg, q));
      } else if r.bot == Some(XemmBot) {
        ActivateFollows(w, cfg, q);
        FollowsOn(w, s, q, ActivateReduce(w, cfg, q));
      }
    }
  }

  lemma EnsureBotCalm(w: World, s: Sup, target: Bot, mode: Mode)
    ensures Calm(s, EnsureBot(w, s, target, mode))
  {
    hide CheckExits, StopActive, StopObserver, SafeHalt, AnyClear, Start, Calm;
    var g := Glanced(w, s);
    CounterCalm(s, g);
    ExitsCalm(w, g);
    var r := CheckExits(w, g);
    CalmOn(s, g, r);
    StopsCalm(w, r);
    CounterCalm(r, r);
    CounterCalm(s, s);
    var o := if target == TakerBot then StopObserver(w, r) else Ended(r, true);
    CalmOn(s, r, o.s);
    HaltCalm(w, o.s);
    CalmOn(s, o.s, SafeHalt(w, o.s));
    StopsCalm(w, o.s);
    var a := StopActive(w, o.s);
    CalmOn(s, o.s, a.s);
    HaltCalm(w, a.s);
    CalmOn(s, a.s, SafeHalt(w, a.s));
    CounterCalm(a.s, Verify(w, a.s).s);
    CounterCalm(a.s, a.s);
    var v := if r.bot == Some(XemmBot) && target == TakerBot then Verify(w, a.s) else a;
    CalmOn(s, a.s, v.s);
    HaltCalm(w, v.s);
    CalmOn(s, v.s, SafeHalt(w, v.s));
    StartCalm(w, v.s, target, mode);
    CalmOn(s, v.s, Start(w, v.s, target, mode));
  }

  lemma StartCalm(w: World, s: Sup, target: Bot, mode: Mode)
    ensures Calm(s, Start(w, s, target, mode))
  {
  }

  lemma EnsureObserverCalm(w: World, cfg: Config, s: Sup, target: Bot)
    ensures Calm(s, EnsureObserver(w, cfg, s, target))
  {
    hide StopObserver, SafeHalt, ReapObserver;
    StopsCalm(w, s);
    ReapCalm(w, s);
    HaltCalm(w, StopObserver(w, s).s);
  }

  lemma CarryOutCalm(w: World, cfg: Config, s: Sup, d: Decision, xemm: Option<Status>)
    ensures Calm(s, CarryOut(w, cfg, s, d, xemm))
  {
    hide SafeHalt, EnsureBot, EnsureObserver, Calm;
    HaltCalm(w, s);
    if d.target != ToHalt {
      var target := d.target.bot;
      var r := if target == XemmBot && xemm.None? then Wait(s) else s;
      CounterCalm(s, r);
      HaltCalm(w, r);
      CalmOn(s, r, SafeHalt(w, r));
      var mode := if d.mode.Some? then d.mode.value else Normal;
      EnsureBotCalm(w, r, target, mode);
      var b := EnsureBot(w, r, target, mode);
      CalmOn(s, r, b);
      EnsureObserverCalm(w, cfg, b, target);
      CalmOn(s, b, EnsureObserver(w, cfg, b, target));
    }
  }

  lemma ResolveCalm(w: World, cfg: Config, r: Sup, taker: Option<Status>, xemm: Option<Status>)
    ensures Calm(r, Resolve(w, cfg, r, taker, xemm))
  {
    hide SafeHalt, CarryOut, Decide, Question, Calm;
    HaltCalm(w, r);
    var c := CountStable(r);
    CounterCalm(r, c);
    var d := DecideNow(w, cfg, c, taker, xemm);
    CounterCalm(c, d.0);
    CalmOn(r, c, d.0);
    CarryOutCalm(w, cfg, d.0, d.1, xemm);
    CalmOn(r, d.0, CarryOut(w, cfg, d.0, d.1, xemm));
  }

  lemma JudgeFollows(w: World, cfg: Config, s: Sup, taker: Option<Status>, xemm: Option<Status>)
    requires Clocked(w)
    ensures Follows(w, s, Judge(w, cfg, s, taker, xemm))
  {
    hide ExtendLease, Resolve, Clocked, Follows;
    var r0 := Noted(s.(statusFailures := 0), StatusRead(true));
    CalmFollows(w, s, r0);
    ExtendFollows(w, cfg, r0);
    var r := if r0.bot == Some(TakerBot) && r0.mode == Reduce && w.newTrades(r0.n) then ExtendLease(w, cfg, r0) else r0;
    if r != r0 { FollowsOn(w, s, r0, r); }
    ResolveCalm(w, cfg, r, taker, xemm);
    CalmFollows(w, r, Resolve(w, cfg, r, taker, xemm));
    FollowsOn(w, s, r, Resolve(w, cfg, r, taker, xemm));
  }

  lemma TickFollows(w: World, cfg: Config, s: Sup)
    requires Clocked(w)
    ensures Follows(w, s, Tick(w, cfg, s))
  {
    hide CheckExits, Judge, Clocked;
    ExitsCalm(w, s);
    var r := CheckExits(w, s);
    CalmFollows(w, s, r);
    if !Stopping(w, r) {
      var p := PollStatuses(w, r);
      CalmFollows(w, r, p.s);
      FollowsOn(w, s, r, p.s);
      JudgeFollows(w, cfg, p.s, p.taker, p.xemm);
      CalmFollows(w, p.s, StatusFailed(w, p.s));
      FollowsOn(w, s, p.s, Tick(w, cfg, s));
    }
  }

  lemma StepFollows(w: World, cfg: Config, s: Sup, op: Op)
    requires Clocked(w) && Good(cfg, s)
    ensures Follows(w, s, StepOp(w, cfg, s, op))
  {
    hide FastTick, Tick, Good, Clocked;
    FastFollows(w, cfg, s);
    TickFollows(w, cfg, s);
    var r := if op == Fast then FastTick(w, cfg, s) else Tick(w, cfg, s);
    CalmFollows(w, s, Wait(s));
    CalmFollows(w, r, Wait(r));
    FollowsOn(w, s, r, Wait(r));
  }

  /**
   Any two points of a run: a lease held at both under one id only ever moved its expiry later, not past
   its cap, and not at all once it had expired; any other lease held at the second is newer than every
   lease granted by the first.
   */
  lemma {:induction false} LeaseLife(w: World, cfg: Config, ops: seq<Op>, k: nat)
    requires Clocked(w) && k <= |ops|
    ensures Follows(w, RunOps(w, cfg, ops[..k]), RunOps(w, cfg, ops))
  {
    hide StepOp, Good, Clocked, Boot;
    if k == |ops| {
      assert ops[..k] == ops;
      CalmFollows(w, RunOps(w, cfg, ops), RunOps(w, cfg, ops));
    } else {
      var most := ops[..|ops| - 1];
      assert most[..k] == ops[..k];
      LeaseLife(w, cfg, most, k);
      EveryRunGood(w, cfg, most);
      StepFollows(w, cfg, RunOps(w, cfg, most), ops[|ops| - 1]);
      FollowsOn(w, RunOps(w, cfg, ops[..k]), RunOps(w, cfg, most), RunOps(w, cfg, ops));
    }
  }
}
