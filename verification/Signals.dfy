/**
 What a burst signal and new trades do, and the terms of a lease (LIGHTER_ASTER_BOT/src/controller/supervisor.rs),
 said of the signal, the clock and the configured seconds.
 */
module Signals {
  import opened Common
  import opened Regimes
  import opened Supervisor

  /** To act on: confirmed, of this market, on enough samples, newer than the last one used and not too old. */
  ghost predicate Actionable(cfg: Config, last: Option<int>, now: int, x: Signal) {
    && x.confirmed && x.ownMarket && x.samples >= cfg.burstMinSamples
    && (last.Some? ==> last.value < x.timestamp) && x.timestamp <= now <= x.timestamp + cfg.signalFresh
  }

  /** The expiry given at this time: the lease's seconds ahead, or its cap where that comes first. */
  ghost predicate Term(cfg: Config, now: int, cap: int, expiry: int) {
    expiry <= now + cfg.leaseSec && expiry <= cap && (expiry == now + cfg.leaseSec || expiry == cap)
  }

  /** A lease granted begins now under a new id and a new cap; one held is renewed under its own. */
  lemma GrantIs(w: World, cfg: Config, s: Sup)
    ensures var g := GrantLease(w, cfg, s); var now := w.time(s.n);
      && g.lease.Some? && Term(cfg, now, g.lease.value.maxExpiresAt, g.lease.value.expiresAt)
      && (s.lease.None? ==>
            && g.lease.value.id == g.leasesGranted == s.leasesGranted + 1
            && g.lease.value.startedAt == now && g.lease.value.maxExpiresAt == now + cfg.leaseMaxSec)
      && (s.lease.Some? ==>
            g.lease.value == s.lease.value.(expiresAt := g.lease.value.expiresAt) && g.leasesGranted == s.leasesGranted)
  {
  }

  /** The lease held is extended when it has not expired and would end more than a second later; else nothing is. */
  ghost predicate Extends(w: World, cfg: Config, s: Sup, s': Sup) {
    s.lease.Some? ==>
      forall expiry :: Term(cfg, w.time(s.n), s.lease.value.maxExpiresAt, expiry) ==>
        if w.time(s.n) < s.lease.value.expiresAt && expiry - s.lease.value.expiresAt > 1
        then s'.lease == Some(s.lease.value.(expiresAt := expiry))
          && s'.published == Some(Published(s.lease.value.id, expiry))
        else s' == s
  }

  lemma ExtendIs(w: World, cfg: Config, s: Sup)
    ensures Extends(w, cfg, s, ExtendLease(w, cfg, s))
  {
  }

  /** New trades extend the lease of a reduce taker and of nobody else. */
  lemma TradesExtend(w: World, cfg: Config, s: Sup)
    ensures var reducing := s.bot == Some(TakerBot) && s.mode == Reduce && w.newTrades(s.n);
      && (reducing ==> Extends(w, cfg, s, OnTrades(w, cfg, s))) && (!reducing ==> OnTrades(w, cfg, s) == s)
  {
    hide ExtendLease, Extends;
    ExtendIs(w, cfg, s);
  }

  /** The signal a fast tick acts on, after the engines that ended are gone. */
  ghost predicate Signalled(w: World, cfg: Config, r: Sup) {
    && !Stopping(w, r) && r.pausedSince.None?
    && w.signal(r.n).Some? && Actionable(cfg, r.lastSignalAt, w.time(r.n), w.signal(r.n).value)
  }

  /**
   A fast tick acts on an actionable signal only, and uses it once: it extends a reduce taker's lease, and takes
   XEMM off the rights, for a reduce taker on a lease unless something fails or a stop was asked for.
   */
  lemma FastTickIs(w: World, cfg: Config, s: Sup)
    ensures var r, f := CheckExits(w, s), FastTick(w, cfg, s);
      var reducing := r.bot == Some(TakerBot) && r.mode == Reduce;
      && (!Signalled(w, cfg, r) || (!reducing && r.bot != Some(XemmBot)) ==> f == r)
      && (Signalled(w, cfg, r) && (reducing || r.bot == Some(XemmBot)) ==>
            f.lastSignalAt == Some(w.signal(r.n).value.timestamp))
      && (Signalled(w, cfg, r) && reducing ==>
            Extends(w, cfg, r.(lastSignalAt := f.lastSignalAt), f))
      && (Signalled(w, cfg, r) && r.bot == Some(XemmBot) ==>
            && f.bot != Some(XemmBot)
            && (f.halted || Stopping(w, f) || (f.bot == Some(TakerBot) && f.mode == Reduce && f.lease.Some?)))
  {
    hide CheckExits, Extends, ExtendLease, ActivateReduce;
    var r := CheckExits(w, s);
    if Signalled(w, cfg, r) {
      var t := r.(lastSignalAt := Some(w.signal(r.n).value.timestamp));
      ExtendIs(w, cfg, t);
      ExtendKeeps(w, cfg, t);
      ActivateIs(w, cfg, t);
    }
  }

  lemma ExtendKeeps(w: World, cfg: Config, s: Sup)
    ensures ExtendLease(w, cfg, s).lastSignalAt == s.lastSignalAt
  {
  }

  lemma StopsKeep(w: World, s: Sup)
    ensures StopActive(w, s).s.lastSignalAt == s.lastSignalAt && StopActive(w, s).s.bot.None?
    ensures StopActive(w, s).s.halted == s.halted
  {
  }

  lemma HaltIs(w: World, s: Sup)
    requires s.bot.None?
    ensures SafeHalt(w, s).halted && SafeHalt(w, s).bot.None? && SafeHalt(w, s).lastSignalAt == s.lastSignalAt
  {
    hide StopActive;
    StopsKeep(w, Noted(s.(halted := true), Halted));
  }

  lemma PromoteKeeps(w: World, s: Sup)
    ensures var p := Promote(w, s); p.lease == s.lease && p.lastSignalAt == s.lastSignalAt && p.halted == s.halted
  {
  }

  lemma ActivateIs(w: World, cfg: Config, s: Sup)
    ensures var f := ActivateReduce(w, cfg, s);
      && f.lastSignalAt == s.lastSignalAt && f.bot != Some(XemmBot)
      && (f.halted || Stopping(w, f) || (f.bot == Some(TakerBot) && f.mode == Reduce && f.lease.Some?))
  {
    hide StopActive, SafeHalt, Promote, GrantLease, Stopping, AnyClear;
    var stop := StopActive(w, s.(since := map[]));
    StopsKeep(w, s.(since := map[]));
    var verify := Verify(w, stop.s);
    if !stop.ok { HaltIs(w, stop.s); }
    else if !verify.ok { HaltIs(w, verify.s); }
    else if !Stopping(w, verify.s) {
      GrantIs(w, cfg, verify.s);
      GrantKeeps(w, cfg, verify.s);
      PromoteKeeps(w, GrantLease(w, cfg, verify.s));
    }
  }

  lemma GrantKeeps(w: World, cfg: Config, s: Sup)
    ensures GrantLease(w, cfg, s).lastSignalAt == s.lastSignalAt
  {
  }
}
