/**
 Which engine holds execution rights (LIGHTER_ASTER_BOT/src/controller/regime.rs): the decision, its
 confirm windows and the margin state, over already parsed status reports.
 */
module Regimes {
  import opened Common

  datatype Bot = TakerBot | XemmBot

  datatype Mode = Normal | Reduce

  datatype Effect = Increases | Reduces | OtherEffect

  datatype Limit = NotLimited | HeadroomLimit | MarginLimit | OtherLimit

  datatype Opportunity = Opportunity(edge: Option<real>, limit: Limit, effect: Effect)

  /** A status report; an empty one is present but says nothing. */
  datatype Status = Status(
    empty: bool, reduceOnly: bool, absPosition: Option<real>, desired: Option<real>, quoteDesired: Option<real>,
    required: Option<real>, marginBuffer: Option<real>, headroom: Option<real>,
    asterAvailable: Option<real>, lighterAvailable: Option<real>, opportunities: seq<Opportunity>)

  datatype Thresholds = Thresholds(
    blockedConfirm: int, resumeConfirm: int, switchHeadroom: real, switchMargin: real,
    resumeHeadroom: real, resumeMargin: real, nearFlat: real)

  datatype Lease = Lease(id: nat, startedAt: int, expiresAt: int, maxExpiresAt: int)

  datatype Condition = MarginLimited | ReadyForTaker

  datatype Target = ToHalt | ToBot(bot: Bot)

  datatype Reason =
    | ReduceOnlyDisabled | NoStatus | NearFlatResume | LeaseExpired | LeaseActive | TakerMarginLimited | TakerActive
    | ResumeTaker | XemmActive | BootstrapTaker | BootstrapXemm

  datatype Decision = Decision(target: Target, reason: Reason, mode: Option<Mode>)

  const DEFAULT_CLIP := 13.0

  function Truthy(s: Option<Status>): Option<Status> { if s.Some? && !s.value.empty then s else None }

  function OrZero(x: Option<real>): real { if x.Some? then x.value else 0.0 }

  predicate NonZero(x: Option<real>) { x.Some? && x.value != 0.0 }

  /** The clip notional a status reports, else the default; a zero falls through. */
  function Clip(s: Option<Status>): real {
    var t := Truthy(s);
    if t.None? then DEFAULT_CLIP
    else if NonZero(t.value.desired) then t.value.desired.value
    else if NonZero(t.value.quoteDesired) then t.value.quoteDesired.value
    else DEFAULT_CLIP
  }

  /** The notional of `n` clips. */
  function Clips(s: Option<Status>, n: real): real { Clip(s) * n }

  predicate NearFlat(th: Thresholds, s: Status) {
    s.absPosition.Some? && s.absPosition.value <= if th.nearFlat <= 0.0 then Clip(Some(s)) else th.nearFlat
  }

  predicate Binding(s: Status, o: Opportunity) {
    o.edge.Some? && o.edge.value >= OrZero(s.required) && (o.limit == HeadroomLimit || o.limit == MarginLimit)
  }

  function MinAvailable(s: Status): Option<real> {
    if s.asterAvailable.Some? && s.lighterAvailable.Some?
    then Some(RMin(s.asterAvailable.value, s.lighterAvailable.value)) else None
  }

  /** Margin-limited at the given clip thresholds. */
  predicate Limited(s: Option<Status>, headroomClips: real, marginClips: real) {
    var t := Truthy(s);
    t.Some? && (
      || (exists i :: 0 <= i < |t.value.opportunities| && Binding(t.value, t.value.opportunities[i]))
      || (t.value.headroom.Some? && t.value.headroom.value < Clips(t, headroomClips))
      || (&& MinAvailable(t.value).Some?
          && MinAvailable(t.value).value - OrZero(t.value.marginBuffer) < Clips(t, marginClips)))
  }

  predicate Reducing(o: Opportunity) { o.limit == NotLimited && o.effect == Reduces }

  predicate ExecutableReduce(s: Option<Status>) {
    var t := Truthy(s);
    t.Some? && (exists i :: 0 <= i < |t.value.opportunities| && Reducing(t.value.opportunities[i]))
  }

  predicate TakerBlocked(th: Thresholds, taker: Option<Status>) {
    Limited(taker, th.switchHeadroom, th.switchMargin) && !ExecutableReduce(taker)
  }

  predicate Ready(th: Thresholds, position: Status, taker: Option<Status>) {
    taker.Some? && (
      NearFlat(th, position) || ExecutableReduce(taker) || !Limited(taker, th.resumeHeadroom, th.resumeMargin))
  }

  predicate LeaseActiveAt(lease: Option<Lease>, now: int) { lease.Some? && now < lease.value.expiresAt }

  /** The confirm window: `since` after this look, and whether the condition has held long enough. */
  function Sustained(since: map<Condition, int>, key: Condition, holds: bool, window: int, now: int)
    : (map<Condition, int>, bool)
  {
    if !holds then (since - {key}, false)
    else
      var first := if key in since then since[key] else now;
      (since[key := first], Max(now - first, 0) >= window)
  }

  datatype Regime = Regime(active: Option<Bot>, mode: Mode, lease: Option<Lease>, since: map<Condition, int>)

  /** What a decision in this regime asks of its confirm window. */
  function Question(th: Thresholds, r: Regime, taker: Option<Status>, xemm: Option<Status>): Option<(Condition, bool)> {
    if Truthy(xemm).Some? && !xemm.value.reduceOnly then None
    else if Truthy(taker).None? && Truthy(xemm).None? then None
    else
      var status := if Truthy(taker).Some? then taker.value else xemm.value;
      match r.active
      case Some(TakerBot) => if r.mode == Reduce then None else Some((MarginLimited, TakerBlocked(th, taker)))
      case Some(XemmBot) => Some((ReadyForTaker, Ready(th, status, taker)))
      case None => None
  }

  function WindowOfCondition(th: Thresholds, key: Condition): int {
    if key == MarginLimited then th.blockedConfirm else th.resumeConfirm
  }

  /** The decision and the confirm windows after it, at `mono` on the monotonic clock and `utc` on the wall's. */
  function Decide(th: Thresholds, r: Regime, taker: Option<Status>, xemm: Option<Status>, mono: int, utc: int)
    : (map<Condition, int>, Decision)
  {
    if Truthy(xemm).Some? && !xemm.value.reduceOnly then (r.since, Decision(ToHalt, ReduceOnlyDisabled, None))
    else if Truthy(taker).None? && Truthy(xemm).None? then (r.since, Decision(ToHalt, NoStatus, None))
    else
      var status := if Truthy(taker).Some? then taker.value else xemm.value;
      match r.active
      case Some(TakerBot) =>
        if r.mode == Reduce then
          (r.since,
           if NearFlat(th, status) then Decision(ToBot(TakerBot), NearFlatResume, Some(Normal))
           else if !LeaseActiveAt(r.lease, utc) then Decision(ToBot(XemmBot), LeaseExpired, None)
           else Decision(ToBot(TakerBot), LeaseActive, Some(Reduce)))
        else
          var w := Sustained(r.since, MarginLimited, TakerBlocked(th, taker), th.blockedConfirm, mono);
          (w.0, if w.1 then Decision(ToBot(XemmBot), TakerMarginLimited, None)
                else Decision(ToBot(TakerBot), TakerActive, Some(Normal)))
      case Some(XemmBot) =>
        var w := Sustained(r.since, ReadyForTaker, Ready(th, status, taker), th.resumeConfirm, mono);
        (w.0, if w.1 then Decision(ToBot(TakerBot), ResumeTaker, None) else Decision(ToBot(XemmBot), XemmActive, None))
      case None =>
        (r.since, if Ready(th, status, taker) then Decision(ToBot(TakerBot), BootstrapTaker, Some(Normal))
                  else Decision(ToBot(XemmBot), BootstrapXemm, None))
  }

  /**
   With resume thresholds no lower than the switch thresholds, a status limited at the switch clips is
   limited at the resume clips, so long as its clip is not negative.
   */
  lemma LimitedAtResume(s: Option<Status>, h: real, m: real, h': real, m': real)
    requires h <= h' && m <= m' && Clip(s) >= 0.0 && Limited(s, h, m)
    ensures Limited(s, h', m')
  {
    ClipsGrow(s, h, h');
    ClipsGrow(s, m, m');
    hide Clips;
    assert Truthy(Truthy(s)) == Truthy(s) == s || Truthy(s) == None;
  }

  lemma ClipsGrow(s: Option<Status>, x: real, y: real)
    requires x <= y
    ensures Clip(s) >= 0.0 ==> Clips(s, x) <= Clips(s, y)
    ensures Clip(s) < 0.0 && x < y ==> Clips(s, y) < Clips(s, x)
  {
    if Clip(s) >= 0.0 {
      assert Clip(s) * (y - x) >= 0.0;
    } else if x < y {
      assert Clip(s) * (y - x) < 0.0;
    }
  }

  /** Reports a positive clip, as every configured taker does. */
  predicate Reported(s: Status) { s.desired.Some? && s.desired.value > 0.0 }

  /** So one look cannot both block the taker and find its margin ready: a blocked taker resumes near flat only. */
  lemma BlockedNotReady(th: Thresholds, position: Status, taker: Status)
    requires th.switchHeadroom <= th.resumeHeadroom && th.switchMargin <= th.resumeMargin
    requires Reported(taker) && TakerBlocked(th, Some(taker))
    ensures Ready(th, position, Some(taker)) <==> NearFlat(th, position)
  {
    hide Limited;
    LimitedAtResume(Some(taker), th.switchHeadroom, th.switchMargin, th.resumeHeadroom, th.resumeMargin);
  }

  /** The status with another headroom and other available margins. */
  function WithMargins(s: Status, headroom: Option<real>, aster: Option<real>, lighter: Option<real>): Status {
    s.(headroom := headroom, asterAvailable := aster, lighterAvailable := lighter)
  }

  predicate LimitedWith(s: Status, headroom: Option<real>, aster: Option<real>, lighter: Option<real>,
          headroomClips: real, marginClips: real)
  {
    Limited(Some(WithMargins(s, headroom, aster, lighter)), headroomClips, marginClips)
  }

  predicate Bound(s: Status) { exists i :: 0 <= i < |s.opportunities| && Binding(s, s.opportunities[i]) }

  /** The three ways to be limited, of which the first is untouched by the margins and the clips. */
  lemma LimitedWays(s: Status, headroom: Option<real>, aster: Option<real>, lighter: Option<real>, headroomClips: real,
          marginClips: real)
    requires !s.empty
    ensures LimitedWith(s, headroom, aster, lighter, headroomClips, marginClips) <==> (
      || Bound(s)
      || (headroom.Some? && headroom.value < Clips(Some(s), headroomClips))
      || (aster.Some? && lighter.Some?
          && RMin(aster.value, lighter.value) - OrZero(s.marginBuffer) < Clips(Some(s), marginClips)))
  {
    var t := WithMargins(s, headroom, aster, lighter);
    assert forall o :: Binding(t, o) == Binding(s, o);
  }

  /** A negative clip turns the hysteresis round: some margins are then limited at the switch clips only. */
  lemma NegativeClipFlips(s: Status, h: real, m: real, h': real, m': real)
    returns (headroom: Option<real>, available: Option<real>)
    requires !s.empty && !Bound(s) && Clip(Some(s)) < 0.0
    requires h <= h' && m <= m' && (h < h' || m < m')
    ensures LimitedWith(s, headroom, available, available, h, m)
    ensures !LimitedWith(s, headroom, available, available, h', m')
  {
    headroom, available := None, None;
    if h < h' {
      headroom := Some(Clips(Some(s), h'));
    } else {
      available := Some(Clips(Some(s), m') + OrZero(s.marginBuffer));
    }
    ClipsGrow(Some(s), h, h');
    ClipsGrow(Some(s), m, m');
    LimitedWays(s, headroom, available, available, h, m);
    LimitedWays(s, headroom, available, available, h', m');
  }

  /**
   What a status says beside its margins decides the hysteresis: it holds whatever they are exactly when
   an opportunity already binds, the clip is not negative, or the thresholds are equal.
   */
  lemma HysteresisExactly(s: Status, h: real, m: real, h': real, m': real)
    requires !s.empty && h <= h' && m <= m'
    ensures (forall x, a, l :: LimitedWith(s, x, a, l, h, m) ==> LimitedWith(s, x, a, l, h', m'))
      <==> Bound(s) || Clip(Some(s)) >= 0.0 || (h == h' && m == m')
  {
    hide Clips, LimitedWith, Clip;
    if Bound(s) || Clip(Some(s)) >= 0.0 || (h == h' && m == m') {
      forall x, a, l | LimitedWith(s, x, a, l, h, m) ensures LimitedWith(s, x, a, l, h', m') {
        ClipsGrow(Some(s), h, h');
        ClipsGrow(Some(s), m, m');
        LimitedWays(s, x, a, l, h, m);
        LimitedWays(s, x, a, l, h', m');
      }
    } else {
      var x, a := NegativeClipFlips(s, h, m, h', m');
    }
  }
}
