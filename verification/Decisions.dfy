/**
 What a regime decision must be (LIGHTER_ASTER_BOT/src/controller/regime.rs), said of the reported positions,
 margins and opportunities, the lease's expiry and the clocks.
 */
module Decisions {
  import opened Common
  import opened Regimes

  /** The notional of one clip: the reported one, else the legacy field's, else 13 dollars. */
  ghost predicate ClipIs(s: Status, clip: real) {
    if s.desired.Some? && s.desired.value != 0.0 then clip == s.desired.value
    else if s.quoteDesired.Some? && s.quoteDesired.value != 0.0 then clip == s.quoteDesired.value
    else clip == 13.0
  }

  /** The reported position is within the near-flat bound: the configured one, or one clip. */
  ghost predicate Flat(th: Thresholds, s: Status) {
    && s.absPosition.Some?
    && (th.nearFlat > 0.0 ==> s.absPosition.value <= th.nearFlat)
    && (th.nearFlat <= 0.0 ==> forall clip :: ClipIs(s, clip) ==> s.absPosition.value <= clip)
  }

  /** A profitable opportunity that headroom or margin holds back. */
  ghost predicate HeldBack(s: Status, o: Opportunity) {
    && o.edge.Some? && (s.required.Some? ==> o.edge.value >= s.required.value)
       && (s.required.None? ==> o.edge.value >= 0.0)
    && (o.limit == HeadroomLimit || o.limit == MarginLimit)
  }

  /** Some venue's margin, less the buffer, is below a number of clips; both must be reported. */
  ghost predicate MarginBelow(s: Status, clips: real) {
    && s.asterAvailable.Some? && s.lighterAvailable.Some?
    && forall clip :: ClipIs(s, clip) ==>
         var floor := clip * clips + if s.marginBuffer.Some? then s.marginBuffer.value else 0.0;
         s.asterAvailable.value < floor || s.lighterAvailable.value < floor
  }

  ghost predicate HeadroomBelow(s: Status, clips: real) {
    s.headroom.Some? && forall clip :: ClipIs(s, clip) ==> s.headroom.value < clip * clips
  }

  /** The status says the taker is short of margin, by these numbers of clips. */
  ghost predicate Short(s: Status, headroomClips: real, marginClips: real) {
    || (exists i :: 0 <= i < |s.opportunities| && HeldBack(s, s.opportunities[i]))
    || HeadroomBelow(s, headroomClips) || MarginBelow(s, marginClips)
  }

  /** An unhindered opportunity that reduces the position. */
  ghost predicate CanReduce(s: Status) {
    exists i :: 0 <= i < |s.opportunities| && s.opportunities[i].limit == NotLimited
      && s.opportunities[i].effect == Reduces
  }

  ghost predicate Says(s: Option<Status>) { s.Some? && !s.value.empty }

  /** The taker cannot act: short of margin at the switch clips, and nothing to reduce. */
  ghost predicate Blocked(th: Thresholds, taker: Option<Status>) {
    Says(taker) && Short(taker.value, th.switchHeadroom, th.switchMargin) && !CanReduce(taker.value)
  }

  /** The taker may resume: it has reported, and is near flat, can reduce, or has margin at the resume clips. */
  ghost predicate Able(th: Thresholds, position: Status, taker: Option<Status>) {
    taker.Some? && (
      || Flat(th, position)
      || (Says(taker) && CanReduce(taker.value))
      || !(Says(taker) && Short(taker.value, th.resumeHeadroom, th.resumeMargin)))
  }

  /** The condition has held since the first look of its window, for as long as it must. */
  ghost predicate Run(since: map<Condition, int>, key: Condition, holds: bool, window: int, mono: int) {
    holds && (window <= 0 || (key in since && mono - since[key] >= window))
  }

  /** Halt: XEMM not reduce-only, or nobody has a status to go by. */
  ghost predicate MustHalt(taker: Option<Status>, xemm: Option<Status>) {
    (Says(xemm) && !xemm.value.reduceOnly) || (!Says(taker) && !Says(xemm))
  }

  /** The decision is the right one for what was read. */
  ghost predicate Right(
    th: Thresholds, r: Regime, taker: Option<Status>, xemm: Option<Status>, mono: int, utc: int, d: Decision)
  {
    && (d.target == ToHalt <==> MustHalt(taker, xemm))
    && (d.target != ToHalt ==>
          var s := if Says(taker) then taker.value else xemm.value;
          match r.active
          case Some(TakerBot) =>
            if r.mode == Reduce then
              && (d.target == ToBot(TakerBot) && d.mode == Some(Reduce)
                  <==> !Flat(th, s) && r.lease.Some? && utc < r.lease.value.expiresAt)
              && (d.target == ToBot(XemmBot)
                  <==> !Flat(th, s) && (r.lease.None? || r.lease.value.expiresAt <= utc))
              && (d.target == ToBot(TakerBot) && d.mode == Some(Normal) <==> Flat(th, s))
            else
              && (d.target == ToBot(XemmBot)
                  <==> Run(r.since, MarginLimited, Blocked(th, taker), th.blockedConfirm, mono))
              && (d.target == ToBot(TakerBot) ==> d.mode == Some(Normal))
          case Some(XemmBot) =>
            d.target == ToBot(TakerBot) <==> Run(r.since, ReadyForTaker, Able(th, s, taker), th.resumeConfirm, mono)
          case None =>
            && (d.target == ToBot(TakerBot) <==> Able(th, s, taker))
            && (d.target == ToBot(TakerBot) ==> d.mode == Some(Normal)))
  }

  // ---------------------------------------------------------------- the model's own tests

  lemma ClipHere(s: Status, clip: real)
    requires !s.empty
    ensures ClipIs(s, clip) <==> clip == Clip(Some(s))
  {
  }

  lemma FlatIs(th: Thresholds, s: Status)
    requires !s.empty
    ensures NearFlat(th, s) <==> Flat(th, s)
  {
    hide Clip;
    forall clip ensures ClipIs(s, clip) <==> clip == Clip(Some(s)) { ClipHere(s, clip); }
    assert ClipIs(s, Clip(Some(s)));
  }

  lemma ShortIs(s: Status, headroomClips: real, marginClips: real)
    requires !s.empty
    ensures Limited(Some(s), headroomClips, marginClips) <==> Short(s, headroomClips, marginClips)
  {
    hide Clip;
    forall clip ensures ClipIs(s, clip) <==> clip == Clip(Some(s)) { ClipHere(s, clip); }
    assert ClipIs(s, Clip(Some(s)));
    assert forall o :: Binding(s, o) <==> HeldBack(s, o);
    HeadroomIs(s, headroomClips);
    MarginIs(s, marginClips);
    hide HeadroomBelow, MarginBelow, Clips;
    assert Truthy(Some(s)) == Some(s);
  }

  lemma HeadroomIs(s: Status, clips: real)
    requires !s.empty
    ensures HeadroomBelow(s, clips) <==> s.headroom.Some? && s.headroom.value < Clips(Some(s), clips)
  {
    hide Clip;
    forall clip ensures ClipIs(s, clip) <==> clip == Clip(Some(s)) { ClipHere(s, clip); }
    assert ClipIs(s, Clip(Some(s)));
  }

  lemma MarginIs(s: Status, clips: real)
    requires !s.empty
    ensures MarginBelow(s, clips) <==>
      MinAvailable(s).Some? && MinAvailable(s).value - OrZero(s.marginBuffer) < Clips(Some(s), clips)
  {
    hide Clip;
    forall clip ensures ClipIs(s, clip) <==> clip == Clip(Some(s)) { ClipHere(s, clip); }
    assert ClipIs(s, Clip(Some(s)));
  }

  lemma BlockedIs(th: Thresholds, taker: Option<Status>)
    ensures TakerBlocked(th, taker) <==> Blocked(th, taker)
  {
    hide Short;
    if Says(taker) { ShortIs(taker.value, th.switchHeadroom, th.switchMargin); }
  }

  lemma AbleIs(th: Thresholds, position: Status, taker: Option<Status>)
    requires !position.empty
    ensures Ready(th, position, taker) <==> Able(th, position, taker)
  {
    hide Short, NearFlat, Flat;
    FlatIs(th, position);
    if Says(taker) { ShortIs(taker.value, th.resumeHeadroom, th.resumeMargin); }
  }

  lemma RunIs(since: map<Condition, int>, key: Condition, holds: bool, window: int, mono: int)
    ensures Sustained(since, key, holds, window, mono).1 <==> Run(since, key, holds, window, mono)
  {
  }

  /** Every decision is the right one. */
  lemma DecideIsRight(th: Thresholds, r: Regime, taker: Option<Status>, xemm: Option<Status>, mono: int, utc: int)
    ensures Right(th, r, taker, xemm, mono, utc, Decide(th, r, taker, xemm, mono, utc).1)
  {
    hide TakerBlocked, Blocked, Ready, Able, NearFlat, Flat, Sustained, Run;
    BlockedIs(th, taker);
    RunIs(r.since, MarginLimited, Blocked(th, taker), th.blockedConfirm, mono);
    if Says(taker) || Says(xemm) {
      var s := if Says(taker) then taker.value else xemm.value;
      FlatIs(th, s);
      AbleIs(th, s, taker);
      RunIs(r.since, ReadyForTaker, Able(th, s, taker), th.resumeConfirm, mono);
    }
  }
}
