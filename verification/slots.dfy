/**
 Slot arithmetic of the scheduler: which instant a schedule fires at next. Instants are integers in
 nanoseconds; the interval arithmetic is the program's own 64-bit arithmetic, wrap-around included.
 */
module Slots {
  import opened Basics

  const SECOND: int := 1_000_000_000
  const MAX64: int := 0x7FFF_FFFF_FFFF_FFFF
  const TWO64: int := 0x1_0000_0000_0000_0000
  const MAX_EVERY_SECONDS: int := 9_223_372_036

  // An `int64` column.
  type Int64 = x: int | -MAX64 - 1 <= x <= MAX64

  // The text of a timestamp column once trimmed and parsed.
  datatype Stamp = Blank | Malformed | Instant(at: int)

  // The cron library: a function to the next fire time, which is none or strictly later.
  type CronNext = f: int -> Option<int> | forall t :: f(t).Some? ==> t < f(t).value witness (t => None)
  datatype CronText = NoCron | BadCron | Cron(next: CronNext)

  datatype ZoneText = NoZone | BadZone | Zone

  datatype Kind = At | Every | CronKind | OtherKind

  datatype Spec = Spec(kind: Kind, at: Stamp, everySeconds: Int64, cron: CronText, zone: ZoneText)

  datatype SpecError =
    | IntervalNotAccepted | CronNotAccepted | ZoneNotAccepted | AnchorNotAccepted
    | TimestampRequired | TimestampMalformed
    | IntervalRequired | CronRequired | CronMalformed | ZoneUnknown | KindUnsupported
    | DivideByZero  // the run-time panic of an interval that wraps around to zero

  function ParseStamp(at: Stamp): Result<int, SpecError> {
    match at
    case Blank => Err(TimestampRequired)
    case Malformed => Err(TimestampMalformed)
    case Instant(t) => Ok(t)
  }

  function ValidateSpec(spec: Spec): Option<SpecError> {
    match spec.kind
    case At =>
      if spec.everySeconds != 0 then Some(IntervalNotAccepted)
      else if !spec.cron.NoCron? then Some(CronNotAccepted)
      else if spec.zone != NoZone then Some(ZoneNotAccepted)
      else (match ParseStamp(spec.at) case Err(e) => Some(e) case Ok(_) => None)
    case Every =>
      if spec.everySeconds <= 0 then Some(IntervalRequired)
      else if !spec.cron.NoCron? then Some(CronNotAccepted)
      else if spec.zone != NoZone then Some(ZoneNotAccepted)
      else (match ParseStamp(spec.at) case Err(e) => Some(e) case Ok(_) => None)
    case CronKind =>
      if spec.cron.NoCron? then Some(CronRequired)
      else if spec.at != Blank then Some(AnchorNotAccepted)
      else if spec.everySeconds != 0 then Some(IntervalNotAccepted)
      else if spec.zone == BadZone then Some(ZoneUnknown)
      else if spec.cron.BadCron? then Some(CronMalformed)
      else None
    case OtherKind => Some(KindUnsupported)
  }

  // Two's complement wrap-around of a product.
  function Wrap64(x: int): int {
    (x + MAX64 + 1) % TWO64 - MAX64 - 1
  }

  // `Time.Sub` saturates.
  function Saturate64(x: int): (r: int)
    ensures -MAX64 - 1 <= r <= MAX64 && (-MAX64 - 1 <= x <= MAX64 ==> r == x)
    ensures (x > MAX64 ==> r == MAX64) && (x < -MAX64 - 1 ==> r == -MAX64 - 1)
  {
    if x > MAX64 then MAX64 else if x < -MAX64 - 1 then -MAX64 - 1 else x
  }

  // Division truncated towards zero, of a non-negative dividend.
  function TruncDiv(x: nat, y: int): int
    requires y != 0
  {
    if y > 0 then x / y else -(x / -y)
  }

  // The `every` case: none stands for a division by zero.
  function EveryNext(anchor: int, everySeconds: int, now: int): Option<int> {
    if anchor >= now then
      Some(anchor)
    else
      var interval := Wrap64(everySeconds * SECOND);
      if interval == 0 then None else
      var steps := TruncDiv(Saturate64(now - anchor), interval);
      var next := anchor + Wrap64(steps * interval);
      Some(if next < now then next + interval else next)
  }

  function ComputeNextRun(spec: Spec, now: int): Result<Option<int>, SpecError> {
    match ValidateSpec(spec)
    case Some(e) => Err(e)
    case None =>
      match spec.kind
      case At => Ok(if spec.at.at < now then None else Some(spec.at.at))
      case Every =>
        (match EveryNext(spec.at.at, spec.everySeconds, now)
         case None => Err(DivideByZero)
         case Some(next) => Ok(Some(next)))
      case CronKind => Ok(spec.cron.next(now - 1))
  }

  // A spec is accepted exactly when it has what its kind needs and nothing of the other kinds.
  lemma SpecValidIff(spec: Spec)
    ensures ValidateSpec(spec).None? <==>
      || (spec.kind == At && spec.everySeconds == 0 && spec.cron == NoCron && spec.zone == NoZone && spec.at.Instant?)
      || (spec.kind == Every && spec.everySeconds > 0 && spec.cron == NoCron && spec.zone == NoZone && spec.at.Instant?)
      || (spec.kind == CronKind && spec.everySeconds == 0 && spec.cron.Cron? && spec.zone != BadZone && spec.at == Blank)
  {
  }

  // The first thing that is wrong is the error.
  lemma SpecErrors(spec: Spec)
    ensures spec.kind == OtherKind ==> ValidateSpec(spec) == Some(KindUnsupported)
    ensures spec.kind == At && spec.everySeconds != 0 ==> ValidateSpec(spec) == Some(IntervalNotAccepted)
    ensures spec.kind == Every && spec.everySeconds <= 0 ==> ValidateSpec(spec) == Some(IntervalRequired)
    ensures (spec.kind == At && spec.everySeconds == 0) || (spec.kind == Every && spec.everySeconds > 0) ==>
      && (spec.cron != NoCron ==> ValidateSpec(spec) == Some(CronNotAccepted))
      && (spec.cron == NoCron && spec.zone != NoZone ==> ValidateSpec(spec) == Some(ZoneNotAccepted))
      && (spec.cron == NoCron && spec.zone == NoZone && spec.at == Blank ==> ValidateSpec(spec) == Some(TimestampRequired))
      && (spec.cron == NoCron && spec.zone == NoZone && spec.at == Malformed ==> ValidateSpec(spec) == Some(TimestampMalformed))
    ensures spec.kind == CronKind ==>
      && (spec.cron == NoCron ==> ValidateSpec(spec) == Some(CronRequired))
      && (spec.cron != NoCron && spec.at != Blank ==> ValidateSpec(spec) == Some(AnchorNotAccepted))
      && (spec.cron != NoCron && spec.at == Blank && spec.everySeconds != 0 ==> ValidateSpec(spec) == Some(IntervalNotAccepted))
      && (spec.cron != NoCron && spec.at == Blank && spec.everySeconds == 0 ==>
            && (spec.zone == BadZone ==> ValidateSpec(spec) == Some(ZoneUnknown))
            && (spec.zone != BadZone && spec.cron == BadCron ==> ValidateSpec(spec) == Some(CronMalformed)))
  {
  }

  // A one-time schedule is next due at its time, until that has passed; a cron schedule at the first fire time
  // that is not before the instant.
  lemma NextByKind(spec: Spec, now: int)
    ensures ValidateSpec(spec).Some? ==> ComputeNextRun(spec, now) == Err(ValidateSpec(spec).value)
    ensures ValidateSpec(spec).None? && spec.kind == At ==>
      ComputeNextRun(spec, now) == Ok(if now <= spec.at.at then Some(spec.at.at) else None)
    ensures ValidateSpec(spec).None? && spec.kind == CronKind ==> ComputeNextRun(spec, now) == Ok(spec.cron.next(now - 1))
    ensures ValidateSpec(spec).None? && spec.kind == Every ==>
      ComputeNextRun(spec, now) ==
        match EveryNext(spec.at.at, spec.everySeconds, now) case None => Err(DivideByZero) case Some(next) => Ok(Some(next))
  {
  }

  /// The grid an `every` schedule fires on

  ghost predicate OnGrid(anchor: int, interval: int, t: int) {
    exists k: nat :: t == anchor + k * interval
  }

  // The first grid point that is not before `now`.
  ghost predicate FirstSlot(anchor: int, interval: int, now: int, t: int) {
    && OnGrid(anchor, interval, t)
    && now <= t
    && forall u :: OnGrid(anchor, interval, u) && now <= u ==> t <= u
  }

  // Whether the 64-bit arithmetic is exact for this anchor and instant: the interval fits, and the
  // distance is below the first grid point past the largest one a saturated distance can reach.
  predicate Fits64(anchor: int, everySeconds: int, now: int) {
    var interval := everySeconds * SECOND;
    || now <= anchor
    || (0 < interval <= MAX64 && now - anchor <= (MAX64 / interval + 1) * interval)
  }

  lemma MulMono(a: int, b: int, c: int)
    requires a <= b && 0 <= c
    ensures a * c <= b * c
  {
  }

  lemma GridStep(anchor: int, interval: int, k: nat, now: int)
    requires interval > 0
    requires now <= anchor + k * interval
    requires k > 0 ==> anchor + (k - 1) * interval < now
    ensures FirstSlot(anchor, interval, now, anchor + k * interval)
  {
    var t := anchor + k * interval;
    forall u | OnGrid(anchor, interval, u) && now <= u ensures t <= u {
      var j: nat :| u == anchor + j * interval;
      if j < k {
        MulMono(j, k - 1, interval);
        assert false;
      }
      MulMono(k, j, interval);
    }
  }

  lemma DivBounds(x: nat, y: int)
    requires y > 0
    ensures 0 <= x / y && x / y * y <= x < x / y * y + y
  {
  }

  // Below the anchor the answer is the anchor.
  lemma AnchorFirst(anchor: int, everySeconds: int, now: int)
    requires everySeconds > 0 && now <= anchor
    ensures EveryNext(anchor, everySeconds, now) == Some(anchor)
    ensures FirstSlot(anchor, everySeconds * SECOND, now, anchor)
  {
    GridStep(anchor, everySeconds * SECOND, 0, now);
  }

  lemma EveryNextExact(anchor: int, everySeconds: int, now: int)
    requires everySeconds > 0 && anchor < now
    requires Fits64(anchor, everySeconds, now)
    ensures EveryNext(anchor, everySeconds, now).Some?
    ensures FirstSlot(anchor, everySeconds * SECOND, now, EveryNext(anchor, everySeconds, now).value)
  {
    var interval := everySeconds * SECOND;
    assert Wrap64(interval) == interval;
    var d := Saturate64(now - anchor);
    var steps := d / interval;
    DivBounds(d, interval);
    assert Wrap64(steps * interval) == steps * interval;
    if anchor + steps * interval < now {
      assert (steps + 1) * interval == steps * interval + interval;
      GridStep(anchor, interval, steps + 1, now);
    } else {
      assert (steps - 1) * interval == steps * interval - interval;
      GridStep(anchor, interval, steps, now);
    }
  }

  // An interval that wraps to a positive one: the answer lies strictly inside the first grid cell.
  lemma WrappedPositive(anchor: int, big: int, interval: int, d: int, now: int)
    requires 0 < interval <= MAX64 && 2 * MAX64 < big
    requires 0 < d <= MAX64 && anchor + d <= now
    ensures var next := anchor + Wrap64(TruncDiv(d, interval) * interval);
      var r := if next < now then next + interval else next;
      anchor < r < anchor + big
  {
    DivBounds(d, interval);
  }

  // An interval that wraps to a negative one: the answer is before `now`, or inside the first cell.
  lemma WrappedNegative(anchor: int, interval: int, d: int, now: int)
    requires interval < 0
    requires 0 < d <= MAX64 && anchor + d <= now
    ensures var next := anchor + Wrap64(TruncDiv(d, interval) * interval);
      var r := if next < now then next + interval else next;
      r < now || r == anchor + d
  {
    var q := d / -interval;
    DivBounds(d, -interval);
    assert (-q) * interval == q * -interval;
  }

  // An interval that does not fit in 64 bits wraps, and the answer is never the first slot.
  lemma WrappedNeverExact(anchor: int, everySeconds: Int64, now: int)
    requires everySeconds > MAX_EVERY_SECONDS && anchor < now
    ensures var r := EveryNext(anchor, everySeconds, now);
      r.Some? ==> !FirstSlot(anchor, everySeconds * SECOND, now, r.value)
  {
    var big := everySeconds * SECOND;
    var interval := Wrap64(big);
    var d := Saturate64(now - anchor);
    var r := EveryNext(anchor, everySeconds, now);
    if interval > 0 {
      WrapsPositiveOnlyBeyond(big);
      WrappedPositive(anchor, big, interval, d, now);
      BetweenGridPoints(anchor, big, r.value);
    } else if interval < 0 {
      WrappedNegative(anchor, interval, d, now);
      if now <= r.value { BetweenGridPoints(anchor, big, r.value); }
    }
  }

  lemma WrapsPositiveOnlyBeyond(x: int)
    requires x > MAX64 && Wrap64(x) > 0
    ensures x >= TWO64
  {
  }

  lemma BetweenGridPoints(anchor: int, interval: int, t: int)
    requires anchor < t < anchor + interval
    ensures !OnGrid(anchor, interval, t)
  {
    forall k: nat ensures t != anchor + k * interval {
      if k > 0 { MulMono(1, k, interval); }
    }
  }

  // A saturated distance that falls short gives an instant before `now`.
  lemma SaturatedFallsShort(anchor: int, everySeconds: Int64, now: int)
    requires 0 < everySeconds <= MAX_EVERY_SECONDS && anchor < now
    requires !Fits64(anchor, everySeconds, now)
    ensures EveryNext(anchor, everySeconds, now).Some? && EveryNext(anchor, everySeconds, now).value < now
  {
    var interval := everySeconds * SECOND;
    assert Wrap64(interval) == interval;
    DivBounds(MAX64, interval);
    var steps := MAX64 / interval;
    assert (steps + 1) * interval == steps * interval + interval;
    assert Wrap64(steps * interval) == steps * interval;
  }

  // The 64-bit computation returns the first slot not before `now` exactly when the arithmetic fits.
  lemma EveryNextExactIff(anchor: int, everySeconds: Int64, now: int)
    requires everySeconds > 0
    ensures (var r := EveryNext(anchor, everySeconds, now);
             r.Some? && FirstSlot(anchor, everySeconds * SECOND, now, r.value))
            <==> Fits64(anchor, everySeconds, now)
  {
    if now <= anchor {
      AnchorFirst(anchor, everySeconds, now);
    } else if everySeconds > MAX_EVERY_SECONDS {
      WrappedNeverExact(anchor, everySeconds, now);
    } else if Fits64(anchor, everySeconds, now) {
      EveryNextExact(anchor, everySeconds, now);
    } else {
      SaturatedFallsShort(anchor, everySeconds, now);
    }
  }

  // The shape callers rely on: a representable interval and a distance of at most 292 years.
  lemma InRangeFits(anchor: int, everySeconds: int, now: int)
    requires 0 < everySeconds <= MAX_EVERY_SECONDS && now - anchor <= MAX64
    ensures Fits64(anchor, everySeconds, now)
  {
    DivBounds(MAX64, everySeconds * SECOND);
    var interval := everySeconds * SECOND;
    assert (MAX64 / interval + 1) * interval == MAX64 / interval * interval + interval;
  }

  // First slots move forward with the clock.
  lemma FirstSlotMonotone(anchor: int, interval: int, now: int, t: int, later: int, u: int)
    requires now <= later && FirstSlot(anchor, interval, now, t) && FirstSlot(anchor, interval, later, u)
    ensures t <= u
  {
  }

  lemma EveryNextMonotone(anchor: int, everySeconds: Int64, now: int, later: int)
    requires everySeconds > 0 && now <= later
    requires Fits64(anchor, everySeconds, now) && Fits64(anchor, everySeconds, later)
    ensures EveryNext(anchor, everySeconds, now).value <= EveryNext(anchor, everySeconds, later).value
  {
    EveryNextExactIff(anchor, everySeconds, now);
    EveryNextExactIff(anchor, everySeconds, later);
    FirstSlotMonotone(anchor, everySeconds * SECOND,
                      now, EveryNext(anchor, everySeconds, now).value,
                      later, EveryNext(anchor, everySeconds, later).value);
  }

  /// What the claim transactions rely on, for every kind of schedule

  // The arithmetic of this schedule is exact at this instant.
  predicate InRange(spec: Spec, now: int) {
    spec.kind == Every && spec.at.Instant? ==> Fits64(spec.at.at, spec.everySeconds, now)
  }

  // A computed slot is never before the instant it is computed for, and evaluated one nanosecond
  // later it is strictly after it.
  lemma NextNotBefore(spec: Spec, now: int)
    requires InRange(spec, now)
    ensures var r := ComputeNextRun(spec, now);
      r.Ok? && r.value.Some? ==> now <= r.value.value
  {
    if ValidateSpec(spec).None? && spec.kind == Every {
      EveryNextExactIff(spec.at.at, spec.everySeconds, now);
    }
  }

  // In range, a valid schedule always has an answer: the arithmetic never divides by zero.
  lemma NextDefined(spec: Spec, now: int)
    requires InRange(spec, now) && ValidateSpec(spec).None?
    ensures ComputeNextRun(spec, now).Ok?
  {
    if spec.kind == Every {
      EveryNextExactIff(spec.at.at, spec.everySeconds, now);
    }
  }

  // Out of range the slot can lie in the past: an interval of 2^55 seconds panics, and a distance of
  // three centuries falls short of the clock.
  lemma OutOfRangeExamples()
    ensures EveryNext(0, 0x80_0000_0000_0000, 1) == None
    ensures var r := EveryNext(0, 1, 2 * MAX64); r.Some? && r.value < 2 * MAX64
  {
    assert 0x80_0000_0000_0000 * SECOND == 1953125 * TWO64;
    assert !Fits64(0, 1, 2 * MAX64);
    SaturatedFallsShort(0, 1, 2 * MAX64);
  }
}
