/** Cron schedules: how an interval becomes a schedule with a random phase, how a schedule is
    updated, and when it actually fires. Time counts in minutes since some midnight. */
module CronSchedule {
  import opened Wrappers

  const HOUR := 60
  const DAY := 1440
  const WEEK := 10080

  // ---------------------------------------------------------------- interval adjustment

  /** `max(d for d in divisors if d <= bound)` over an ascending list */
  function LargestUpTo(divisors: seq<nat>, bound: nat): nat
    requires divisors != [] && divisors[0] <= bound
  {
    var last := |divisors| - 1;
    if divisors[last] <= bound then divisors[last] else LargestUpTo(divisors[..last], bound)
  }

  const MINUTE_STEPS: seq<nat> := [1, 2, 3, 4, 5, 6, 10, 12, 15, 20, 30, 60]
  const HOUR_STEPS: seq<nat> := [60, 120, 180, 240, 360, 480, 720, 1440]

  function AdjustInterval(interval: nat): nat {
    if interval == 0 then 1
    else if interval <= HOUR then LargestUpTo(MINUTE_STEPS, interval)
    else if interval <= DAY then LargestUpTo(HOUR_STEPS, interval)
    else if WEEK <= interval < DAY * 8 then WEEK
    else (interval / DAY) * DAY
  }

  /** Periods a schedule can keep: divisors of an hour, hours that divide a day, whole days. */
  predicate Supported(p: nat) {
    || (0 < p <= HOUR && HOUR % p == 0)
    || (0 < p <= DAY && p % HOUR == 0 && 24 % (p / HOUR) == 0)
    || (0 < p && p % DAY == 0)
  }

  lemma {:induction false} LargestUpToIs(divisors: seq<nat>, bound: nat)
    requires divisors != [] && divisors[0] <= bound
    requires forall i, j :: 0 <= i < j < |divisors| ==> divisors[i] < divisors[j]
    ensures var m := LargestUpTo(divisors, bound);
            m in divisors && m <= bound && forall d :: d in divisors && d <= bound ==> d <= m
  {
    var last := |divisors| - 1;
    if divisors[last] > bound {
      LargestUpToIs(divisors[..last], bound);
      assert forall d :: d in divisors && d <= bound ==> d in divisors[..last];
    } else {
      assert divisors[last] in divisors;
      assert forall i :: 0 <= i < |divisors| ==> divisors[i] <= divisors[last];
    }
  }

  /** The steps listed for minutes are exactly the divisors of an hour. */
  lemma MinuteSteps(p: nat)
    ensures p in MINUTE_STEPS <==> 0 < p <= HOUR && HOUR % p == 0
  {
    if 0 < p <= HOUR {
      if p <= 15 { if p <= 7 {} else {} }
      else if p <= 30 { if p <= 22 {} else {} }
      else {}
    }
  }

  lemma HourSteps(p: nat)
    ensures p in HOUR_STEPS <==> 0 < p <= DAY && p % HOUR == 0 && 24 % (p / HOUR) == 0
  {
    if 0 < p <= DAY && p % HOUR == 0 {
      var h := p / HOUR;
      assert p == HOUR * h && 1 <= h <= 24;
      if h <= 12 { if h <= 6 {} else {} } else {}
    }
  }

  lemma StepsAscend()
    ensures forall i, j :: 0 <= i < j < |MINUTE_STEPS| ==> MINUTE_STEPS[i] < MINUTE_STEPS[j]
    ensures forall i, j :: 0 <= i < j < |HOUR_STEPS| ==> HOUR_STEPS[i] < HOUR_STEPS[j]
  {
  }

  lemma FloorUpToAnHour(interval: nat, p: nat)
    requires 1 <= interval <= HOUR
    ensures Supported(AdjustInterval(interval)) && AdjustInterval(interval) <= interval
    ensures Supported(p) && p <= interval ==> p <= AdjustInterval(interval)
  {
    StepsAscend();
    LargestUpToIs(MINUTE_STEPS, interval);
    MinuteSteps(p);
    MinuteSteps(AdjustInterval(interval));
  }

  lemma FloorUpToADay(interval: nat, p: nat)
    requires HOUR < interval <= DAY
    ensures Supported(AdjustInterval(interval)) && AdjustInterval(interval) <= interval
    ensures Supported(p) && p <= interval ==> p <= AdjustInterval(interval)
  {
    StepsAscend();
    LargestUpToIs(HOUR_STEPS, interval);
    HourSteps(p);
    HourSteps(AdjustInterval(interval));
    HourSteps(HOUR);
  }

  /** Adjusting is taking the floor onto the supported periods; the branch for weeks is no exception. */
  lemma AdjustIsFloor(interval: nat, p: nat)
    requires interval >= 1
    ensures Supported(AdjustInterval(interval)) && AdjustInterval(interval) <= interval
    ensures Supported(p) && p <= interval ==> p <= AdjustInterval(interval)
  {
    if interval <= HOUR { FloorUpToAnHour(interval, p); }
    else if interval <= DAY { FloorUpToADay(interval, p); }
  }

  /** Hence it is monotone, and adjusting twice is adjusting once. No interval at all becomes a minute. */
  lemma AdjustIsMonotoneAndIdempotent(a: nat, b: nat)
    requires 1 <= a <= b
    ensures AdjustInterval(a) <= AdjustInterval(b)
    ensures AdjustInterval(AdjustInterval(a)) == AdjustInterval(a) && AdjustInterval(0) == 1
  {
    AdjustIsFloor(a, AdjustInterval(a));
    AdjustIsFloor(b, AdjustInterval(a));
    AdjustIsFloor(AdjustInterval(a), AdjustInterval(a));
  }

  // ---------------------------------------------------------------- schedules and when they fire

  /** One field of a cron line: `*`, a value, `from-to/step`, or `*` with a step. */
  datatype Field = Any | Value(v: nat) | Range(from: nat, to: nat, step: nat) | Every(step: nat)

  /** Minute, hour, day of month and day of week; the month is always `*`. */
  datatype Schedule = Schedule(minute: Field, hour: Field, dom: Field, dow: Field)

  predicate Matches(f: Field, lowest: nat, x: nat) {
    match f
    case Any => true
    case Value(v) => x == v
    case Range(from, to, step) => from <= x <= to && step > 0 && (x - from) % step == 0
    case Every(step) => lowest <= x && step > 0 && (x - lowest) % step == 0
  }

  /** Day of month of every day, the weekday of day 0, and the day from which schedules are sampled. */
  datatype Calendar = Calendar(dom: nat -> nat, weekday: nat, sample: nat)

  ghost predicate ValidCalendar(cal: Calendar) {
    forall day :: 1 <= cal.dom(day) <= 31
  }

  /** Does the schedule fire at minute `t`? It never restricts both kinds of day at once, so the
      rule that cron then takes either does not matter. */
  predicate Fires(s: Schedule, cal: Calendar, t: nat) {
    && Matches(s.minute, 0, t % HOUR)
    && Matches(s.hour, 0, t / HOUR % 24)
    && Matches(s.dom, 1, cal.dom(t / DAY))
    && Matches(s.dow, 0, (t / DAY + cal.weekday) % 7)
  }

  /** It fires forever with a constant gap. */
  ghost predicate Periodic(s: Schedule, cal: Calendar, period: nat, phase: nat) {
    0 <= phase < period && forall t: nat :: Fires(s, cal, t) <==> t % period == phase
  }

  // ---------------------------------------------------------------- new schedules

  /** What the random generator hands out. */
  datatype Draw = Draw(minute: nat, hour: nat, dom: nat, dow: nat)

  function LowerOf(a: int, b: int): int { if a < b then a else b }

  /** Ranges the phases are drawn from. */
  predicate BaseMinuteDrawn(interval: nat, m: nat) {
    if interval == 0 then m == 0
    else if 30 < interval < 60 then m <= 60 % interval - 1
    else m <= LowerOf(interval - 1, 59)
  }

  predicate BaseHourDrawn(interval: nat, h: nat) {
    if interval < HOUR then h == 0 else h <= LowerOf(interval / HOUR - 1, 23)
  }

  predicate BaseDomDrawn(interval: nat, d: nat) {
    if interval < 2 * DAY then d == 1 else 1 <= d <= LowerOf(interval / DAY - 1, 28)
  }

  predicate Drawn(interval: nat, draw: Draw) {
    && BaseMinuteDrawn(interval, draw.minute) && BaseHourDrawn(interval, draw.hour)
    && BaseDomDrawn(interval, draw.dom) && draw.dow <= 6
  }

  function NewSchedule(interval: nat, draw: Draw): Schedule {
    var p := AdjustInterval(interval);
    if p < HOUR then Schedule(Range(draw.minute, 59, p), Any, Any, Any)
    else if p < DAY then Schedule(Value(draw.minute), Range(draw.hour, 23, p / HOUR), Any, Any)
    else if p == WEEK then Schedule(Value(draw.minute), Value(draw.hour), Any, Value(draw.dow))
    else Schedule(Value(draw.minute), Value(draw.hour), Range(draw.dom, 31, p / DAY), Any)
  }

  // ---------------------------------------------------------------- updates

  /** First minute after `t` at which the schedule fires, looking `fuel` minutes ahead. */
  function NextRun(s: Schedule, cal: Calendar, t: int, fuel: nat): Option<nat>
    requires t >= -1
    decreases fuel
  {
    if fuel == 0 then None
    else if Fires(s, cal, t + 1) then Some(t + 1)
    else NextRun(s, cal, t + 1, fuel - 1)
  }

  /** Schedules are searched fifty years ahead, then given up. */
  const SEARCH_LIMIT := 50 * 366 * DAY

  /** `get_current_interval`: the gap between the first two runs behind the sampling instant. */
  function CurrentInterval(s: Schedule, cal: Calendar, limit: nat): Option<nat> {
    var first := NextRun(s, cal, cal.sample * DAY - 1, limit);
    if first.None? then None
    else
      var second := NextRun(s, cal, first.value, limit);
      if second.None? then None else NonNegative(second.value - first.value)
  }

  function NonNegative(x: int): Option<nat> { if x < 0 then None else Some(x) }

  /** First numeric start value of a field. */
  function BaseOf(f: Field): nat {
    match f
    case Any => 0
    case Value(v) => v
    case Range(from, _, _) => from
    case Every(_) => 0
  }

  datatype CronError = NoNextRun

  function UpdateCronExpression(s: Schedule, cal: Calendar, interval: nat, draw: Draw, limit: nat)
      : Result<Schedule, CronError> {
    var p := AdjustInterval(interval);
    var current := CurrentInterval(s, cal, limit);
    if current.None? then Err(NoNextRun)
    else if current.value == p then Ok(s)
    else
      var minute, hour := BaseOf(s.minute), BaseOf(s.hour);
      if p < HOUR then
        Ok(Schedule(Range(if minute >= p then draw.minute else minute, 59, p), Any, Any, Any))
      else if p < DAY then Ok(Schedule(Value(minute), Every(p / HOUR), Any, Any))
      else if p == WEEK then Ok(Schedule(Value(minute), Value(hour), Any, Value(draw.dow)))
      else Ok(Schedule(Value(minute), Value(hour), Every(p / DAY), Any))
  }

  // ---------------------------------------------------------------- exact periods

  lemma DivisionIsUnique(x: nat, p: nat, q: nat, r: nat)
    requires p > 0 && x == p * q + r && r < p
    ensures x / p == q && x % p == r
  {
    var d := q - x / p;
    assert p * d == x % p - r;
    assert d >= 1 ==> p * d >= p;
    assert d <= -1 ==> p * d + p <= 0;
  }

  /** Taking the remainder by a multiple first changes nothing. */
  lemma RemainderInTwoSteps(t: nat, n: nat, p: nat)
    requires p > 0 && n > 0 && n % p == 0
    ensures t % n % p == t % p
  {
    var k, q, r := n / p, t / n, t % n;
    Regrouped(t, n, p, k, q, r / p, r % p);
    DivisionIsUnique(t, p, k * q + r / p, r % p);
  }

  lemma Regrouped(t: nat, n: nat, p: nat, k: nat, q: nat, a: nat, b: nat)
    requires n == p * k && t == n * q + p * a + b
    ensures t == p * (k * q + a) + b
  {
    assert p * k * q == p * (k * q);
    assert p * (k * q + a) == p * (k * q) + p * a;
  }

  /** Where a number lies between two multiples. */
  lemma RemainderFrom(x: nat, p: nat, q: nat, base: nat)
    requires base == p * q && base <= x < base + p
    ensures x % p == x - base
  {
    DivisionIsUnique(x, p, q, x - base);
  }

  /** Steps from a start below the step hit exactly the numbers of that remainder. */
  lemma StepsFrom(x: nat, start: nat, step: nat)
    requires start < step
    ensures (start <= x && (x - start) % step == 0) <==> x % step == start
  {
    if start <= x {
      var q := (x - start) / step;
      if (x - start) % step == 0 {
        assert x == step * q + start;
        DivisionIsUnique(x, step, q, start);
      }
      if x % step == start {
        assert x - start == step * (x / step) + 0;
        DivisionIsUnique(x - start, step, x / step, 0);
      }
    } else {
      DivisionIsUnique(x, step, 0, x);
    }
  }

  /** Splitting minutes into whole units and the rest, by a period of whole units. */
  lemma UnitsAndRest(t: nat, unit: nat, k: nat)
    requires unit > 0 && k > 0
    ensures unit * k > 0 && t % (unit * k) == unit * (t / unit % k) + t % unit
  {
    var u, r := t / unit, t % unit;
    Units(t, unit, k, u / k, u % k, r);
    DivisionIsUnique(t, unit * k, u / k, unit * (u % k) + r);
  }

  lemma Units(t: nat, unit: nat, k: nat, q: nat, h: nat, r: nat)
    requires r < unit && h < k && t == unit * (k * q + h) + r
    ensures unit * k > 0 && unit * h + r < unit * k && t == (unit * k) * q + (unit * h + r)
  {
    assert unit * (k * q + h) == unit * (k * q) + unit * h;
    assert unit * (k * q) == (unit * k) * q;
    var more := k - h - 1;
    assert unit * k == unit * h + unit * more + unit;
    assert unit * more >= 0;
  }

  lemma SubHour(s: Schedule, cal: Calendar, p: nat, m: nat)
    requires m < p < HOUR && HOUR % p == 0
    requires s == Schedule(Range(m, 59, p), Any, Any, Any)
    ensures Periodic(s, cal, p, m)
  {
    forall t: nat ensures Fires(s, cal, t) <==> t % p == m {
      RemainderInTwoSteps(t, HOUR, p);
      StepsFrom(t % HOUR, m, p);
    }
  }

  lemma Hourly(s: Schedule, cal: Calendar, k: nat, m: nat, h: nat)
    requires 1 <= k < 24 && 24 % k == 0 && m < HOUR && h < k
    requires s.minute == Value(m) && s.dom == Any && s.dow == Any
    requires s.hour == Range(h, 23, k) || (h == 0 && s.hour == Every(k))
    ensures Periodic(s, cal, HOUR * k, HOUR * h + m)
  {
    forall t: nat ensures Fires(s, cal, t) <==> t % (HOUR * k) == HOUR * h + m {
      UnitsAndRest(t, HOUR, k);
      RemainderInTwoSteps(t / HOUR, 24, k);
      StepsFrom(t / HOUR % 24, h, k);
    }
  }

  lemma Daily(s: Schedule, cal: Calendar, m: nat, h: nat)
    requires ValidCalendar(cal) && m < HOUR && h < 24
    requires s.minute == Value(m) && s.hour == Value(h) && s.dow == Any
    requires s.dom == Range(1, 31, 1) || s.dom == Every(1)
    ensures Periodic(s, cal, DAY, HOUR * h + m)
  {
    forall t: nat ensures Fires(s, cal, t) <==> t % DAY == HOUR * h + m {
      UnitsAndRest(t, HOUR, 24);
      assert 1 <= cal.dom(t / DAY) <= 31;
    }
  }

  lemma Weekly(s: Schedule, cal: Calendar, m: nat, h: nat, dow: nat)
    requires m < HOUR && h < 24 && dow < 7
    requires s == Schedule(Value(m), Value(h), Any, Value(dow))
    ensures Periodic(s, cal, WEEK, DAY * ((dow + 6 * cal.weekday) % 7) + HOUR * h + m)
  {
    forall t: nat ensures Fires(s, cal, t) <==> t % WEEK == DAY * ((dow + 6 * cal.weekday) % 7) + HOUR * h + m {
      UnitsAndRest(t, HOUR, 24);
      UnitsAndRest(t, DAY, 7);
      var day := t / DAY;
      assert (day + cal.weekday) % 7 == dow <==> day % 7 == (dow + 6 * cal.weekday) % 7;
    }
  }

  /** Intervals whose schedule keeps an exact period: anything that adjusts to at most a day, or to a week. */
  predicate Exact(interval: nat) {
    AdjustInterval(interval) <= DAY || AdjustInterval(interval) == WEEK
  }

  /** A schedule with its phases in range, firing with the given period. */
  ghost predicate Keeps(s: Schedule, cal: Calendar, period: nat) {
    && BaseOf(s.minute) < HOUR && BaseOf(s.hour) < 24
    && exists phase :: Periodic(s, cal, period, phase)
  }

  lemma AdjustedShape(interval: nat)
    requires Exact(interval)
    ensures var p := AdjustInterval(interval);
            if p < HOUR then p > 0 && HOUR % p == 0
            else if p < DAY then p == HOUR * (p / HOUR) && 1 <= p / HOUR < 24 && 24 % (p / HOUR) == 0
            else p == DAY || p == WEEK
  {
    var p := AdjustInterval(interval);
    if interval > 0 { AdjustIsFloor(interval, p); }
  }

  /** Every drawn schedule fires forever with the adjusted interval as its gap. */
  lemma NewScheduleKeeps(interval: nat, draw: Draw, cal: Calendar)
    requires ValidCalendar(cal) && Exact(interval) && Drawn(AdjustInterval(interval), draw)
    ensures Keeps(NewSchedule(interval, draw), cal, AdjustInterval(interval))
  {
    AdjustedShape(interval);
    var p, s := AdjustInterval(interval), NewSchedule(interval, draw);
    if p < HOUR { SubHour(s, cal, p, draw.minute); }
    else if p < DAY { Hourly(s, cal, p / HOUR, draw.minute, draw.hour); }
    else if p == WEEK { Weekly(s, cal, draw.minute, draw.hour, draw.dow); }
    else { Daily(s, cal, draw.minute, draw.hour); }
  }

  /** A schedule fires at the phase it was drawn, and nowhere else: in every period up to a day, on one day of the
      week, or on the days of the month that lie whole steps behind the first one. */
  ghost predicate FiresAt(s: Schedule, cal: Calendar, p: nat, minute: nat, hour: nat, dom: nat, dow: nat)
    requires p > 0
  {
    forall t: nat :: Fires(s, cal, t) <==>
      if p < HOUR then t % p == minute
      else if p < DAY then t % p == HOUR * hour + minute
      else
        && t % DAY == HOUR * hour + minute
        && (if p == WEEK then (t / DAY + cal.weekday) % 7 == dow
            else dom <= cal.dom(t / DAY) && (cal.dom(t / DAY) - dom) % (p / DAY) == 0)
  }

  lemma OnDays(s: Schedule, cal: Calendar, m: nat, h: nat, t: nat)
    requires m < HOUR && h < 24 && s.minute == Value(m) && s.hour == Value(h)
    ensures Fires(s, cal, t) <==>
            && t % DAY == HOUR * h + m
            && Matches(s.dom, 1, cal.dom(t / DAY)) && Matches(s.dow, 0, (t / DAY + cal.weekday) % 7)
  {
    UnitsAndRest(t, HOUR, 24);
  }

  /** The first value of a field is the least one it takes. */
  lemma BaseIsFirst(f: Field, x: nat)
    requires f.Range? ==> f.from <= f.to
    requires (f.Range? || f.Every?) ==> f.step > 0
    ensures Matches(f, 0, BaseOf(f)) && (Matches(f, 0, x) ==> BaseOf(f) <= x)
  {
  }

  /** A new schedule fires exactly at the phase drawn for it. */
  lemma NewScheduleFires(interval: nat, draw: Draw, cal: Calendar)
    requires ValidCalendar(cal) && Drawn(AdjustInterval(interval), draw)
    ensures AdjustInterval(interval) > 0
    ensures FiresAt(NewSchedule(interval, draw), cal, AdjustInterval(interval), draw.minute, draw.hour, draw.dom,
                    draw.dow)
  {
    if interval > 0 { AdjustIsFloor(interval, 1); }
    var p, s := AdjustInterval(interval), NewSchedule(interval, draw);
    if p < HOUR {
      SubHour(s, cal, p, draw.minute);
    } else if p < DAY {
      AdjustedHours(interval);
      Hourly(s, cal, p / HOUR, draw.minute, draw.hour);
    } else {
      forall t: nat {
        OnDays(s, cal, draw.minute, draw.hour, t);
      }
    }
  }

  lemma AdjustedHours(interval: nat)
    requires HOUR <= AdjustInterval(interval) < DAY
    ensures var p := AdjustInterval(interval); p == HOUR * (p / HOUR) && 1 <= p / HOUR < 24 && 24 % (p / HOUR) == 0
  {
    AdjustIsFloor(interval, HOUR);
  }

  /** An updated schedule of another period fires at the old base minute, unless that does not fit below a step of
      minutes; daily and rarer ones at the old base hour, steps of hours from midnight, steps of days from the
      first of the month, and weekly ones on the day drawn. */
  lemma UpdateFires(s: Schedule, cal: Calendar, interval: nat, draw: Draw, limit: nat)
    requires ValidCalendar(cal) && BaseOf(s.minute) < HOUR && BaseOf(s.hour) < 24
    requires BaseMinuteDrawn(AdjustInterval(interval), draw.minute)
    requires UpdateCronExpression(s, cal, interval, draw, limit).Ok?
    requires CurrentInterval(s, cal, limit) != Some(AdjustInterval(interval))
    ensures AdjustInterval(interval) > 0
    ensures var p, m, h := AdjustInterval(interval), BaseOf(s.minute), BaseOf(s.hour);
            FiresAt(UpdateCronExpression(s, cal, interval, draw, limit).value, cal, p,
                    if p <= m && p < HOUR then draw.minute else m, if p < DAY then 0 else h, 1, draw.dow)
  {
    if interval > 0 { AdjustIsFloor(interval, 1); }
    var p, r := AdjustInterval(interval), UpdateCronExpression(s, cal, interval, draw, limit).value;
    if p < HOUR {
      SubHour(r, cal, p, BaseOf(r.minute));
    } else if p < DAY {
      AdjustedHours(interval);
      Hourly(r, cal, p / HOUR, BaseOf(s.minute), 0);
    } else {
      forall t: nat {
        OnDays(r, cal, BaseOf(s.minute), BaseOf(s.hour), t);
      }
    }
  }

  lemma {:induction false} NextRunIs(s: Schedule, cal: Calendar, t: int, n: nat, fuel: nat)
    requires -1 <= t < n <= t + fuel && Fires(s, cal, n)
    requires forall k: nat :: t < k < n ==> !Fires(s, cal, k)
    ensures NextRun(s, cal, t, fuel) == Some(n)
    decreases fuel
  {
    if t + 1 < n { NextRunIs(s, cal, t + 1, n, fuel - 1); }
  }

  /** First number after `t` with the given remainder. */
  function NextWith(t: int, period: nat, phase: nat): (n: nat)
    requires t >= -1 && phase < period
    ensures t < n <= t + period && n % period == phase
    ensures forall k: nat :: t < k < n ==> k % period != phase
  {
    var start := t + 1;
    var r := start % period;
    var n := if r <= phase then start + (phase - r) else start + (period - r + phase);
    NextWithIs(start, period, phase, n);
    n
  }

  lemma NextWithIs(start: nat, period: nat, phase: nat, n: nat)
    requires phase < period
    requires n == start + (if start % period <= phase then phase - start % period else period - start % period + phase)
    ensures n % period == phase
    ensures forall k: nat :: start <= k < n ==> k % period != phase
  {
    NextFrom(period, phase, start / period, start % period, n);
  }

  lemma NextFrom(period: nat, phase: nat, q: nat, r: nat, n: nat)
    requires r < period && phase < period
    requires n == period * q + (if r <= phase then phase else period + phase)
    ensures n % period == phase
    ensures forall k: nat :: period * q + r <= k < n ==> k % period != phase
  {
    var base := period * q;
    assert period * (q + 1) == base + period;
    RemainderFrom(n, period, if r <= phase then q else q + 1, if r <= phase then base else base + period);
    forall k: nat | base + r <= k < n ensures k % period != phase {
      RemainderFrom(k, period, if k < base + period then q else q + 1,
                    if k < base + period then base else base + period);
    }
  }

  lemma NextOneLater(x: nat, period: nat)
    requires period > 0
    ensures (x + period) % period == x % period
    ensures forall k: nat :: x < k < x + period ==> k % period != x % period
  {
    OneLater(period, x / period, x % period, x);
  }

  lemma OneLater(period: nat, q: nat, r: nat, x: nat)
    requires r < period && x == period * q + r
    ensures (x + period) % period == r
    ensures forall k: nat :: x < k < x + period ==> k % period != r
  {
    var base := period * q;
    assert period * (q + 1) == base + period;
    RemainderFrom(x + period, period, q + 1, base + period);
    forall k: nat | x < k < x + period ensures k % period != r {
      RemainderFrom(k, period, if k < base + period then q else q + 1,
                    if k < base + period then base else base + period);
    }
  }

  /** The sampled gap of a schedule with an exact period is that period. */
  lemma CurrentIntervalIs(s: Schedule, cal: Calendar, period: nat, limit: nat)
    requires Keeps(s, cal, period) && period <= limit
    ensures CurrentInterval(s, cal, limit) == Some(period)
  {
    var phase :| Periodic(s, cal, period, phase);
    var t := cal.sample * DAY - 1;
    var first := NextWith(t, period, phase);
    NextRunIs(s, cal, t, first, limit);
    NextOneLater(first, period);
    NextRunIs(s, cal, first, first + period, limit);
  }

  /** One update: the period becomes the new one, and the base minute stays unless it does not fit
      below a new sub-hour step. */
  lemma UpdateKeeps(s: Schedule, cal: Calendar, period: nat, interval: nat, draw: Draw, limit: nat)
    requires ValidCalendar(cal) && Keeps(s, cal, period) && period <= limit
    requires Exact(interval) && BaseMinuteDrawn(AdjustInterval(interval), draw.minute) && draw.dow <= 6
    ensures var r := UpdateCronExpression(s, cal, interval, draw, limit);
            && r.Ok? && Keeps(r.value, cal, AdjustInterval(interval))
            && (period == AdjustInterval(interval) ==> r.value == s)
            && (BaseOf(r.value.minute) == BaseOf(s.minute) ||
                (AdjustInterval(interval) < HOUR && AdjustInterval(interval) <= BaseOf(s.minute)))
  {
    CurrentIntervalIs(s, cal, period, limit);
    AdjustedShape(interval);
    var p, r := AdjustInterval(interval), UpdateCronExpression(s, cal, interval, draw, limit).value;
    if period != p {
      if p < HOUR { SubHour(r, cal, p, BaseOf(r.minute)); }
      else if p < DAY { Hourly(r, cal, p / HOUR, BaseOf(s.minute), 0); }
      else if p == WEEK { Weekly(r, cal, BaseOf(s.minute), BaseOf(s.hour), draw.dow); }
      else { Daily(r, cal, BaseOf(s.minute), BaseOf(s.hour)); }
    }
  }

  /** A history of updates, each with what the generator drew for it. */
  function UpdateAll(s: Schedule, cal: Calendar, updates: seq<(nat, Draw)>, limit: nat): Result<Schedule, CronError> {
    if updates == [] then Ok(s)
    else
      var last := |updates| - 1;
      var earlier := UpdateAll(s, cal, updates[..last], limit);
      if earlier.Err? then earlier
      else UpdateCronExpression(earlier.value, cal, updates[last].0, updates[last].1, limit)
  }

  ghost predicate ValidUpdate(u: (nat, Draw)) {
    Exact(u.0) && BaseMinuteDrawn(AdjustInterval(u.0), u.1.minute) && u.1.dow <= 6
  }

  /** Exact period for every reachable schedule: after any history of updates the job fires forever
      with a constant gap, the last adjusted interval. */
  lemma {:induction false} ReachableScheduleKeeps(interval: nat, draw: Draw, cal: Calendar, updates: seq<(nat, Draw)>,
                                                  limit: nat)
    requires ValidCalendar(cal) && Exact(interval) && Drawn(AdjustInterval(interval), draw) && limit >= WEEK
    requires forall i :: 0 <= i < |updates| ==> ValidUpdate(updates[i])
    ensures var r := UpdateAll(NewSchedule(interval, draw), cal, updates, limit);
            var period := AdjustInterval(if updates == [] then interval else updates[|updates| - 1].0);
            r.Ok? && Keeps(r.value, cal, period)
    decreases |updates|
  {
    if updates == [] {
      NewScheduleKeeps(interval, draw, cal);
    } else {
      var last := |updates| - 1;
      ReachableScheduleKeeps(interval, draw, cal, updates[..last], limit);
      var s := UpdateAll(NewSchedule(interval, draw), cal, updates[..last], limit).value;
      var before := AdjustInterval(if last == 0 then interval else updates[last - 1].0);
      assert last > 0 ==> ValidUpdate(updates[last - 1]);
      assert ValidUpdate(updates[last]);
      UpdateKeeps(s, cal, before, updates[last].0, updates[last].1, limit);
    }
  }

  // ---------------------------------------------------------------- schedules of several days

  /** Month lengths; `dom` counts along them from day 0, the first of month 0. */
  ghost predicate ValidMonths(months: nat -> nat) {
    forall i :: 28 <= months(i) <= 31
  }

  function MonthStart(months: nat -> nat, i: nat): nat {
    if i == 0 then 0 else MonthStart(months, i - 1) + months(i - 1)
  }

  ghost predicate Follows(cal: Calendar, months: nat -> nat) {
    forall i: nat, d :: 1 <= d <= months(i) ==> cal.dom(DayOf(months, i, d)) == d
  }

  function DayOf(months: nat -> nat, i: nat, d: nat): nat
    requires d >= 1
  {
    MonthStart(months, i) + d - 1
  }

  predicate DomHit(start: nat, step: nat, dom: nat) {
    start <= dom <= 31 && step > 0 && (dom - start) % step == 0
  }

  /** A schedule of several days fires once on each day its day-of-month field hits. */
  lemma FiresOnHits(s: Schedule, cal: Calendar, m: nat, h: nat, start: nat, step: nat, t: nat)
    requires m < HOUR && h < 24
    requires s == Schedule(Value(m), Value(h), Range(start, 31, step), Any)
    ensures Fires(s, cal, t) <==> t % DAY == HOUR * h + m && DomHit(start, step, cal.dom(t / DAY))
  {
    UnitsAndRest(t, HOUR, 24);
  }

  /** From a firing on day `d` of month `i`: the next firing day, by the calendar. */
  function NextHit(months: nat -> nat, start: nat, step: nat, i: nat, d: nat): nat
    requires start >= 1 && d >= 1
  {
    if d + step <= months(i) then DayOf(months, i, d + step) else DayOf(months, i + 1, start)
  }

  lemma NoHitInMonth(start: nat, step: nat, d: nat, e: nat)
    requires DomHit(start, step, d) && d < e < d + step
    ensures !DomHit(start, step, e)
  {
    SameRemainder(d - start, e - start, step);
  }

  lemma NoHitBetween(months: nat -> nat, cal: Calendar, start: nat, step: nat, i: nat, d: nat, day: nat)
    requires ValidMonths(months) && Follows(cal, months) && step >= 2 && 1 <= start <= 28
    requires 1 <= d <= months(i) && DomHit(start, step, d)
    requires DayOf(months, i, d) < day < NextHit(months, start, step, i, d)
    ensures !DomHit(start, step, cal.dom(day))
  {
    assert MonthStart(months, i + 1) == MonthStart(months, i) + months(i);
    if day < MonthStart(months, i + 1) {
      var e := day - MonthStart(months, i) + 1;
      assert cal.dom(DayOf(months, i, e)) == e;
      NoHitInMonth(start, step, d, e);
    } else {
      var e := day - MonthStart(months, i + 1) + 1;
      assert cal.dom(DayOf(months, i + 1, e)) == e;
    }
  }

  lemma SameRemainder(a: nat, b: nat, step: nat)
    requires step > 0 && a < b < a + step
    ensures a % step != b % step
  {
    NextOneLater(a, step);
  }

  /** The minute at which such a schedule fires on a day. */
  function AtDay(day: nat, h: nat, m: nat): nat {
    day * DAY + HOUR * h + m
  }

  lemma DayAndTime(day: nat, h: nat, m: nat)
    requires m < HOUR && h < 24
    ensures AtDay(day, h, m) / DAY == day && AtDay(day, h, m) % DAY == HOUR * h + m
  {
  }

  /** Bounded gaps of a schedule of several days: from every firing the next one comes after exactly
      the step if it still falls into the month, and otherwise on the start day of the next month,
      never more than `step - 1 + start` days later. Every month contains a firing. */
  lemma MultiDayGaps(interval: nat, draw: Draw, cal: Calendar, months: nat -> nat, i: nat, d: nat)
    requires AdjustInterval(interval) > DAY && AdjustInterval(interval) != WEEK
    requires Drawn(AdjustInterval(interval), draw) && ValidMonths(months) && Follows(cal, months)
    requires 1 <= d <= months(i) &&
             Fires(NewSchedule(interval, draw), cal, AtDay(DayOf(months, i, d), draw.hour, draw.minute))
    ensures var s, step := NewSchedule(interval, draw), AdjustInterval(interval) / DAY;
            var t := AtDay(DayOf(months, i, d), draw.hour, draw.minute);
            var n := AtDay(NextHit(months, draw.dom, step, i, d), draw.hour, draw.minute);
            && t < n && Fires(s, cal, n) && (forall k: nat :: t < k < n ==> !Fires(s, cal, k))
            && (d + step <= months(i) ==> n - t == step * DAY)
            && n - t <= (step - 1 + draw.dom) * DAY <= (2 * step - 2) * DAY
    ensures Fires(NewSchedule(interval, draw), cal, AtDay(DayOf(months, i, draw.dom), draw.hour, draw.minute))
  {
    var s, step := NewSchedule(interval, draw), AdjustInterval(interval) / DAY;
    var h, m, start := draw.hour, draw.minute, draw.dom;
    AdjustIsFloor(interval, DAY);
    SeveralDays(interval);
    var day, next := DayOf(months, i, d), NextHit(months, start, step, i, d);
    var t, n := AtDay(day, h, m), AtDay(next, h, m);
    DayAndTime(day, h, m);
    DayAndTime(next, h, m);
    DayAndTime(DayOf(months, i, start), h, m);
    FiresOnHits(s, cal, m, h, start, step, t);
    FiresOnHits(s, cal, m, h, start, step, n);
    FiresOnHits(s, cal, m, h, start, step, AtDay(DayOf(months, i, start), h, m));
    HitAt(months, cal, start, step, i, start);
    HitAt(months, cal, start, step, i, d);
    NextIsHit(months, cal, start, step, i, d);
    forall k: nat | t < k < n ensures !Fires(s, cal, k) {
      FiresOnHits(s, cal, m, h, start, step, k);
      if k % DAY == HOUR * h + m {
        assert day < k / DAY < next;
        NoHitBetween(months, cal, start, step, i, d, k / DAY);
      }
    }
  }

  lemma SeveralDays(interval: nat)
    requires AdjustInterval(interval) > DAY
    ensures AdjustInterval(interval) == AdjustInterval(interval) / DAY * DAY && AdjustInterval(interval) / DAY >= 2
  {
    if interval >= 1 { AdjustIsFloor(interval, DAY); }
  }

  lemma HitAt(months: nat -> nat, cal: Calendar, start: nat, step: nat, i: nat, d: nat)
    requires Follows(cal, months) && 1 <= d <= months(i)
    ensures DomHit(start, step, cal.dom(DayOf(months, i, d))) <==> DomHit(start, step, d)
  {
  }

  lemma NextIsHit(months: nat -> nat, cal: Calendar, start: nat, step: nat, i: nat, d: nat)
    requires ValidMonths(months) && Follows(cal, months) && step >= 2 && 1 <= start <= LowerOf(step - 1, 28)
    requires 1 <= d <= months(i) && DomHit(start, step, d)
    ensures var day, next := DayOf(months, i, d), NextHit(months, start, step, i, d);
            && day < next && DomHit(start, step, cal.dom(next))
            && (d + step <= months(i) ==> next - day == step)
            && next - day <= step - 1 + start
  {
    assert MonthStart(months, i + 1) == MonthStart(months, i) + months(i);
    if d + step <= months(i) {
      HitAt(months, cal, start, step, i, d + step);
      NextOneLater(d - start, step);
    } else {
      HitAt(months, cal, start, step, i + 1, start);
    }
  }

  // ---------------------------------------------------------------- sampling schedules of several days

  /** Month and day of the first two firings behind the sampling instant, the second of a January. */
  function FirstSampled(start: nat, step: nat, j: nat): (nat, nat)
    requires start >= 1
  {
    if start >= 2 then (j, start)
    else if 1 + step <= 31 then (j, 1 + step)
    else (j + 1, 1)
  }

  lemma RunsFrom(s: Schedule, cal: Calendar, months: nat -> nat, m: nat, h: nat, start: nat, step: nat,
                 t: int, day: nat, limit: nat)
    requires m < HOUR && h < 24 && -1 <= t < AtDay(day, h, m) <= t + limit
    requires s == Schedule(Value(m), Value(h), Range(start, 31, step), Any)
    requires DomHit(start, step, cal.dom(day))
    requires forall k: nat :: t < AtDay(k, h, m) && k < day ==> !DomHit(start, step, cal.dom(k))
    ensures NextRun(s, cal, t, limit) == Some(AtDay(day, h, m))
  {
    DayAndTime(day, h, m);
    FiresOnHits(s, cal, m, h, start, step, AtDay(day, h, m));
    forall k: nat | t < k < AtDay(day, h, m) ensures !Fires(s, cal, k) {
      FiresOnHits(s, cal, m, h, start, step, k);
      if k % DAY == HOUR * h + m {
        assert k == AtDay(k / DAY, h, m) && k / DAY < day;
      }
    }
    NextRunIs(s, cal, t, AtDay(day, h, m), limit);
  }

  /** Where the gap is sampled (January has 31 days, February 2020 had 29), a schedule of `step` days
      starting on day `start` is read correctly exactly if its first two sampled firings lie in one
      month, or the step is the length of January. Otherwise an update takes it for another interval. */
  lemma SampledSeveralDays(s: Schedule, cal: Calendar, months: nat -> nat, j: nat, m: nat, h: nat,
                           start: nat, step: nat, limit: nat)
    requires m < HOUR && h < 24 && step >= 2 && 1 <= start <= LowerOf(step - 1, 28) && limit >= 64 * DAY
    requires s == Schedule(Value(m), Value(h), Range(start, 31, step), Any)
    requires ValidMonths(months) && Follows(cal, months)
    requires cal.sample == DayOf(months, j, 2) && months(j) == 31 && months(j + 1) == 29
    ensures CurrentInterval(s, cal, limit) == Some(step * DAY) <==>
            if start == 1 then 1 + 2 * step <= 31 else start + step <= 31 || step == 31
  {
    assert MonthStart(months, j + 1) == MonthStart(months, j) + 31;
    assert MonthStart(months, j + 2) == MonthStart(months, j + 1) + 29;
    SampledGap(s, cal, months, j, m, h, start, step, limit);
  }

  /** A schedule of 20 days from the first of the month is read as one of 11 days, from the 21st of January to
      the first of February. An update that asks for 11 days therefore keeps it, and one for 20 rewrites it. */
  lemma TwentyDaysReadAsEleven(s: Schedule, cal: Calendar, months: nat -> nat, j: nat, draw: Draw, limit: nat)
    requires draw.minute < HOUR && draw.hour < 24 && draw.dom == 1 && limit >= 64 * DAY
    requires ValidMonths(months) && Follows(cal, months)
    requires cal.sample == DayOf(months, j, 2) && months(j) == 31 && months(j + 1) == 29
    requires s == NewSchedule(20 * DAY, draw)
    ensures s == Schedule(Value(draw.minute), Value(draw.hour), Range(1, 31, 20), Any)
    ensures CurrentInterval(s, cal, limit) == Some(11 * DAY)
    ensures forall later: Draw ::
              && UpdateCronExpression(s, cal, 11 * DAY, later, limit) == Ok(s)
              && UpdateCronExpression(s, cal, 20 * DAY, later, limit)
                 == Ok(Schedule(Value(draw.minute), Value(draw.hour), Every(20), Any))
  {
    assert MonthStart(months, j + 1) == MonthStart(months, j) + 31;
    SampledGap(s, cal, months, j, draw.minute, draw.hour, 1, 20, limit);
  }

  /** What sampling reads: the days between the first two firings behind the sampling instant. */
  lemma SampledGap(s: Schedule, cal: Calendar, months: nat -> nat, j: nat, m: nat, h: nat,
                   start: nat, step: nat, limit: nat)
    requires m < HOUR && h < 24 && step >= 2 && 1 <= start <= LowerOf(step - 1, 28) && limit >= 64 * DAY
    requires s == Schedule(Value(m), Value(h), Range(start, 31, step), Any)
    requires ValidMonths(months) && Follows(cal, months)
    requires cal.sample == DayOf(months, j, 2) && months(j) == 31 && months(j + 1) == 29
    ensures var (i, d) := FirstSampled(start, step, j);
            && 1 <= d <= months(i)
            && NextHit(months, start, step, i, d) > DayOf(months, i, d)
            && CurrentInterval(s, cal, limit) == Some((NextHit(months, start, step, i, d) - DayOf(months, i, d)) * DAY)
  {
    var (i, d) := FirstSampled(start, step, j);
    FirstIsHit(cal, months, j, start, step);
    FirstRun(s, cal, months, j, m, h, start, step, limit);
    SecondRun(s, cal, months, i, d, m, h, start, step, limit);
    GapIs(s, cal, limit, AtDay(DayOf(months, i, d), h, m), AtDay(NextHit(months, start, step, i, d), h, m));
  }

  lemma FirstRun(s: Schedule, cal: Calendar, months: nat -> nat, j: nat, m: nat, h: nat, start: nat, step: nat,
                 limit: nat)
    requires m < HOUR && h < 24 && step >= 2 && 1 <= start <= LowerOf(step - 1, 28) && limit >= 64 * DAY
    requires s == Schedule(Value(m), Value(h), Range(start, 31, step), Any)
    requires ValidMonths(months) && Follows(cal, months)
    requires cal.sample == DayOf(months, j, 2) && months(j) == 31
    ensures var (i, d) := FirstSampled(start, step, j);
            d >= 1 && NextRun(s, cal, cal.sample * DAY - 1, limit) == Some(AtDay(DayOf(months, i, d), h, m))
  {
    assert MonthStart(months, j + 1) == MonthStart(months, j) + 31;
    var (i, d) := FirstSampled(start, step, j);
    FirstIsHit(cal, months, j, start, step);
    var t, first := cal.sample * DAY - 1, DayOf(months, i, d);
    forall k: nat | t < AtDay(k, h, m) && k < first ensures !DomHit(start, step, cal.dom(k)) {
      BeforeFirst(cal, months, j, start, step, k);
    }
    RunsFrom(s, cal, months, m, h, start, step, t, first, limit);
  }

  lemma SecondRun(s: Schedule, cal: Calendar, months: nat -> nat, i: nat, d: nat, m: nat, h: nat, start: nat,
                  step: nat, limit: nat)
    requires m < HOUR && h < 24 && step >= 2 && 1 <= start <= LowerOf(step - 1, 28) && limit >= 64 * DAY
    requires s == Schedule(Value(m), Value(h), Range(start, 31, step), Any)
    requires ValidMonths(months) && Follows(cal, months)
    requires 1 <= d <= months(i) && DomHit(start, step, d)
    ensures var first, second := DayOf(months, i, d), NextHit(months, start, step, i, d);
            first < second && NextRun(s, cal, AtDay(first, h, m), limit) == Some(AtDay(second, h, m))
  {
    var first, second := DayOf(months, i, d), NextHit(months, start, step, i, d);
    NextIsHit(months, cal, start, step, i, d);
    forall k: nat | AtDay(first, h, m) < AtDay(k, h, m) && k < second ensures !DomHit(start, step, cal.dom(k)) {
      NoHitBetween(months, cal, start, step, i, d, k);
    }
    RunsFrom(s, cal, months, m, h, start, step, AtDay(first, h, m), second, limit);
  }

  lemma GapIs(s: Schedule, cal: Calendar, limit: nat, first: nat, second: nat)
    requires NextRun(s, cal, cal.sample * DAY - 1, limit) == Some(first) &&
             NextRun(s, cal, first, limit) == Some(second)
    requires first <= second
    ensures CurrentInterval(s, cal, limit) == Some(second - first)
  {
  }

  lemma FirstIsHit(cal: Calendar, months: nat -> nat, j: nat, start: nat, step: nat)
    requires step >= 2 && 1 <= start <= LowerOf(step - 1, 28)
    requires ValidMonths(months) && Follows(cal, months) && months(j) == 31
    ensures var (i, d) := FirstSampled(start, step, j);
            1 <= d <= months(i) && DomHit(start, step, d) && DomHit(start, step, cal.dom(DayOf(months, i, d)))
  {
    var (i, d) := FirstSampled(start, step, j);
    HitAt(months, cal, start, step, i, d);
    NextOneLater(0, step);
  }

  lemma BeforeFirst(cal: Calendar, months: nat -> nat, j: nat, start: nat, step: nat, day: nat)
    requires step >= 2 && 1 <= start <= LowerOf(step - 1, 28)
    requires ValidMonths(months) && Follows(cal, months) && months(j) == 31
    requires var (i, d) := FirstSampled(start, step, j); DayOf(months, j, 2) <= day < DayOf(months, i, d)
    ensures !DomHit(start, step, cal.dom(day))
  {
    if start == 1 {
      assert MonthStart(months, j + 1) == MonthStart(months, j) + 31;
      NoHitBetween(months, cal, start, step, j, 1, day);
    } else {
      var e := day - MonthStart(months, j) + 1;
      assert cal.dom(DayOf(months, j, e)) == e;
    }
  }
}
