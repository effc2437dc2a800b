/** Keyed token buckets and the auto-mute window (limits.go take, allowRate, exhausted, noteRateHit).
    Amounts and times are real numbers; the clock never runs backwards. */
module TokenBucket {
  import opened Util

  const HOUR: real := 3600.0
  const MANY: nat := 4096

  // ---- one bucket -----------------------------------------------------------------------------

  datatype Bucket = Bucket(tokens: real, last: real, rate: real, burst: real)

  function NewBucket(rate: real, burst: real, now: real): Bucket { Bucket(burst, now, rate, burst) }

  /** What has accumulated by `now`, before any cap. */
  function Accrued(b: Bucket, now: real): real { b.tokens + (now - b.last) * b.rate }

  function Available(b: Bucket, now: real): real {
    if Accrued(b, now) > b.burst then b.burst else Accrued(b, now)
  }

  predicate Grants(b: Bucket, now: real, n: real) { Available(b, now) >= n }

  function Taken(b: Bucket, now: real, n: real): Bucket {
    b.(last := now, tokens := if Grants(b, now, n) then Available(b, now) - n else Available(b, now))
  }

  // ---- many calls on one bucket -----------------------------------------------------------------

  /** A call brings the limits in force when it is made. */
  datatype Call = Call(now: real, rate: real, burst: real, n: real)

  function Adjusted(b: Bucket, c: Call): Bucket { b.(rate := c.rate, burst := c.burst) }

  function Next(b: Bucket, c: Call): Bucket { Taken(Adjusted(b, c), c.now, c.n) }

  function Spent(b: Bucket, c: Call): real {
    if Grants(Adjusted(b, c), c.now, c.n) then c.n else 0.0
  }

  /** What a call was granted, and what it left in the bucket. */
  datatype Point = Point(now: real, spent: real, left: real)

  function PointOf(b: Bucket, c: Call): Point { Point(c.now, Spent(b, c), Next(b, c).tokens) }

  function After(b: Bucket, cs: seq<Call>): Bucket {
    if cs == [] then b else Next(After(b, cs[..|cs| - 1]), cs[|cs| - 1])
  }

  function Trace(b: Bucket, cs: seq<Call>): (ps: seq<Point>)
    ensures |ps| == |cs|
  {
    if cs == [] then [] else
      var c := cs[|cs| - 1];
      var b1 := After(b, cs[..|cs| - 1]);
      Trace(b, cs[..|cs| - 1]) + [PointOf(b1, c)]
  }

  function Total(ps: seq<Point>): real {
    if ps == [] then 0.0 else Total(ps[..|ps| - 1]) + ps[|ps| - 1].spent
  }

  ghost predicate CallOk(c: Call, maxRate: real, maxBurst: real) {
    0.0 <= c.rate <= maxRate && 0.0 <= c.burst <= maxBurst && 0.0 <= c.n
  }

  /** Calls in time order from `start`, none above the given limits. */
  ghost predicate CallsOk(cs: seq<Call>, start: real, maxRate: real, maxBurst: real) {
    && (forall i :: 0 <= i < |cs| ==> CallOk(cs[i], maxRate, maxBurst) && start <= cs[i].now)
    && forall i, j :: 0 <= i < j < |cs| ==> cs[i].now <= cs[j].now
  }

  // ---- what a trace can add up to ------------------------------------------------------------------

  /** An upper bound on what comes in during a stretch of time; stretches add up. */
  ghost predicate Income(f: real -> real) { forall x, y :: Adds(f, x, y) }

  ghost predicate Adds(f: real -> real, x: real, y: real) { f(x) + f(y) == f(x + y) }

  ghost predicate PointOk(p: Point, maxBurst: real) {
    0.0 <= p.spent && 0.0 <= p.left && p.spent + p.left <= maxBurst
  }

  /** One call spends no more than the previous one left plus what came in since. */
  ghost predicate Follows(p: Point, q: Point, f: real -> real) {
    q.spent + q.left <= p.left + f(q.now - p.now)
  }

  ghost predicate Flows(ps: seq<Point>, f: real -> real, maxBurst: real) {
    && (forall i :: 0 <= i < |ps| ==> PointOk(ps[i], maxBurst))
    && forall i, j :: 0 <= i && j == i + 1 && j < |ps| ==> Follows(ps[i], ps[j], f)
  }

  /** The first call of a window finds at most a full bucket; the others add what comes in. */
  lemma {:induction false} WindowTotal(ps: seq<Point>, f: real -> real, maxBurst: real)
    requires ps != [] && Income(f) && Flows(ps, f, maxBurst)
    ensures Total(ps) + ps[|ps| - 1].left <= maxBurst + f(ps[|ps| - 1].now - ps[0].now)
  {
    var n := |ps| - 1;
    var front := ps[..n];
    if n == 0 {
      assert Adds(f, 0.0, 0.0);
      assert Total(front) == 0.0;
      assert PointOk(ps[0], maxBurst);
    } else {
      assert forall i :: 0 <= i < n ==> front[i] == ps[i];
      WindowTotal(front, f, maxBurst);
      assert Follows(ps[n - 1], ps[n], f);
      assert Adds(f, ps[n - 1].now - ps[0].now, ps[n].now - ps[n - 1].now);
    }
  }

  // ---- a bucket's trace is of that kind ----------------------------------------------------------------

  /** `f` is the income at `rate`. */
  ghost predicate At(f: real -> real, rate: real) { forall x :: IncomeAt(f, rate, x) }

  ghost predicate IncomeAt(f: real -> real, rate: real, x: real) { f(x) == x * rate }

  lemma {:induction false} CallSpends(b: Bucket, c: Call, f: real -> real, maxRate: real, maxBurst: real)
    requires CallOk(c, maxRate, maxBurst) && At(f, maxRate) && b.last <= c.now && 0.0 <= b.tokens
    ensures PointOk(PointOf(b, c), maxBurst)
    ensures PointOf(b, c).spent + PointOf(b, c).left <= b.tokens + f(c.now - b.last)
  {
    var elapsed := c.now - b.last;
    assert IncomeAt(f, maxRate, elapsed);
    assert 0.0 <= elapsed * c.rate <= elapsed * maxRate;
    assert Accrued(Adjusted(b, c), c.now) == b.tokens + elapsed * c.rate;
    var there := Available(Adjusted(b, c), c.now);
    assert PointOf(b, c).spent + PointOf(b, c).left == there;
    assert there <= b.tokens + elapsed * c.rate;
    assert f(elapsed) == elapsed * maxRate;
  }

  /** A trace ends where its bucket stands. */
  lemma {:induction false} TraceEnds(b: Bucket, cs: seq<Call>)
    requires cs != []
    ensures var p := Trace(b, cs)[|cs| - 1];
            p == PointOf(After(b, cs[..|cs| - 1]), cs[|cs| - 1]) && After(b, cs).tokens == p.left &&
              After(b, cs).last == p.now
  {
  }

  lemma {:induction false} TraceFlows(b: Bucket, cs: seq<Call>, f: real -> real, maxRate: real, maxBurst: real)
    requires CallsOk(cs, b.last, maxRate, maxBurst) && At(f, maxRate) && 0.0 <= b.tokens
    ensures Flows(Trace(b, cs), f, maxBurst)
    ensures forall i :: 0 <= i < |cs| ==> Trace(b, cs)[i].now == cs[i].now
  {
    if cs != [] {
      var n := |cs| - 1;
      var front := cs[..n];
      assert forall i :: 0 <= i < n ==> front[i] == cs[i];
      TraceFlows(b, front, f, maxRate, maxBurst);
      TraceEnds(b, cs);
      if n > 0 {
        TraceEnds(b, front);
        assert PointOk(Trace(b, front)[n - 1], maxBurst);
      }
      assert CallOk(cs[n], maxRate, maxBurst);
      CallSpends(After(b, front), cs[n], f, maxRate, maxBurst);
      AppendFlows(Trace(b, front), PointOf(After(b, front), cs[n]), f, maxBurst);
    }
  }

  lemma {:induction false} AppendFlows(ps: seq<Point>, q: Point, f: real -> real, maxBurst: real)
    requires Flows(ps, f, maxBurst) && PointOk(q, maxBurst) && (ps != [] ==> Follows(ps[|ps| - 1], q, f))
    ensures Flows(ps + [q], f, maxBurst)
  {
  }

  lemma {:induction false} PartFlows(ps: seq<Point>, i: nat, j: nat, f: real -> real, maxBurst: real)
    requires Flows(ps, f, maxBurst) && i <= j <= |ps|
    ensures Flows(ps[i..j], f, maxBurst)
  {
    forall k, l | 0 <= k && l == k + 1 && l < j - i ensures Follows(ps[i..j][k], ps[i..j][l], f) {
      assert Follows(ps[i + k], ps[i + l], f);
    }
  }

  lemma {:induction false} RateIsIncome(f: real -> real, rate: real)
    requires At(f, rate)
    ensures Income(f)
  {
    forall x: real, y: real ensures Adds(f, x, y) {
      assert IncomeAt(f, rate, x) && IncomeAt(f, rate, y) && IncomeAt(f, rate, x + y);
      assert x * rate + y * rate == (x + y) * rate;
    }
  }

  lemma {:induction false} PartTotal(ps: seq<Point>, i: nat, j: nat, f: real -> real, maxBurst: real)
    requires Income(f) && Flows(ps, f, maxBurst) && i < j <= |ps|
    ensures Total(ps[i..j]) <= maxBurst + f(ps[j - 1].now - ps[i].now)
  {
    PartFlows(ps, i, j, f, maxBurst);
    WindowTotal(ps[i..j], f, maxBurst);
    assert ps[i..j][0] == ps[i] && ps[i..j][j - i - 1] == ps[j - 1];
    assert PointOk(ps[j - 1], maxBurst);
  }

  lemma {:induction false} WindowIncome(b: Bucket, cs: seq<Call>, i: nat, j: nat, f: real -> real, maxRate: real,
      maxBurst: real)
    requires CallsOk(cs, b.last, maxRate, maxBurst) && At(f, maxRate) && 0.0 <= b.tokens && i < j <= |cs|
    ensures Total(Trace(b, cs)[i..j]) <= maxBurst + f(cs[j - 1].now - cs[i].now)
    ensures 0.0 <= Trace(b, cs)[i].left <= maxBurst
  {
    RateIsIncome(f, maxRate);
    TraceFlows(b, cs, f, maxRate, maxBurst);
    PartTotal(Trace(b, cs), i, j, f, maxBurst);
    assert PointOk(Trace(b, cs)[i], maxBurst);
  }

  /** Between any two calls of any sequence, with limits changing from call to call, what is granted stays
      within one burst plus what the rate brings in between; the bucket is never in debt nor overfull. */
  lemma {:induction false} SlidingWindow(b: Bucket, cs: seq<Call>, i: nat, j: nat, maxRate: real, maxBurst: real)
    requires CallsOk(cs, b.last, maxRate, maxBurst) && 0.0 <= b.tokens && i < j <= |cs|
    ensures Total(Trace(b, cs)[i..j]) <= maxBurst + (cs[j - 1].now - cs[i].now) * maxRate
    ensures 0.0 <= Trace(b, cs)[i].left <= maxBurst
  {
    var f := (x: real) => x * maxRate;
    assert At(f, maxRate) by {
      assert forall x :: IncomeAt(f, maxRate, x);
    }
    WindowIncome(b, cs, i, j, f, maxRate, maxBurst);
    assert IncomeAt(f, maxRate, cs[j - 1].now - cs[i].now);
  }

  // ---- the limiter ----------------------------------------------------------------------------------

  datatype Limiter = Limiter(buckets: map<string, Bucket>, seen: map<string, real>)

  /** The bucket a call will take from: a new one, or the stored one under the current limits. */
  function Found(l: Limiter, key: string, c: Call): Bucket {
    if key in l.buckets then Adjusted(l.buckets[key], c) else NewBucket(c.rate, c.burst, c.now)
  }

  function Collected(l: Limiter, now: real): Limiter {
    Limiter(map k | k in l.buckets && !(k in l.seen && now - l.seen[k] > HOUR) :: l.buckets[k],
            map k | k in l.seen && !(now - l.seen[k] > HOUR) :: l.seen[k])
  }

  /** Stored and marked as seen; stale keys go when there are many. */
  function Touched(l: Limiter, key: string, c: Call, collect: bool): Limiter {
    var l1 := Limiter(l.buckets[key := Found(l, key, c)], l.seen[key := c.now]);
    if collect && |l1.buckets| > MANY then Collected(l1, c.now) else l1
  }

  predicate Allows(l: Limiter, key: string, c: Call) { Grants(Found(l, key, c), c.now, c.n) }

  function AllowRate(l: Limiter, key: string, c: Call, collect: bool): Limiter {
    var l1 := Touched(l, key, c, collect);
    l1.(buckets := l1.buckets[key := Taken(Found(l, key, c), c.now, c.n)])
  }

  predicate Exhausted(l: Limiter, key: string, now: real) {
    key in l.buckets && Accrued(l.buckets[key], now) < 1.0
  }

  lemma {:induction false} NewIsFull(rate: real, burst: real, now: real)
    ensures Accrued(NewBucket(rate, burst, now), now) == burst && Available(NewBucket(rate, burst, now), now) == burst
  {
    assert (now - now) * rate == 0.0;
  }

  datatype Limit = Limit(rate: real, burst: real)

  predicate Under(b: Bucket, m: Limit) { b.rate == m.rate && b.burst == m.burst }

  /** Asking `exhausted` first and taking one token afterwards give the same verdict. */
  ghost predicate Foretold(l: Limiter, key: string, m: Limit, now: real) {
    Exhausted(l, key, now) == !Allows(l, key, Call(now, m.rate, m.burst, 1.0))
  }

  ghost predicate AlwaysForetold(m: Limit) {
    forall l: Limiter, key: string, now: real :: (key in l.buckets ==> Under(l.buckets[key], m)) ==>
      Foretold(l, key, m, now)
  }

  lemma {:induction false} AgreesAt(l: Limiter, key: string, m: Limit, now: real)
    requires key in l.buckets ==> Under(l.buckets[key], m)
    ensures Exhausted(l, key, now) ==> Foretold(l, key, m, now)
    ensures m.burst >= 1.0 ==> Foretold(l, key, m, now)
    ensures m.burst < 1.0 ==> !Allows(l, key, Call(now, m.rate, m.burst, 1.0))
  {
    if key in l.buckets {
      assert Adjusted(l.buckets[key], Call(now, m.rate, m.burst, 1.0)) == l.buckets[key];
    } else {
      NewIsFull(m.rate, m.burst, now);
    }
  }

  /** A request is granted exactly when what has come in since, up to a burst, covers it. A granted one costs
      what it asked for, a refused one nothing, and the limits stay. */
  lemma {:induction false} TakeExact(b: Bucket, now: real, n: real)
    ensures var full := b.tokens + (now - b.last) * b.rate;
            var there := if full > b.burst then b.burst else full;
            && (Grants(b, now, n) <==> there >= n)
            && Taken(b, now, n) == Bucket(if there >= n then there - n else there, now, b.rate, b.burst)
  {
  }

  /** Being refused changes nothing for whoever asks next at the same moment. */
  lemma {:induction false} RefusalIsFree(b: Bucket, now: real, n: real, m: real)
    requires !Grants(b, now, n)
    ensures Grants(Taken(b, now, n), now, m) <==> Grants(b, now, m)
    ensures Available(Taken(b, now, n), now) == Available(b, now)
  {
    assert (now - now) * b.rate == 0.0;
  }

  /** The current limits apply to a bucket that is there; a new one starts full. */
  lemma {:induction false} FoundExact(l: Limiter, key: string, c: Call)
    ensures var b := Found(l, key, c);
            && b.rate == c.rate && b.burst == c.burst
            && (key in l.buckets ==> b.tokens == l.buckets[key].tokens && b.last == l.buckets[key].last)
            && (key !in l.buckets ==> b.tokens == c.burst && b.last == c.now)
    ensures Allows(l, key, c) <==> Grants(Found(l, key, c), c.now, c.n)
  {
  }

  /** Only keys not used for more than an hour are forgotten, and only when there are more than 4096; every
      other bucket is as it was. */
  lemma {:induction false} OthersKept(l: Limiter, key: string, c: Call, collect: bool, k: string)
    requires k != key && k in l.buckets && (k in l.seen ==> c.now - l.seen[k] <= HOUR || !collect || |l.buckets| < MANY)
    ensures var l' := AllowRate(l, key, c, collect);
            k in l'.buckets && l'.buckets[k] == l.buckets[k] &&
              (k in l.seen ==> k in l'.seen && l'.seen[k] == l.seen[k])
  {
    var bs := l.buckets[key := Found(l, key, c)];
    assert |bs| <= |l.buckets| + 1 by {
      assert bs.Keys == l.buckets.Keys + {key};
      assert |bs| == |bs.Keys| && |l.buckets| == |l.buckets.Keys|;
    }
  }

  /** `exhausted` foretells in every state what taking one token would do exactly when a burst holds one. */
  lemma {:induction false} ExhaustedForetells(m: Limit)
    ensures AlwaysForetold(m) <==> m.burst >= 1.0
  {
    forall l: Limiter, key: string, now: real | (key in l.buckets ==> Under(l.buckets[key], m)) && m.burst >= 1.0
      ensures Foretold(l, key, m, now)
    {
      AgreesAt(l, key, m, now);
    }
    if m.burst < 1.0 {
      AgreesAt(Limiter(map[], map[]), "", m, 0.0);
      assert !Foretold(Limiter(map[], map[]), "", m, 0.0);
    }
  }

  // ---- forgetting idle keys changes nothing --------------------------------------------------------------

  datatype Request = Request(key: string, now: real, n: real)

  function AsCall(r: Request, lim: map<string, Limit>): Call
    requires r.key in lim
  {
    Call(r.now, lim[r.key].rate, lim[r.key].burst, r.n)
  }

  ghost predicate RequestsOk(rs: seq<Request>, lim: map<string, Limit>, start: real) {
    && (forall i :: 0 <= i < |rs| ==> rs[i].key in lim && start <= rs[i].now && 0.0 <= rs[i].n)
    && forall i, j :: 0 <= i < j < |rs| ==> rs[i].now <= rs[j].now
  }

  /** An hour is enough to fill the bucket. */
  predicate FillsInAnHour(m: Limit) { 0.0 <= m.rate && 0.0 <= m.burst && HOUR * m.rate >= m.burst }

  ghost predicate LimitsOk(lim: map<string, Limit>) { forall k :: k in lim ==> FillsInAnHour(lim[k]) }

  function Decisions(l: Limiter, rs: seq<Request>, lim: map<string, Limit>, collect: bool): seq<bool>
    requires forall i :: 0 <= i < |rs| ==> rs[i].key in lim
    decreases |rs|
  {
    if rs == [] then [] else
      var c := AsCall(rs[0], lim);
      [Allows(l, rs[0].key, c)] + Decisions(AllowRate(l, rs[0].key, c, collect), rs[1..], lim, collect)
  }

  ghost predicate SteadyBucket(b: Bucket, m: Limit) {
    b.rate == m.rate && b.burst == m.burst && 0.0 <= b.tokens <= m.burst
  }

  /** A limiter that never forgets, under constant limits. */
  ghost predicate Steady(l: Limiter, lim: map<string, Limit>, now: real) {
    && (forall k :: k in l.buckets <==> k in l.seen)
    && forall k :: k in l.buckets ==>
      k in lim && SteadyBucket(l.buckets[k], lim[k]) && l.buckets[k].last == l.seen[k] && l.seen[k] <= now
  }

  /** The limiter that forgets has the same buckets, except some that have been idle for over an hour. */
  ghost predicate Forgets(l: Limiter, full: Limiter, now: real) {
    && (forall k :: k in l.buckets <==> k in l.seen)
    && (forall k :: k in l.buckets ==>
      k in full.buckets && full.buckets[k] == l.buckets[k] && k in full.seen && full.seen[k] == l.seen[k])
    && forall k :: k in full.buckets && k !in l.buckets ==> k in full.seen && now - full.seen[k] > HOUR
  }

  lemma {:induction false} IdleIsFull(b: Bucket, m: Limit, now: real)
    requires FillsInAnHour(m) && b.rate == m.rate && b.burst == m.burst && 0.0 <= b.tokens && now - b.last > HOUR
    ensures Available(b, now) == m.burst
  {
    var idle := now - b.last;
    IdleIncome(idle, b.rate);
    assert Accrued(b, now) == b.tokens + idle * b.rate;
    assert idle * b.rate >= m.burst;
    assert Accrued(b, now) >= b.burst;
  }

  lemma {:induction false} IdleIncome(idle: real, rate: real)
    requires idle > HOUR && 0.0 <= rate
    ensures idle * rate >= HOUR * rate
  {
    assert (idle - HOUR) * rate >= 0.0;
    assert idle * rate == HOUR * rate + (idle - HOUR) * rate;
  }

  lemma {:induction false} SameAnswer(l: Limiter, full: Limiter, lim: map<string, Limit>, r: Request, now: real)
    requires LimitsOk(lim) && r.key in lim && now <= r.now && Steady(full, lim, now) && Forgets(l, full, now)
    ensures var c := AsCall(r, lim);
            && Allows(l, r.key, c) == Allows(full, r.key, c)
            && Taken(Found(l, r.key, c), c.now, c.n) == Taken(Found(full, r.key, c), c.now, c.n)
  {
    var c := AsCall(r, lim);
    if r.key in full.buckets && r.key !in l.buckets {
      IdleIsFull(full.buckets[r.key], lim[r.key], r.now);
      NewIsFull(c.rate, c.burst, c.now);
    }
  }

  lemma {:induction false} TakenSteady(b: Bucket, m: Limit, now: real, n: real)
    requires SteadyBucket(b, m) && FillsInAnHour(m) && b.last <= now && 0.0 <= n
    ensures SteadyBucket(Taken(b, now, n), m)
  {
    assert 0.0 <= (now - b.last) * b.rate;
  }

  lemma {:induction false} SteadyKept(full: Limiter, lim: map<string, Limit>, r: Request, now: real)
    requires LimitsOk(lim) && r.key in lim && now <= r.now && 0.0 <= r.n && Steady(full, lim, now)
    ensures Steady(AllowRate(full, r.key, AsCall(r, lim), false), lim, r.now)
  {
    var c := AsCall(r, lim);
    assert SteadyBucket(Found(full, r.key, c), lim[r.key]);
    TakenSteady(Found(full, r.key, c), lim[r.key], c.now, c.n);
  }

  lemma {:induction false} ForgetsKept(l: Limiter, full: Limiter, lim: map<string, Limit>, r: Request, now: real)
    requires LimitsOk(lim) && r.key in lim && now <= r.now && Steady(full, lim, now) && Forgets(l, full, now)
    ensures Forgets(AllowRate(l, r.key, AsCall(r, lim), true), AllowRate(full, r.key, AsCall(r, lim), false), r.now)
  {
    SameAnswer(l, full, lim, r, now);
  }

  /** Deleting idle keys under memory pressure changes no decision, for keys whose limits stay the same and
      whose bucket fills within the hour. */
  lemma {:induction false} EvictionInvisible(l: Limiter, full: Limiter, lim: map<string, Limit>, rs: seq<Request>,
      now: real)
    requires LimitsOk(lim) && RequestsOk(rs, lim, now) && Steady(full, lim, now) && Forgets(l, full, now)
    ensures Decisions(l, rs, lim, true) == Decisions(full, rs, lim, false)
    decreases |rs|
  {
    if rs != [] {
      var r := rs[0];
      SameAnswer(l, full, lim, r, now);
      SteadyKept(full, lim, r, now);
      ForgetsKept(l, full, lim, r, now);
      assert RequestsOk(rs[1..], lim, r.now);
      EvictionInvisible(AllowRate(l, r.key, AsCall(r, lim), true), AllowRate(full, r.key, AsCall(r, lim), false), lim,
        rs[1..], r.now);
    }
  }

  // ---- and only then --------------------------------------------------------------------------------------

  ghost predicate Everywhere(lim: map<string, Limit>, m: Limit) { forall k :: k in lim ==> lim[k] == m }

  ghost predicate Known(rs: seq<Request>, lim: map<string, Limit>) {
    forall i :: 0 <= i < |rs| ==> rs[i].key in lim
  }

  function NewLimiter(): Limiter { Limiter(map[], map[]) }

  ghost predicate SameDecisions(lim: map<string, Limit>, rs: seq<Request>) {
    RequestsOk(rs, lim, 0.0) ==> Decisions(NewLimiter(), rs, lim, true) == Decisions(NewLimiter(), rs, lim, false)
  }

  /** From a new limiter on, forgetting changes no decision on any requests under the limit. */
  ghost predicate EvictionHarmless(m: Limit) {
    forall lim, rs :: Everywhere(lim, m) ==> SameDecisions(lim, rs)
  }

  ghost function Served(l: Limiter, rs: seq<Request>, lim: map<string, Limit>, collect: bool): Limiter
    requires Known(rs, lim)
    decreases |rs|
  {
    if rs == [] then l else Served(AllowRate(l, rs[0].key, AsCall(rs[0], lim), collect), rs[1..], lim, collect)
  }

  /** One more request, seen from the end of the sequence. */
  lemma {:induction false} OneMoreKnown(rs: seq<Request>, r: Request, all: seq<Request>, lim: map<string, Limit>)
    requires Known(rs, lim) && r.key in lim && all == rs + [r]
    ensures Known(all, lim)
  {
  }

  lemma {:induction false} OneMoreServed(l: Limiter, rs: seq<Request>, r: Request, all: seq<Request>,
                                         lim: map<string, Limit>, collect: bool)
    requires Known(rs, lim) && r.key in lim && all == rs + [r] && Known(all, lim)
    ensures Served(l, all, lim, collect) ==
            AllowRate(Served(l, rs, lim, collect), r.key, AsCall(r, lim), collect)
    decreases |rs|
  {
    if rs == [] {
      assert all[0] == r && all[1..] == [];
    } else {
      FirstOfConcat(rs, [r], all);
      OneMoreServed(AllowRate(l, rs[0].key, AsCall(rs[0], lim), collect), rs[1..], r, all[1..], lim, collect);
    }
  }

  lemma {:induction false} OneMoreDecided(l: Limiter, rs: seq<Request>, r: Request, all: seq<Request>,
                                          lim: map<string, Limit>, collect: bool)
    requires Known(rs, lim) && r.key in lim && all == rs + [r] && Known(all, lim)
    ensures Decisions(l, all, lim, collect) ==
            Decisions(l, rs, lim, collect) + [Allows(Served(l, rs, lim, collect), r.key, AsCall(r, lim))]
    decreases |rs|
  {
    if rs == [] {
      assert all[0] == r && all[1..] == [];
    } else {
      FirstOfConcat(rs, [r], all);
      OneMoreDecided(AllowRate(l, rs[0].key, AsCall(rs[0], lim), collect), rs[1..], r, all[1..], lim, collect);
    }
  }

  lemma {:induction false} OneMore(l: Limiter, rs: seq<Request>, r: Request, all: seq<Request>, lim: map<string, Limit>,
                                   collect: bool)
    requires Known(rs, lim) && r.key in lim && all == rs + [r]
    ensures Known(all, lim)
    ensures Decisions(l, all, lim, collect) ==
            Decisions(l, rs, lim, collect) + [Allows(Served(l, rs, lim, collect), r.key, AsCall(r, lim))]
    ensures Served(l, all, lim, collect) ==
            AllowRate(Served(l, rs, lim, collect), r.key, AsCall(r, lim), collect)
  {
    OneMoreKnown(rs, r, all, lim);
    OneMoreServed(l, rs, r, all, lim, collect);
    OneMoreDecided(l, rs, r, all, lim, collect);
  }

  function Crowd(n: nat): (ks: set<string>)
    ensures forall k :: k in ks ==> |k| < n
    ensures forall i :: 0 <= i < n ==> Name(i) in ks
    ensures |ks| == n
  {
    if n == 0 then {} else Crowd(n - 1) + {Name(n - 1)}
  }

  /** That many keys, all of them empty since time 0. */
  function Crowded(m: Limit, n: nat): Limiter {
    var ks := Crowd(n);
    Limiter(map k | k in ks :: Bucket(0.0, 0.0, m.rate, m.burst), map k | k in ks :: 0.0)
  }

  function Uniform(m: Limit): map<string, Limit> {
    var ks := Crowded(m, MANY + 1).seen;
    map k | k in ks :: m
  }

  /** Each of that many keys asks for its full burst at time 0. */
  function Crowding(m: Limit, n: nat): (rs: seq<Request>)
    ensures |rs| == n && forall i :: 0 <= i < n ==> rs[i] == Request(Name(i), 0.0, m.burst)
  {
    if n == 0 then [] else Crowding(m, n - 1) + [Request(Name(n - 1), 0.0, m.burst)]
  }

  lemma {:induction false} NothingIdle(l: Limiter)
    requires forall k :: k in l.seen ==> l.seen[k] == 0.0
    ensures Collected(l, 0.0) == l
  {
  }

  lemma {:induction false} OneMoreKey(m: Limit, n: nat, collect: bool)
    ensures AllowRate(Crowded(m, n), Name(n), Call(0.0, m.rate, m.burst, m.burst), collect) == Crowded(m, n + 1)
  {
    var l, c := Crowded(m, n), Call(0.0, m.rate, m.burst, m.burst);
    NewIsFull(m.rate, m.burst, 0.0);
    assert Name(n) !in l.buckets;
    var b := NewBucket(m.rate, m.burst, 0.0);
    assert Taken(b, 0.0, m.burst) == Bucket(0.0, 0.0, m.rate, m.burst);
    NothingIdle(Limiter(l.buckets[Name(n) := b], l.seen[Name(n) := 0.0]));
  }

  lemma {:induction false} CrowdReached(m: Limit, n: nat, collect: bool)
    requires n <= MANY + 1
    ensures Known(Crowding(m, n), Uniform(m))
    ensures Served(NewLimiter(), Crowding(m, n), Uniform(m), collect) == Crowded(m, n)
  {
    if n > 0 {
      var front, r := Crowding(m, n - 1), Request(Name(n - 1), 0.0, m.burst);
      CrowdReached(m, n - 1, collect);
      OneMore(NewLimiter(), front, r, Crowding(m, n), Uniform(m), collect);
      OneMoreKey(m, n - 1, collect);
    }
  }

  lemma {:induction false} Evicted(l: Limiter, key: string, c: Call, k: string)
    requires key in l.buckets && |l.buckets| > MANY && k != key && k in l.seen && c.now - l.seen[k] > HOUR
    ensures k !in AllowRate(l, key, c, true).buckets
  {
    assert l.buckets[key := Found(l, key, c)].Keys == l.buckets.Keys;
    assert |l.buckets[key := Found(l, key, c)]| == |l.buckets.Keys| == |l.buckets|;
  }

  /** One key wakes the collector, which forgets the others. */
  lemma {:induction false} CrowdForgotten(m: Limit, now: real, n: real)
    requires now > HOUR
    ensures Name(0) !in AllowRate(Crowded(m, MANY + 1), Name(1), Call(now, m.rate, m.burst, n), true).buckets
  {
    var l := Crowded(m, MANY + 1);
    assert l.buckets.Keys == Crowd(MANY + 1);
    assert |l.buckets| == |l.buckets.Keys|;
    assert |Name(0)| != |Name(1)|;
    Evicted(l, Name(1), Call(now, m.rate, m.burst, n), Name(0));
  }

  lemma {:induction false} CrowdKept(m: Limit, now: real, n: real)
    ensures var l := AllowRate(Crowded(m, MANY + 1), Name(1), Call(now, m.rate, m.burst, n), false);
            Name(0) in l.buckets && l.buckets[Name(0)] == Bucket(0.0, 0.0, m.rate, m.burst)
  {
    assert |Name(0)| != |Name(1)|;
  }

  lemma {:induction false} FullBurst(l: Limiter, key: string, m: Limit, now: real)
    requires now * m.rate < m.burst
    ensures key !in l.buckets ==> Allows(l, key, Call(now, m.rate, m.burst, m.burst))
    ensures key in l.buckets && l.buckets[key] == Bucket(0.0, 0.0, m.rate, m.burst)
        ==> !Allows(l, key, Call(now, m.rate, m.burst, m.burst))
  {
    NewIsFull(m.rate, m.burst, now);
    assert Accrued(Bucket(0.0, 0.0, m.rate, m.burst), now) == now * m.rate;
  }

  /** The crowd, then one of it an hour later, then another one asking for a full burst. */
  function Awakened(m: Limit, now: real): seq<Request> {
    Crowding(m, MANY + 1) + [Request(Name(1), now, 1.0)] + [Request(Name(0), now, m.burst)]
  }

  lemma {:induction false} LastDecision(m: Limit, now: real, collect: bool)
    ensures Known(Awakened(m, now), Uniform(m))
    ensures var ds := Decisions(NewLimiter(), Awakened(m, now), Uniform(m), collect);
            var l := AllowRate(Crowded(m, MANY + 1), Name(1), Call(now, m.rate, m.burst, 1.0), collect);
            |ds| > 0 && ds[|ds| - 1] == Allows(l, Name(0), Call(now, m.rate, m.burst, m.burst))
  {
    var crowd, a, b := Crowding(m, MANY + 1), Request(Name(1), now, 1.0), Request(Name(0), now, m.burst);
    CrowdReached(m, MANY + 1, collect);
    OneMore(NewLimiter(), crowd, a, crowd + [a], Uniform(m), collect);
    OneMore(NewLimiter(), crowd + [a], b, Awakened(m, now), Uniform(m), collect);
  }

  lemma {:induction false} AwakenedOk(m: Limit, now: real)
    requires 0.0 <= m.burst && 0.0 <= now
    ensures Everywhere(Uniform(m), m) && RequestsOk(Awakened(m, now), Uniform(m), 0.0)
  {
  }

  lemma {:induction false} EvictionHarms(m: Limit, now: real)
    requires 0.0 <= m.rate && 0.0 <= m.burst && now > HOUR && now * m.rate < m.burst
    ensures !EvictionHarmless(m)
  {
    AwakenedOk(m, now);
    LastDecision(m, now, true);
    LastDecision(m, now, false);
    CrowdForgotten(m, now, 1.0);
    CrowdKept(m, now, 1.0);
    FullBurst(AllowRate(Crowded(m, MANY + 1), Name(1), Call(now, m.rate, m.burst, 1.0), true), Name(0), m, now);
    FullBurst(AllowRate(Crowded(m, MANY + 1), Name(1), Call(now, m.rate, m.burst, 1.0), false), Name(0), m, now);
    assert !SameDecisions(Uniform(m), Awakened(m, now));
  }

  /** The condition of EvictionInvisible is exact: where an hour does not fill the bucket, some requests to a
      new limiter are decided differently for its having forgotten. */
  lemma {:induction false} HourIsEnough(m: Limit)
    requires 0.0 <= m.rate && 0.0 <= m.burst
    ensures EvictionHarmless(m) <==> FillsInAnHour(m)
  {
    if FillsInAnHour(m) {
      forall lim, rs | Everywhere(lim, m) ensures SameDecisions(lim, rs) {
        if RequestsOk(rs, lim, 0.0) { EvictionInvisible(NewLimiter(), NewLimiter(), lim, rs, 0.0); }
      }
    } else {
      var extra := JustOver(m);
      EvictionHarms(m, HOUR + extra);
    }
  }

  lemma {:induction false} JustOver(m: Limit) returns (extra: real)
    requires 0.0 <= m.rate && HOUR * m.rate < m.burst
    ensures extra > 0.0 && (HOUR + extra) * m.rate < m.burst
  {
    var gap := m.burst - HOUR * m.rate;
    extra := gap / (m.rate + 1.0);
    assert extra * (m.rate + 1.0) == gap;
    assert extra * m.rate == gap - extra;
    assert (HOUR + extra) * m.rate == HOUR * m.rate + extra * m.rate;
  }

  // ---- auto-mute ---------------------------------------------------------------------------------------------

  const FIVE_MINUTES: int := 5 * 60 * 1000

  /** The hits of the last five minutes. */
  function Recent(hits: seq<int>, cut: int): seq<int> {
    if hits == [] then [] else
      var r := Recent(hits[..|hits| - 1], cut);
      if hits[|hits| - 1] > cut then r + [hits[|hits| - 1]] else r
  }

  datatype Noted = Noted(hits: seq<int>, mute: bool)

  /** One more hit; too many within five minutes mute the member and start the count again. */
  function NoteHit(hits: seq<int>, now: int, max: nat): Noted {
    var all := Recent(hits, now - FIVE_MINUTES) + [now];
    if max > 0 && |all| > max then Noted([], true) else Noted(all, false)
  }

  /** The stored hits, and next to them the hits since the last mute with none forgotten. */
  datatype Track = Track(hits: seq<int>, since: seq<int>)

  function Noticed(t: Track, now: int, max: nat): Track {
    var r := NoteHit(t.hits, now, max);
    Track(r.hits, if r.mute then [] else t.since + [now])
  }

  function Tracked(times: seq<int>, max: nat): Track {
    if times == [] then Track([], []) else Noticed(Tracked(times[..|times| - 1], max), times[|times| - 1], max)
  }

  lemma {:induction false} RecentTwice(hits: seq<int>, cut1: int, cut2: int)
    requires cut1 <= cut2
    ensures Recent(Recent(hits, cut1), cut2) == Recent(hits, cut2)
  {
    if hits != [] {
      var front, t := hits[..|hits| - 1], hits[|hits| - 1];
      RecentTwice(front, cut1, cut2);
      RecentSnoc(Recent(front, cut1), t, cut2);
    }
  }

  lemma {:induction false} RecentSnoc(hits: seq<int>, t: int, cut: int)
    ensures Recent(hits + [t], cut) == if t > cut then Recent(hits, cut) + [t] else Recent(hits, cut)
  {
    assert (hits + [t])[..|hits + [t]| - 1] == hits;
  }

  /** `t` stores the hits of the five minutes before `last`. */
  ghost predicate UpToDate(t: Track, last: int) { t.hits == Recent(t.since, last - FIVE_MINUTES) }

  lemma {:induction false} NoticedUpToDate(t: Track, last: int, now: int, max: nat)
    requires UpToDate(t, last) && last <= now
    ensures UpToDate(Noticed(t, now, max), now)
    ensures NoteHit(t.hits, now, max).mute <==> max > 0 && |Recent(t.since + [now], now - FIVE_MINUTES)| > max
  {
    RecentTwice(t.since, last - FIVE_MINUTES, now - FIVE_MINUTES);
    RecentSnoc(t.since, now, now - FIVE_MINUTES);
  }

  ghost predicate Chronological(times: seq<int>) {
    forall i, j :: 0 <= i < j < |times| ==> times[i] <= times[j]
  }

  /** What is stored, although filtered at every hit, is always the hits since the last mute that lie within
      five minutes of the latest one. */
  lemma {:induction false} StoredHitsAreRecent(times: seq<int>, max: nat)
    requires Chronological(times) && times != []
    ensures UpToDate(Tracked(times, max), times[|times| - 1])
  {
    var n := |times| - 1;
    var front := times[..n];
    if n > 0 {
      StoredHitsAreRecent(front, max);
      assert front[n - 1] == times[n - 1];
      NoticedUpToDate(Tracked(front, max), times[n - 1], times[n], max);
    } else {
      NoticedUpToDate(Tracked(front, max), times[n], times[n], max);
    }
  }

  /** A hit mutes exactly when it makes more than `max` hits since the last mute within five minutes. */
  lemma {:induction false} MutesExactlyWhenFlooding(times: seq<int>, now: int, max: nat)
    requires Chronological(times + [now])
    ensures var t := Tracked(times, max);
            NoteHit(t.hits, now, max).mute <==> max > 0 && |Recent(t.since + [now], now - FIVE_MINUTES)| > max
  {
    if times != [] {
      assert (times + [now])[|times| - 1] == times[|times| - 1] && (times + [now])[|times|] == now;
      assert Chronological(times) by {
        forall i, j | 0 <= i < j < |times| ensures times[i] <= times[j] {
          assert (times + [now])[i] <= (times + [now])[j];
        }
      }
      StoredHitsAreRecent(times, max);
      NoticedUpToDate(Tracked(times, max), times[|times| - 1], now, max);
    } else {
      NoticedUpToDate(Track([], []), now, now, max);
    }
  }
}
