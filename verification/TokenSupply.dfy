// What a rate class is owed: earned tokens are credited and can be spent (go/headgatetest/memstore.go).
module TokenSupply {
  import opened Common
  import opened StoreModel
  import opened Admission
  import opened AdmissionPass
  import opened AdmissionCall
  import opened AdmissionLaws
  import opened StoreOps
  import opened StoreRuns

  // ---- Within one admission ----

  lemma EnoughEarned(b: Bucket, now: int, k: nat)
    requires k > 0 && b.limit > 0 && b.window > 0 && now >= b.refilled && b.window * k <= b.limit * (now - b.refilled)
    ensures Gained(b, now) >= k
  {
    assert now > b.refilled;
    assert (now - b.refilled) * b.limit == b.limit * (now - b.refilled);
    DivBound(b.window, k, (now - b.refilled) * b.limit);
  }

  // k whole tokens have come in since the bucket was last topped up.
  ghost predicate Earned(b: Bucket, now: int, k: nat) {
    k > 0 ==> b.limit > 0 && b.window > 0 && now >= b.refilled && b.window * k <= b.limit * (now - b.refilled)
  }

  lemma EarnedIsCredited(b: Bucket, now: int, k: nat)
    requires Earned(b, now, k)
    ensures Refill(b, now).tokens >= Min(b.burst, b.tokens + k)
  {
    if k > 0 {
      EnoughEarned(b, now, k);
    }
  }

  // A correction gives back the charge, takes the actual cost and credits the whole tokens that have come
  // in, and the burst caps what is there before and after.
  lemma CorrectionIsExact(b: Bucket, now: int, k: nat, charge: int, actual: nat)
    requires b.limit > 0 && b.window > 0 && now >= b.refilled
    requires b.window * k <= b.limit * (now - b.refilled) < b.window * (k + 1)
    ensures var d := Reconcile(b, now, charge, actual);
            && d.tokens == Min(b.burst, Min(b.burst, b.tokens + k) + charge - actual) && d.refilled == now
            && (b.tokens + k <= b.burst && b.tokens + k + charge - actual <= b.burst ==> d.tokens + actual == b.tokens + k + charge)
  {
    GainIsEarned(b, now);
    if k > 0 {
      EnoughEarned(b, now, k);
    }
    if Gained(b, now) > k {
      MulLe(b.window, k + 1, Gained(b, now));
    }
  }

  // A job that could run and that its class can pay for, with the tokens it has and those it has earned
  // since, is claimed, unless the capacity is used up.
  lemma EarnedTokensAdmit(c: Call, a: Adm, t: MemState, id: string, k: nat)
    requires Admitted(c, a, t) && CouldRun(c.s, c.req, c.now, id)
    requires var e := c.s.jobs[id].env;
             Metered(c.s.rate, e) ==>
               var b := c.s.rate[e.rateClass];
               Earned(b, c.now, k) && Charged(c.s.rate, a.claims, e.rateClass) + Cost(e) <= Min(b.burst, b.tokens + k)
    ensures ClaimedIn(a.claims, id) || |a.claims| >= c.req.capacity
  {
    if !ClaimedIn(a.claims, id) && |a.claims| < c.req.capacity {
      NothingIsLeftBehind(c, a, t, id);
      EarnedIsCredited(c.s.rate[c.s.jobs[id].env.rateClass], c.now, k);
    }
  }

  // ---- Over runs ----

  // The step spends from the bucket of the class, corrects an earlier charge to it or configures it anew.
  predicate Touches(s: MemState, op: Op, cls: string) {
    match op
    case AdmitOp(_, _) => NetCharge(s, op, cls) != 0
    case AckOp(l, _, _, actual) => Reconciles(s, l, actual, cls)
    case AckResultOp(l, actual, _) => Reconciles(s, l, actual, cls)
    case LimitOp(c, _, _, _) => c == cls
    case _ => false
  }

  predicate Reconciles(s: MemState, l: LeaseRef, actual: Option<nat>, cls: string) {
    Current(s, l) && actual.Some? && s.jobs[l.jobId].rateCharge > 0 && s.jobs[l.jobId].env.rateClass == cls
  }

  // Otherwise the bucket is left alone or topped up.
  lemma QuietStep(s: MemState, now: int, op: Op, t: MemState, cls: string)
    requires Step(s, now, op, t) && cls in s.rate && !Touches(s, op, cls)
    ensures cls in t.rate && (t.rate[cls] == s.rate[cls] || t.rate[cls] == Refill(s.rate[cls], now))
  {
    if op.AdmitOp? {
      AdmitStepGives(s, now, op, t, cls);
      assert t.rate[cls].(tokens := t.rate[cls].tokens + 0) == t.rate[cls];
    } else {
      RateStep(s, now, op, t, cls);
    }
  }

  // How much of the limit must come in for one token, at worst: topping up drops the fraction of a
  // token that was under way, which is less than what it credits, and nothing where every
  // millisecond earns whole tokens.
  function Price(b: Bucket): int
    requires b.window > 0
  {
    if b.limit % b.window == 0 then b.window else 2 * b.window
  }

  // Since the bucket looked like b it has filled up, or gained what it was owed at that price.
  ghost predicate Supplied(b: Bucket, d: Bucket) {
    && SameClass(b, d) && b.limit > 0 && b.window > 0 && b.tokens <= d.tokens <= d.burst && b.refilled <= d.refilled
    && (d.tokens == d.burst || Price(b) * (d.tokens - b.tokens) >= b.limit * (d.refilled - b.refilled))
  }

  lemma {:induction false} MultipleEarnsWhole(n: nat, limit: int, window: int)
    requires window > 0 && limit % window == 0
    ensures (n * limit) % window == 0
  {
    if n > 0 {
      MultipleEarnsWhole(n - 1, limit, window);
      var q, p := limit / window, (n - 1) * limit / window;
      assert limit == window * q && (n - 1) * limit == window * p;
      assert n * limit == (n - 1) * limit + limit == window * (p + q);
      WholeHasNoRest(window, p + q);
    }
  }

  lemma WholeHasNoRest(window: int, k: int)
    requires window > 0
    ensures (window * k) % window == 0
  {
    var v := window * k;
    assert v == window * (v / window) + v % window;
    assert window * (k - v / window) == v % window;
    if k > v / window {
      MulLe(window, 1, k - v / window);
    } else if k < v / window {
      MulLe(window, k - v / window, -1);
    }
  }

  // What topping up credits is worth the time it takes.
  lemma GainCoversTime(b: Bucket, now: int)
    requires b.limit > 0 && b.window > 0 && now >= b.refilled
    ensures Gained(b, now) > 0 ==> Price(b) * Gained(b, now) >= b.limit * (now - b.refilled)
    ensures Gained(b, now) == 0 ==> b.limit * (now - b.refilled) < b.window
    ensures Gained(b, now) == 0 && b.limit % b.window == 0 ==> now == b.refilled
  {
    var x := (now - b.refilled) * b.limit;
    var g := x / b.window;
    assert x == b.limit * (now - b.refilled) && x == b.window * g + x % b.window;
    if now > b.refilled {
      MulLe(b.limit, 1, now - b.refilled);
      if b.limit % b.window == 0 {
        MultipleEarnsWhole(now - b.refilled, b.limit, b.window);
        if g <= 0 {
          MulLe(b.window, g, 0);
        }
      } else if g > 0 {
        MulLe(b.window, 1, g);
        assert (2 * b.window) * g == b.window * g + b.window * g;
      }
    }
  }

  lemma TopUpSupplies(b: Bucket, d: Bucket, now: int)
    requires Supplied(b, d) && now >= d.refilled
    ensures Supplied(b, Refill(d, now))
  {
    if Gained(d, now) > 0 && d.tokens + Gained(d, now) <= d.burst {
      GainCoversTime(d, now);
      var g := Gained(d, now);
      assert Price(b) * (d.tokens + g - b.tokens) == Price(b) * (d.tokens - b.tokens) + Price(b) * g;
      assert b.limit * (now - b.refilled) == b.limit * (d.refilled - b.refilled) + b.limit * (now - d.refilled);
    }
  }

  lemma SuppliedClosesGap(b: Bucket, d: Bucket, now: int, gained: int)
    requires Supplied(b, d) && d.tokens < d.burst && gained >= 0
    requires b.limit * (now - b.refilled) >= Price(b) * (b.burst - b.tokens)
    requires gained > 0 ==> Price(b) * gained >= b.limit * (now - d.refilled)
    requires gained == 0 ==> b.limit * (now - d.refilled) < b.window
    ensures d.tokens + gained >= d.burst
  {
    TimeAdds(b.limit, b.refilled, d.refilled, now);
    TooShort(Price(b), b.burst - b.tokens, d.tokens - b.tokens, gained,
             b.limit * (d.refilled - b.refilled), b.limit * (now - d.refilled), b.window);
  }

  // With enough time since then, topping up now fills the bucket.
  lemma SuppliedIsFull(b: Bucket, d: Bucket, now: int)
    requires Supplied(b, d) && now >= d.refilled && b.limit * (now - b.refilled) >= Price(b) * (b.burst - b.tokens)
    ensures Refill(d, now).tokens == d.burst
  {
    GainCoversTime(d, now);
    GainIsEarned(d, now);
    if d.tokens < d.burst {
      SuppliedClosesGap(b, d, now, Gained(d, now));
    }
  }

  lemma TimeAdds(limit: int, a: int, b: int, c: int)
    ensures limit * (b - a) + limit * (c - b) == limit * (c - a)
  {
  }

  // A gap of at least one token cannot be closed by less than the time of one.
  lemma TooShort(price: int, gap: int, had: int, gained: int, before: int, since: int, window: int)
    requires price >= window > 0 && gained >= 0 && before + since >= price * gap && price * had >= before
    requires gained > 0 ==> price * gained >= since
    requires gained == 0 ==> since < window
    ensures had + gained >= gap
  {
    assert price * (had + gained + 1) == price * had + price * gained + price;
    if had + gained < gap {
      MulLe(price, had + gained + 1, gap);
    }
  }

  // No step in between touches the class.
  ghost predicate Quiet(r: Run, cls: string, i: nat, j: nat)
    requires r.Ok() && i <= j <= |r.ops|
  {
    forall k :: i <= k < j ==> !Touches(r.states[k], r.ops[k], cls)
  }

  lemma {:induction false} QuietRunSupplies(r: Run, cls: string, c: int, i: nat, j: nat)
    requires ConfiguredOnce(r, cls, c) && i <= j <= |r.ops| && Quiet(r, cls, i, j)
    ensures cls in r.states[i].rate && cls in r.states[j].rate && Supplied(r.states[i].rate[cls], r.states[j].rate[cls])
    decreases j
  {
    TokensOverRuns(r, cls, c, i);
    if i < j {
      QuietRunSupplies(r, cls, c, i, j - 1);
      TokensOverRuns(r, cls, c, j - 1);
      assert r.StepAt(j - 1);
      QuietStep(r.states[j - 1], r.times[j - 1], r.ops[j - 1], r.states[j], cls);
      TopUpSupplies(r.states[i].rate[cls], r.states[j - 1].rate[cls], r.times[j - 1]);
    }
  }

  lemma RestedClassIsFull(r: Run, cls: string, c: int, i: nat, j: nat, now: int)
    requires ConfiguredOnce(r, cls, c) && i <= j <= |r.ops| && Quiet(r, cls, i, j)
    requires now >= c && (j > 0 ==> r.times[j - 1] <= now)
    requires cls in r.states[i].rate && r.states[i].rate[cls].window > 0
    requires var b := r.states[i].rate[cls]; b.limit * (now - b.refilled) >= Price(b) * (b.burst - b.tokens)
    ensures cls in r.states[j].rate && Refill(r.states[j].rate[cls], now).tokens == r.states[0].rate[cls].burst
  {
    TokensOverRuns(r, cls, c, j);
    QuietRunSupplies(r, cls, c, i, j);
    SuppliedIsFull(r.states[i].rate[cls], r.states[j].rate[cls], now);
  }

  // A class left alone for long enough has its whole burst again: the next admission claims every
  // eligible job of the class that fits into it, unless the capacity is used up.
  lemma RestedClassServes(r: Run, cls: string, c: int, i: nat, j: nat, id: string)
    requires ConfiguredOnce(r, cls, c) && i <= j < |r.ops| && Quiet(r, cls, i, j)
    requires r.ops[j].AdmitOp? && r.ops[j].req.leaseMs > 0
    requires cls in r.states[i].rate && r.states[i].rate[cls].window > 0
    requires var b := r.states[i].rate[cls]; b.limit * (r.times[j] - b.refilled) >= Price(b) * (b.burst - b.tokens)
    requires CouldRun(r.states[j], r.ops[j].req, r.times[j], id)
    requires cls != "" && r.states[j].jobs[id].env.rateClass == cls
    requires Charged(r.states[j].rate, r.ops[j].adm.claims, cls) + Cost(r.states[j].jobs[id].env) <= r.states[0].rate[cls].burst
    ensures ClaimedIn(r.ops[j].adm.claims, id) || |r.ops[j].adm.claims| >= r.ops[j].req.capacity
  {
    RestedClassIsFull(r, cls, c, i, j, r.times[j]);
    assert r.StepAt(j);
    var adm := r.ops[j].adm;
    if !ClaimedIn(adm.claims, id) && |adm.claims| < r.ops[j].req.capacity {
      NothingIsLeftBehind(Call(r.states[j], r.ops[j].req, r.times[j]), adm, r.states[j + 1], id);
    }
  }

  // ---- What topping up early costs ----

  // However often the class is looked at, it is full as soon as the limit has brought in what is missing.
  ghost predicate LooksAreFree(limit: int, window: int) {
    forall b: Bucket, t, u {:trigger Refill(Refill(b, t), u)} ::
      (b.limit == limit && b.window == window && b.tokens <= b.burst && b.refilled <= t <= u
       && limit * (u - b.refilled) >= window * (b.burst - b.tokens))
      ==> Refill(Refill(b, t), u).tokens == b.burst
  }

  lemma WholeTokensLoseNothing(b: Bucket, t: int, u: int)
    requires b.limit > 0 && b.window > 0 && b.limit % b.window == 0 && b.tokens <= b.burst && b.refilled <= t <= u
    requires b.limit * (u - b.refilled) >= b.window * (b.burst - b.tokens)
    ensures Refill(Refill(b, t), u).tokens == b.burst
  {
    TopUpSupplies(b, b, t);
    SuppliedIsFull(b, Refill(b, t), u);
  }

  lemma SlowFraction(limit: int, window: int, q: int, m: int)
    requires 0 < limit < window == limit * q + m && 0 <= m < limit
    ensures 1 <= q <= window && (q + 1) * limit - window == limit - m
  {
    if q <= 0 {
      MulLe(limit, q, 0);
    } else {
      MulLe(q, 1, limit);
      assert q * limit == limit * q;
    }
    assert (q + 1) * limit == limit * q + limit;
  }

  lemma SlowLook(limit: int, window: int, q: int, m: int)
    requires 0 < limit < window == limit * q + m && 0 <= m < limit
    ensures 0 < q + 1 < 2 * window && window <= (q + 1) * limit && ((q + 1) * limit) % window != 0
  {
    SlowFraction(limit, window, q, m);
    RestOf(limit - m, window);
    assert (q + 1) * limit == window + (limit - m);
  }

  // Looking just after the first whole token throws a fraction away.
  lemma EarlyLook(limit: int, window: int) returns (t: int)
    requires limit > 0 && window > 0 && limit % window != 0
    ensures 0 < t < 2 * window && window <= t * limit && (t * limit) % window != 0
  {
    if limit > window {
      t := 1;
    } else {
      t := window / limit + 1;
      SlowLook(limit, window, window / limit, window % limit);
    }
  }

  lemma RestOf(x: int, window: int)
    requires 0 < x < window
    ensures (window + x) % window != 0
  {
  }

  lemma FractionIsLost(limit: int, window: int, x: int)
    requires limit > 0 && window > 0 && 0 <= x <= 2 * window * limit && x % window != 0
    ensures (2 * window * limit - x) / window == 2 * limit - 1 - x / window
  {
    var g := x / window;
    var rest := window - x % window;
    var k := 2 * limit - 1 - g;
    assert x == window * g + x % window;
    assert window * k == 2 * window * limit - window - window * g;
    assert 2 * window * limit - x == window * k + rest;
    QuotientIs(window, k, rest);
  }

  lemma QuotientIs(window: int, k: int, rest: int)
    requires window > 0 && 0 <= rest < window
    ensures (window * k + rest) / window == k
  {
    var v := window * k + rest;
    assert v == window * (v / window) + v % window;
    assert window * (k - v / window) == v % window - rest;
    if k > v / window {
      MulLe(window, 1, k - v / window);
    } else if k < v / window {
      MulLe(window, k - v / window, -1);
    }
  }

  // Two looks, each earning something, or the second nothing.
  lemma TwoLooks(b: Bucket, t: int, u: int, g: int, h: int)
    requires b.limit > 0 && b.window > 0 && b.refilled < t < u && b.tokens + g + h <= b.burst && g > 0 && h >= 0
    requires g == (t - b.refilled) * b.limit / b.window && h == (u - t) * b.limit / b.window
    ensures Refill(Refill(b, t), u).tokens == b.tokens + g + h
  {
    assert Gained(b, t) == g;
    var d := Refill(b, t);
    assert d == b.(tokens := b.tokens + g, refilled := t);
    assert Gained(d, u) == h;
  }

  lemma SplitTime(limit: int, window: int, t: int)
    requires limit > 0 && 0 <= t <= 2 * window
    ensures (2 * window - t) * limit == 2 * window * limit - t * limit >= 0
  {
    MulLe(limit, 0, 2 * window - t);
  }

  // What the two looks earn together.
  lemma EarlyLookEarns(limit: int, window: int, t: int)
    requires limit > 0 && window > 0 && 0 < t < 2 * window && window <= t * limit && (t * limit) % window != 0
    ensures t * limit / window > 0 && (2 * window - t) * limit / window >= 0
    ensures t * limit / window + (2 * window - t) * limit / window == 2 * limit - 1
  {
    SplitTime(limit, window, t);
    DivBound(window, 1, t * limit);
    FractionIsLost(limit, window, t * limit);
    FractionNonNegative((2 * window - t) * limit, window);
  }

  lemma EarlyLookCostsAToken(limit: int, window: int) returns (t: int)
    requires limit > 0 && window > 0 && limit % window != 0
    ensures 0 < t < 2 * window
    ensures Refill(Refill(Bucket(0, 2 * limit, limit, window, 0), t), 2 * window).tokens == 2 * limit - 1
  {
    t := EarlyLook(limit, window);
    EarlyLookEarns(limit, window, t);
    TwoLooks(Bucket(0, 2 * limit, limit, window, 0), t, 2 * window, t * limit / window, (2 * window - t) * limit / window);
  }

  lemma FractionNonNegative(x: int, window: int)
    requires x >= 0 && window > 0
    ensures x / window >= 0
  {
  }

  // Looking at a class is free exactly when the window divides the limit.
  lemma LooksAreFreeExactly(limit: int, window: int)
    requires limit > 0 && window > 0
    ensures LooksAreFree(limit, window) <==> limit % window == 0
  {
    if limit % window == 0 {
      forall b: Bucket, t, u | b.limit == limit && b.window == window && b.tokens <= b.burst && b.refilled <= t <= u
                               && limit * (u - b.refilled) >= window * (b.burst - b.tokens)
        ensures Refill(Refill(b, t), u).tokens == b.burst
      {
        WholeTokensLoseNothing(b, t, u);
      }
    } else {
      var t := EarlyLookCostsAToken(limit, window);
      var b := Bucket(0, 2 * limit, limit, window, 0);
      assert limit * (2 * window - b.refilled) == window * (b.burst - b.tokens);
    }
  }

  // A late correction moves the clock even when no whole token has come in, so whatever was under way is
  // lost, and a correction every so often keeps a class from ever earning anything.
  lemma CorrectionsDropFractions(b: Bucket, now: int, charge: nat)
    requires b.limit > 0 && b.window > 0 && b.tokens <= b.burst && now >= b.refilled && b.limit * (now - b.refilled) < b.window
    ensures Reconcile(b, now, charge, charge) == b.(refilled := now)
  {
    GainIsEarned(b, now);
    if Gained(b, now) > 0 {
      MulLe(b.window, 1, Gained(b, now));
    }
  }
}
