/**
 How long retried attempts stay within the lifetime of the staged token.
 */
module RetryArithmetic {
  import opened Wrappers
  import opened Schemas
  import opened JobKeys
  import opened JobProtocol
  import opened Redelivery

  /** Time the queue defers a job before attempt `k + 1`, over all its retries. */
  function TotalDefer(k: nat): nat {
    if k == 0 then 0 else TotalDefer(k - 1) + Defer(k)
  }

  lemma {:induction false} Pow2AtLeast(k: nat)
    requires k >= 5
    ensures Pow2(k) >= 32
  {
    if k == 5 {
      assert Pow2(3) == 8;
    } else {
      Pow2AtLeast(k - 1);
    }
  }

  /** Doubling up to the fourth retry, thirty seconds for each one after it. */
  lemma {:induction false} TotalDeferClosedForm(k: nat)
    ensures TotalDefer(k) == if k <= 4 then Pow2(k + 1) - 2 else 30 * (k - 3)
  {
    if k == 0 {
      assert Pow2(1) == 2;
    } else {
      TotalDeferClosedForm(k - 1);
      if k > 4 { Pow2AtLeast(k); } else { SmallPowers(k); }
      if k == 5 { SmallPowers(4); }
    }
  }

  lemma SmallPowers(k: nat)
    requires k <= 4
    ensures Pow2(k + 1) == 2 * Pow2(k) && Pow2(k) <= 16
    ensures k == 4 ==> Pow2(k) == 16
  {
    assert Pow2(2) == 4;
  }

  function Queued(ds: seq<Delivery>): nat {
    if ds == [] then 0 else ds[0].queued + Queued(ds[1..])
  }

  /** Every attempt takes at most `d`, and all of them wait in the queue at most `w` in total. */
  predicate WithinBounds(ds: seq<Delivery>, w: nat, d: nat) {
    Queued(ds) <= w && forall i | 0 <= i < |ds| :: Elapsed(ds[i].script.steps) <= d
  }

  /** When the last of the deliveries loads its token, if all before it are retried. */
  function LastLoad(now: int, attempt: nat, ds: seq<Delivery>): (t: int)
    requires ds != []
    ensures t >= now + ds[0].queued
    decreases |ds|
  {
    if |ds| == 1 then now + ds[0].queued
    else LastLoad(now + ds[0].queued + Elapsed(ds[0].script.steps) + Defer(attempt), attempt + 1, ds[1..])
  }

  lemma {:induction false} LastLoadMonotone(a: int, b: int, attempt: nat, ds: seq<Delivery>)
    requires ds != [] && a <= b
    ensures LastLoad(a, attempt, ds) <= LastLoad(b, attempt, ds)
    decreases |ds|
  {
    if |ds| > 1 {
      var d := ds[0].queued + Elapsed(ds[0].script.steps) + Defer(attempt);
      LastLoadMonotone(a + d, b + d, attempt + 1, ds[1..]);
    }
  }

  /** The latest the last attempt can load its token. */
  lemma {:induction false} LastLoadBound(now: int, attempt: nat, ds: seq<Delivery>, w: nat, d: nat)
    requires ds != [] && attempt >= 1 && WithinBounds(ds, w, d)
    ensures LastLoad(now, attempt, ds)
         <= now + w + (|ds| - 1) * d + TotalDefer(attempt + |ds| - 2) - TotalDefer(attempt - 1)
    decreases |ds|
  {
    hide Defer, Elapsed;
    if |ds| > 1 {
      var (q, e) := (ds[0].queued, Elapsed(ds[0].script.steps));
      assert forall i | 0 <= i < |ds[1..]| :: ds[1..][i] == ds[i + 1];
      LastLoadBound(now + q + e + Defer(attempt), attempt + 1, ds[1..], w - q, d);
      assert (|ds| - 1) * d == (|ds[1..]| - 1) * d + d;
    }
  }

  /** Every attempt but the last takes exactly `d`, and the whole wait comes first: the bound is met. */
  function Slowest(n: nat, w: nat, d: nat): (ds: seq<Delivery>)
    ensures |ds| == n
  {
    if n == 0 then []
    else [Delivery(w, false, Script(false, [AgentStep(d, false, None)], Raises))] + Slowest(n - 1, 0, d)
  }

  lemma {:induction false} SlowestReachesBound(now: int, attempt: nat, n: nat, w: nat, d: nat)
    requires n >= 1 && attempt >= 1
    ensures WithinBounds(Slowest(n, w, d), w, d)
    ensures LastLoad(now, attempt, Slowest(n, w, d))
         == now + w + (n - 1) * d + TotalDefer(attempt + n - 2) - TotalDefer(attempt - 1)
    decreases n
  {
    hide Defer;
    var ds := Slowest(n, w, d);
    assert ds[1..] == Slowest(n - 1, 0, d);
    var steps := [AgentStep(d, false, None)];
    assert steps[1..] == [] && Elapsed(steps) == d && ds[0].script.steps == steps;
    if n > 1 {
      SlowestReachesBound(now + w + d + Defer(attempt), attempt + 1, n - 1, 0, d);
      assert forall i | 0 <= i < |ds[1..]| :: ds[i + 1] == ds[1..][i];
      assert (n - 1) * d == (n - 2) * d + d;
    } else {
      assert ds[1..] == [] && Queued(ds[1..]) == 0;
    }
  }

  /** Earlier attempts load their token earlier. */
  lemma {:induction false} LoadsIncrease(now: int, attempt: nat, ds: seq<Delivery>, k: nat)
    requires k < |ds|
    ensures LastLoad(now, attempt, ds[..k + 1]) <= LastLoad(now, attempt, ds)
    decreases |ds|
  {
    if k == 0 {
      assert ds[..1][0] == ds[0];
    } else {
      assert ds[..k + 1][1..] == ds[1..][..k];
      LoadsIncrease(now + ds[0].queued + Elapsed(ds[0].script.steps) + Defer(attempt), attempt + 1, ds[1..], k - 1);
    }
  }

  /** When attempt `k + 1` loads a token staged at `at`. */
  function LoadAt(at: int, ds: seq<Delivery>, k: nat): int
    requires k < |ds|
  {
    LastLoad(at, 1, ds[..k + 1])
  }

  /** Whatever the deliveries within the bounds, each attempt finds the token, staged at `at`, unexpired. */
  ghost predicate AlwaysInTime(s: Settings, at: int, w: nat, d: nat) {
    forall ds, k: nat | |ds| == s.jobMaxAttempts && WithinBounds(ds, w, d) && k < |ds| ::
      LoadAt(at, ds, k) < at + TokenTtl(s)
  }

  /** Every attempt loads its token in time exactly when the worst schedule does. */
  lemma TokenBudget(s: Settings, at: int, w: nat, d: nat)
    requires s.jobMaxAttempts >= 1
    ensures AlwaysInTime(s, at, w, d)
       <==> w + (s.jobMaxAttempts - 1) * d + TotalDefer(s.jobMaxAttempts - 1) < s.jobTimeout * s.jobMaxAttempts + 120
  {
    hide LastLoad, TotalDefer, Slowest, WithinBounds;
    var m := s.jobMaxAttempts;
    assert TotalDefer(0) == 0 by { NoDefer(); }
    if w + (m - 1) * d + TotalDefer(m - 1) < s.jobTimeout * m + 120 {
      forall ds, k: nat | |ds| == m && WithinBounds(ds, w, d) && k < |ds|
        ensures LoadAt(at, ds, k) < at + TokenTtl(s)
      {
        LoadsIncrease(at, 1, ds, k);
        LastLoadBound(at, 1, ds, w, d);
      }
    } else {
      SlowestReachesBound(at, 1, m, w, d);
      var ds := Slowest(m, w, d);
      assert ds[..(m - 1) + 1] == ds;
      assert LoadAt(at, ds, m - 1) >= at + TokenTtl(s);
    }
  }

  lemma NoDefer()
    ensures TotalDefer(0) == 0
  {
  }

  /** What the deliveries come to when the token never runs out. */
  function Unhindered(ds: seq<Delivery>): (r: seq<Kind>)
    ensures |r| == |ds|
  {
    if ds == [] then [] else [DeliveryKind(ds[0], true)] + Unhindered(ds[1..])
  }

  lemma {:induction false} TokenInTime(env: Env, token: Entry<string>, now: int, attempt: nat, ds: seq<Delivery>)
    requires ds != [] ==> LastLoad(now, attempt, ds) < token.expiry
    ensures Kinds(env, Some(token), now, attempt, ds) == Unhindered(ds)
    decreases |ds|
  {
    hide DeliveryKind, Defer, Elapsed;
    if ds != [] {
      var start := now + ds[0].queued;
      assert CredentialsAt(env, Some(token), start);
      var next := start + Spent(ds[0].script, true) + Defer(attempt);
      if |ds| > 1 {
        LastLoadMonotone(next, start + Elapsed(ds[0].script.steps) + Defer(attempt), attempt + 1, ds[1..]);
      }
      TokenInTime(env, token, next, attempt + 1, ds[1..]);
    }
  }

  /**
   Within the budget a redelivered job never fails for want of its token: the closed form
   holds with credentials present throughout.
   */
  lemma {:induction false} RedeliveryWithinBudget(env: Env, sh: Shared, staged: int, ds: seq<Delivery>, w: nat, d: nat)
    requires sh.keys.token.Some? && sh.keys.token.value.expiry == staged + TokenTtl(env.settings) && staged <= sh.now
    requires Deliverable(env, sh, 1, ds)
    requires |ds| == Current(sh).maxAttempts == env.settings.jobMaxAttempts >= 1
    requires sh.now - staged + Queued(ds) <= w && forall i | 0 <= i < |ds| :: Elapsed(ds[i].script.steps) <= d
    requires w + (|ds| - 1) * d + TotalDefer(|ds| - 1) < env.settings.jobTimeout * env.settings.jobMaxAttempts + 120
    ensures SettledBy(Redeliver(env, sh, 1, ds), Unhindered(ds), Current(sh).attempt, 1)
  {
    hide SettledBy, Redeliver, Deliverable, Kinds, LastLoad, Unhindered;
    LastLoadBound(sh.now, 1, ds, Queued(ds), d);
    TokenInTime(env, sh.keys.token.value, sh.now, 1, ds);
    RedeliveryClosedForm(env, sh, 1, ds);
  }
}
