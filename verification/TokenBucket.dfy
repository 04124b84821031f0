/** The broker request limiter: a token bucket that refills with time. */
module TokenBucket {
  import opened Common

  /** Times are seconds on a clock that never runs backwards. */
  datatype Bucket = Bucket(capacity: real, rate: real, tokens: real, last: real)

  ghost predicate Sound(b: Bucket) {
    0.0 < b.capacity && 0.0 < b.rate && 0.0 <= b.tokens <= b.capacity
  }

  function Full(capacity: int, rate: real, now: real): Bucket {
    Bucket(capacity as real, rate, capacity as real, now)
  }

  /** Tokens that flow in between two times. */
  function Earned(rate: real, from: real, to: real): real {
    (to - from) * rate
  }

  lemma EarnedNonNegative(rate: real, from: real, to: real)
    requires 0.0 <= rate && from <= to
    ensures 0.0 <= Earned(rate, from, to)
  {
  }

  lemma EarnedAdds(rate: real, x: real, y: real, z: real)
    ensures Earned(rate, x, y) + Earned(rate, y, z) == Earned(rate, x, z)
    ensures Earned(rate, x, x) == 0.0
  {
  }

  function Refilled(b: Bucket, now: real): Bucket {
    var filled := b.tokens + Earned(b.rate, b.last, now);
    b.(tokens := if filled < b.capacity then filled else b.capacity, last := now)
  }

  /** Whether a request is granted, and what is left. */
  function Acquired(b: Bucket, now: real, n: int): (Bucket, bool) {
    var ready := Refilled(b, now);
    if ready.tokens >= n as real then (ready.(tokens := ready.tokens - n as real), true) else (ready, false)
  }

  class TokenBucketRateLimiter {
    const capacity: real
    const refillRate: real
    var tokens: real
    var lastRefill: real

    function Value(): Bucket
      reads this
    {
      Bucket(capacity, refillRate, tokens, lastRefill)
    }

    /** A full bucket. */
    constructor (capacity: int, refillRate: real, now: real)
      requires 0 < capacity && 0.0 < refillRate
      ensures Value() == Full(capacity, refillRate, now) && Sound(Value())
    {
      this.capacity, this.refillRate, tokens, lastRefill := capacity as real, refillRate, capacity as real, now;
    }

    method Refill(now: real)
      modifies this`tokens, this`lastRefill
      ensures Value() == Refilled(old(Value()), now)
    {
      var filled := tokens + Earned(refillRate, lastRefill, now);
      tokens := if filled < capacity then filled else capacity;
      lastRefill := now;
    }

    /** Take tokens if there are enough; otherwise refuse and take none. */
    method Acquire(n: int, now: real) returns (granted: bool)
      modifies this`tokens, this`lastRefill
      ensures (Value(), granted) == Acquired(old(Value()), now, n)
    {
      Refill(now);
      if tokens >= n as real {
        tokens := tokens - n as real;
        return true;
      }
      granted := false;
    }

    method AvailableTokens(now: real) returns (r: real)
      modifies this`tokens, this`lastRefill
      ensures Value() == Refilled(old(Value()), now) && r == tokens
    {
      Refill(now);
      r := tokens;
    }
  }

  /** Create a limiter; `None` is the refusal of a capacity or rate that is not positive. */
  method Create(capacity: int, refillRate: real, now: real) returns (r: Option<TokenBucketRateLimiter>)
    ensures r.None? <==> capacity <= 0 || refillRate <= 0.0
    ensures r.Some? ==> fresh(r.value) && r.value.Value() == Full(capacity, refillRate, now)
  {
    if capacity <= 0 || refillRate <= 0.0 {
      return None;
    }
    var limiter := new TokenBucketRateLimiter(capacity, refillRate, now);
    r := Some(limiter);
  }

  // ---------------------------------------------------------------- runs

  /** A call under the lock: a request for `tokens`, or a look at the balance. */
  datatype Call = Request(now: real, tokens: nat) | Look(now: real)

  function Called(b: Bucket, c: Call): (Bucket, nat) {
    match c
    case Request(now, n) =>
      var (after, granted) := Acquired(b, now, n);
      (after, if granted then n else 0)
    case Look(now) => (Refilled(b, now), 0)
  }

  function Run(b: Bucket, calls: seq<Call>): Bucket {
    if calls == [] then b else Called(Run(b, calls[..|calls| - 1]), calls[|calls| - 1]).0
  }

  /** The clock never runs backwards over the calls. */
  ghost predicate Forward(start: real, calls: seq<Call>) {
    (forall i :: 0 <= i < |calls| ==> start <= calls[i].now) &&
    forall i, j :: 0 <= i < j < |calls| ==> calls[i].now <= calls[j].now
  }

  /** Tokens granted by the calls from `i` up to but not including `j`. */
  function Granted(b: Bucket, calls: seq<Call>, i: nat, j: nat): nat
    requires i <= j <= |calls|
    decreases j
  {
    if i == j then 0 else Granted(b, calls, i, j - 1) + Called(Run(b, calls[..j - 1]), calls[j - 1]).1
  }

  lemma RefilledSound(b: Bucket, now: real)
    requires Sound(b) && b.last <= now
    ensures Sound(Refilled(b, now)) && Refilled(b, now).last == now
    ensures b.tokens <= Refilled(b, now).tokens <= b.tokens + Earned(b.rate, b.last, now)
  {
    hide Earned;
    EarnedNonNegative(b.rate, b.last, now);
  }

  lemma RefilledKeeps(b: Bucket, now: real)
    ensures Refilled(b, now).capacity == b.capacity && Refilled(b, now).rate == b.rate
  {
  }

  lemma CalledSound(b: Bucket, c: Call)
    requires Sound(b) && b.last <= c.now
    ensures var (after, granted) := Called(b, c);
            Sound(after) && after.last == c.now && after.capacity == b.capacity && after.rate == b.rate &&
            after.tokens + granted as real == Refilled(b, c.now).tokens
  {
    hide Refilled;
    RefilledSound(b, c.now);
    RefilledKeeps(b, c.now);
  }

  /** Over every run the balance stays between zero and the capacity. */
  lemma {:induction false} RunSound(b: Bucket, calls: seq<Call>)
    requires Sound(b) && Forward(b.last, calls)
    ensures var r := Run(b, calls);
            Sound(r) && r.capacity == b.capacity && r.rate == b.rate &&
            r.last == if calls == [] then b.last else calls[|calls| - 1].now
  {
    hide Called, Sound;
    if calls != [] {
      RunSound(b, calls[..|calls| - 1]);
      CalledSound(Run(b, calls[..|calls| - 1]), calls[|calls| - 1]);
    }
  }

  lemma SoundMeans(b: Bucket)
    requires Sound(b)
    ensures 0.0 <= b.tokens <= b.capacity
  {
  }

  /** Tokens granted in a window, plus what is left at its end, never exceed the capacity plus what the
      window refills. */
  lemma {:induction false} WindowBalance(b: Bucket, calls: seq<Call>, i: nat, j: nat)
    requires Sound(b) && Forward(b.last, calls) && i < j <= |calls|
    ensures Granted(b, calls, i, j) as real + Run(b, calls[..j]).tokens <=
            b.capacity + Earned(b.rate, calls[i].now, calls[j - 1].now)
    decreases j
  {
    hide Called, Refilled, Sound, Earned;
    var before := Run(b, calls[..j - 1]);
    RunSound(b, calls[..j - 1]);
    CalledSound(before, calls[j - 1]);
    RefilledSound(before, calls[j - 1].now);
    RefilledKeeps(before, calls[j - 1].now);
    SoundMeans(Refilled(before, calls[j - 1].now));
    assert calls[..j][..j - 1] == calls[..j - 1];
    if i < j - 1 {
      WindowBalance(b, calls, i, j - 1);
      EarnedAdds(b.rate, calls[i].now, calls[j - 2].now, calls[j - 1].now);
    } else {
      assert Granted(b, calls, i, j - 1) == 0;
      EarnedAdds(b.rate, calls[i].now, calls[i].now, calls[i].now);
    }
  }

  /** Window bound: between any two calls the total granted is at most the capacity plus the refill
      rate times the time between them. */
  lemma WindowBound(b: Bucket, calls: seq<Call>, i: nat, j: nat)
    requires Sound(b) && Forward(b.last, calls) && i < j <= |calls|
    ensures Granted(b, calls, i, j) as real <= b.capacity + b.rate * (calls[j - 1].now - calls[i].now)
  {
    hide Run, Granted, Sound;
    WindowBalance(b, calls, i, j);
    assert forall x, y :: 0 <= x < y < j ==> calls[..j][x] == calls[x] && calls[..j][y] == calls[y];
    RunSound(b, calls[..j]);
    SoundMeans(Run(b, calls[..j]));
  }

  /** A refused request is granted exactly once the missing tokens have had time to refill, provided it
      asks for no more than the bucket holds. */
  lemma WaitExactly(b: Bucket, n: nat, now: real, later: real)
    requires Sound(b) && b.last <= now <= later && !Acquired(b, now, n).1
    ensures Acquired(Acquired(b, now, n).0, later, n).1 <==>
            n as real <= b.capacity && n as real - Refilled(b, now).tokens <= Earned(b.rate, now, later)
  {
    hide Earned;
    RefilledSound(b, now);
    EarnedNonNegative(b.rate, now, later);
  }
}
