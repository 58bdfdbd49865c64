/** The token-bucket rate limiter (package ratelimiter, limiter.go, and
    RateLimiter.AllowWithConfig of client.go). Time is an integer count of
    milliseconds passed in by the caller; the background refill ticker becomes an
    explicit RefillAllBuckets step. */
module TokenBuckets {
  import opened RateLimitTypes

  // ---------------------------------------------------------------------
  // The value of one bucket and the steps on it

  /** What a TokenBucket holds: its capacity, tokens, rate (tokens per second) and
      the time of the last refill that added tokens. */
  datatype Bucket = Bucket(capacity: int, tokens: int, rate: int, lastRefill: int)

  /** The bucket invariant. Tokens never exceed capacity and go below zero only in
      a bucket created with a negative capacity, which then stays at its capacity
      (a per-client override may carry any integer). */
  predicate WellFormed(b: Bucket)
  {
    b.tokens <= b.capacity && (b.tokens < 0 ==> b.tokens == b.capacity)
  }

  /** With a capacity that is not negative, the invariant is 0 <= tokens <= capacity. */
  lemma WellFormedBounds(b: Bucket)
    requires b.capacity >= 0
    ensures WellFormed(b) <==> 0 <= b.tokens <= b.capacity
  {
  }

  /** The smaller of two integers. */
  function Min(a: int, b: int): (m: int)
    ensures m <= a && m <= b
    ensures m == a || m == b
  {
    if a < b then a else b
  }

  /** A bucket met for the first time: full, and refilled as of now. */
  function NewBucket(capacity: int, rate: int, now: int): (b: Bucket)
    ensures WellFormed(b)
    ensures b.capacity == capacity && b.tokens == capacity
    ensures b.rate == rate && b.lastRefill == now
  {
    Bucket(capacity, capacity, rate, now)
  }

  /** Conversion of a count of thousandths to a whole number, truncating toward zero
      as Go's float-to-int conversion does. */
  function TruncThousandths(p: int): (q: int)
    ensures p >= 0 ==> 1000 * q <= p < 1000 * q + 1000
    ensures p < 0 ==> 1000 * q - 1000 < p <= 1000 * q
    ensures q > 0 <==> p >= 1000
  {
    if p >= 0 then p / 1000 else -((-p) / 1000)
  }

  /** Tokens earned since the last refill, in thousandths of a token: elapsed
      milliseconds times the rate per second. */
  function Earned(b: Bucket, now: int): (thousandths: int)
  {
    (now - b.lastRefill) * b.rate
  }

  /** One refill of a bucket at time now. */
  function Refilled(b: Bucket, now: int): (r: Bucket)
    ensures r.capacity == b.capacity && r.rate == b.rate
    ensures Earned(b, now) < 1000 ==> r == b
    ensures Earned(b, now) >= 1000 ==>
              && r.lastRefill == now
              && r.tokens <= b.capacity
              && 1000 * (r.tokens - b.tokens) <= Earned(b, now)
              && (r.tokens < b.capacity ==> Earned(b, now) < 1000 * (r.tokens - b.tokens + 1))
  {
    var tokensToAdd := TruncThousandths(Earned(b, now));
    if tokensToAdd > 0 then
      b.(tokens := Min(b.capacity, b.tokens + tokensToAdd), lastRefill := now)
    else
      b
  }

  /** A refill keeps the invariant and never lowers the token count. */
  lemma RefillKeepsInvariant(b: Bucket, now: int)
    requires WellFormed(b)
    ensures WellFormed(Refilled(b, now))
    ensures Refilled(b, now).tokens >= b.tokens
  {
  }

  datatype Taken = Taken(allowed: bool, bucket: Bucket)

  /** The non-blocking admission check on one bucket: one token is taken when
      there is one. */
  function Take(b: Bucket): (r: Taken)
    ensures r.allowed <==> b.tokens > 0
    ensures r.bucket.tokens == if r.allowed then b.tokens - 1 else b.tokens
    ensures r.bucket.capacity == b.capacity && r.bucket.rate == b.rate
    ensures r.bucket.lastRefill == b.lastRefill
    ensures WellFormed(b) ==> WellFormed(r.bucket)
    ensures r.allowed ==> r.bucket.tokens >= 0
  {
    if b.tokens > 0 then Taken(true, b.(tokens := b.tokens - 1)) else Taken(false, b)
  }

  // ---------------------------------------------------------------------
  // The value of the whole bucket map and the steps on it

  type Buckets = map<string, Bucket>

  ghost predicate AllWellFormed(bs: Buckets)
  {
    forall k :: k in bs ==> WellFormed(bs[k])
  }

  datatype Admission = Admission(allowed: bool, buckets: Buckets)

  /** Admission of one request from key: the existing bucket is used, or `created`
      is added for a key not seen before; then one token is taken. */
  function Admit(bs: Buckets, key: string, created: Bucket): (r: Admission)
    ensures key in r.buckets
    ensures var b := if key in bs then bs[key] else created;
            r.buckets[key].tokens == (if r.allowed then b.tokens - 1 else b.tokens)
  {
    var b := if key in bs then bs[key] else created;
    var t := Take(b);
    Admission(t.allowed, bs[key := t.bucket])
  }

  /** Admission adds at most the requesting key and leaves every other key's bucket
      as it was. */
  lemma AdmitTouchesOnlyKey(bs: Buckets, key: string, created: Bucket)
    ensures Admit(bs, key, created).buckets.Keys == bs.Keys + {key}
    ensures forall k :: k in bs && k != key ==> Admit(bs, key, created).buckets[k] == bs[k]
  {
  }

  /** A request is admitted exactly when its bucket (the existing one, else the
      created one) holds a token, and then that bucket loses exactly one token and
      nothing else; a denied request leaves the bucket as it was. */
  lemma AdmitDecision(bs: Buckets, key: string, created: Bucket)
    ensures var b := if key in bs then bs[key] else created;
            var r := Admit(bs, key, created);
            && (r.allowed <==> b.tokens > 0)
            && (r.allowed ==> r.buckets[key] == b.(tokens := b.tokens - 1))
            && (!r.allowed ==> r.buckets[key] == b)
  {
  }

  /** Admission keeps every bucket within its invariant. */
  lemma AdmitKeepsInvariant(bs: Buckets, key: string, created: Bucket)
    requires AllWellFormed(bs) && WellFormed(created)
    ensures AllWellFormed(Admit(bs, key, created).buckets)
  {
  }

  /** The bucket of a key already seen keeps its capacity and rate, whatever
      configuration the new request carries. */
  lemma AdmitKeepsExistingConfig(bs: Buckets, key: string, created: Bucket)
    requires key in bs
    ensures Admit(bs, key, created).buckets[key].capacity == bs[key].capacity
    ensures Admit(bs, key, created).buckets[key].rate == bs[key].rate
    ensures Admit(bs, key, created) == Admit(bs, key, bs[key])
  {
  }

  /** One refill of every bucket. */
  function RefillAll(bs: Buckets, now: int): (r: Buckets)
    ensures r.Keys == bs.Keys
    ensures forall k :: k in bs ==> r[k] == Refilled(bs[k], now)
  {
    map k | k in bs :: Refilled(bs[k], now)
  }

  /** Refilling all buckets keeps every invariant and lowers no token count. */
  lemma RefillAllKeepsInvariant(bs: Buckets, now: int)
    requires AllWellFormed(bs)
    ensures AllWellFormed(RefillAll(bs, now))
    ensures forall k :: k in bs ==> RefillAll(bs, now)[k].tokens >= bs[k].tokens
  {
  }

  /** Capacity 5, rate 1 per second: five immediate requests pass, the sixth is
      denied, and after a refill a second or more later the next one passes. */
  lemma CapacityFiveScenario(key: string, t: int, later: int)
    requires later >= t + 1000
    ensures var full := NewBucket(5, 1, t);
            var a1 := Admit(map[], key, full);
            var a2 := Admit(a1.buckets, key, full);
            var a3 := Admit(a2.buckets, key, full);
            var a4 := Admit(a3.buckets, key, full);
            var a5 := Admit(a4.buckets, key, full);
            var a6 := Admit(a5.buckets, key, full);
            var a7 := Admit(RefillAll(a6.buckets, later), key, full);
            [a1.allowed, a2.allowed, a3.allowed, a4.allowed, a5.allowed, a6.allowed, a7.allowed]
            == [true, true, true, true, true, false, true]
  {
  }

  // ---------------------------------------------------------------------
  /** A second update of a key overrides the first. */
  lemma UpdateTwice(m: Buckets, k: string, a: Bucket, b: Bucket)
    ensures m[k := a][k := b] == m[k := b]
  {
  }

  // ---------------------------------------------------------------------
  // The objects

  /** One client's bucket; its fields are updated in place. */
  class TokenBucket {
    ghost const owner: string  // the key this bucket was created for
    var capacity: int
    var tokens: int
    var rate: int
    var lastRefill: int

    function State(): (b: Bucket)
      reads this
    {
      Bucket(capacity, tokens, rate, lastRefill)
    }

    constructor (ghost owner: string, capacity: int, rate: int, now: int)
      ensures this.owner == owner && State() == NewBucket(capacity, rate, now)
    {
      this.owner := owner;
      this.capacity := capacity;
      this.tokens := capacity;
      this.rate := rate;
      this.lastRefill := now;
    }

    /** Takes one token when there is one. */
    method TryTake() returns (allowed: bool)
      modifies this
      ensures Taken(allowed, State()) == Take(old(State()))
    {
      if tokens > 0 {
        tokens := tokens - 1;
        allowed := true;
      } else {
        allowed := false;
      }
    }

    /** Adds the tokens earned since the last refill, capped at capacity. */
    method Refill(now: int)
      modifies this
      ensures State() == Refilled(old(State()), now)
    {
      var tokensToAdd := TruncThousandths((now - lastRefill) * rate);
      if tokensToAdd > 0 {
        tokens := Min(capacity, tokens + tokensToAdd);
        lastRefill := now;
      }
    }
  }

  /** The map from client key to bucket, with the defaults for new buckets. */
  class RateLimiter {
    var buckets: map<string, TokenBucket>
    const defaultCap: int
    const defaultRate: int

    /** Every bucket belongs to its own key (so distinct keys own distinct
        buckets) and keeps its invariant. */
    ghost predicate Valid()
      reads this, buckets.Values
    {
      forall k :: k in buckets ==> buckets[k].owner == k && WellFormed(buckets[k].State())
    }

    /** The buckets as values. */
    ghost function View(): (v: Buckets)
      reads this, buckets.Values
    {
      map k | k in buckets :: buckets[k].State()
    }

    constructor (defaultCap: int, defaultRate: int)
      ensures Valid() && buckets == map[] && View() == map[]
      ensures this.defaultCap == defaultCap && this.defaultRate == defaultRate
    {
      buckets := map[];
      this.defaultCap := defaultCap;
      this.defaultRate := defaultRate;
    }

    /** Refills every existing bucket; adds and removes no key. */
    method RefillAllBuckets(now: int)
      requires Valid()
      modifies buckets.Values
      ensures buckets == old(buckets) && Valid()
      ensures View() == RefillAll(old(View()), now)
    {
      ghost var before := View();
      var pending := buckets.Keys;
      while pending != {}
        invariant pending <= buckets.Keys && buckets == old(buckets)
        invariant Valid()
        invariant forall k :: k in buckets ==>
                    buckets[k].State() == if k in pending then before[k] else Refilled(before[k], now)
        decreases pending
      {
        var k :| k in pending;
        var bucket := buckets[k];
        ghost var prev := map j | j in buckets :: buckets[j].State();
        RefillKeepsInvariant(bucket.State(), now);
        bucket.Refill(now);
        pending := pending - {k};
        forall j | j in buckets
          ensures buckets[j].owner == j && WellFormed(buckets[j].State())
          ensures buckets[j].State() == if j in pending then before[j] else Refilled(before[j], now)
        {
          if j != k {
            assert buckets[j] != bucket && buckets[j].State() == prev[j];
          }
        }
      }
    }

    /** The bucket of clientID, created full from capacity and rate and added to
        the map when there is none. */
    method BucketFor(clientID: string, capacity: int, rate: int, now: int) returns (bucket: TokenBucket)
      requires Valid()
      modifies this
      ensures Valid() && fresh(buckets.Values - old(buckets.Values))
      ensures clientID in old(buckets) ==> buckets == old(buckets)
      ensures clientID in buckets && bucket == buckets[clientID]
      ensures View() == old(View())[clientID := if clientID in old(View()) then old(View())[clientID]
                                               else NewBucket(capacity, rate, now)]
    {
      if clientID in buckets {
        bucket := buckets[clientID];
        assert View() == old(View())[clientID := old(View())[clientID]];
      } else {
        bucket := new TokenBucket(clientID, capacity, rate, now);
        buckets := buckets[clientID := bucket];
      }
    }

    /** Takes a token from the bucket of clientID when it has one; no other
        bucket changes. */
    method TakeFrom(clientID: string, bucket: TokenBucket) returns (allowed: bool)
      requires Valid() && clientID in buckets && buckets[clientID] == bucket
      modifies bucket
      ensures Valid()
      ensures var b := old(View())[clientID];
              allowed == Take(b).allowed && View() == old(View())[clientID := Take(b).bucket]
    {
      ghost var before := View();
      allowed := bucket.TryTake();
      ghost var after := before[clientID := Take(before[clientID]).bucket];
      forall k | k in buckets
        ensures buckets[k].owner == k && buckets[k].State() == after[k] && WellFormed(after[k])
      {
        if k != clientID {
          assert buckets[k] != bucket;
        }
      }
      assert View() == after;
    }

    /** Finds the bucket of clientID, creating a full one from capacity and rate
        when there is none, and takes a token from it when it has one. */
    method TakeOrCreate(clientID: string, capacity: int, rate: int, now: int) returns (allowed: bool)
      requires Valid()
      modifies this, buckets.Values
      ensures Valid() && fresh(buckets.Values - old(buckets.Values))
      ensures clientID in old(buckets) ==> buckets == old(buckets)
      ensures clientID in buckets
      ensures var b := if clientID in old(View()) then old(View())[clientID] else NewBucket(capacity, rate, now);
              allowed == Take(b).allowed && View() == old(View())[clientID := Take(b).bucket]
    {
      ghost var before := View();
      ghost var b0 := if clientID in before then before[clientID] else NewBucket(capacity, rate, now);
      var bucket := BucketFor(clientID, capacity, rate, now);
      ghost var mid := View();
      allowed := TakeFrom(clientID, bucket);
      UpdateTwice(before, clientID, b0, Take(b0).bucket);
    }

    /** Admission under the default capacity and rate. */
    method Allow(clientID: string, now: int) returns (allowed: bool)
      requires Valid()
      modifies this, buckets.Values
      ensures Valid() && fresh(buckets.Values - old(buckets.Values))
      ensures clientID in old(buckets) ==> buckets == old(buckets)
      ensures clientID in buckets
      ensures Admission(allowed, View()) == Admit(old(View()), clientID, NewBucket(defaultCap, defaultRate, now))
    {
      allowed := TakeOrCreate(clientID, defaultCap, defaultRate, now);
      assert Admission(allowed, View()) == Admit(old(View()), clientID, NewBucket(defaultCap, defaultRate, now));
    }

    /** Admission under a registered per-client configuration, which is used only
        when the key has no bucket yet. */
    method AllowWithConfig(clientID: string, config: ClientConfig, now: int) returns (allowed: bool)
      requires Valid()
      modifies this, buckets.Values
      ensures Valid() && fresh(buckets.Values - old(buckets.Values))
      ensures clientID in old(buckets) ==> buckets == old(buckets)
      ensures clientID in buckets
      ensures Admission(allowed, View())
              == Admit(old(View()), clientID, NewBucket(config.capacity, config.ratePerSec, now))
    {
      allowed := TakeOrCreate(clientID, config.capacity, config.ratePerSec, now);
      assert Admission(allowed, View())
             == Admit(old(View()), clientID, NewBucket(config.capacity, config.ratePerSec, now));
    }

    /** Evicts the bucket of clientID. (Not defined in the files modelled here;
        the model takes this as its contract.) */
    method RemoveBucket(clientID: string)
      requires Valid()
      modifies this
      ensures Valid()
      ensures buckets == old(buckets) - {clientID}
      ensures View() == old(View()) - {clientID}
    {
      buckets := buckets - {clientID};
    }
  }

  /** The scenario of CapacityFiveScenario, run on the objects. */
  method CapacityFiveRun(key: string, t: int, later: int) returns (results: seq<bool>)
    requires later >= t + 1000
    ensures results == [true, true, true, true, true, false, true]
  {
    var rl := new RateLimiter(5, 1);
    var r1 := rl.Allow(key, t);
    var r2 := rl.Allow(key, t);
    var r3 := rl.Allow(key, t);
    var r4 := rl.Allow(key, t);
    var r5 := rl.Allow(key, t);
    var r6 := rl.Allow(key, t);
    rl.RefillAllBuckets(later);
    var r7 := rl.Allow(key, later);
    CapacityFiveScenario(key, t, later);
    results := [r1, r2, r3, r4, r5, r6, r7];
  }
}
