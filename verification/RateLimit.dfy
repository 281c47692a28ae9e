/**
  `InMemoryRateLimiter`: one token bucket for each identity and model.  Times and token counts are
  real numbers: rounding is not part of this model.
 */
module RateLimit {

  datatype Key = Key(identity: string, model: string)

  datatype Bucket = Bucket(tokens: real, updatedAt: real)

  datatype Settings = Settings(enabled: bool, perMinute: nat, burst: nat)

  datatype Decision = Admitted | Limited(retryAfter: nat)

  predicate ValidSettings(cfg: Settings) {
    cfg.perMinute >= 1 && cfg.burst >= 1
  }

  function Rate(cfg: Settings): real {
    cfg.perMinute as real / 60.0
  }

  /** The tokens that come in over a time. */
  function Refill(cfg: Settings, seconds: real): real {
    seconds * Rate(cfg)
  }

  function Capacity(cfg: Settings): real {
    cfg.burst as real
  }

  function Least(a: real, b: real): real {
    if a <= b then a else b
  }

  /** The tokens a key has at `now`; a key that was never seen starts full. */
  function Level(cfg: Settings, buckets: map<Key, Bucket>, key: Key, now: real): real {
    if key !in buckets then Capacity(cfg)
    else Least(Capacity(cfg), buckets[key].tokens + Refill(cfg, now - buckets[key].updatedAt))
  }

  function RetryAfter(cfg: Settings, tokens: real): nat
    requires ValidSettings(cfg) && tokens < 1.0
  {
    var wait := ((1.0 - tokens) / Rate(cfg)).Floor;
    if wait < 1 then 1 else wait
  }

  datatype Checked = Checked(decision: Decision, buckets: map<Key, Bucket>)

  /** One check: refill the key's bucket, then take a token if there is one. */
  function Ask(cfg: Settings, buckets: map<Key, Bucket>, key: Key, now: real): Checked
    requires ValidSettings(cfg)
  {
    if !cfg.enabled then Checked(Admitted, buckets)
    else
      var level := Level(cfg, buckets, key, now);
      if level < 1.0 then Checked(Limited(RetryAfter(cfg, level)), buckets[key := Bucket(level, now)])
      else Checked(Admitted, buckets[key := Bucket(level - 1.0, now)])
  }

  class RateLimiter {
    const cfg: Settings
    var buckets: map<Key, Bucket>

    constructor (cfg: Settings)
      ensures this.cfg == cfg && buckets == map[]
    {
      this.cfg := cfg;
      buckets := map[];
    }

    method Check(identity: string, model: string, now: real) returns (decision: Decision)
      requires ValidSettings(cfg)
      modifies this`buckets
      ensures Checked(decision, buckets) == Ask(cfg, old(buckets), Key(identity, model), now)
      ensures forall key :: key != Key(identity, model) ==>
                (key in buckets <==> key in old(buckets)) && (key in buckets ==> buckets[key] == old(buckets)[key])
    {
      if !cfg.enabled {
        return Admitted;
      }
      var refillPerSecond := Rate(cfg);
      var capacity := Capacity(cfg);
      var key := Key(identity, model);
      if key !in buckets {
        buckets := buckets[key := Bucket(capacity, now)];
      }
      var bucket := buckets[key];
      var tokens := Least(capacity, bucket.tokens + (now - bucket.updatedAt) * refillPerSecond);
      buckets := buckets[key := Bucket(tokens, now)];
      if tokens < 1.0 {
        return Limited(RetryAfter(cfg, tokens));
      }
      buckets := buckets[key := Bucket(tokens - 1.0, now)];
      return Admitted;
    }
  }

  // ---------- runs ----------

  datatype Request = Request(key: Key, at: real)

  /** Times do not run backwards. */
  predicate Ordered(requests: seq<Request>) {
    forall i, j :: 0 <= i < j < |requests| ==> requests[i].at <= requests[j].at
  }

  predicate Between(requests: seq<Request>, from: real, to: real) {
    forall i :: 0 <= i < |requests| ==> from <= requests[i].at <= to
  }

  function Run(cfg: Settings, buckets: map<Key, Bucket>, requests: seq<Request>): map<Key, Bucket>
    requires ValidSettings(cfg)
    decreases |requests|
  {
    if requests == [] then buckets
    else Run(cfg, Ask(cfg, buckets, requests[0].key, requests[0].at).buckets, requests[1..])
  }

  function Admissions(cfg: Settings, buckets: map<Key, Bucket>, requests: seq<Request>, key: Key): nat
    requires ValidSettings(cfg)
    decreases |requests|
  {
    if requests == [] then 0
    else
      var first := Ask(cfg, buckets, requests[0].key, requests[0].at);
      (if requests[0].key == key && first.decision.Admitted? then 1 else 0)
      + Admissions(cfg, first.buckets, requests[1..], key)
  }

  /** Tokens stay between nothing and the burst, and no bucket is from the future. */
  predicate Sound(cfg: Settings, buckets: map<Key, Bucket>, now: real) {
    forall key :: key in buckets ==> 0.0 <= buckets[key].tokens <= Capacity(cfg) && buckets[key].updatedAt <= now
  }

  lemma RefillIsNotNegative(cfg: Settings, seconds: real)
    requires ValidSettings(cfg) && seconds >= 0.0
    ensures Refill(cfg, seconds) >= 0.0
  {
    assert Rate(cfg) >= 0.0;
  }

  lemma RefillAdds(cfg: Settings, a: real, b: real, c: real)
    requires c == a + b
    ensures Refill(cfg, c) == Refill(cfg, a) + Refill(cfg, b)
  {
    hide Rate;
  }

  lemma LevelInRange(cfg: Settings, buckets: map<Key, Bucket>, key: Key, now: real)
    requires ValidSettings(cfg) && Sound(cfg, buckets, now)
    ensures 0.0 <= Level(cfg, buckets, key, now) <= Capacity(cfg)
  {
    hide Refill;
    if key in buckets {
      RefillIsNotNegative(cfg, now - buckets[key].updatedAt);
    }
  }

  lemma CheckStaysSound(cfg: Settings, buckets: map<Key, Bucket>, key: Key, now: real)
    requires ValidSettings(cfg) && Sound(cfg, buckets, now)
    ensures Sound(cfg, Ask(cfg, buckets, key, now).buckets, now)
  {
    hide Level, RetryAfter;
    LevelInRange(cfg, buckets, key, now);
  }

  lemma {:induction false} RunStaysSound(cfg: Settings, buckets: map<Key, Bucket>, requests: seq<Request>, from: real,
      to: real)
    requires ValidSettings(cfg) && Sound(cfg, buckets, from) && Ordered(requests) && Between(requests, from, to)
             && from <= to
    ensures Sound(cfg, Run(cfg, buckets, requests), to)
    decreases |requests|
  {
    if requests != [] {
      var first := requests[0];
      CheckStaysSound(cfg, buckets, first.key, first.at);
      RunStaysSound(cfg, Ask(cfg, buckets, first.key, first.at).buckets, requests[1..], first.at, to);
    }
  }

  /** Letting time pass adds at most the refill. */
  lemma LevelLater(cfg: Settings, buckets: map<Key, Bucket>, key: Key, from: real, to: real)
    requires ValidSettings(cfg) && from <= to
    ensures Level(cfg, buckets, key, to) <= Level(cfg, buckets, key, from) + Refill(cfg, to - from)
  {
    hide Refill;
    RefillIsNotNegative(cfg, to - from);
    if key in buckets {
      RefillAdds(cfg, from - buckets[key].updatedAt, to - from, to - buckets[key].updatedAt);
    }
  }

  lemma CheckLevel(cfg: Settings, buckets: map<Key, Bucket>, asked: Key, key: Key, now: real)
    requires ValidSettings(cfg) && cfg.enabled && Sound(cfg, buckets, now)
    ensures var r := Ask(cfg, buckets, asked, now);
            Level(cfg, r.buckets, key, now)
            == Level(cfg, buckets, key, now) - if asked == key && r.decision.Admitted? then 1.0 else 0.0
  {
    hide RetryAfter, Refill;
    LevelInRange(cfg, buckets, key, now);
    RefillAdds(cfg, 0.0, 0.0, 0.0);
    assert now - now == 0.0;
  }

  /** What is admitted for a key is paid from its level and the refill. */
  lemma {:induction false} AdmissionsArePaid(cfg: Settings, buckets: map<Key, Bucket>, requests: seq<Request>, key: Key,
      from: real, to: real)
    requires ValidSettings(cfg) && cfg.enabled && Sound(cfg, buckets, from) && from <= to
    requires Ordered(requests) && Between(requests, from, to)
    ensures Admissions(cfg, buckets, requests, key) as real <= Level(cfg, buckets, key, from) + Refill(cfg, to - from)
    decreases |requests|
  {
    hide Level, Refill, Ask;
    if requests == [] {
      LevelInRange(cfg, buckets, key, from);
      RefillIsNotNegative(cfg, to - from);
    } else {
      var first := requests[0];
      var r := Ask(cfg, buckets, first.key, first.at);
      assert Sound(cfg, buckets, first.at);
      CheckStaysSound(cfg, buckets, first.key, first.at);
      CheckLevel(cfg, buckets, first.key, key, first.at);
      LevelLater(cfg, buckets, key, from, first.at);
      AdmissionsArePaid(cfg, r.buckets, requests[1..], key, first.at, to);
      RefillAdds(cfg, first.at - from, to - first.at, to - from);
    }
  }

  /**
    The bound: after any earlier run, the checks of any window of length T admit at most
    burst + T * rpm / 60 requests for one identity and model.
   */
  lemma WindowBound(cfg: Settings, earlier: seq<Request>, window: seq<Request>, key: Key, start: real, from: real,
      to: real)
    requires ValidSettings(cfg) && cfg.enabled && start <= from <= to
    requires Ordered(earlier) && Between(earlier, start, from) && Ordered(window) && Between(window, from, to)
    ensures Admissions(cfg, Run(cfg, map[], earlier), window, key) as real
         <= cfg.burst as real + (to - from) * cfg.perMinute as real / 60.0
  {
    hide Refill, Level, Run, Admissions;
    RunStaysSound(cfg, map[], earlier, start, from);
    var buckets := Run(cfg, map[], earlier);
    LevelInRange(cfg, buckets, key, from);
    AdmissionsArePaid(cfg, buckets, window, key, from, to);
    RateOver(cfg, to - from);
  }

  lemma RateOver(cfg: Settings, seconds: real)
    ensures Refill(cfg, seconds) == seconds * cfg.perMinute as real / 60.0
  {
  }

  // ---------- what is admitted for certain ----------

  /** A key that was never seen is admitted its burst at once, and not once more. */
  lemma FreshKeyHasItsBurst(cfg: Settings, buckets: map<Key, Bucket>, key: Key, now: real)
    requires ValidSettings(cfg) && cfg.enabled && Sound(cfg, buckets, now) && key !in buckets
    ensures Admissions(cfg, buckets, seq(cfg.burst, i => Request(key, now)), key) == cfg.burst
    ensures Admissions(cfg, buckets, seq(cfg.burst + 1, i => Request(key, now)), key) == cfg.burst
  {
    BurstIsAdmitted(cfg, buckets, key, now, cfg.burst);
    NoMoreThanThere(cfg, buckets, key, now, cfg.burst + 1, cfg.burst);
  }

  /** Of many requests at one time as many are admitted as there are whole tokens. */
  lemma {:induction false} NoMoreThanThere(cfg: Settings, buckets: map<Key, Bucket>, key: Key, now: real, n: nat,
      m: nat)
    requires ValidSettings(cfg) && cfg.enabled && Sound(cfg, buckets, now)
    requires m as real <= Level(cfg, buckets, key, now) < m as real + 1.0 && m <= n
    ensures Admissions(cfg, buckets, seq(n, i => Request(key, now)), key) == m
    decreases n
  {
    hide RetryAfter, Refill, Level;
    if n > 0 {
      var requests := seq(n, i => Request(key, now));
      var r := Ask(cfg, buckets, key, now);
      CheckStaysSound(cfg, buckets, key, now);
      CheckLevel(cfg, buckets, key, key, now);
      NoMoreThanThere(cfg, r.buckets, key, now, n - 1, if m == 0 then 0 else m - 1);
      assert requests[1..] == seq(n - 1, i => Request(key, now));
    }
  }

  /** The key was last asked for at `since`, or before, or never. */
  predicate QuietSince(requests: seq<Request>, key: Key, since: real) {
    forall i :: 0 <= i < |requests| && requests[i].key == key ==> requests[i].at <= since
  }

  /** A bucket is as old as the last check of its key. */
  lemma {:induction false} BucketIsAsOld(cfg: Settings, buckets: map<Key, Bucket>, requests: seq<Request>, key: Key,
      since: real)
    requires ValidSettings(cfg) && QuietSince(requests, key, since)
    requires key in buckets ==> buckets[key].updatedAt <= since
    ensures key in Run(cfg, buckets, requests) ==> Run(cfg, buckets, requests)[key].updatedAt <= since
    decreases |requests|
  {
    hide Level, RetryAfter;
    if requests != [] {
      var next := Ask(cfg, buckets, requests[0].key, requests[0].at).buckets;
      assert QuietSince(requests[1..], key, since);
      BucketIsAsOld(cfg, next, requests[1..], key, since);
    }
  }

  /**
    After any run, a key that was left alone for `now - since` seconds is admitted at once as often as
    whole tokens have come in meanwhile, up to the burst.
   */
  lemma IdleKeyIsAdmitted(cfg: Settings, earlier: seq<Request>, start: real, key: Key, since: real, now: real, n: nat)
    requires ValidSettings(cfg) && cfg.enabled
    requires Ordered(earlier) && Between(earlier, start, now) && start <= now
    requires QuietSince(earlier, key, since) && since <= now
    requires n <= cfg.burst && n as real <= (now - since) * cfg.perMinute as real / 60.0
    ensures Admissions(cfg, Run(cfg, map[], earlier), seq(n, i => Request(key, now)), key) == n
  {
    hide Run, Admissions;
    var buckets := Run(cfg, map[], earlier);
    RunStaysSound(cfg, map[], earlier, start, now);
    BucketIsAsOld(cfg, map[], earlier, key, since);
    IdleLevel(cfg, buckets, key, since, now);
    BurstIsAdmitted(cfg, buckets, key, now, n);
  }

  lemma IdleLevel(cfg: Settings, buckets: map<Key, Bucket>, key: Key, since: real, now: real)
    requires ValidSettings(cfg) && Sound(cfg, buckets, now) && since <= now
    requires key in buckets ==> buckets[key].updatedAt <= since
    ensures Level(cfg, buckets, key, now) >= Least(Capacity(cfg), (now - since) * cfg.perMinute as real / 60.0)
  {
    hide Refill;
    RateOver(cfg, now - since);
    if key in buckets {
      RefillGrows(cfg, now - since, now - buckets[key].updatedAt);
    }
  }

  lemma RefillGrows(cfg: Settings, shorter: real, longer: real)
    requires ValidSettings(cfg) && shorter <= longer
    ensures Refill(cfg, shorter) <= Refill(cfg, longer)
  {
    RefillIsNotNegative(cfg, longer - shorter);
    assert Refill(cfg, longer) == Refill(cfg, shorter) + Refill(cfg, longer - shorter);
  }

  /** One more request is always admitted after `60 / perMinute` quiet seconds. */
  lemma WaitingIsRewarded(cfg: Settings, earlier: seq<Request>, start: real, key: Key, since: real, now: real)
    requires ValidSettings(cfg) && cfg.enabled
    requires Ordered(earlier) && Between(earlier, start, now) && start <= now
    requires QuietSince(earlier, key, since) && since + 60.0 / cfg.perMinute as real <= now
    ensures Ask(cfg, Run(cfg, map[], earlier), key, now).decision.Admitted?
  {
    hide Run, RetryAfter, Refill, Rate;
    var buckets := Run(cfg, map[], earlier);
    RunStaysSound(cfg, map[], earlier, start, now);
    assert 60.0 / cfg.perMinute as real >= 0.0;
    BucketIsAsOld(cfg, map[], earlier, key, since);
    IdleLevel(cfg, buckets, key, since, now);
    OneTokenComesIn(cfg.perMinute as real, now - since);
  }

  lemma OneTokenComesIn(perMinute: real, seconds: real)
    requires perMinute >= 1.0 && 60.0 / perMinute <= seconds
    ensures seconds * perMinute / 60.0 >= 1.0
  {
    assert (60.0 / perMinute) * perMinute == 60.0;
    assert (seconds - 60.0 / perMinute) * perMinute >= 0.0;
  }

  /** What a refused caller is told: the whole seconds until a token is there, and at least one. */
  lemma RetryAfterIsTheWait(cfg: Settings, buckets: map<Key, Bucket>, key: Key, now: real)
    requires ValidSettings(cfg) && Ask(cfg, buckets, key, now).decision.Limited?
    ensures var r := Ask(cfg, buckets, key, now);
            && key in r.buckets && r.buckets[key].tokens < 1.0
            && var wait := (1.0 - r.buckets[key].tokens) * 60.0 / cfg.perMinute as real;
               && r.decision.retryAfter >= 1
               && wait < r.decision.retryAfter as real + 1.0
               && (r.decision.retryAfter > 1 ==> r.decision.retryAfter as real <= wait)
  {
    hide Level;
    var tokens := Level(cfg, buckets, key, now);
    SameWait(1.0 - tokens, cfg.perMinute as real);
  }

  lemma SameWait(missing: real, perMinute: real)
    requires perMinute >= 1.0
    ensures missing / (perMinute / 60.0) == missing * 60.0 / perMinute
  {
    var rate := perMinute / 60.0;
    assert (missing / rate) * rate == missing;
    assert (missing / rate) * perMinute == missing * 60.0;
  }

  /** How many requests of a list are for one key. */
  function Asked(requests: seq<Request>, key: Key): nat {
    if requests == [] then 0 else (if requests[0].key == key then 1 else 0) + Asked(requests[1..], key)
  }

  /** A limiter that is switched off admits every request of every key, and remembers nothing. */
  lemma {:induction false} DisabledAdmitsAll(cfg: Settings, buckets: map<Key, Bucket>, requests: seq<Request>, key: Key)
    requires ValidSettings(cfg) && !cfg.enabled
    ensures Run(cfg, buckets, requests) == buckets
    ensures Admissions(cfg, buckets, requests, key) == Asked(requests, key)
    decreases |requests|
  {
    if requests != [] {
      DisabledAdmitsAll(cfg, buckets, requests[1..], key);
    }
  }

  /** A full bucket admits its whole burst at once, so the bound is reached. */
  lemma {:induction false} BurstIsAdmitted(cfg: Settings, buckets: map<Key, Bucket>, key: Key, now: real, n: nat)
    requires ValidSettings(cfg) && cfg.enabled && Sound(cfg, buckets, now) && n as real <= Level(cfg, buckets, key, now)
    ensures Admissions(cfg, buckets, seq(n, i => Request(key, now)), key) == n
    decreases n
  {
    hide RetryAfter, Refill, Level;
    if n > 0 {
      var requests := seq(n, i => Request(key, now));
      var r := Ask(cfg, buckets, key, now);
      CheckStaysSound(cfg, buckets, key, now);
      CheckLevel(cfg, buckets, key, key, now);
      BurstIsAdmitted(cfg, r.buckets, key, now, n - 1);
      assert requests[1..] == seq(n - 1, i => Request(key, now));
    }
  }
}
