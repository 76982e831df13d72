/** EnforceRateLimit: a fixed-window limiter with one bucket per subject and window.  Times are nanoseconds
    since Go's zero time. */
module RateLimit {
  import opened Wrappers
  import opened Text
  import opened Arithmetic

  datatype Input = Input(namespace: string, subjectKey: string, limit: int, window: int, blockDuration: int)
  datatype BucketKey = BucketKey(namespace: string, subjectKey: string, startedAt: nat, endsAt: nat)
  datatype Bucket = Bucket(hits: nat, blockedUntil: Option<nat>)
  datatype Decision = Decision(allowed: bool, hitCount: nat, blockedUntil: Option<nat>, retryAfter: int)
  datatype Request = Request(input: Input, now: nat)

  type Buckets = map<BucketKey, Bucket>

  const MINUTE := 60_000_000_000

  function Window(input: Input): (w: nat)
    ensures w > 0
  {
    if input.window <= 0 then MINUTE else input.window
  }

  function Block(input: Input): (b: nat)
    ensures b > 0
  {
    if input.blockDuration <= 0 then Window(input) else input.blockDuration
  }

  /** time.Truncate: down to a multiple of the window since the zero time. */
  function Truncate(now: nat, window: nat): (start: nat)
    requires window > 0
    ensures start <= now < start + window
  {
    assert now == now / window * window + now % window;
    now - now % window
  }

  function KeyOf(r: Request): BucketKey {
    var start := Truncate(r.now, Window(r.input));
    BucketKey(r.input.namespace, r.input.subjectKey, start, start + Window(r.input))
  }

  predicate Rejected(input: Input) {
    Blank(input.namespace) || Blank(input.subjectKey) || input.limit <= 0
  }

  /** The bucket after one more hit. */
  function Hit(b: Bucket, r: Request): Bucket {
    var hits := b.hits + 1;
    if b.blockedUntil.Some? && b.blockedUntil.value > r.now then Bucket(hits, b.blockedUntil)
    else if hits > r.input.limit then Bucket(hits, Some(r.now + Block(r.input)))
    else Bucket(hits, b.blockedUntil)
  }

  function NextBucket(buckets: Buckets, r: Request): Bucket {
    if KeyOf(r) in buckets then Hit(buckets[KeyOf(r)], r) else Bucket(1, None)
  }

  function Decide(b: Bucket, r: Request): Decision {
    if b.blockedUntil.Some? && b.blockedUntil.value > r.now then
      Decision(false, b.hits, b.blockedUntil, b.blockedUntil.value - r.now)
    else if b.hits > r.input.limit then
      Decision(false, b.hits, b.blockedUntil, KeyOf(r).endsAt - r.now)
    else Decision(true, b.hits, b.blockedUntil, 0)
  }

  function Step(buckets: Buckets, r: Request): Buckets {
    if Rejected(r.input) then buckets else buckets[KeyOf(r) := NextBucket(buckets, r)]
  }

  function DecisionOn(buckets: Buckets, r: Request): Decision {
    Decide(NextBucket(buckets, r), r)
  }

  class Limiter {
    var buckets: Buckets

    constructor ()
      ensures buckets == map[]
    {
      buckets := map[];
    }

    method EnforceRateLimit(input: Input, now: nat) returns (r: Result<Decision>)
      modifies this
      ensures r.Err? <==> Rejected(input)
      ensures buckets == Step(old(buckets), Request(input, now))
      ensures r.Ok? ==> r.value == DecisionOn(old(buckets), Request(input, now))
    {
      hide Blank;
      if Blank(input.namespace) {
        return Err("namespace is required");
      }
      if Blank(input.subjectKey) {
        return Err("subject_key is required");
      }
      if input.limit <= 0 {
        return Err("limit must be greater than zero");
      }
      var window := if input.window <= 0 then MINUTE else input.window;
      var blockDuration := if input.blockDuration <= 0 then window else input.blockDuration;
      var startedAt := Truncate(now, window);
      var key := BucketKey(input.namespace, input.subjectKey, startedAt, startedAt + window);
      var hitCount, blockedUntil := 1, None;
      if key in buckets {
        hitCount, blockedUntil := buckets[key].hits + 1, buckets[key].blockedUntil;
        if blockedUntil.Some? && blockedUntil.value > now {
          // An active block stays in place while requests are still counted.
        } else if hitCount > input.limit {
          blockedUntil := Some(now + blockDuration);
        }
      }
      buckets := buckets[key := Bucket(hitCount, blockedUntil)];
      var allowed, retryAfter := true, 0;
      if blockedUntil.Some? && blockedUntil.value > now {
        allowed, retryAfter := false, blockedUntil.value - now;
      } else if hitCount > input.limit {
        allowed, retryAfter := false, startedAt + window - now;
      }
      return Ok(Decision(allowed, hitCount, blockedUntil, retryAfter));
    }
  }

  // ----- One call -----

  /** Whatever the buckets hold, a refusal always names a block still running: the wait until the end of the
      window is never reached. */
  lemma RefusalsAreBlocks(buckets: Buckets, r: Request)
    requires !Rejected(r.input) && !DecisionOn(buckets, r).allowed
    ensures var d := DecisionOn(buckets, r);
            d.blockedUntil.Some? && d.blockedUntil.value > r.now && d.retryAfter == d.blockedUntil.value - r.now > 0
  {
    hide Blank;
  }

  // ----- Histories -----

  ghost function After(requests: seq<Request>): Buckets {
    if requests == [] then map[] else Step(After(requests[..|requests| - 1]), requests[|requests| - 1])
  }

  /** How often a bucket was hit. */
  ghost function Hits(requests: seq<Request>, key: BucketKey): nat {
    if requests == [] then 0
    else
      var last := requests[|requests| - 1];
      Hits(requests[..|requests| - 1], key) + if !Rejected(last.input) && KeyOf(last) == key then 1 else 0
  }

  /** All accepted requests to this subject and window length use the same limit. */
  ghost predicate ConstantLimit(requests: seq<Request>, key: BucketKey, limit: int) {
    forall i :: 0 <= i < |requests| && !Rejected(requests[i].input) && KeyOf(requests[i]) == key ==>
      requests[i].input.limit == limit
  }

  /** A bucket counts its hits, and is blocked only once they exceed the limit. */
  lemma {:induction false} BucketIsCount(requests: seq<Request>, key: BucketKey, limit: int)
    requires ConstantLimit(requests, key, limit) && limit >= 1
    ensures key in After(requests) <==> Hits(requests, key) > 0
    ensures key in After(requests) ==>
              After(requests)[key].hits == Hits(requests, key)
              && (After(requests)[key].blockedUntil.Some? ==> Hits(requests, key) > limit)
  {
    hide Rejected, Truncate;
    if requests != [] {
      var n := |requests| - 1;
      forall i | 0 <= i < n ensures requests[..n][i] == requests[i] {}
      BucketIsCount(requests[..n], key, limit);
    }
  }

  /** The i-th request is allowed. */
  ghost predicate AllowedAt(requests: seq<Request>, i: int)
    requires 0 <= i < |requests|
  {
    !Rejected(requests[i].input) && DecisionOn(After(requests[..i]), requests[i]).allowed
  }

  /** The closed form: with a constant limit, exactly the first `limit` requests of each window are allowed,
      whatever the block durations and however the clock runs. */
  lemma FirstOfEachWindow(requests: seq<Request>, i: nat)
    requires i < |requests| && !Rejected(requests[i].input)
    requires ConstantLimit(requests, KeyOf(requests[i]), requests[i].input.limit)
    ensures AllowedAt(requests, i) <==> Hits(requests[..i], KeyOf(requests[i])) < requests[i].input.limit
  {
    assert requests[i].input.limit >= 1;
    hide Rejected, Truncate;
    var key := KeyOf(requests[i]);
    forall j | 0 <= j < i ensures requests[..i][j] == requests[j] {}
    BucketIsCount(requests[..i], key, requests[i].input.limit);
  }

  // ----- A block -----

  /** When a block that this request sets ends: after the duration asked for, or a window, or a minute. */
  function BlockEnd(r: Request): int {
    r.now + if r.input.blockDuration > 0 then r.input.blockDuration
            else if r.input.window > 0 then r.input.window else 60_000_000_000
  }

  /** Request i is the first one of its window beyond the limit. */
  ghost predicate FirstExcess(requests: seq<Request>, i: nat)
    requires i < |requests|
  {
    && !Rejected(requests[i].input)
    && ConstantLimit(requests[..i + 1], KeyOf(requests[i]), requests[i].input.limit)
    && Hits(requests[..i], KeyOf(requests[i])) == requests[i].input.limit
  }

  lemma BlockSet(requests: seq<Request>, i: nat)
    requires i < |requests| && FirstExcess(requests, i)
    ensures var bucket := NextBucket(After(requests[..i]), requests[i]);
            bucket.hits == requests[i].input.limit + 1 && bucket.blockedUntil == Some(BlockEnd(requests[i]))
  {
    var key, limit := KeyOf(requests[i]), requests[i].input.limit;
    assert limit >= 1;
    hide Rejected, Truncate;
    forall j | 0 <= j < i
      ensures requests[..i][j] == requests[..i + 1][j]
    {}
    BucketIsCount(requests[..i], key, limit);
  }

  /** The block set by the first excess request stands, unmoved by whatever is requested before it ends. */
  lemma {:induction false} BlockStands(requests: seq<Request>, i: nat, n: nat)
    requires i < n <= |requests| && FirstExcess(requests, i)
    requires forall m :: i < m < n && !Rejected(requests[m].input) && KeyOf(requests[m]) == KeyOf(requests[i]) ==>
               requests[m].now < BlockEnd(requests[i])
    ensures KeyOf(requests[i]) in After(requests[..n])
    ensures After(requests[..n])[KeyOf(requests[i])].blockedUntil == Some(BlockEnd(requests[i]))
    decreases n
  {
    hide Rejected, Truncate, FirstExcess, BlockEnd;
    assert requests[..n][..n - 1] == requests[..n - 1] && requests[..n][n - 1] == requests[n - 1];
    if n == i + 1 {
      BlockSet(requests, i);
      assert !Rejected(requests[i].input) by { ExcessAccepted(requests, i); }
    } else {
      BlockStands(requests, i, n - 1);
    }
  }

  lemma ExcessAccepted(requests: seq<Request>, i: nat)
    requires i < |requests| && FirstExcess(requests, i)
    ensures !Rejected(requests[i].input)
  {}

  /** So every request to that window is refused until the block ends, and told the time that is left. */
  lemma RefusedUntilBlockEnds(requests: seq<Request>, i: nat, j: nat)
    requires i <= j < |requests| && FirstExcess(requests, i) && !Rejected(requests[j].input)
    requires KeyOf(requests[j]) == KeyOf(requests[i])
    requires forall m :: i < m <= j && !Rejected(requests[m].input) && KeyOf(requests[m]) == KeyOf(requests[i]) ==>
               requests[m].now < BlockEnd(requests[i])
    ensures var d := DecisionOn(After(requests[..j]), requests[j]);
            && !d.allowed && d.blockedUntil == Some(BlockEnd(requests[i]))
            && d.retryAfter == BlockEnd(requests[i]) - requests[j].now > 0
  {
    if i == j {
      BlockSet(requests, i);
      assert BlockEnd(requests[i]) > requests[i].now;
      hide Rejected, Truncate, FirstExcess, BlockEnd;
    } else {
      BlockStands(requests, i, j);
      hide Rejected, Truncate, FirstExcess, BlockEnd;
    }
  }

  // ----- The sliding bound -----

  /** A subject with its window length and limit. */
  datatype Subject = Subject(namespace: string, subjectKey: string, window: nat, limit: nat)

  predicate Concerns(s: Subject, r: Request) {
    r.input.namespace == s.namespace && r.input.subjectKey == s.subjectKey && Window(r.input) == s.window
  }

  ghost predicate ConstantFor(requests: seq<Request>, s: Subject) {
    s.window > 0 && s.limit >= 1
    && forall i :: 0 <= i < |requests| && Concerns(s, requests[i]) && !Rejected(requests[i].input) ==>
         requests[i].input.limit == s.limit
  }

  function SubjectKey(s: Subject, w: nat): BucketKey {
    BucketKey(s.namespace, s.subjectKey, w * s.window, w * s.window + s.window)
  }

  /** Allowed requests of the subject with a time in [from, to). */
  ghost function AllowedIn(requests: seq<Request>, n: nat, s: Subject, from: int, to: int): nat
    requires n <= |requests|
  {
    if n == 0 then 0
    else
      AllowedIn(requests, n - 1, s, from, to)
      + if Concerns(s, requests[n - 1]) && from <= requests[n - 1].now < to && AllowedAt(requests, n - 1) then 1 else 0
  }

  function Min(a: nat, b: nat): nat {
    if a <= b then a else b
  }

  lemma WindowNumber(s: Subject, r: Request)
    requires s.window > 0 && Concerns(s, r)
    ensures KeyOf(r) == SubjectKey(s, r.now / s.window)
    ensures forall w: nat :: w * s.window <= r.now < w * s.window + s.window <==> w == r.now / s.window
  {
    var q := r.now / s.window;
    assert r.now == q * s.window + r.now % s.window;
    forall w: nat | w * s.window <= r.now < w * s.window + s.window ensures w == q {
      UniqueQuotient(r.now, s.window, w, r.now - w * s.window);
    }
  }

  lemma SameWindow(s: Subject, r: Request, w: nat)
    requires s.window > 0 && Concerns(s, r)
    ensures w * s.window <= r.now < w * s.window + s.window <==> KeyOf(r) == SubjectKey(s, w)
  {
    WindowNumber(s, r);
    var q := r.now / s.window;
    if KeyOf(r) == SubjectKey(s, w) {
      assert q * s.window == w * s.window;
    }
  }

  lemma KeyConcerns(s: Subject, r: Request, w: nat)
    requires s.window > 0 && KeyOf(r) == SubjectKey(s, w)
    ensures Concerns(s, r)
  {}

  /** In one aligned window as many requests are allowed as were made, up to the limit. */
  lemma {:induction false} AllowedInWindow(requests: seq<Request>, n: nat, s: Subject, w: nat)
    requires n <= |requests| && ConstantFor(requests, s)
    ensures AllowedIn(requests, n, s, w * s.window, w * s.window + s.window)
         == Min(Hits(requests[..n], SubjectKey(s, w)), s.limit)
  {
    hide Rejected, Truncate, Window, KeyOf, AllowedAt, SubjectKey;
    if n > 0 {
      var r := requests[n - 1];
      AllowedInWindow(requests, n - 1, s, w);
      assert requests[..n][..n - 1] == requests[..n - 1];
      if KeyOf(r) == SubjectKey(s, w) { KeyConcerns(s, r, w); }
      if Concerns(s, r) {
        SameWindow(s, r, w);
        AllowedOne(requests, n - 1, s);
      }
    } else {
      assert requests[..0] == [];
    }
  }

  lemma AllowedOne(requests: seq<Request>, i: nat, s: Subject)
    requires i < |requests| && ConstantFor(requests, s) && Concerns(s, requests[i])
    ensures AllowedAt(requests, i) <==>
              !Rejected(requests[i].input) && Hits(requests[..i], KeyOf(requests[i])) < s.limit
  {
    if !Rejected(requests[i].input) {
      var key := KeyOf(requests[i]);
      hide Rejected;
      forall j | 0 <= j < |requests| && !Rejected(requests[j].input) && KeyOf(requests[j]) == key
        ensures requests[j].input.limit == requests[i].input.limit
      {
        assert Concerns(s, requests[j]);
      }
      FirstOfEachWindow(requests, i);
    }
  }

  /** Spans that follow each other. */
  lemma {:induction false} SpansAdd(requests: seq<Request>, n: nat, s: Subject, a: int, b: int, c: int)
    requires n <= |requests| && a <= b <= c
    ensures AllowedIn(requests, n, s, a, c) == AllowedIn(requests, n, s, a, b) + AllowedIn(requests, n, s, b, c)
  {
    hide AllowedAt, Concerns;
    if n > 0 { SpansAdd(requests, n - 1, s, a, b, c); }
  }

  lemma {:induction false} SpanGrows(requests: seq<Request>, n: nat, s: Subject, a: int, b: int, a': int, b': int)
    requires n <= |requests| && a' <= a && b <= b'
    ensures AllowedIn(requests, n, s, a, b) <= AllowedIn(requests, n, s, a', b')
  {
    hide AllowedAt, Concerns;
    if n > 0 { SpanGrows(requests, n - 1, s, a, b, a', b'); }
  }

  lemma {:induction false} AlignedSpan(requests: seq<Request>, s: Subject, w: nat, k: nat)
    requires ConstantFor(requests, s)
    ensures AllowedIn(requests, |requests|, s, w * s.window, (w + k) * s.window) <= k * s.limit
  {
    var n := |requests|;
    if k == 0 {
      EmptySpan(requests, n, s, w * s.window);
    } else {
      AlignedSpan(requests, s, w, k - 1);
      hide AllowedIn, ConstantFor, Hits;
      var last := w + k - 1;
      AllowedInWindow(requests, n, s, last);
      SpanStep(w, k, s.window, s.limit);
      SpansAdd(requests, n, s, w * s.window, last * s.window, last * s.window + s.window);
    }
  }

  lemma SpanStep(w: nat, k: nat, size: nat, limit: nat)
    requires k > 0
    ensures (w + k) * size == (w + k - 1) * size + size && w * size <= (w + k - 1) * size
    ensures k * limit == (k - 1) * limit + limit
  {
    MultiplyOrder(w, w + k - 1, size);
  }

  lemma MultiplyOrder(a: nat, b: nat, c: nat)
    requires a <= b
    ensures a * c <= b * c
  {}

  lemma {:induction false} EmptySpan(requests: seq<Request>, n: nat, s: Subject, a: int)
    requires n <= |requests|
    ensures AllowedIn(requests, n, s, a, a) == 0
  {
    if n > 0 { EmptySpan(requests, n - 1, s, a); }
  }

  lemma WindowOf(at: nat, s: Subject, requests: seq<Request>) returns (w: nat)
    requires ConstantFor(requests, s)
    ensures w * s.window <= at < w * s.window + s.window
  {
    w := at / s.window;
    assert at == w * s.window + at % s.window;
  }

  /** The sliding bound: over any span of k windows' length, wherever it starts, at most (k + 1) times the
      limit is let through. */
  lemma SlidingBound(requests: seq<Request>, s: Subject, from: nat, k: nat)
    requires ConstantFor(requests, s)
    ensures AllowedIn(requests, |requests|, s, from, from + k * s.window) <= (k + 1) * s.limit
  {
    hide AllowedIn, ConstantFor;
    var w := WindowOf(from, s, requests);
    assert (w + (k + 1)) * s.window == w * s.window + k * s.window + s.window;
    SpanGrows(requests, |requests|, s, from, from + k * s.window, w * s.window, (w + (k + 1)) * s.window);
    AlignedSpan(requests, s, w, k + 1);
  }

  // ----- Retry times -----

  ghost predicate Monotone(requests: seq<Request>) {
    forall i, j :: 0 <= i < j < |requests| ==> requests[i].now <= requests[j].now
  }

  ghost predicate ConstantBlock(requests: seq<Request>, key: BucketKey, block: nat) {
    forall i :: 0 <= i < |requests| && !Rejected(requests[i].input) && KeyOf(requests[i]) == key ==>
      Block(requests[i].input) == block
  }

  lemma {:induction false} BlocksAreRecent(requests: seq<Request>, key: BucketKey, block: nat, now: nat)
    requires Monotone(requests) && ConstantBlock(requests, key, block)
    requires forall i :: 0 <= i < |requests| ==> requests[i].now <= now
    ensures key in After(requests) && After(requests)[key].blockedUntil.Some? ==>
              After(requests)[key].blockedUntil.value <= now + block
  {
    hide Rejected, Truncate, Block;
    if requests != [] {
      var n := |requests| - 1;
      forall i | 0 <= i < n ensures requests[..n][i] == requests[i] {}
      BlocksAreRecent(requests[..n], key, block, requests[n].now);
    }
  }

  /** Under a monotone clock every refusal asks to wait more than nothing and at most the block duration. */
  lemma RetryWithinBlock(requests: seq<Request>, i: nat)
    requires i < |requests| && Monotone(requests) && !Rejected(requests[i].input)
    requires ConstantBlock(requests, KeyOf(requests[i]), Block(requests[i].input))
    requires !AllowedAt(requests, i)
    ensures 0 < DecisionOn(After(requests[..i]), requests[i]).retryAfter <= Block(requests[i].input)
  {
    RefusalsAreBlocks(After(requests[..i]), requests[i]);
    hide Rejected, Truncate, Block;
    forall j | 0 <= j < i ensures requests[..i][j] == requests[j] {}
    BlocksAreRecent(requests[..i], KeyOf(requests[i]), Block(requests[i].input), requests[i].now);
  }
}
