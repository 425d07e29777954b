/** Handing out prompts: the throttle, and the quota of prompts for each weight version. */
module PromptQuota {
  import opened Arithmetic

  /** The numbers of prompts tagged per version. */
  type Counts = map<int, nat>

  function CountOf(counts: Counts, v: int): nat {
    if v in counts then counts[v] else 0
  }

  /** At its quota or beyond: the next version is tried. A version never tagged is always open. */
  predicate Full(counts: Counts, quota: nat, v: int) {
    v in counts && counts[v] >= quota
  }

  function FromOn(counts: Counts, v: int): set<int> {
    set k | k in counts && v <= k
  }

  /** The first version from v on that is not full. */
  function NextOpen(counts: Counts, quota: nat, v: int): (w: int)
    ensures v <= w && !Full(counts, quota, w)
    ensures forall x :: v <= x < w ==> Full(counts, quota, x)
    decreases |FromOn(counts, v)|
  {
    if Full(counts, quota, v) then
      assert FromOn(counts, v) == FromOn(counts, v + 1) + {v};
      NextOpen(counts, quota, v + 1)
    else
      v
  }

  /** What tagging a list of prompts yields: the tags given out, and whether the loop's assertion held. */
  datatype Tagging = Tagging(counts: Counts, tags: seq<int>, ok: bool)

  predicate Overfull(counts: Counts, quota: nat, v: int) {
    v in counts && counts[v] > quota
  }

  predicate SkipsOverfull(counts: Counts, quota: nat, v: int, w: int) {
    exists x :: v <= x < w && Overfull(counts, quota, x)
  }

  function TagAll(counts: Counts, quota: nat, v: int, n: nat): Tagging
    decreases n
  {
    if n == 0 then
      Tagging(counts, [], true)
    else
      var w := NextOpen(counts, quota, v);
      if SkipsOverfull(counts, quota, v, w) then
        Tagging(counts, [], false)
      else
        var rest := TagAll(counts[w := CountOf(counts, w) + 1], quota, w, n - 1);
        rest.(tags := [w] + rest.tags)
  }

  /** The inner loop: passes over full versions, asserting that none is beyond its quota. */
  method SkipFull(counts: Counts, quota: nat, from: int) returns (v: int, ok: bool)
    ensures ok <==> !SkipsOverfull(counts, quota, from, NextOpen(counts, quota, from))
    ensures ok ==> v == NextOpen(counts, quota, from)
  {
    v := from;
    while v in counts && counts[v] >= quota
      invariant from <= v && NextOpen(counts, quota, from) == NextOpen(counts, quota, v)
      invariant forall x :: from <= x < v ==> !Overfull(counts, quota, x)
      decreases |FromOn(counts, v)|
    {
      if counts[v] != quota {
        assert v < NextOpen(counts, quota, from) && Overfull(counts, quota, v);
        return v, false;
      }
      assert FromOn(counts, v) == FromOn(counts, v + 1) + {v};
      v := v + 1;
    }
    ok := true;
  }

  /** The loop over the prompts of one batch. */
  method TagPayloads(counts: Counts, quota: nat, start: int, n: nat) returns (t: Tagging)
    ensures t == TagAll(counts, quota, start, n)
  {
    var now: Counts := counts;
    var tags, v, i := [], start, 0;
    assert tags + TagAll(now, quota, v, n).tags == TagAll(now, quota, v, n).tags;
    while i < n
      invariant i <= n
      invariant var rest := TagAll(now, quota, v, n - i);
                TagAll(counts, quota, start, n) == rest.(tags := tags + rest.tags)
    {
      var w, ok := SkipFull(now, quota, v);
      if !ok {
        assert tags + [] == tags;
        return Tagging(now, tags, false);
      }
      ghost var rest := TagAll(now[w := CountOf(now, w) + 1], quota, w, n - i - 1);
      assert tags + ([w] + rest.tags) == (tags + [w]) + rest.tags;
      v := w;
      if v !in now {
        now := now[v := 1];
      } else {
        now := now[v := now[v] + 1];
      }
      tags := tags + [v];
      i := i + 1;
    }
    assert tags + [] == tags;
    return Tagging(now, tags, true);
  }

  // ---------- what tagging does ----------

  function Occurrences(tags: seq<int>, v: int): nat {
    if tags == [] then 0 else Occurrences(tags[1..], v) + (if tags[0] == v then 1 else 0)
  }

  predicate NonDecreasingFrom(start: int, tags: seq<int>) {
    && (forall i :: 0 <= i < |tags| ==> start <= tags[i])
    && (forall i, j :: 0 <= i < j < |tags| ==> tags[i] <= tags[j])
  }

  /** The tags given out are exactly those counted. */
  ghost predicate Counted(before: Counts, t: Tagging) {
    && (forall x :: CountOf(t.counts, x) == CountOf(before, x) + Occurrences(t.tags, x))
    && (forall x :: x in t.counts <==> x in before || x in t.tags)
  }

  /** Every version from v on that lies before a tag given out is full. */
  predicate PassedFull(quota: nat, v: int, t: Tagging) {
    forall i, x :: 0 <= i < |t.tags| && v <= x < t.tags[i] ==> Full(t.counts, quota, x)
  }

  /** Tags never decrease; each is counted once; and every version passed over ends up full. */
  lemma {:induction false} TagsInOrder(counts: Counts, quota: nat, v: int, n: nat)
    ensures var t := TagAll(counts, quota, v, n);
            && |t.tags| <= n && (t.ok ==> |t.tags| == n)
            && NonDecreasingFrom(v, t.tags) && Counted(counts, t) && PassedFull(quota, v, t)
    decreases n
  {
    hide Counted, PassedFull, NonDecreasingFrom, SkipsOverfull, CountOf;
    NoTags(counts, quota, v, true);
    NoTags(counts, quota, v, false);
    if n > 0 {
      var w := NextOpen(counts, quota, v);
      if !SkipsOverfull(counts, quota, v, w) {
        var next := counts[w := CountOf(counts, w) + 1];
        TagsInOrder(next, quota, w, n - 1);
        OneMoreTag(counts, quota, v, TagAll(next, quota, w, n - 1));
      }
    }
  }

  lemma NoTags(counts: Counts, quota: nat, v: int, ok: bool)
    ensures NonDecreasingFrom(v, []) && PassedFull(quota, v, Tagging(counts, [], ok))
    ensures Counted(counts, Tagging(counts, [], ok))
  {
  }

  lemma OneMoreTag(counts: Counts, quota: nat, v: int, rest: Tagging)
    requires var w := NextOpen(counts, quota, v);
             NonDecreasingFrom(w, rest.tags) && PassedFull(quota, w, rest) &&
             Counted(counts[w := CountOf(counts, w) + 1], rest)
    ensures var t := rest.(tags := [NextOpen(counts, quota, v)] + rest.tags);
            NonDecreasingFrom(v, t.tags) && Counted(counts, t) && PassedFull(quota, v, t)
  {
    var w := NextOpen(counts, quota, v);
    var t := rest.(tags := [w] + rest.tags);
    assert t.tags[1..] == rest.tags;
    forall i, x | 0 <= i < |t.tags| && v <= x < t.tags[i]
      ensures Full(t.counts, quota, x)
    {
      if x >= w {
        assert t.tags[i] == rest.tags[i - 1];
        assert Full(rest.counts, quota, x);
      } else {
        assert Full(counts, quota, x) && x in counts[w := CountOf(counts, w) + 1];
        assert CountOf(t.counts, x) >= CountOf(counts, x);
      }
    }
  }

  predicate Within(counts: Counts, cap: nat) {
    forall v :: v in counts ==> 1 <= counts[v] <= cap
  }

  /** With a positive quota that no count exceeds, the assertion holds and no count comes to exceed it. */
  lemma {:induction false} QuotaKept(counts: Counts, quota: nat, v: int, n: nat)
    requires 0 < quota && Within(counts, quota)
    ensures TagAll(counts, quota, v, n).ok && Within(TagAll(counts, quota, v, n).counts, quota)
    decreases n
  {
    if n > 0 {
      var w := NextOpen(counts, quota, v);
      QuotaKept(counts[w := CountOf(counts, w) + 1], quota, w, n - 1);
    }
  }

  /** With no quota at all (no replica) at most one prompt of an unseen version gets through. */
  lemma NoQuota(counts: Counts, v: int, n: nat)
    requires Within(counts, 1)
    ensures TagAll(counts, 0, v, n).ok <==> n == 0 || (n == 1 && v !in counts)
    ensures Within(TagAll(counts, 0, v, n).counts, 1)
  {
    if n > 0 {
      var w := NextOpen(counts, 0, v);
      if v in counts {
        assert Full(counts, 0, v) && Overfull(counts, 0, v);
        assert SkipsOverfull(counts, 0, v, w);
      } else {
        assert w == v;
        var next := counts[v := 1];
        assert !SkipsOverfull(counts, 0, v, v);
        if n > 1 {
          var u := NextOpen(next, 0, v);
          assert Full(next, 0, v) && Overfull(next, 0, v);
          assert SkipsOverfull(next, 0, v, u);
          assert TagAll(next, 0, v, n - 1) == Tagging(next, [], false);
        } else {
          assert TagAll(next, 0, v, 0) == Tagging(next, [], true);
        }
      }
    }
  }

  // ---------- one fetch ----------

  /** The configuration that matters here, for a variant other than DAPO. */
  datatype Config = Config(trainBatch: nat, nGeneration: nat, allowedOutdated: int, fetchBatch: int, maxRetry: int)

  predicate ValidConfig(c: Config) {
    0 < c.trainBatch && 0 < c.nGeneration
  }

  /** The prompts one training step needs. */
  function Quota(c: Config, replicas: nat): nat
    requires ValidConfig(c)
  {
    CeilDivIsCeiling(c.trainBatch * replicas, c.nGeneration);
    QuotaNonNegative(c, replicas);
    CeilDiv(c.trainBatch * replicas, c.nGeneration)
  }

  lemma QuotaNonNegative(c: Config, replicas: nat)
    requires ValidConfig(c)
    ensures 0 <= CeilDiv(c.trainBatch * replicas, c.nGeneration)
    ensures 0 < replicas ==> 0 < CeilDiv(c.trainBatch * replicas, c.nGeneration)
  {
    var q := CeilDiv(c.trainBatch * replicas, c.nGeneration);
    CeilDivIsCeiling(c.trainBatch * replicas, c.nGeneration);
    if q < 0 { MulLe(q, -1, c.nGeneration); MulLe(0, replicas, c.trainBatch); }
    if 0 < replicas && q <= 0 { MulLe(q, 0, c.nGeneration); MulLt(0, replicas, c.trainBatch); }
  }

  lemma QuotaGrows(c: Config, a: nat, b: nat)
    requires ValidConfig(c) && a <= b
    ensures Quota(c, a) <= Quota(c, b)
  {
    var p, q := Quota(c, a), Quota(c, b);
    CeilDivIsCeiling(c.trainBatch * a, c.nGeneration);
    CeilDivIsCeiling(c.trainBatch * b, c.nGeneration);
    MulLe(a, b, c.trainBatch);
    if p > q { MulLe(q, p - 1, c.nGeneration); AddOne(p - 1, c.nGeneration); }
  }

  /** The rollouts one step consumes, or 1 when there is no replica. */
  function PerStep(c: Config, replicas: nat): nat {
    if c.trainBatch * replicas == 0 then 1 else c.trainBatch * replicas
  }

  function StartVersion(c: Config, replicas: nat, currentStep: int, pending: nat): int
    requires ValidConfig(c)
  {
    currentStep + FloorDiv(pending, PerStep(c, replicas))
  }

  /** A request for prompts with what it finds: the training step, the rollouts pending and in flight, and
      how many prompts the dataset has for it. */
  datatype Request = Request(n: int, available: nat, currentStep: int, pending: nat, inFlight: int)

  /** How many prompts are asked of the dataset, after throttling. */
  function Throttled(c: Config, replicas: nat, r: Request): int {
    if r.inFlight >= (c.allowedOutdated + 1) * PerStep(c, replicas) then Min(r.n, c.fetchBatch) else r.n
  }

  function Fetched(c: Config, replicas: nat, r: Request): nat {
    Max(0, Min(Throttled(c, replicas, r), r.available))
  }

  /** A fetch ends with its tags, or with the failure the code raises. */
  datatype Reply = Tagged(tags: seq<int>) | QuotaExceeded | NoSuchVersion | DividedByZero | TooManyRetries

  /** The retry check that follows the tagging. */
  function RetryCheck(c: Config, quota: nat, counts: Counts, start: int, tags: seq<int>): Reply {
    if c.maxRetry <= 0 then Tagged(tags)
    else if start !in counts then NoSuchVersion
    else if quota == 0 then DividedByZero
    else if CeilDiv(counts[start], quota) > c.maxRetry then TooManyRetries
    else Tagged(tags)
  }

  /** The dispatcher's state: the counts, the policy replicas registered, whether any replica was ever
      unregistered, and (for the record) all tags given out under control. */
  datatype Desk = Desk(counts: Counts, replicas: nat, scaled: bool, tags: seq<int>)

  const OPENING := Desk(map[], 0, false, [])

  function Zeros(n: nat): seq<int> {
    seq(n, i => 0)
  }

  function AfterFetch(c: Config, d: Desk, r: Request): (Desk, Reply)
    requires ValidConfig(c)
  {
    var n := Fetched(c, d.replicas, r);
    if d.scaled then
      (d, Tagged(Zeros(n)))
    else
      var quota, start := Quota(c, d.replicas), StartVersion(c, d.replicas, r.currentStep, r.pending);
      var t := TagAll(d.counts, quota, start, n);
      var reply := if t.ok then RetryCheck(c, quota, t.counts, start, t.tags) else QuotaExceeded;
      (d.(counts := t.counts, tags := d.tags + t.tags), reply)
  }

  class Dispatcher {
    const config: Config
    var promptNum: Counts
    var replicas: nat
    var scaled: bool
    ghost var allTags: seq<int>

    constructor (config: Config)
      requires ValidConfig(config)
      ensures View() == OPENING && this.config == config
    {
      this.config := config;
      promptNum, replicas, scaled, allTags := map[], 0, false, [];
    }

    ghost function View(): Desk
      reads this
    {
      Desk(promptNum, replicas, scaled, allTags)
    }

    /** A training fetch. The rollouts in flight grow by one group per prompt unless the fetch fails. */
    method GetBatchedPrompt(r: Request) returns (reply: Reply, inFlight: int)
      requires ValidConfig(config)
      modifies this
      ensures (View(), reply) == AfterFetch(config, old(View()), r)
      ensures inFlight == r.inFlight + if reply.Tagged? then |reply.tags| * config.nGeneration else 0
    {
      inFlight := r.inFlight;
      var perStep := PerStep(config, replicas);
      var quota := Quota(config, replicas);
      var start := r.currentStep + FloorDiv(r.pending, perStep);
      var n := r.n;
      if r.inFlight >= (config.allowedOutdated + 1) * perStep {
        n := Min(n, config.fetchBatch);
      }
      var count := Max(0, Min(n, r.available));
      if scaled {
        reply := Tagged(Zeros(count));
      } else {
        ghost var before := promptNum;
        var t := TagPayloads(promptNum, quota, start, count);
        promptNum := t.counts;
        allTags := allTags + t.tags;
        if !t.ok {
          return QuotaExceeded, inFlight;
        }
        TagsInOrder(before, quota, start, count);
        reply := RetryCheck(config, quota, promptNum, start, t.tags);
      }
      if reply.Tagged? {
        inFlight := inFlight + count * config.nGeneration;
      }
    }
  }

  // ---------- all runs ----------

  datatype Event = PolicyJoins | PolicyLeaves | RolloutLeaves | Fetch(request: Request)

  predicate CanHappen(d: Desk, e: Event) {
    e.PolicyLeaves? ==> d.replicas > 0
  }

  function After(c: Config, d: Desk, e: Event): Desk
    requires ValidConfig(c) && CanHappen(d, e)
  {
    match e
    case PolicyJoins => d.(replicas := d.replicas + 1)
    case PolicyLeaves => d.(replicas := d.replicas - 1, scaled := true)
    case RolloutLeaves => d.(scaled := true)
    case Fetch(r) => AfterFetch(c, d, r).0
  }

  ghost predicate CanRun(c: Config, d: Desk, events: seq<Event>)
    requires ValidConfig(c)
    decreases |events|
  {
    events == [] || (CanHappen(d, events[0]) && CanRun(c, After(c, d, events[0]), events[1..]))
  }

  ghost function Run(c: Config, d: Desk, events: seq<Event>): Desk
    requires ValidConfig(c) && CanRun(c, d, events)
    decreases |events|
  {
    if events == [] then d else Run(c, After(c, d, events[0]), events[1..])
  }

  /** The state after a list of events that can happen one after the other. */
  ghost predicate Reaches(c: Config, events: seq<Event>, d: Desk)
    requires ValidConfig(c)
  {
    CanRun(c, OPENING, events) && d == Run(c, OPENING, events)
  }

  lemma {:induction false} OccurrencesConcat(a: seq<int>, b: seq<int>, v: int)
    ensures Occurrences(a + b, v) == Occurrences(a, v) + Occurrences(b, v)
  {
    if a == [] {
      assert a + b == b;
    } else {
      assert (a + b)[1..] == a[1..] + b;
      OccurrencesConcat(a[1..], b, v);
    }
  }

  lemma {:induction false} OccursIff(tags: seq<int>, v: int)
    ensures 0 < Occurrences(tags, v) <==> v in tags
  {
    if tags != [] {
      OccursIff(tags[1..], v);
      assert tags == [tags[0]] + tags[1..];
    }
  }

  /** The counts are those of the tags given out; as long as control is on, none exceeds the quota. */
  predicate Sound(c: Config, d: Desk)
    requires ValidConfig(c)
  {
    && (forall v :: v in d.counts ==> d.counts[v] == Occurrences(d.tags, v))
    && (forall v :: v in d.tags ==> v in d.counts)
    && (!d.scaled ==> Within(d.counts, Max(1, Quota(c, d.replicas))))
  }

  lemma FetchKeepsWithin(c: Config, d: Desk, r: Request)
    requires ValidConfig(c) && Sound(c, d) && !d.scaled
    ensures Within(AfterFetch(c, d, r).0.counts, Max(1, Quota(c, d.replicas)))
  {
    var quota, start := Quota(c, d.replicas), StartVersion(c, d.replicas, r.currentStep, r.pending);
    if quota > 0 {
      QuotaKept(d.counts, quota, start, Fetched(c, d.replicas, r));
    } else {
      NoQuota(d.counts, start, Fetched(c, d.replicas, r));
    }
  }

  lemma StepKeepsSound(c: Config, d: Desk, e: Event)
    requires ValidConfig(c) && Sound(c, d) && CanHappen(d, e)
    ensures Sound(c, After(c, d, e))
  {
    match e
    case PolicyJoins =>
      QuotaGrows(c, d.replicas, d.replicas + 1);
    case PolicyLeaves =>
    case RolloutLeaves =>
    case Fetch(r) =>
      if !d.scaled {
        FetchKeepsWithin(c, d, r);
        TagsCounted(c, d, r);
      }
  }

  lemma TagsCounted(c: Config, d: Desk, r: Request)
    requires ValidConfig(c) && Sound(c, d) && !d.scaled
    ensures var next := AfterFetch(c, d, r).0;
            && (forall v :: v in next.counts ==> next.counts[v] == Occurrences(next.tags, v))
            && (forall v :: v in next.tags ==> v in next.counts)
  {
    var quota, start := Quota(c, d.replicas), StartVersion(c, d.replicas, r.currentStep, r.pending);
    var t := TagAll(d.counts, quota, start, Fetched(c, d.replicas, r));
    TagsInOrder(d.counts, quota, start, Fetched(c, d.replicas, r));
    forall v
      ensures CountOf(t.counts, v) == Occurrences(d.tags + t.tags, v)
    {
      OccurrencesConcat(d.tags, t.tags, v);
      OccursIff(d.tags, v);
    }
  }

  lemma {:induction false} RunKeepsSound(c: Config, d: Desk, events: seq<Event>)
    requires ValidConfig(c) && Sound(c, d) && CanRun(c, d, events)
    ensures Sound(c, Run(c, d, events))
    decreases |events|
  {
    hide Sound, After, CanHappen;
    if events != [] {
      StepKeepsSound(c, d, events[0]);
      RunKeepsSound(c, After(c, d, events[0]), events[1..]);
    }
  }

  lemma RunsAreSound(c: Config, events: seq<Event>, d: Desk)
    requires ValidConfig(c) && Reaches(c, events, d)
    ensures Sound(c, d)
  {
    OpeningSound(c);
    RunKeepsSound(c, OPENING, events);
  }

  lemma OpeningSound(c: Config)
    requires ValidConfig(c)
    ensures Sound(c, OPENING)
  {
  }

  /** Over any run of joins, leaves and fetches: while nothing has left and a policy replica is there, no
      version has been tagged on more prompts than one step needs. */
  lemma QuotaHolds(c: Config, events: seq<Event>, d: Desk, v: int)
    requires ValidConfig(c) && Reaches(c, events, d) && !d.scaled && 0 < d.replicas
    ensures Occurrences(d.tags, v) <= Quota(c, d.replicas)
  {
    RunsAreSound(c, events, d);
    QuotaNonNegative(c, d.replicas);
    OccursIff(d.tags, v);
  }

  /** With replicas: no retry check, or a tagged version to check. Without: no retry check, and at most one
      prompt of an untagged version. */
  predicate CanServe(c: Config, d: Desk, n: nat, start: int) {
    if d.replicas > 0 then c.maxRetry <= 0 || n > 0 || start in d.counts
    else c.maxRetry <= 0 && (n == 0 || (n == 1 && start !in d.counts))
  }

  /** Exactly when a controlled fetch succeeds in a reachable state. The quota's assertion fails only without
      policy replicas; the retry check fails only on an empty fetch of an untagged version or, again, without
      replicas; and it never counts too many retries. */
  lemma FetchSucceedsIff(c: Config, events: seq<Event>, d: Desk, r: Request)
    requires ValidConfig(c) && Reaches(c, events, d) && !d.scaled
    ensures var n, start := Fetched(c, d.replicas, r), StartVersion(c, d.replicas, r.currentStep, r.pending);
            AfterFetch(c, d, r).1.Tagged? <==> CanServe(c, d, n, start)
    ensures d.replicas > 0 ==> AfterFetch(c, d, r).1 != QuotaExceeded
    ensures AfterFetch(c, d, r).1 != TooManyRetries
  {
    hide AfterFetch, Sound, StartVersion, Fetched, CanServe, Reaches;
    RunsAreSound(c, events, d);
    QuotaNonNegative(c, d.replicas);
    FetchOutcome(c, d, r);
  }

  lemma FetchOutcome(c: Config, d: Desk, r: Request)
    requires ValidConfig(c) && Sound(c, d) && !d.scaled && (d.replicas > 0 <==> Quota(c, d.replicas) > 0)
    ensures var n, start := Fetched(c, d.replicas, r), StartVersion(c, d.replicas, r.currentStep, r.pending);
            AfterFetch(c, d, r).1.Tagged? <==> CanServe(c, d, n, start)
    ensures d.replicas > 0 ==> AfterFetch(c, d, r).1 != QuotaExceeded
    ensures AfterFetch(c, d, r).1 != TooManyRetries
  {
    var n := Fetched(c, d.replicas, r);
    var quota, start := Quota(c, d.replicas), StartVersion(c, d.replicas, r.currentStep, r.pending);
    var t := TagAll(d.counts, quota, start, n);
    FetchKeepsWithin(c, d, r);
    StartTagged(d.counts, quota, start, n);
    if quota > 0 {
      QuotaKept(d.counts, quota, start, n);
      if start in t.counts { AtMostOneTry(t.counts[start], quota); }
    } else {
      NoQuota(d.counts, start, n);
    }
  }

  lemma StartTagged(counts: Counts, quota: nat, start: int, n: nat)
    ensures var t := TagAll(counts, quota, start, n);
            t.ok ==> (start in t.counts <==> start in counts || n > 0)
  {
    TagsInOrder(counts, quota, start, n);
    if n > 0 && start !in counts {
      assert NextOpen(counts, quota, start) == start;
    }
  }

  lemma AtMostOneTry(count: nat, quota: nat)
    requires 0 < quota && count <= quota
    ensures CeilDiv(count, quota) <= 1
  {
    CeilDivIsCeiling(count, quota);
    var q := CeilDiv(count, quota);
    if q > 1 { MulLe(2, q, quota); }
  }

  /** Without policy replicas the second prompt of a batch breaks the quota's assertion. */
  lemma NoReplicasBreakTheQuota(c: Config, r: Request)
    requires ValidConfig(c) && Fetched(c, 0, r) == 2
    ensures Reaches(c, [], OPENING) && AfterFetch(c, OPENING, r).1 == QuotaExceeded
  {
    QuotaNonNegative(c, 0);
    CeilDivIsCeiling(0, c.nGeneration);
    var q := CeilDiv(0, c.nGeneration);
    if q > 0 { MulLe(1, q, c.nGeneration); }
    NoQuota(map[], StartVersion(c, 0, r.currentStep, r.pending), 2);
  }
}
