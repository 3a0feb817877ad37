/** Sliding-window rate limiter (sentrylink/ratelimit.py). */
module RateLimit {
  import opened Foundations

  /** The timestamps later than a cutoff, in order. */
  function Recent(times: seq<real>, cutoff: real): seq<real> {
    if times == [] then []
    else
      var rest := Recent(times[..|times| - 1], cutoff);
      if times[|times| - 1] > cutoff then rest + [times[|times| - 1]] else rest
  }

  datatype Call = Call(key: string, now: real)

  // ---- the specification: a log of all admissions, never pruned ----

  /** Times of the admitted calls of a key; a call is admitted when fewer than `limit` admissions lie in its window. */
  function Admissions(limit: nat, window: real, calls: seq<Call>, key: string): seq<real> {
    if calls == [] then []
    else
      var init, last := calls[..|calls| - 1], calls[|calls| - 1];
      var before := Admissions(limit, window, init, key);
      if last.key == key && |Recent(before, last.now - window)| < limit then before + [last.now] else before
  }

  predicate Admits(limit: nat, window: real, calls: seq<Call>, call: Call) {
    |Recent(Admissions(limit, window, calls, call.key), call.now - window)| < limit
  }

  /** The clock reading of the latest call. */
  predicate NotBefore(calls: seq<Call>, now: real) {
    calls == [] || calls[|calls| - 1].now <= now
  }

  function Held(hits: map<string, seq<real>>, key: string): seq<real> {
    if key in hits then hits[key] else []
  }

  /** From the cutoff `since` on, the two lists record the same times. */
  ghost predicate AgreeSince(stored: seq<real>, full: seq<real>, since: real) {
    forall cutoff :: cutoff >= since ==> Recent(stored, cutoff) == Recent(full, cutoff)
  }

  /** Within the window of the latest call the stored times of a key are those of the full log. */
  ghost predicate Agrees(hits: map<string, seq<real>>, limit: nat, window: real, calls: seq<Call>, key: string) {
    if calls == [] then Held(hits, key) == []
    else AgreeSince(Held(hits, key), Admissions(limit, window, calls, key), calls[|calls| - 1].now - window)
  }

  ghost predicate AllAgree(hits: map<string, seq<real>>, limit: nat, window: real, calls: seq<Call>) {
    forall key {:trigger Agrees(hits, limit, window, calls, key)} :: Agrees(hits, limit, window, calls, key)
  }

  lemma {:induction false} RecentTwice(times: seq<real>, cutoff: real, later: real)
    requires cutoff <= later
    ensures Recent(Recent(times, cutoff), later) == Recent(times, later)
  {
    if times != [] {
      RecentTwice(times[..|times| - 1], cutoff, later);
    }
  }

  lemma RecentOfLast(times: seq<real>, t: real, cutoff: real)
    ensures Recent(times + [t], cutoff) == if t > cutoff then Recent(times, cutoff) + [t] else Recent(times, cutoff)
  {
    assert (times + [t])[..|times|] == times;
  }

  class InMemoryTokenBucket {
    const limit: nat
    const window: real
    var hits: map<string, seq<real>>
    ghost var calls: seq<Call>

    ghost predicate Valid()
      reads this
    {
      limit >= 1 && window > 0.0 && AllAgree(hits, limit, window, calls)
    }

    constructor (limit: nat, window: real)
      requires limit >= 1 && window > 0.0
      ensures Valid() && this.limit == limit && this.window == window && hits == map[] && calls == []
    {
      this.limit, this.window, hits, calls := limit, window, map[], [];
    }

    /** Under a clock that never runs backwards, decides exactly as the never-pruned log does. */
    method Allow(key: string, now: real) returns (ok: bool)
      requires Valid() && NotBefore(calls, now)
      modifies this
      ensures Valid() && calls == old(calls) + [Call(key, now)]
      ensures ok <==> Admits(limit, window, old(calls), Call(key, now))
      ensures forall other :: other != key ==> Held(hits, other) == Held(old(hits), other)
    {
      var recent := Recent(Held(hits, key), now - window);
      StepAgrees(hits, limit, window, calls, key, now);
      if |recent| >= limit {
        hits := hits[key := recent];
        ok := false;
      } else {
        hits := hits[key := recent + [now]];
        ok := true;
      }
      calls := calls + [Call(key, now)];
    }
  }

  /** The constructor's checks. */
  method NewBucket(limit: int, window: real) returns (r: Result<InMemoryTokenBucket, Error>)
    ensures limit < 1 || window <= 0.0 ==> r == Err(ValueError)
    ensures limit >= 1 && window > 0.0 ==> r.Ok? && fresh(r.value) && r.value.Valid() && r.value.calls == []
                                           && r.value.limit == limit && r.value.window == window
  {
    if limit < 1 || window <= 0.0 {
      return Err(ValueError);
    }
    var bucket := new InMemoryTokenBucket(limit, window);
    return Ok(bucket);
  }

  /** The stored list of a key after a call, from its list before. */
  function Kept(stored: seq<real>, limit: nat, window: real, now: real): seq<real> {
    var recent := Recent(stored, now - window);
    if |recent| < limit then recent + [now] else recent
  }

  /** What the full log of a key becomes after a call. */
  function Logged(full: seq<real>, limit: nat, window: real, now: real): seq<real> {
    if |Recent(full, now - window)| < limit then full + [now] else full
  }

  lemma ExtendedAgrees(full: seq<real>, recent: seq<real>, since: real, now: real, grows: bool)
    requires recent == Recent(full, since)
    ensures AgreeSince(if grows then recent + [now] else recent, if grows then full + [now] else full, since)
  {
    var kept, logged := if grows then recent + [now] else recent, if grows then full + [now] else full;
    forall cutoff | cutoff >= since ensures Recent(kept, cutoff) == Recent(logged, cutoff) {
      RecentTwice(full, since, cutoff);
      RecentOfLast(recent, now, cutoff);
      RecentOfLast(full, now, cutoff);
    }
  }

  lemma KeptAgrees(stored: seq<real>, full: seq<real>, limit: nat, window: real, now: real)
    requires Recent(stored, now - window) == Recent(full, now - window)
    ensures AgreeSince(Kept(stored, limit, window, now), Logged(full, limit, window, now), now - window)
  {
    var recent := Recent(full, now - window);
    ExtendedAgrees(full, recent, now - window, now, |recent| < limit);
  }

  lemma SameWindow(hits: map<string, seq<real>>, limit: nat, window: real, calls: seq<Call>, key: string, now: real)
    requires NotBefore(calls, now) && Agrees(hits, limit, window, calls, key)
    ensures AgreeSince(Held(hits, key), Admissions(limit, window, calls, key), now - window)
  {
  }

  lemma AdmissionsStep(limit: nat, window: real, calls: seq<Call>, call: Call, key: string)
    ensures Admissions(limit, window, calls + [call], key)
         == if call.key == key then Logged(Admissions(limit, window, calls, key), limit, window, call.now)
            else Admissions(limit, window, calls, key)
  {
    assert (calls + [call])[..|calls|] == calls;
  }

  lemma StepAgrees(hits: map<string, seq<real>>, limit: nat, window: real, calls: seq<Call>, key: string, now: real)
    requires NotBefore(calls, now) && AllAgree(hits, limit, window, calls)
    ensures |Recent(Held(hits, key), now - window)| < limit <==> Admits(limit, window, calls, Call(key, now))
    ensures AllAgree(hits[key := Kept(Held(hits, key), limit, window, now)], limit, window, calls + [Call(key, now)])
  {
    var hits' := hits[key := Kept(Held(hits, key), limit, window, now)];
    var calls' := calls + [Call(key, now)];
    assert Agrees(hits, limit, window, calls, key);
    SameWindow(hits, limit, window, calls, key, now);
    KeptAgrees(Held(hits, key), Admissions(limit, window, calls, key), limit, window, now);
    forall k {:trigger Agrees(hits', limit, window, calls', k)} ensures Agrees(hits', limit, window, calls', k) {
      assert Agrees(hits, limit, window, calls, k);
      SameWindow(hits, limit, window, calls, k, now);
      AdmissionsStep(limit, window, calls, Call(key, now), k);
    }
  }

  // ---- what the specification guarantees over every run ----

  function CountIn(times: seq<real>, inside: real -> bool): nat {
    if times == [] then 0
    else CountIn(times[..|times| - 1], inside) + (if inside(times[|times| - 1]) then 1 else 0)
  }

  /** How many calls of the key have been admitted at times inside a region. */
  function Granted(limit: nat, window: real, calls: seq<Call>, key: string, inside: real -> bool): nat {
    if calls == [] then 0
    else
      var init, last := calls[..|calls| - 1], calls[|calls| - 1];
      Granted(limit, window, init, key, inside)
      + (if last.key == key && inside(last.now) && Admits(limit, window, init, last) then 1 else 0)
  }

  function Later(cutoff: real): real -> bool {
    t => t > cutoff
  }

  lemma {:induction false} AdmissionsAreGranted(limit: nat, window: real, calls: seq<Call>, key: string,
                                                inside: real -> bool)
    ensures CountIn(Admissions(limit, window, calls, key), inside) == Granted(limit, window, calls, key, inside)
  {
    if calls != [] {
      var init, last := calls[..|calls| - 1], calls[|calls| - 1];
      AdmissionsAreGranted(limit, window, init, key, inside);
      var before := Admissions(limit, window, init, key);
      assert (before + [last.now])[..|before|] == before;
    }
  }

  lemma {:induction false} RecentCounted(times: seq<real>, cutoff: real)
    ensures |Recent(times, cutoff)| == CountIn(times, Later(cutoff))
  {
    if times != [] {
      RecentCounted(times[..|times| - 1], cutoff);
    }
  }

  /**
   * A call is admitted if and only if fewer than `limit` earlier calls of its own key were admitted later than one
   * window ago: nothing else refuses it, and nothing else lets it through.
   */
  lemma AdmittedIffRoom(limit: nat, window: real, calls: seq<Call>, call: Call)
    ensures Admits(limit, window, calls, call) <==>
              Granted(limit, window, calls, call.key, Later(call.now - window)) < limit
  {
    RecentCounted(Admissions(limit, window, calls, call.key), call.now - window);
    AdmissionsAreGranted(limit, window, calls, call.key, Later(call.now - window));
  }

  /** Any two points of the region are less than one window apart. */
  ghost predicate Spans(inside: real -> bool, window: real) {
    forall s, t :: inside(s) && inside(t) ==> t - s < window
  }

  lemma {:induction false} RegionCounted(times: seq<real>, inside: real -> bool, window: real, now: real)
    requires Spans(inside, window) && inside(now)
    ensures CountIn(times, inside) <= |Recent(times, now - window)|
  {
    if times != [] {
      RegionCounted(times[..|times| - 1], inside, window, now);
    }
  }

  /** No key is admitted more than `limit` times in any region shorter than the window, whatever the clock does. */
  lemma {:induction false} RegionBound(limit: nat, window: real, calls: seq<Call>, key: string, inside: real -> bool)
    requires Spans(inside, window)
    ensures CountIn(Admissions(limit, window, calls, key), inside) <= limit
  {
    if calls != [] {
      var init, last := calls[..|calls| - 1], calls[|calls| - 1];
      RegionBound(limit, window, init, key, inside);
      var before := Admissions(limit, window, init, key);
      if last.key == key && |Recent(before, last.now - window)| < limit {
        assert (before + [last.now])[..|before|] == before;
        if inside(last.now) {
          RegionCounted(before, inside, window, last.now);
        }
      }
    }
  }

  function AfterOpen(a: real, window: real): real -> bool {
    t => a < t <= a + window
  }

  function FromClosed(a: real, window: real): real -> bool {
    t => a <= t < a + window
  }

  /** In particular in every half-open window of the configured length, open on either side. */
  lemma WindowBound(limit: nat, window: real, calls: seq<Call>, key: string, a: real)
    ensures CountIn(Admissions(limit, window, calls, key), AfterOpen(a, window)) <= limit
    ensures CountIn(Admissions(limit, window, calls, key), FromClosed(a, window)) <= limit
  {
    RegionBound(limit, window, calls, key, AfterOpen(a, window));
    RegionBound(limit, window, calls, key, FromClosed(a, window));
  }

  /** A denied call consumes nothing: dropping it from a run changes no later admission of any key. */
  lemma {:induction false} DeniedConsumesNothing(limit: nat, window: real, before: seq<Call>, call: Call,
                                                 after: seq<Call>, key: string)
    requires !Admits(limit, window, before, call)
    ensures Admissions(limit, window, before + [call] + after, key) == Admissions(limit, window, before + after, key)
    decreases |after|
  {
    if after == [] {
      assert before + [call] + after == before + [call] && before + after == before;
      AdmissionsStep(limit, window, before, call, key);
    } else {
      var init := after[..|after| - 1];
      DeniedConsumesNothing(limit, window, before, call, init, key);
      var last := after[|after| - 1];
      assert before + [call] + after == (before + [call] + init) + [last];
      assert before + after == (before + init) + [last];
      AdmissionsStep(limit, window, before + [call] + init, last, key);
      AdmissionsStep(limit, window, before + init, last, key);
    }
  }

  function CallsOf(calls: seq<Call>, key: string): seq<Call> {
    if calls == [] then []
    else
      var rest := CallsOf(calls[..|calls| - 1], key);
      if calls[|calls| - 1].key == key then rest + [calls[|calls| - 1]] else rest
  }

  /** What one key is granted depends only on its own calls. */
  lemma {:induction false} OtherKeysIrrelevant(limit: nat, window: real, calls: seq<Call>, key: string)
    ensures Admissions(limit, window, calls, key) == Admissions(limit, window, CallsOf(calls, key), key)
  {
    if calls != [] {
      var init, last := calls[..|calls| - 1], calls[|calls| - 1];
      OtherKeysIrrelevant(limit, window, init, key);
      if last.key == key {
        assert CallsOf(calls, key)[..|CallsOf(init, key)|] == CallsOf(init, key);
      }
    }
  }
}
