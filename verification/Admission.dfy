/** Admission of downstream requests: permits per client under a concurrency limit, a
    limit per calendar minute and one per UTC day. */
module Admission {
  import opened Common

  type Time = nat  // milliseconds since the epoch

  const MINUTE := 60_000
  const DAY := 86_400_000

  datatype Permit = Permit(acquired: Time, released: Option<Time>)

  datatype Policy = Policy(perMinute: Option<nat>, concurrent: Option<nat>, perDay: Option<nat>)

  /** What the credential row says: usable at all, and for this model. */
  datatype Credential = Credential(known: bool, active: bool, expires: Option<Time>, models: Option<set<string>>,
                                   policy: Policy)

  datatype Verdict = Granted | Expired | ModelForbidden | RateLimited(retryAfter: nat) | DailyLimit | ConcurrencyLimit

  /** `date_trunc`: the start of the window that holds `t`. */
  function WindowStart(t: Time, width: nat): (s: Time)
    requires width > 0
    ensures s <= t
  {
    t / width * width
  }

  function CountSince(permits: seq<Permit>, from: Time): nat {
    if permits == [] then 0
    else CountSince(permits[..|permits| - 1], from) + if permits[|permits| - 1].acquired >= from then 1 else 0
  }

  /** The permits of one calendar window. */
  function CountWithin(permits: seq<Permit>, start: Time, width: nat): nat {
    if permits == [] then 0
    else CountWithin(permits[..|permits| - 1], start, width)
         + if start <= permits[|permits| - 1].acquired < start + width then 1 else 0
  }

  function CountHeld(permits: seq<Permit>): nat {
    if permits == [] then 0
    else CountHeld(permits[..|permits| - 1]) + if permits[|permits| - 1].released.None? then 1 else 0
  }

  predicate Reached(count: nat, limit: Option<nat>) {
    limit.Some? && count >= limit.value
  }

  /** `GREATEST(1, CEIL(seconds to the next minute))`. */
  function RetryAfter(now: Time): nat {
    Max(1, (WindowStart(now, MINUTE) + MINUTE - now + 999) / 1000)
  }

  /** The checks, in their order, against everything from the window start onward. */
  function Judge(permits: seq<Permit>, credential: Credential, model: string, clock: Time, now: Time): Verdict {
    if !credential.known || !credential.active
       || (credential.expires.Some? && credential.expires.value <= clock) then Expired
    else if credential.models.Some? && model !in credential.models.value then ModelForbidden
    else if Reached(CountSince(permits, WindowStart(now, MINUTE)), credential.policy.perMinute) then
      RateLimited(RetryAfter(now))
    else if Reached(CountSince(permits, WindowStart(now, DAY)), credential.policy.perDay) then DailyLimit
    else if Reached(CountHeld(permits), credential.policy.concurrent) then ConcurrencyLimit
    else Granted
  }

  // ---- What the checks mean ------------------------------------------------------------

  /** The permits acquired at this time or later, in whatever order they came. */
  function Since(permits: seq<Permit>, from: Time): set<nat> {
    set i: nat | i < |permits| && permits[i].acquired >= from
  }

  function HeldNow(permits: seq<Permit>): set<nat> {
    set i: nat | i < |permits| && permits[i].released.None?
  }

  lemma SinceOfOneMore(front: seq<Permit>, p: Permit, from: Time)
    ensures Since(front + [p], from) == Since(front, from) + if p.acquired >= from then {|front|} else {}
    ensures HeldNow(front + [p]) == HeldNow(front) + if p.released.None? then {|front|} else {}
  {}

  lemma {:induction false} CountedAsMeant(permits: seq<Permit>, from: Time)
    ensures CountSince(permits, from) == |Since(permits, from)| && CountHeld(permits) == |HeldNow(permits)|
    decreases |permits|
  {
    hide Since, HeldNow;
    if permits == [] {
      NoPermits(from);
    } else {
      var n := |permits| - 1;
      CountedAsMeant(permits[..n], from);
      SinceOfOneMore(permits[..n], permits[n], from);
      assert permits[..n] + [permits[n]] == permits;
      AreBelow(permits[..n], from);
    }
  }

  lemma NoPermits(from: Time)
    ensures Since([], from) == {} && HeldNow([]) == {}
  {}

  lemma AreBelow(permits: seq<Permit>, from: Time)
    ensures |permits| !in Since(permits, from) && |permits| !in HeldNow(permits)
  {}

  predicate Room(count: nat, limit: Option<nat>) {
    limit.None? || count < limit.value
  }

  /** A permit is granted exactly to a usable credential, for a model it may use, with room
      in the minute, in the day and among those held; otherwise the first of these that
      fails is the reason given. */
  lemma JudgedAsMeant(permits: seq<Permit>, credential: Credential, model: string, clock: Time, now: Time)
    ensures var verdict := Judge(permits, credential, model, clock, now);
            var usable := credential.known && credential.active
                          && (credential.expires.None? || clock < credential.expires.value);
            var named := credential.models.None? || model in credential.models.value;
            var minute := Room(|Since(permits, WindowStart(now, MINUTE))|, credential.policy.perMinute);
            var day := Room(|Since(permits, WindowStart(now, DAY))|, credential.policy.perDay);
            var held := Room(|HeldNow(permits)|, credential.policy.concurrent);
            && (verdict.Granted? <==> usable && named && minute && day && held)
            && (verdict.Expired? <==> !usable)
            && (verdict.ModelForbidden? <==> usable && !named)
            && (verdict.RateLimited? <==> usable && named && !minute)
            && (verdict.DailyLimit? <==> usable && named && minute && !day)
            && (verdict.ConcurrencyLimit? <==> usable && named && minute && day && !held)
  {
    CountedAsMeant(permits, WindowStart(now, MINUTE));
    CountedAsMeant(permits, WindowStart(now, DAY));
  }

  predicate Within(count: nat, limit: Option<nat>) {
    limit.Some? ==> count <= limit.value
  }

  /** No calendar window holds more permits than its limit, nor are more held. */
  ghost predicate Respects(permits: seq<Permit>, policy: Policy) {
    && Within(CountHeld(permits), policy.concurrent)
    && (forall m: nat :: Within(CountWithin(permits, m * MINUTE, MINUTE), policy.perMinute))
    && (forall d: nat :: Within(CountWithin(permits, d * DAY, DAY), policy.perDay))
  }

  // ---- Counting -------------------------------------------------------------------

  lemma {:induction false} WindowIsPartOfRest(permits: seq<Permit>, start: Time, width: nat)
    ensures CountWithin(permits, start, width) <= CountSince(permits, start)
  {
    if permits != [] {
      WindowIsPartOfRest(permits[..|permits| - 1], start, width);
    }
  }

  lemma AppendCounts(permits: seq<Permit>, p: Permit, start: Time, width: nat)
    ensures CountWithin(permits + [p], start, width)
         == CountWithin(permits, start, width) + if start <= p.acquired < start + width then 1 else 0
    ensures CountHeld(permits + [p]) == CountHeld(permits) + if p.released.None? then 1 else 0
  {
    assert (permits + [p])[..|permits|] == permits;
  }

  lemma WindowsAreDisjoint(t: Time, k: nat, width: nat)
    requires width > 0 && k * width <= t < k * width + width
    ensures k * width == WindowStart(t, width)
  {
    var q := t / width;
    assert q * width <= t < q * width + width;
    MultiplesAreApart(k, q, width);
    MultiplesAreApart(q, k, width);
  }

  /** One limit per window: what is granted keeps every window of that width within
      its limit, even if its timestamp is older than some that came before it. */
  lemma GrantKeepsWindows(permits: seq<Permit>, now: Time, k: nat, width: nat, limit: Option<nat>)
    requires width > 0 && Within(CountWithin(permits, k * width, width), limit)
    requires !Reached(CountSince(permits, WindowStart(now, width)), limit)
    ensures Within(CountWithin(permits + [Permit(now, None)], k * width, width), limit)
  {
    AppendCounts(permits, Permit(now, None), k * width, width);
    if k * width <= now < k * width + width {
      WindowsAreDisjoint(now, k, width);
      WindowIsPartOfRest(permits, k * width, width);
    }
  }

  lemma GrantRespects(permits: seq<Permit>, credential: Credential, model: string, clock: Time, now: Time)
    requires Respects(permits, credential.policy) && Judge(permits, credential, model, clock, now).Granted?
    ensures Respects(permits + [Permit(now, None)], credential.policy)
  {
    var after := permits + [Permit(now, None)];
    AppendCounts(permits, Permit(now, None), 0, 0);
    forall m: nat ensures Within(CountWithin(after, m * MINUTE, MINUTE), credential.policy.perMinute) {
      GrantKeepsWindows(permits, now, m, MINUTE, credential.policy.perMinute);
    }
    forall d: nat ensures Within(CountWithin(after, d * DAY, DAY), credential.policy.perDay) {
      GrantKeepsWindows(permits, now, d, DAY, credential.policy.perDay);
    }
  }

  /** Releasing or cleaning up only ends permits; it moves none to another window. */
  predicate OnlyReleases(before: seq<Permit>, after: seq<Permit>) {
    |after| == |before| && forall i | 0 <= i < |before| ::
      after[i].acquired == before[i].acquired && (before[i].released.Some? ==> after[i].released == before[i].released)
  }

  lemma {:induction false} ReleasesCount(before: seq<Permit>, after: seq<Permit>, start: Time, width: nat)
    requires OnlyReleases(before, after)
    ensures CountWithin(after, start, width) == CountWithin(before, start, width)
    ensures CountHeld(after) <= CountHeld(before)
    decreases |before|
  {
    if before != [] {
      ReleasesCount(before[..|before| - 1], after[..|after| - 1], start, width);
    }
  }

  lemma ReleasesRespect(before: seq<Permit>, after: seq<Permit>, policy: Policy)
    requires OnlyReleases(before, after) && Respects(before, policy)
    ensures Respects(after, policy)
  {
    ReleasesCount(before, after, 0, 0);
    forall m: nat ensures Within(CountWithin(after, m * MINUTE, MINUTE), policy.perMinute) {
      ReleasesCount(before, after, m * MINUTE, MINUTE);
    }
    forall d: nat ensures Within(CountWithin(after, d * DAY, DAY), policy.perDay) {
      ReleasesCount(before, after, d * DAY, DAY);
    }
  }

  // ---- Runs ---------------------------------------------------------------------------

  /** What the transactions of any gateways do, in the order they get the client's lock;
      `now` is the time a transaction began, so it may be out of order. */
  datatype Event =
    | Acquire(model: string, clock: Time, now: Time)
    | Release(index: nat, now: Time)
    | Cleanup(expired: set<nat>, now: Time)

  function Released(p: Permit, now: Time): Permit {
    if p.released.None? then p.(released := Some(now)) else p
  }

  function Next(permits: seq<Permit>, credential: Credential, e: Event): seq<Permit> {
    match e
    case Acquire(model, clock, now) =>
      if Judge(permits, credential, model, clock, now).Granted? then permits + [Permit(now, None)] else permits
    case Release(index, now) =>
      if index < |permits| then permits[index := Released(permits[index], now)] else permits
    case Cleanup(expired, now) =>
      seq(|permits|, i requires 0 <= i < |permits| => if i in expired then Released(permits[i], now) else permits[i])
  }

  /** A grant is held until a release or a cleanup names it, and then never again; nothing
      else about a permit ever changes. */
  lemma EventMeans(permits: seq<Permit>, credential: Credential, e: Event)
    ensures var after := Next(permits, credential, e);
            && |permits| <= |after| <= |permits| + 1
            && OnlyReleases(permits, after[..|permits|])
            && match e
               case Acquire(model, clock, now) =>
                 var granted := Judge(permits, credential, model, clock, now).Granted?;
                 && (|after| > |permits| <==> granted) && after[..|permits|] == permits
                 && (granted ==> after[|permits|].acquired == now)
                 && HeldNow(after) == HeldNow(permits) + if granted then {|permits|} else {}
               case Release(index, now) =>
                 && |after| == |permits| && HeldNow(after) == HeldNow(permits) - {index}
                 && (index in HeldNow(permits) ==> after[index].released == Some(now))
               case Cleanup(expired, now) =>
                 && |after| == |permits| && HeldNow(after) == HeldNow(permits) - expired
                 && forall i | i in HeldNow(permits) * expired :: after[i].released == Some(now)
  {}

  function After(credential: Credential, events: seq<Event>): seq<Permit> {
    if events == [] then [] else Next(After(credential, events[..|events| - 1]), credential, events[|events| - 1])
  }

  lemma NextRespects(permits: seq<Permit>, credential: Credential, e: Event)
    requires Respects(permits, credential.policy)
    ensures Respects(Next(permits, credential, e), credential.policy)
  {
    hide Respects, Judge;
    match e
    case Acquire(model, clock, now) =>
      if Judge(permits, credential, model, clock, now).Granted? {
        GrantRespects(permits, credential, model, clock, now);
      }
    case _ =>
      ReleasesRespect(permits, Next(permits, credential, e), credential.policy);
  }

  /** Under a fixed policy the limits hold after every run of acquisitions, releases
      and restart cleanups, in whatever order their timestamps come. */
  lemma {:induction false} LimitsHold(credential: Credential, events: seq<Event>)
    ensures Respects(After(credential, events), credential.policy)
    decreases |events|
  {
    if events != [] {
      LimitsHold(credential, events[..|events| - 1]);
      NextRespects(After(credential, events[..|events| - 1]), credential, events[|events| - 1]);
    }
  }

  /** A client that waits as told has left the minute it was refused in, and is never
      told to wait a second longer. */
  lemma RetryLeavesTheMinute(now: Time)
    ensures 1 <= RetryAfter(now) <= 60
    ensures now + RetryAfter(now) * 1000 >= WindowStart(now, MINUTE) + MINUTE
    ensures now + (RetryAfter(now) - 1) * 1000 < WindowStart(now, MINUTE) + MINUTE
  {}

  // ---- The table ----------------------------------------------------------------------------

  /** The permits of one client, behind its advisory lock. */
  class PermitTable {
    var permits: seq<Permit>

    constructor ()
      ensures permits == []
    {
      permits := [];
    }

    /** `SELECT count(*) .. WHERE acquired_at >= from`. */
    method CountFrom(from: Time) returns (n: nat)
      ensures n == CountSince(permits, from)
    {
      n := 0;
      for i := 0 to |permits|
        invariant n == CountSince(permits[..i], from)
      {
        assert permits[..i + 1][..i] == permits[..i];
        if permits[i].acquired >= from {
          n := n + 1;
        }
      }
      assert permits[..|permits|] == permits;
    }

    method CountUnreleased() returns (n: nat)
      ensures n == CountHeld(permits)
    {
      n := 0;
      for i := 0 to |permits|
        invariant n == CountHeld(permits[..i])
      {
        assert permits[..i + 1][..i] == permits[..i];
        if permits[i].released.None? {
          n := n + 1;
        }
      }
      assert permits[..|permits|] == permits;
    }

    /** `acquire_downstream_permit`: granted exactly where there is room, and then held. */
    method AcquirePermit(credential: Credential, model: string, clock: Time, now: Time) returns (verdict: Verdict)
      modifies this`permits
      ensures verdict == Judge(old(permits), credential, model, clock, now)
      ensures permits == Next(old(permits), credential, Acquire(model, clock, now))
      ensures old(Respects(permits, credential.policy)) ==> Respects(permits, credential.policy)
      ensures permits == old(permits) + if verdict.Granted? then [Permit(now, None)] else []
    {
      if Respects(permits, credential.policy) {
        NextRespects(permits, credential, Acquire(model, clock, now));
      }
      hide Respects;
      var policy := credential.policy;
      if !credential.known || !credential.active || (credential.expires.Some? && credential.expires.value <= clock) {
        return Expired;
      }
      if credential.models.Some? && model !in credential.models.value {
        return ModelForbidden;
      }
      var minuteCount := CountFrom(WindowStart(now, MINUTE));
      if Reached(minuteCount, policy.perMinute) {
        return RateLimited(RetryAfter(now));
      }
      var dayCount := CountFrom(WindowStart(now, DAY));
      if Reached(dayCount, policy.perDay) {
        return DailyLimit;
      }
      var active := CountUnreleased();
      if Reached(active, policy.concurrent) {
        return ConcurrencyLimit;
      }
      permits := permits + [Permit(now, None)];
      verdict := Granted;
    }
  }
}
