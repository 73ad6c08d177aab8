/**
  `TrialRegistry` of hosted/cost_gateway/trial.py: trial keys issued at a limited rate per address and
  up to a ceiling of live tenants. Clocks are readings handed to each call and never go back.
 */
module Trial {
  import opened Common

  type Address(==,!new,0)
  type KeyHash(==,!new,0)
  type TenantId(==,!new,0)

  datatype Tenant = Tenant(id: TenantId, createdAt: real, expiresAt: real, createdIp: Address, hasRealKey: bool)
  {
    predicate IsExpired(now: real) {
      now >= expiresAt
    }
  }

  datatype Limits = Limits(
    enabled: bool, demoTtl: real, realKeyTtl: real, maxLive: nat, maxPerAddress: nat, window: real, grace: real)

  datatype Issuance = Issued(tenant: Tenant) | Disabled | LimitReached | Full

  // ---- Issuing times of one address ----

  /** How many of the times fall in the closed interval from `a` to `b`. */
  function CountWithin(times: seq<real>, a: real, b: real): (n: nat)
    ensures n <= |times|
  {
    if times == [] then 0
    else CountWithin(times[..|times| - 1], a, b) + (if a <= times[|times| - 1] <= b then 1 else 0)
  }

  ghost predicate Sorted(times: seq<real>) {
    forall i, j :: 0 <= i < j < |times| ==> times[i] <= times[j]
  }

  ghost predicate NotAfter(times: seq<real>, now: real) {
    forall i :: 0 <= i < |times| ==> times[i] <= now
  }

  /** Any `max + 1` issues in a row span more than the window. */
  ghost predicate Spaced(times: seq<real>, max: nat, window: real) {
    forall i, j :: 0 <= i && j == i + max && j < |times| ==> times[j] - times[i] > window
  }

  /** `held` is the recent end of `all`; what was dropped from it is older than the window. */
  ghost predicate Tracks(all: seq<real>, held: seq<real>, now: real, window: real) {
    && |held| <= |all| && held == all[|all| - |held|..]
    && forall i :: 0 <= i < |all| - |held| ==> now - all[i] > window
  }

  lemma {:induction false} NoneBefore(times: seq<real>, a: real, b: real, k: nat)
    requires k <= |times| && forall i :: 0 <= i < k ==> times[i] < a
    ensures CountWithin(times, a, b) <= |times| - k
  {
    if times != [] && k < |times| {
      NoneBefore(times[..|times| - 1], a, b, k);
    } else if times != [] {
      NoneBefore(times[..|times| - 1], a, b, k - 1);
    }
  }

  /** Spaced issues put at most `max` into any closed interval as long as the window. */
  lemma {:induction false} WindowHolds(times: seq<real>, max: nat, window: real, a: real)
    requires Sorted(times) && Spaced(times, max, window)
    ensures CountWithin(times, a, a + window) <= max
  {
    if times != [] {
      var n := |times|;
      if a <= times[n - 1] <= a + window {
        if n > max {
          assert times[n - 1] - times[n - 1 - max] > window;
          NoneBefore(times, a, a + window, n - max);
        }
      } else {
        WindowHolds(times[..n - 1], max, window, a);
      }
    }
  }

  /** With everything older dropped, what is held is what falls in the last window. */
  lemma {:induction false} HeldIsRecent(all: seq<real>, held: seq<real>, now: real, window: real)
    requires Tracks(all, held, now, window) && NotAfter(all, now)
    requires forall i :: 0 <= i < |held| ==> now - held[i] <= window
    ensures CountWithin(all, now - window, now) == |held|
  {
    if all != [] && held == [] {
      assert now - all[|all| - 1] > window;
      HeldIsRecent(all[..|all| - 1], [], now, window);
    } else if all != [] {
      var n, m := |all|, |held|;
      assert all[n - 1] == held[m - 1];
      assert held[..m - 1] == all[..n - 1][n - m..];
      HeldIsRecent(all[..n - 1], held[..m - 1], now, window);
    }
  }

  /** One more issue, when fewer than `max` are held. */
  lemma IssueKeepsSpacing(all: seq<real>, held: seq<real>, now: real, max: nat, window: real)
    requires Tracks(all, held, now, window) && Spaced(all, max, window) && Sorted(all) && NotAfter(all, now)
    requires |held| < max
    ensures Tracks(all + [now], held + [now], now, window) && Spaced(all + [now], max, window)
    ensures Sorted(all + [now]) && NotAfter(all + [now], now)
  {
    var n := |all|;
    assert (all + [now])[n + 1 - |held + [now]|..] == held + [now];
    forall i, j | 0 <= i && j == i + max && j < |all + [now]|
      ensures (all + [now])[j] - (all + [now])[i] > window
    {
      if j < n {
        assert all[j] - all[i] > window;
      }
    }
  }

  // ---- Live tenants ----

  function Live(tenants: map<KeyHash, Tenant>, now: real): set<KeyHash> {
    set k | k in tenants && !tenants[k].IsExpired(now)
  }

  /** Time, removals and earlier expiries only ever shrink the live set. */
  lemma LiveShrinks(tenants: map<KeyHash, Tenant>, now: real, tenants': map<KeyHash, Tenant>, later: real)
    requires now <= later
    requires forall k :: k in tenants' ==> k in tenants && tenants'[k].expiresAt <= tenants[k].expiresAt
    ensures |Live(tenants', later)| <= |Live(tenants, now)|
  {
    SubsetCount(Live(tenants', later), Live(tenants, now));
  }

  // ---- The issuing histories ----

  type Histories = map<Address, seq<real>>

  function At(histories: Histories, ip: Address): seq<real> {
    if ip in histories then histories[ip] else []
  }

  /** One address: everything ever issued to it keeps the limit, and what is held is what matters of it. */
  ghost predicate AddressOk(all: seq<real>, held: seq<real>, now: real, limits: Limits) {
    && Tracks(all, held, now, limits.window)
    && Sorted(all) && NotAfter(all, now)
    && Spaced(all, limits.maxPerAddress, limits.window)
  }

  ghost predicate HistoriesOk(all: Histories, held: Histories, now: real, limits: Limits) {
    forall ip :: AddressOk(At(all, ip), At(held, ip), now, limits)
  }

  predicate IsStale(held: seq<real>, now: real, window: real) {
    held == [] || now - held[|held| - 1] > window
  }

  function Pruned(histories: Histories, now: real, window: real): Histories {
    map ip | ip in histories && !IsStale(histories[ip], now, window) :: histories[ip]
  }

  /** What remains of a deque once its expired head is popped. */
  function Popped(held: seq<real>, now: real, window: real): seq<real> {
    if held != [] && now - held[0] > window then Popped(held[1..], now, window) else held
  }

  lemma AddressLater(all: seq<real>, held: seq<real>, before: real, now: real, limits: Limits)
    requires AddressOk(all, held, before, limits) && before <= now
    ensures AddressOk(all, held, now, limits)
    ensures IsStale(held, now, limits.window) ==> AddressOk(all, [], now, limits)
  {
  }

  lemma PruneKeeps(all: Histories, held: Histories, before: real, now: real, limits: Limits)
    requires HistoriesOk(all, held, before, limits) && before <= now
    ensures HistoriesOk(all, Pruned(held, now, limits.window), now, limits)
  {
    hide AddressOk;
    forall ip
      ensures AddressOk(At(all, ip), At(Pruned(held, now, limits.window), ip), now, limits)
    {
      assert AddressOk(At(all, ip), At(held, ip), before, limits);
      AddressLater(At(all, ip), At(held, ip), before, now, limits);
    }
  }

  lemma HistoriesLater(all: Histories, held: Histories, before: real, now: real, limits: Limits)
    requires HistoriesOk(all, held, before, limits) && before <= now
    ensures HistoriesOk(all, held, now, limits)
  {
  }

  lemma {:induction false} PopKeeps(all: seq<real>, held: seq<real>, now: real, limits: Limits)
    requires AddressOk(all, held, now, limits)
    ensures var popped := Popped(held, now, limits.window);
            && AddressOk(all, popped, now, limits)
            && (forall i :: 0 <= i < |popped| ==> now - popped[i] <= limits.window)
            && |popped| == CountWithin(all, now - limits.window, now)
    decreases |held|
  {
    if held != [] && now - held[0] > limits.window {
      assert held[1..] == all[|all| - |held| + 1..];
      PopKeeps(all, held[1..], now, limits);
    } else {
      forall i | 0 <= i < |held|
        ensures now - held[i] <= limits.window
      {
        assert held[i] == all[|all| - |held| + i] && held[0] == all[|all| - |held|];
      }
      HeldIsRecent(all, held, now, limits.window);
    }
  }

  lemma OneAddressChanges(all: Histories, held: Histories, now: real, limits: Limits, ip: Address,
                          times: seq<real>, deque: seq<real>)
    requires HistoriesOk(all, held, now, limits) && AddressOk(times, deque, now, limits)
    ensures HistoriesOk(all[ip := times], held[ip := deque], now, limits)
  {
    hide AddressOk;
    var all', held' := all[ip := times], held[ip := deque];
    forall x
      ensures AddressOk(At(all', x), At(held', x), now, limits)
    {
      assert x == ip || AddressOk(At(all, x), At(held, x), now, limits);
    }
  }

  function Unpurged(tenants: map<KeyHash, Tenant>, cutoff: real): map<KeyHash, Tenant> {
    map k | k in tenants && tenants[k].expiresAt > cutoff :: tenants[k]
  }

  /** A new tenant makes at most one more live. */
  lemma LiveGrows(tenants: map<KeyHash, Tenant>, now: real, key: KeyHash, tenant: Tenant, later: real)
    requires now <= later && key !in tenants
    ensures |Live(tenants[key := tenant], later)| <= |Live(tenants, now)| + 1
  {
    SubsetCount(Live(tenants[key := tenant], later), Live(tenants, now) + {key});
  }

  class TrialRegistry {
    const limits: Limits
    var tenants: map<KeyHash, Tenant>
    var issueHistory: Histories
    var totalIssued: nat
    // every issue ever made, by address, and the latest clock readings
    ghost var all: Histories
    ghost var monotonic: real
    ghost var wall: real

    ghost predicate Valid()
      reads this
    {
      && HistoriesOk(all, issueHistory, monotonic, limits)
      && |Live(tenants, wall)| <= limits.maxLive
    }

    constructor (limits: Limits, monotonic: real, wall: real)
      ensures Valid() && this.limits == limits && all == map[] && this.monotonic == monotonic && this.wall == wall
    {
      this.limits := limits;
      tenants, issueHistory, totalIssued, all := map[], map[], 0, map[];
      this.monotonic, this.wall := monotonic, wall;
    }

    /** What the limits promise in every state: no closed interval as long as the window holds more than
        the allowed number of issues to one address, and no later moment finds too many tenants live. */
    lemma LimitsHold(ip: Address, a: real, later: real)
      requires Valid() && later >= wall
      ensures CountWithin(At(all, ip), a, a + limits.window) <= limits.maxPerAddress
      ensures |Live(tenants, later)| <= limits.maxLive
    {
      assert AddressOk(At(all, ip), At(issueHistory, ip), monotonic, limits);
      WindowHolds(At(all, ip), limits.maxPerAddress, limits.window, a);
      LiveShrinks(tenants, wall, tenants, later);
    }

    /** Forgets addresses with nothing left in the window. */
    method PruneIssueHistory(now: real)
      modifies this`issueHistory
      ensures issueHistory == Pruned(old(issueHistory), now, limits.window)
    {
      var left := set ip | ip in issueHistory && IsStale(issueHistory[ip], now, limits.window);
      ghost var before, stale := issueHistory, left;
      while left != {}
        invariant left <= stale
        invariant forall ip :: ip in issueHistory <==> ip in before && (ip in stale ==> ip in left)
        invariant forall ip :: ip in issueHistory ==> issueHistory[ip] == before[ip]
      {
        var ip :| ip in left;
        issueHistory := issueHistory - {ip};
        left := left - {ip};
      }
    }

    /** Prunes the histories and drops the tenants whose expiry is past the grace period. */
    method PurgeExpired(monotonicNow: real, now: real) returns (purged: set<TenantId>)
      requires Valid() && monotonicNow >= monotonic && now >= wall
      modifies this`issueHistory, this`monotonic, this`tenants, this`wall
      ensures Valid() && monotonic == monotonicNow && wall == now
      ensures issueHistory == Pruned(old(issueHistory), monotonicNow, limits.window)
      ensures tenants == Unpurged(old(tenants), now - limits.grace)
      ensures purged
           == set k | k in old(tenants) && old(tenants)[k].expiresAt <= now - limits.grace :: old(tenants)[k].id
    {
      PruneKeeps(all, issueHistory, monotonic, monotonicNow, limits);
      PruneIssueHistory(monotonicNow);
      monotonic := monotonicNow;
      LiveShrinks(tenants, wall, Unpurged(tenants, now - limits.grace), now);
      wall := now;
      purged := DropStale(now - limits.grace);
    }

    method DropStale(cutoff: real) returns (purged: set<TenantId>)
      modifies this`tenants
      ensures tenants == Unpurged(old(tenants), cutoff)
      ensures purged == set k | k in old(tenants) && old(tenants)[k].expiresAt <= cutoff :: old(tenants)[k].id
    {
      var left := set k | k in tenants && tenants[k].expiresAt <= cutoff;
      ghost var before, stale := tenants, left;
      purged := {};
      while left != {}
        invariant left <= stale
        invariant forall k :: k in tenants <==> k in before && (k in stale ==> k in left)
        invariant forall k :: k in tenants ==> tenants[k] == before[k]
        invariant purged == set k | k in stale && k !in left :: before[k].id
      {
        var k :| k in left;
        purged := purged + {tenants[k].id};
        tenants := tenants - {k};
        left := left - {k};
      }
    }

    /** Pops what has left the window off an address's deque. What is left is what the address was issued
        within the window. */
    method RecentIssues(ip: Address, now: real) returns (n: nat)
      requires Valid() && now >= monotonic
      modifies this`issueHistory, this`monotonic
      ensures Valid() && monotonic == now
      ensures ip in issueHistory && n == |issueHistory[ip]| == CountWithin(At(all, ip), now - limits.window, now)
    {
      hide HistoriesOk, AddressOk, CountWithin, Live;
      HistoriesLater(all, issueHistory, monotonic, now, limits);
      monotonic := now;
      PopIssues(all, issueHistory, now, limits, ip);
      var history := if ip in issueHistory then issueHistory[ip] else [];
      while history != [] && now - history[0] > limits.window
        invariant Popped(history, now, limits.window) == Popped(At(issueHistory, ip), now, limits.window)
        decreases |history|
      {
        history := history[1..];
      }
      OneHistoryChanges(all, issueHistory, now, limits, ip, history);
      issueHistory := issueHistory[ip := history];
      n := |history|;
    }

    /** Adds a tenant unless the ceiling is reached. */
    method Admit(ip: Address, key: KeyHash, id: TenantId, counted: real, created: real) returns (tenant: Option<Tenant>)
      requires Valid() && key !in tenants && wall <= counted <= created
      modifies this`tenants, this`wall
      ensures Valid() && wall >= counted
      ensures tenant.None? <==> |Live(old(tenants), counted)| >= limits.maxLive
      ensures tenant.None? ==> tenants == old(tenants) && wall == counted
      ensures tenant.Some? ==>
                && tenant.value == Tenant(id, created, created + limits.demoTtl, ip, false)
                && tenants == old(tenants)[key := tenant.value] && wall == created
    {
      hide HistoriesOk;
      var live := |Live(tenants, counted)|;
      LiveShrinks(tenants, wall, tenants, counted);
      wall := counted;
      if live >= limits.maxLive {
        return None;
      }
      tenant := Some(Tenant(id, created, created + limits.demoTtl, ip, false));
      LiveGrows(tenants, counted, key, tenant.value, created);
      tenants := tenants[key := tenant.value];
      wall := created;
    }

    /** The checks of the address's rate and of the ceiling, and the issue itself. */
    method IssueIfRoom(ip: Address, key: KeyHash, id: TenantId, mono: real, counted: real, created: real)
      returns (r: Issuance)
      requires Valid() && key !in tenants && monotonic <= mono && wall <= counted <= created
      modifies this
      ensures Valid() && !r.Disabled?
      ensures r.LimitReached? <==> CountWithin(At(old(all), ip), mono - limits.window, mono) >= limits.maxPerAddress
      ensures !r.LimitReached? ==> (r.Full? <==> |Live(old(tenants), counted)| >= limits.maxLive)
      ensures if r.Issued?
              then && all == old(all)[ip := At(old(all), ip) + [mono]]
                   && totalIssued == old(totalIssued) + 1
                   && r.tenant == Tenant(id, created, created + limits.demoTtl, ip, false)
                   && tenants == old(tenants)[key := r.tenant]
              else all == old(all) && totalIssued == old(totalIssued) && tenants == old(tenants)
    {
      hide HistoriesOk, AddressOk, CountWithin, Live;
      var recent := RecentIssues(ip, mono);
      if recent >= limits.maxPerAddress {
        return LimitReached;
      }
      var tenant := Admit(ip, key, id, counted, created);
      if tenant.None? {
        return Full;
      }
      IssueRecorded(all, issueHistory, mono, limits, ip);
      issueHistory := issueHistory[ip := issueHistory[ip] + [mono]];
      all := all[ip := At(all, ip) + [mono]];
      totalIssued := totalIssued + 1;
      return Issued(tenant.value);
    }

    /** Issues a key to an address, unless the operator, its rate or the ceiling forbids it. `key` and `id`
        are freshly drawn. The rate is judged on the whole history of the address. */
    method Issue(ip: Address, key: KeyHash, id: TenantId, mono1: real, mono2: real, now1: real, now2: real, now3: real)
      returns (r: Issuance)
      requires Valid() && key !in tenants
      requires monotonic <= mono1 <= mono2 && wall <= now1 <= now2 <= now3
      modifies this
      ensures Valid()
      ensures r.Disabled? <==> !limits.enabled
      ensures r.LimitReached? <==>
                limits.enabled && CountWithin(At(old(all), ip), mono2 - limits.window, mono2) >= limits.maxPerAddress
      ensures limits.enabled && !r.LimitReached? ==>
                (r.Full? <==> |Live(Unpurged(old(tenants), now1 - limits.grace), now2)| >= limits.maxLive)
      ensures if r.Issued?
              then && all == old(all)[ip := At(old(all), ip) + [mono2]]
                   && totalIssued == old(totalIssued) + 1
                   && r.tenant == Tenant(id, now3, now3 + limits.demoTtl, ip, false)
                   && tenants == Unpurged(old(tenants), now1 - limits.grace)[key := r.tenant]
              else all == old(all) && totalIssued == old(totalIssued)
                   && tenants == if r.Disabled? then old(tenants) else Unpurged(old(tenants), now1 - limits.grace)
    {
      if !limits.enabled {
        return Disabled;
      }
      hide HistoriesOk, AddressOk, CountWithin, Live, Unpurged, Pruned;
      var _ := PurgeExpired(mono1, now1);
      KeyStaysFree(old(tenants), now1 - limits.grace, key);
      r := IssueIfRoom(ip, key, id, mono2, now2, now3);
    }

    /** The first real key only ever brings a tenant's expiry forward. */
    method TightenForRealKey(key: KeyHash, submittedAt: real)
      requires Valid() && key in tenants
      modifies this`tenants
      ensures Valid() && key in old(tenants)
      ensures key in tenants && tenants[key].expiresAt <= old(tenants)[key].expiresAt
                             && tenants[key].expiresAt <= submittedAt + limits.realKeyTtl
      ensures tenants[key].expiresAt == old(tenants)[key].expiresAt
           || tenants[key].expiresAt == submittedAt + limits.realKeyTtl
      ensures tenants == old(tenants)[
                key := old(tenants)[key].(hasRealKey := true, expiresAt := tenants[key].expiresAt)]
    {
      hide HistoriesOk;
      var candidate := submittedAt + limits.realKeyTtl;
      var tenant := tenants[key];
      var tightened := tenant.(hasRealKey := true,
                               expiresAt := if candidate < tenant.expiresAt then candidate else tenant.expiresAt);
      LiveShrinks(tenants, wall, tenants[key := tightened], wall);
      tenants := tenants[key := tightened];
    }

    /** Removes one tenant at once. */
    method EndTrial(id: TenantId) returns (ended: bool)
      requires Valid()
      modifies this`tenants
      ensures Valid()
      ensures ended <==> exists k :: k in old(tenants) && old(tenants)[k].id == id
      ensures if ended then exists k :: k in old(tenants) && old(tenants)[k].id == id && tenants == old(tenants) - {k}
              else tenants == old(tenants)
    {
      hide HistoriesOk;
      if k :| k in tenants && tenants[k].id == id {
        LiveShrinks(tenants, wall, tenants - {k}, wall);
        tenants := tenants - {k};
        return true;
      }
      return false;
    }

    method LiveTenantCount(now: real) returns (count: nat)
      requires Valid() && now >= wall
      ensures count == |Live(tenants, now)| <= limits.maxLive
    {
      LiveShrinks(tenants, wall, tenants, now);
      count := |Live(tenants, now)|;
    }
  }

  lemma KeyStaysFree(tenants: map<KeyHash, Tenant>, cutoff: real, key: KeyHash)
    requires key !in tenants
    ensures key !in Unpurged(tenants, cutoff)
  {
  }

  lemma PopIssues(all: Histories, held: Histories, now: real, limits: Limits, ip: Address)
    requires HistoriesOk(all, held, now, limits)
    ensures var popped := Popped(At(held, ip), now, limits.window);
            && |popped| == CountWithin(At(all, ip), now - limits.window, now)
            && AddressOk(At(all, ip), popped, now, limits)
  {
    assert AddressOk(At(all, ip), At(held, ip), now, limits);
    PopKeeps(At(all, ip), At(held, ip), now, limits);
  }

  lemma OneHistoryChanges(all: Histories, held: Histories, now: real, limits: Limits, ip: Address, deque: seq<real>)
    requires HistoriesOk(all, held, now, limits) && AddressOk(At(all, ip), deque, now, limits)
    ensures HistoriesOk(all, held[ip := deque], now, limits)
  {
  }

  lemma IssueRecorded(all: Histories, held: Histories, now: real, limits: Limits, ip: Address)
    requires HistoriesOk(all, held, now, limits) && |At(held, ip)| < limits.maxPerAddress
    ensures HistoriesOk(all[ip := At(all, ip) + [now]], held[ip := At(held, ip) + [now]], now, limits)
  {
    hide Tracks, Sorted, NotAfter, Spaced;
    assert AddressOk(At(all, ip), At(held, ip), now, limits);
    IssueKeepsSpacing(At(all, ip), At(held, ip), now, limits.maxPerAddress, limits.window);
    OneAddressChanges(all, held, now, limits, ip, At(all, ip) + [now], At(held, ip) + [now]);
  }
}
