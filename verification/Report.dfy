/** The money part of hosted/budget_gateway/report.py: revenue recognised, deferred and owed. */
module Report {
  import opened Common
  import opened Credits
  import opened Metering
  import opened Workspaces

  /** `owed` is what customers could claim back: unspent credits and purchases still pending. */
  datatype Money = Money(netCash: int, recognized: int, deferred: int, owed: int)

  // ---- Per workspace ----

  function NetCentsOf(g: Grant, reversals: map<Key, Reversal>): int {
    g.cents - (if g.key in reversals then reversals[g.key].cents else 0)
  }

  function NetCentsFor(g: Grant, reversals: map<Key, Reversal>, ws: Workspace): int {
    if g.ws == ws then NetCentsOf(g, reversals) else 0
  }

  function NetRunsFor(g: Grant, reversals: map<Key, Reversal>, ws: Workspace): int {
    RunsFor(g, ws) - ReversedFor(g, reversals, ws)
  }

  function NetRuns(grants: seq<Grant>, reversals: map<Key, Reversal>, ws: Workspace): int {
    Sum(grants, g => NetRunsFor(g, reversals, ws))
  }

  function NetCents(grants: seq<Grant>, reversals: map<Key, Reversal>, ws: Workspace): int {
    Sum(grants, g => NetCentsFor(g, reversals, ws))
  }

  /** Cash received less refunds, over all grants. */
  function NetCash(grants: seq<Grant>, reversals: map<Key, Reversal>): int {
    Sum(grants, g => NetCentsOf(g, reversals))
  }

  /** Rows that took a credit and were answered, for workspaces in the report. */
  function PaidBilled(runs: Runs, external: Workspace -> bool, ws: Workspace): nat {
    if external(ws) then |set k | k in runs && k.ws == ws && runs[k].paid && runs[k].state.Billed?| else 0
  }

  /** What counts as used is what was answered: paid runs of which some call got its answer. */
  lemma UsedIsAnswered(runs: Runs, history: seq<CallEvent>, external: Workspace -> bool, ws: Workspace)
    requires Refines(runs, history)
    ensures PaidBilled(runs, external, ws)
         == if external(ws) then |set k | k in PaidKeys(runs, ws) && EverAnswered(history, k)| else 0
  {
    assert (set k | k in runs && k.ws == ws && runs[k].paid && runs[k].state.Billed?)
        == (set k | k in PaidKeys(runs, ws) && EverAnswered(history, k));
  }

  function Recognized(netRuns: int, netCents: int, used: nat): real {
    if netRuns <= 0 then 0.0 else (Min(used, netRuns) * netCents) as real / netRuns as real
  }

  function Deferred(netRuns: int, used: nat, price: real): real {
    if netRuns <= 0 then 0.0 else (netRuns - Min(used, netRuns)) as real * price
  }

  function RecognizedTotal(buyers: seq<Workspace>, grants: seq<Grant>, reversals: map<Key, Reversal>,
                           used: Workspace -> nat): real {
    if buyers == [] then 0.0
    else
      var ws := buyers[|buyers| - 1];
      RecognizedTotal(buyers[..|buyers| - 1], grants, reversals, used)
      + Recognized(NetRuns(grants, reversals, ws), NetCents(grants, reversals, ws), used(ws))
  }

  function DeferredTotal(buyers: seq<Workspace>, grants: seq<Grant>, reversals: map<Key, Reversal>,
                         used: Workspace -> nat): real {
    if buyers == [] then 0.0
    else
      var ws := buyers[|buyers| - 1];
      DeferredTotal(buyers[..|buyers| - 1], grants, reversals, used)
      + Deferred(NetRuns(grants, reversals, ws), used(ws), TopPrice(grants, ws))
  }

  // ---- A workspace's net price never exceeds its dearest price ----

  /** The floored run reversal gives back no more runs than the refunded share of the price. */
  lemma FloorFavoursTheBuyer(g: Grant, r: Reversal)
    requires g.runs > 0 && Proportional(g, r)
    ensures 0 <= r.runs <= g.runs && r.runs * g.cents <= g.runs * r.cents
  {
    TargetMonotone(g.runs, g.cents, r.cents, g.cents);
    if r.cents < g.cents {
      var x := g.runs * r.cents;
      assert x == (x / g.cents) * g.cents + x % g.cents;
    }
  }

  /** What `apply_refund` guarantees about each grant and its reversal. */
  ghost predicate Paired(grants: seq<Grant>, reversals: map<Key, Reversal>) {
    forall i :: 0 <= i < |grants| ==>
      grants[i].runs > 0
      && (grants[i].key in reversals ==> Proportional(grants[i], reversals[grants[i].key]))
  }

  lemma NetOfOne(g: Grant, reversals: map<Key, Reversal>, ws: Workspace)
    requires g.runs > 0 && (g.key in reversals ==> Proportional(g, reversals[g.key]))
    ensures NetRunsFor(g, reversals, ws) >= 0 && NetCentsFor(g, reversals, ws) >= 0
    ensures NetCentsFor(g, reversals, ws) as real <= NetRunsFor(g, reversals, ws) as real * Price(g)
  {
    var reversed := if g.key in reversals then reversals[g.key] else Reversal(g.ws, 0, 0);
    if g.key in reversals {
      FloorFavoursTheBuyer(g, reversed);
    }
    Divide(g.cents - reversed.cents, g.runs - reversed.runs, g.cents, g.runs);
  }

  lemma Divide(cents: int, runs: int, price: int, total: int)
    requires total > 0 && cents * total <= runs * price
    ensures cents as real <= runs as real * (price as real / total as real)
  {
    var unit := price as real / total as real;
    assert total as real * unit == price as real;
    assert (cents * total) as real == cents as real * total as real;
    assert (runs * price) as real == runs as real * price as real;
    if cents as real > runs as real * unit {
      assert (cents as real - runs as real * unit) * total as real > 0.0;
    }
  }

  lemma BoundStep(runs: int, cents: int, addedRuns: int, addedCents: int, before: real, after: real)
    requires runs >= 0 && addedRuns >= 0 && before <= after
    requires cents as real <= runs as real * before && addedCents as real <= addedRuns as real * after
    ensures (cents + addedCents) as real <= (runs + addedRuns) as real * after
  {
  }

  lemma {:induction false} NetPriceBound(grants: seq<Grant>, reversals: map<Key, Reversal>, ws: Workspace)
    requires Paired(grants, reversals)
    ensures NetRuns(grants, reversals, ws) >= 0 && NetCents(grants, reversals, ws) >= 0
    ensures TopPrice(grants, ws) >= 0.0
    ensures NetCents(grants, reversals, ws) as real <= NetRuns(grants, reversals, ws) as real * TopPrice(grants, ws)
  {
    hide NetRuns, NetCents, TopPrice, NetRunsFor, NetCentsFor, Price;
    if grants == [] {
      NothingSold(reversals, ws);
    } else {
      var rest, g := grants[..|grants| - 1], grants[|grants| - 1];
      NetPriceBound(rest, reversals, ws);
      NetOfOne(g, reversals, ws);
      NetPriceStep(rest, g, reversals, ws);
      assert grants == rest + [g];
    }
  }

  lemma NothingSold(reversals: map<Key, Reversal>, ws: Workspace)
    ensures NetRuns([], reversals, ws) == 0 == NetCents([], reversals, ws) && TopPrice([], ws) == 0.0
  {
  }

  lemma NetPriceStep(rest: seq<Grant>, g: Grant, reversals: map<Key, Reversal>, ws: Workspace)
    requires NetRuns(rest, reversals, ws) >= 0 && NetCents(rest, reversals, ws) >= 0 && TopPrice(rest, ws) >= 0.0
    requires NetCents(rest, reversals, ws) as real <= NetRuns(rest, reversals, ws) as real * TopPrice(rest, ws)
    requires NetRunsFor(g, reversals, ws) >= 0 && NetCentsFor(g, reversals, ws) >= 0
    requires NetCentsFor(g, reversals, ws) as real <= NetRunsFor(g, reversals, ws) as real * Price(g)
    ensures NetRuns(rest + [g], reversals, ws) >= 0 && NetCents(rest + [g], reversals, ws) >= 0
    ensures TopPrice(rest + [g], ws) >= 0.0
    ensures NetCents(rest + [g], reversals, ws) as real
         <= NetRuns(rest + [g], reversals, ws) as real * TopPrice(rest + [g], ws)
  {
    hide *;
    NetSnoc(rest, g, reversals, ws);
    var before, after := TopPrice(rest, ws), TopPrice(rest + [g], ws);
    PriceCovers(NetRunsFor(g, reversals, ws), NetCentsFor(g, reversals, ws), Price(g), after);
    BoundStep(NetRuns(rest, reversals, ws), NetCents(rest, reversals, ws),
              NetRunsFor(g, reversals, ws), NetCentsFor(g, reversals, ws), before, after);
  }

  lemma NetSnoc(rest: seq<Grant>, g: Grant, reversals: map<Key, Reversal>, ws: Workspace)
    ensures NetRuns(rest + [g], reversals, ws) == NetRuns(rest, reversals, ws) + NetRunsFor(g, reversals, ws)
    ensures NetCents(rest + [g], reversals, ws) == NetCents(rest, reversals, ws) + NetCentsFor(g, reversals, ws)
    ensures TopPrice(rest, ws) <= TopPrice(rest + [g], ws)
    ensures if g.ws == ws then Price(g) <= TopPrice(rest + [g], ws)
            else NetRunsFor(g, reversals, ws) == 0 == NetCentsFor(g, reversals, ws)
  {
  }

  lemma PriceCovers(runs: int, cents: int, price: real, after: real)
    requires runs >= 0 && cents as real <= runs as real * price && (price <= after || runs == 0 == cents)
    ensures cents as real <= runs as real * after
  {
  }

  /** What is recognised and what is deferred together cover the workspace's net cash, and what is
      recognised alone never exceeds it. */
  lemma SplitCoversCash(netRuns: int, netCents: int, used: nat, price: real)
    requires netRuns >= 0 && netCents >= 0 && price >= 0.0 && netCents as real <= netRuns as real * price
    ensures 0.0 <= Recognized(netRuns, netCents, used) <= netCents as real
    ensures netCents as real <= Recognized(netRuns, netCents, used) + Deferred(netRuns, used, price)
  {
  }

  /** Each run used recognises one net run's share of the net cash and takes one run at the dearest price
      off what is deferred, until every net run is used: then all the cash is recognised and nothing deferred. */
  lemma UseMovesRevenue(netRuns: int, netCents: int, used: nat, price: real)
    requires netRuns > 0
    ensures Recognized(netRuns, netCents, 0) == 0.0 && Deferred(netRuns, 0, price) == netRuns as real * price
    ensures used < netRuns ==>
              && Recognized(netRuns, netCents, used + 1)
                 == Recognized(netRuns, netCents, used) + netCents as real / netRuns as real
              && Deferred(netRuns, used + 1, price) == Deferred(netRuns, used, price) - price
    ensures used >= netRuns ==>
              Recognized(netRuns, netCents, used) == netCents as real && Deferred(netRuns, used, price) == 0.0
  {
    var unit := netCents as real / netRuns as real;
    Share(netRuns, netCents, Min(used, netRuns));
    Share(netRuns, netCents, Min(used, netRuns) + 1);
    Share(netRuns, netCents, 0);
    assert (Min(used, netRuns) + 1) as real * unit == Min(used, netRuns) as real * unit + unit;
    assert (netRuns - Min(used, netRuns)) as real * price
        == netRuns as real * price - Min(used, netRuns) as real * price;
    if used < netRuns {
      assert (used + 1) as real * price == used as real * price + price;
    }
  }

  lemma Share(netRuns: int, netCents: int, n: int)
    requires netRuns > 0
    ensures (n * netCents) as real / netRuns as real == n as real * (netCents as real / netRuns as real)
    ensures netRuns as real * (netCents as real / netRuns as real) == netCents as real
  {
    var unit := netCents as real / netRuns as real;
    assert unit * netRuns as real == netCents as real;
    assert (n * netCents) as real == n as real * netCents as real;
    assert (n as real * unit) * netRuns as real == n as real * netCents as real;
  }

  // ---- Over all workspaces ----

  lemma {:induction false} CashByWorkspace(buyers: seq<Workspace>, grants: seq<Grant>, reversals: map<Key, Reversal>)
    requires forall i, j :: 0 <= i < j < |buyers| ==> buyers[i] != buyers[j]
    requires forall i :: 0 <= i < |grants| ==> grants[i].ws in buyers
    ensures Sum(buyers, ws => NetCents(grants, reversals, ws)) == NetCash(grants, reversals)
  {
    if grants == [] {
      SumAgree(buyers, ws => NetCents(grants, reversals, ws), (ws: Workspace) => 0);
      ZeroSum(buyers);
    } else {
      var rest, g := grants[..|grants| - 1], grants[|grants| - 1];
      CashByWorkspace(buyers, rest, reversals);
      var k :| 0 <= k < |buyers| && buyers[k] == g.ws;
      SumChange(buyers, k, ws => NetCents(rest, reversals, ws), ws => NetCents(grants, reversals, ws));
    }
  }

  lemma {:induction false} ZeroSum(buyers: seq<Workspace>)
    ensures Sum(buyers, (ws: Workspace) => 0) == 0
  {
    if buyers != [] {
      ZeroSum(buyers[..|buyers| - 1]);
    }
  }

  lemma {:induction false} BuyersSound(grants: seq<Grant>)
    ensures var buyers := Buyers(grants);
            && (forall i, j :: 0 <= i < j < |buyers| ==> buyers[i] != buyers[j])
            && (forall i :: 0 <= i < |grants| ==> grants[i].ws in buyers)
  {
    if grants != [] {
      var rest, ws := grants[..|grants| - 1], grants[|grants| - 1].ws;
      BuyersSound(rest);
      assert Buyers(grants) == if ws in Buyers(rest) then Buyers(rest) else Buyers(rest) + [ws];
      hide Buyers;
      forall i | 0 <= i < |grants|
        ensures grants[i].ws in Buyers(grants)
      {
        assert i < |rest| ==> rest[i] == grants[i];
      }
    }
  }

  lemma {:induction false} TotalsCoverCash(buyers: seq<Workspace>, grants: seq<Grant>, reversals: map<Key, Reversal>,
                                           used: Workspace -> nat)
    requires Paired(grants, reversals)
    ensures var cash := Sum(buyers, ws => NetCents(grants, reversals, ws)) as real;
            && 0.0 <= RecognizedTotal(buyers, grants, reversals, used) <= cash
            && cash <= RecognizedTotal(buyers, grants, reversals, used) + DeferredTotal(buyers, grants, reversals, used)
  {
    if buyers != [] {
      var ws := buyers[|buyers| - 1];
      TotalsCoverCash(buyers[..|buyers| - 1], grants, reversals, used);
      NetPriceBound(grants, reversals, ws);
      SplitCoversCash(NetRuns(grants, reversals, ws), NetCents(grants, reversals, ws), used(ws), TopPrice(grants, ws));
    }
  }

  lemma FloorAndCeiling(recognized: real, deferred: real, cash: int)
    requires 0.0 <= recognized <= cash as real <= recognized + deferred
    ensures recognized.Floor <= cash <= recognized.Floor + Ceiling(deferred)
  {
  }

  /** Cash received less refunds. */
  method CashReceived(grants: seq<Grant>, reversals: map<Key, Reversal>) returns (netCash: int)
    ensures netCash == NetCash(grants, reversals)
  {
    var gross, refunded := 0, 0;
    for i := 0 to |grants|
      invariant gross - refunded == NetCash(grants[..i], reversals)
    {
      assert grants[..i + 1][..i] == grants[..i];
      gross := gross + grants[i].cents;
      refunded := refunded + (if grants[i].key in reversals then reversals[grants[i].key].cents else 0);
    }
    assert grants[..|grants|] == grants;
    netCash := gross - refunded;
  }

  /** The report's figures for the grants in its scope: `used` counts each workspace's billed paid runs. */
  method Build(grants: seq<Grant>, reversals: map<Key, Reversal>, pending: map<Key, Purchase>, order: seq<Key>,
               used: Workspace -> nat) returns (m: Money)
    requires Paired(grants, reversals)
    ensures m.netCash == NetCash(grants, reversals)
    ensures m.recognized == RecognizedTotal(Buyers(grants), grants, reversals, used).Floor
    ensures m.deferred == Ceiling(DeferredTotal(Buyers(grants), grants, reversals, used))
    // revenue is never overstated, and nothing received goes unaccounted for
    ensures m.recognized <= m.netCash <= m.recognized + m.deferred
    ensures m.owed == m.deferred + PendingCents(pending, order)
  {
    var netCash := CashReceived(grants, reversals);
    var recognized, deferred := Revenue(grants, reversals, used);
    BuyersSound(grants);
    CashByWorkspace(Buyers(grants), grants, reversals);
    TotalsCoverCash(Buyers(grants), grants, reversals, used);
    FloorAndCeiling(recognized, deferred, netCash);
    return Money(netCash, recognized.Floor, Ceiling(deferred), Ceiling(deferred) + PendingCents(pending, order));
  }

  /** One pass over the workspaces with a grant. */
  method Revenue(grants: seq<Grant>, reversals: map<Key, Reversal>, used: Workspace -> nat)
    returns (recognized: real, deferred: real)
    ensures recognized == RecognizedTotal(Buyers(grants), grants, reversals, used)
    ensures deferred == DeferredTotal(Buyers(grants), grants, reversals, used)
  {
    hide NetRuns, NetCents, TopPrice, Buyers, HasGrant;
    var prices, buyers := DearestPrices(grants);
    var netRuns, netCents := NetTables(grants, reversals);
    BuyersAreTabled(grants);
    recognized, deferred := 0.0, 0.0;
    for i := 0 to |buyers|
      invariant recognized == RecognizedTotal(buyers[..i], grants, reversals, used)
      invariant deferred == DeferredTotal(buyers[..i], grants, reversals, used)
    {
      assert buyers[..i + 1][..i] == buyers[..i] && buyers[i] in buyers;
      var ws := buyers[i];
      assert HasGrant(grants, ws);
      if netRuns[ws] > 0 {
        var consumed := Min(used(ws), netRuns[ws]);
        recognized := recognized + (consumed * netCents[ws]) as real / netRuns[ws] as real;
        deferred := deferred + (netRuns[ws] - consumed) as real * prices[ws];
      }
    }
    assert buyers[..|buyers|] == buyers;
  }

  ghost predicate HasGrant(grants: seq<Grant>, ws: Workspace) {
    exists i :: 0 <= i < |grants| && grants[i].ws == ws
  }

  lemma {:induction false} BuyersAreTabled(grants: seq<Grant>)
    ensures forall ws :: ws in Buyers(grants) ==> HasGrant(grants, ws)
  {
    if grants != [] {
      var rest := grants[..|grants| - 1];
      BuyersAreTabled(rest);
      forall ws | ws in Buyers(grants)
        ensures HasGrant(grants, ws)
      {
        if ws in Buyers(rest) {
          var i :| 0 <= i < |rest| && rest[i].ws == ws;
          assert grants[i].ws == ws;
        } else {
          assert grants[|grants| - 1].ws == ws;
        }
      }
    }
  }

  /** The two passes that net grants against reversals, workspace by workspace. */
  method NetTables(grants: seq<Grant>, reversals: map<Key, Reversal>)
    returns (netRuns: map<Workspace, int>, netCents: map<Workspace, int>)
    ensures forall ws :: ws in netRuns <==> HasGrant(grants, ws)
    ensures forall ws :: ws in netCents <==> HasGrant(grants, ws)
    ensures forall ws :: ws in netRuns ==> netRuns[ws] == NetRuns(grants, reversals, ws)
    ensures forall ws :: ws in netCents ==> netCents[ws] == NetCents(grants, reversals, ws)
  {
    hide NetRuns, NetCents, NetRunsFor, NetCentsFor, HasGrant;
    netRuns, netCents := map[], map[];
    NoGrantAtAll(grants[..0]);
    for i := 0 to |grants|
      invariant forall ws :: ws in netRuns <==> HasGrant(grants[..i], ws)
      invariant forall ws :: ws in netCents <==> HasGrant(grants[..i], ws)
      invariant forall ws :: ws in netRuns ==> netRuns[ws] == NetRuns(grants[..i], reversals, ws)
      invariant forall ws :: ws in netCents ==> netCents[ws] == NetCents(grants[..i], reversals, ws)
    {
      var g := grants[i];
      NetNext(grants, i, reversals);
      NetForOwn(g, reversals);
      var runs := g.runs - (if g.key in reversals then reversals[g.key].runs else 0);
      netRuns := netRuns[g.ws := (if g.ws in netRuns then netRuns[g.ws] else 0) + runs];
      netCents := netCents[g.ws := (if g.ws in netCents then netCents[g.ws] else 0) + NetCentsOf(g, reversals)];
    }
    assert grants[..|grants|] == grants;
  }

  lemma NoGrantAtAll(grants: seq<Grant>)
    requires grants == []
    ensures forall ws :: !HasGrant(grants, ws)
  {
  }

  lemma NetForOwn(g: Grant, reversals: map<Key, Reversal>)
    ensures forall ws ::
              && NetRunsFor(g, reversals, ws)
                 == (if ws == g.ws then g.runs - (if g.key in reversals then reversals[g.key].runs else 0) else 0)
              && NetCentsFor(g, reversals, ws) == (if ws == g.ws then NetCentsOf(g, reversals) else 0)
  {
  }

  lemma NetNext(grants: seq<Grant>, i: nat, reversals: map<Key, Reversal>)
    requires i < |grants|
    ensures forall ws ::
              && NetRuns(grants[..i + 1], reversals, ws)
                 == NetRuns(grants[..i], reversals, ws) + NetRunsFor(grants[i], reversals, ws)
              && NetCents(grants[..i + 1], reversals, ws)
                 == NetCents(grants[..i], reversals, ws) + NetCentsFor(grants[i], reversals, ws)
    ensures forall ws :: HasGrant(grants[..i + 1], ws) <==> HasGrant(grants[..i], ws) || ws == grants[i].ws
    ensures forall ws :: !HasGrant(grants[..i], ws) ==>
              NetRuns(grants[..i], reversals, ws) == 0 && NetCents(grants[..i], reversals, ws) == 0
  {
    assert grants[..i + 1][..i] == grants[..i];
    forall ws | !HasGrant(grants[..i], ws)
      ensures NetRuns(grants[..i], reversals, ws) == 0 && NetCents(grants[..i], reversals, ws) == 0
    {
      SumAgree(grants[..i], g => NetRunsFor(g, reversals, ws), (g: Grant) => 0);
      SumAgree(grants[..i], g => NetCentsFor(g, reversals, ws), (g: Grant) => 0);
      ZeroGrants(grants[..i]);
    }
    forall ws
      ensures HasGrant(grants[..i + 1], ws) <==> HasGrant(grants[..i], ws) || ws == grants[i].ws
    {
      assert grants[..i + 1] == grants[..i] + [grants[i]];
      assert grants[..i + 1][i] == grants[i];
      if HasGrant(grants[..i], ws) {
        var j :| 0 <= j < i && grants[..i][j].ws == ws;
        assert grants[..i + 1][j].ws == ws;
      }
    }
  }

  lemma {:induction false} ZeroGrants(grants: seq<Grant>)
    ensures Sum(grants, (g: Grant) => 0) == 0
  {
    if grants != [] {
      ZeroGrants(grants[..|grants| - 1]);
    }
  }

  // ---- Against what could be claimed back ----

  lemma PaidBilledWithinPaid(runs: Runs, external: Workspace -> bool, ws: Workspace)
    ensures PaidBilled(runs, external, ws) <= PaidRuns(runs, ws)
  {
    SubsetCount((set k | k in runs && k.ws == ws && runs[k].paid && runs[k].state.Billed?), PaidKeys(runs, ws));
  }

  lemma NetRunsSplit(grants: seq<Grant>, reversals: map<Key, Reversal>, ws: Workspace)
    ensures NetRuns(grants, reversals, ws) == GrantedRuns(grants, ws) - ReversedRuns(grants, reversals, ws)
  {
    SumPlus(grants, g => RunsFor(g, ws), g => NetRunsFor(g, reversals, ws), g => ReversedFor(g, reversals, ws));
  }

  lemma UnspentIsDeferred(netRuns: int, paid: nat, used: nat, price: real)
    requires netRuns >= 0 && used <= paid && price >= 0.0
    ensures Max(netRuns - paid, 0) as real * price <= Deferred(netRuns, used, price)
  {
  }

  lemma {:induction false} OwedIsDeferred(buyers: seq<Workspace>, grants: seq<Grant>,
                                          reversals: map<Key, Reversal>, runs: Runs, external: Workspace -> bool)
    requires Paired(grants, reversals)
    ensures OwedTotal(buyers, grants, reversals, runs)
         <= DeferredTotal(buyers, grants, reversals, ws => PaidBilled(runs, external, ws))
  {
    if buyers != [] {
      var ws := buyers[|buyers| - 1];
      OwedIsDeferred(buyers[..|buyers| - 1], grants, reversals, runs, external);
      NetPriceBound(grants, reversals, ws);
      NetRunsSplit(grants, reversals, ws);
      PaidBilledWithinPaid(runs, external, ws);
      UnspentIsDeferred(NetRuns(grants, reversals, ws), PaidRuns(runs, ws), PaidBilled(runs, external, ws),
                        TopPrice(grants, ws));
    }
  }

  /** With nothing excluded, what the report says is owed is at least the liability the ledger itself
      computes, whatever rows were answered. */
  lemma ReportCoversLiability(grants: seq<Grant>, reversals: map<Key, Reversal>, pending: map<Key, Purchase>,
                              order: seq<Key>, runs: Runs, external: Workspace -> bool)
    requires Paired(grants, reversals)
    ensures Liability(grants, reversals, pending, order, runs)
         <= Ceiling(DeferredTotal(Buyers(grants), grants, reversals, ws => PaidBilled(runs, external, ws)))
            + PendingCents(pending, order)
  {
    OwedIsDeferred(Buyers(grants), grants, reversals, runs, external);
  }

  /** The ledger's own tables meet the report's assumption. */
  lemma LedgerIsPaired(ledger: WorkspaceLedger)
    requires ledger.Valid()
    ensures Paired(ledger.grants, ledger.reversals)
  {
  }
}
