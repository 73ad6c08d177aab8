/** How the books' liability moves: what each purchase step, refund and run adds to it or takes off. */
module Liabilities {
  import opened Common
  import opened Credits
  import opened Metering
  import opened Workspaces

  // ---- Purchases under way ----

  predicate Listed(order: seq<Key>, key: Key) {
    && key in order
    && forall i, j :: 0 <= i < j < |order| ==> order[i] != order[j]
  }

  lemma {:induction false} PendingElsewhere(pending: map<Key, Purchase>, order: seq<Key>, key: Key, p: Purchase)
    requires key !in order
    ensures PendingCents(pending[key := p], order) == PendingCents(pending, order)
  {
    if order != [] {
      PendingElsewhere(pending, order[..|order| - 1], key, p);
    }
  }

  lemma {:induction false} PendingAt(pending: map<Key, Purchase>, order: seq<Key>, key: Key, p: Purchase)
    requires Listed(order, key) && key in pending && pending[key].state.Pending? && !p.state.Pending?
    ensures PendingCents(pending[key := p], order) == PendingCents(pending, order) - pending[key].cents
  {
    var front, last := order[..|order| - 1], order[|order| - 1];
    assert order == front + [last];
    if last == key {
      PendingElsewhere(pending, front, key, p);
    } else {
      PendingAt(pending, front, key, p);
    }
  }

  /** A new pending purchase is owed in full until it is settled or failed. */
  lemma RecordingRaises(grants: seq<Grant>, reversals: map<Key, Reversal>, pending: map<Key, Purchase>,
                        order: seq<Key>, runs: Runs, key: Key, p: Purchase)
    requires OrderSound(pending, order) && key !in pending && p.state.Pending?
    ensures Liability(grants, reversals, pending[key := p], order + [key], runs)
         == Liability(grants, reversals, pending, order, runs) + p.cents
  {
    PendingElsewhere(pending, order, key, p);
  }

  lemma FailingLowers(grants: seq<Grant>, reversals: map<Key, Reversal>, pending: map<Key, Purchase>,
                      order: seq<Key>, runs: Runs, key: Key)
    requires OrderSound(pending, order) && key in pending && pending[key].state.Pending?
    ensures Liability(grants, reversals, pending[key := pending[key].(state := Failed)], order, runs)
         == Liability(grants, reversals, pending, order, runs) - pending[key].cents
  {
    PendingAt(pending, order, key, pending[key].(state := Failed));
  }

  // ---- Unspent credits ----

  /** The dearest price is one that was paid, and none paid was dearer. */
  lemma {:induction false} TopPriceIsDearest(grants: seq<Grant>, ws: Workspace)
    ensures forall i :: 0 <= i < |grants| && grants[i].ws == ws ==> Price(grants[i]) <= TopPrice(grants, ws)
    ensures TopPrice(grants, ws) == 0.0
            || exists i :: 0 <= i < |grants| && grants[i].ws == ws && Price(grants[i]) == TopPrice(grants, ws)
    ensures TopPrice(grants, ws) >= 0.0
  {
    if grants != [] {
      var front, last := grants[..|grants| - 1], grants[|grants| - 1];
      TopPriceIsDearest(front, ws);
      assert forall i :: 0 <= i < |front| ==> front[i] == grants[i];
    }
  }

  /** When one workspace's books move, the total moves by that workspace's difference. */
  lemma {:induction false} OwedElsewhere(
      buyers: seq<Workspace>, ws: Workspace, grants: seq<Grant>, reversals: map<Key, Reversal>, runs: Runs,
      grants': seq<Grant>, reversals': map<Key, Reversal>, runs': Runs)
    requires forall i, j :: 0 <= i < j < |buyers| ==> buyers[i] != buyers[j]
    requires forall i :: 0 <= i < |buyers| && buyers[i] != ws ==>
               OwedTo(buyers[i], grants', reversals', runs') == OwedTo(buyers[i], grants, reversals, runs)
    ensures OwedTotal(buyers, grants', reversals', runs') - OwedTotal(buyers, grants, reversals, runs)
         == if ws in buyers then OwedTo(ws, grants', reversals', runs') - OwedTo(ws, grants, reversals, runs) else 0.0
  {
    hide OwedTo;
    if buyers != [] {
      var front, last := buyers[..|buyers| - 1], buyers[|buyers| - 1];
      assert buyers == front + [last];
      OwedElsewhere(front, ws, grants, reversals, runs, grants', reversals', runs');
    }
  }

  /** A grant adds its runs to its workspace's balance, and its price to what was paid. */
  lemma GrantMoves(grants: seq<Grant>, g: Grant, reversals: map<Key, Reversal>, runs: Runs, ws: Workspace)
    requires g.key !in reversals
    ensures CreditsRemaining(grants + [g], reversals, runs, ws)
         == CreditsRemaining(grants, reversals, runs, ws) + (if g.ws == ws then g.runs else 0)
    ensures TopPrice(grants + [g], ws)
         == (if g.ws == ws then RealMax(TopPrice(grants, ws), Price(g)) else TopPrice(grants, ws))
  {
  }

  /** What a new grant is worth: all the unspent runs of its workspace at the dearer price, less those
      there were at the old one. */
  lemma GrantRaises(grants: seq<Grant>, g: Grant, reversals: map<Key, Reversal>, runs: Runs)
    requires g.key !in reversals
    ensures var credits := CreditsRemaining(grants, reversals, runs, g.ws);
            var price := TopPrice(grants, g.ws);
            OwedTotal(Buyers(grants + [g]), grants + [g], reversals, runs)
            == OwedTotal(Buyers(grants), grants, reversals, runs)
               + Worth(credits + g.runs, RealMax(price, Price(g))) - Worth(credits, price)
  {
    hide Worth, CreditsRemaining, TopPrice, RealMax, Price, OwedTo, OwedTotal, Buyers;
    var buyers, after := Buyers(grants), grants + [g];
    BuyersOnce(grants);
    forall ws
      ensures OwedTo(ws, after, reversals, runs)
           == (if ws == g.ws then
                 Worth(CreditsRemaining(grants, reversals, runs, ws) + g.runs, RealMax(TopPrice(grants, ws), Price(g)))
               else OwedTo(ws, grants, reversals, runs))
    {
      OwedAfterGrant(grants, g, reversals, runs, ws);
    }
    OwedElsewhere(buyers, g.ws, grants, reversals, runs, after, reversals, runs);
    BuyersAfter(grants, g, reversals, runs);
  }

  lemma OwedAfterGrant(grants: seq<Grant>, g: Grant, reversals: map<Key, Reversal>, runs: Runs, ws: Workspace)
    requires g.key !in reversals
    ensures OwedTo(ws, grants + [g], reversals, runs)
         == (if ws == g.ws then
               Worth(CreditsRemaining(grants, reversals, runs, ws) + g.runs, RealMax(TopPrice(grants, ws), Price(g)))
             else OwedTo(ws, grants, reversals, runs))
  {
    GrantMoves(grants, g, reversals, runs, ws);
    hide Worth, CreditsRemaining, TopPrice, RealMax, Price;
  }

  lemma WorthNothing(credits: int)
    ensures Worth(credits, 0.0) == 0.0
  {
  }

  /** A first grant adds its workspace to the sum. One that bought nothing yet is owed nothing. */
  lemma BuyersAfter(grants: seq<Grant>, g: Grant, reversals: map<Key, Reversal>, runs: Runs)
    ensures OwedTotal(Buyers(grants + [g]), grants + [g], reversals, runs)
         == OwedTotal(Buyers(grants), grants + [g], reversals, runs)
            + (if g.ws in Buyers(grants) then 0.0 else OwedTo(g.ws, grants + [g], reversals, runs))
    ensures OwedTo(g.ws, grants, reversals, runs)
         == Worth(CreditsRemaining(grants, reversals, runs, g.ws), TopPrice(grants, g.ws))
    ensures g.ws !in Buyers(grants) ==> OwedTo(g.ws, grants, reversals, runs) == 0.0
  {
    NoBuyerNoPrice(grants, g.ws);
    WorthNothing(CreditsRemaining(grants, reversals, runs, g.ws));
    hide Worth, CreditsRemaining, TopPrice;
    assert (grants + [g])[..|grants|] == grants;
  }

  lemma {:induction false} BuyersOnce(grants: seq<Grant>)
    ensures forall i, j :: 0 <= i < j < |Buyers(grants)| ==> Buyers(grants)[i] != Buyers(grants)[j]
  {
    if grants != [] {
      BuyersOnce(grants[..|grants| - 1]);
    }
  }

  lemma CeilingUp(x: real, y: real, cents: int)
    requires y >= x + cents as real
    ensures Ceiling(y) >= Ceiling(x) + cents
  {
  }

  lemma BoughtIsWorthItsPrice(credits: int, bought: nat, cents: nat, price: real)
    requires credits >= 0 && bought > 0 && price >= 0.0
    ensures var dearer := RealMax(price, cents as real / bought as real);
            Worth(credits + bought, dearer) - Worth(credits, price) >= cents as real
  {
    var own := cents as real / bought as real;
    var dearer := RealMax(price, own);
    assert bought as real * own == cents as real;
    assert bought as real * dearer >= bought as real * own;
    assert credits as real * dearer >= credits as real * price;
    assert (credits + bought) as real * dearer == credits as real * dearer + bought as real * dearer;
  }

  /** Settling a pending purchase never lowers the liability unless the workspace was in debt: the
      purchase price goes, and unspent credits worth at least as much come. */
  lemma SettlingNeverLowers(grants: seq<Grant>, reversals: map<Key, Reversal>, pending: map<Key, Purchase>,
                            order: seq<Key>, runs: Runs, key: Key)
    requires OrderSound(pending, order) && key in pending && pending[key].state.Pending?
    requires key !in reversals && !Granted(grants, key) && pending[key].runs > 0
    requires CreditsRemaining(grants, reversals, runs, pending[key].ws) >= 0
    ensures Liability(AfterSettle(grants, key, pending[key]), reversals,
                      pending[key := pending[key].(state := Settled)],
                      order, runs)
         >= Liability(grants, reversals, pending, order, runs)
  {
    hide Worth, CreditsRemaining, TopPrice, OwedTotal, Buyers;
    var p := pending[key];
    var g := Credits.Grant(key, p.ws, p.runs, p.cents, None);
    PendingAt(pending, order, key, p.(state := Settled));
    GrantRaises(grants, g, reversals, runs);
    TopPriceIsDearest(grants, p.ws);
    BoughtIsWorthItsPrice(CreditsRemaining(grants, reversals, runs, p.ws), p.runs, p.cents, TopPrice(grants, p.ws));
    CeilingUp(OwedTotal(Buyers(grants), grants, reversals, runs),
              OwedTotal(Buyers(grants + [g]), grants + [g], reversals, runs), p.cents);
  }

  /** A settled purchase that brings no grant takes its price off what is owed. */
  lemma SettlingAgainLowers(grants: seq<Grant>, reversals: map<Key, Reversal>, pending: map<Key, Purchase>,
                            order: seq<Key>, runs: Runs, key: Key)
    requires OrderSound(pending, order) && key in pending && pending[key].state.Pending?
    requires Granted(grants, key) || pending[key].runs <= 0
    ensures Liability(AfterSettle(grants, key, pending[key]), reversals,
                      pending[key := pending[key].(state := Settled)],
                      order, runs)
         == Liability(grants, reversals, pending, order, runs) - pending[key].cents
  {
    PendingAt(pending, order, key, pending[key].(state := Settled));
  }

  /** A run that takes a credit takes one run, at the dearest price, off what is owed. */
  lemma RunLowers(grants: seq<Grant>, reversals: map<Key, Reversal>, runs: Runs, k: RunKey)
    requires k !in runs && CreditsRemaining(grants, reversals, runs, k.ws) > 0
    ensures OwedTotal(Buyers(grants), grants, reversals, AfterAdmit(runs, k, true))
         == OwedTotal(Buyers(grants), grants, reversals, runs) - TopPrice(grants, k.ws)
  {
    hide TopPrice, OwedTo, OwedTotal, Buyers, CreditsRemaining;
    var runs' := AfterAdmit(runs, k, true);
    BuyersOnce(grants);
    NoBuyerNoPrice(grants, k.ws);
    forall ws: Workspace
      ensures OwedTo(ws, grants, reversals, runs')
           == OwedTo(ws, grants, reversals, runs) - (if ws == k.ws then TopPrice(grants, ws) else 0.0)
    {
      OwedAfterRun(grants, reversals, runs, k, ws);
    }
    OwedElsewhere(Buyers(grants), k.ws, grants, reversals, runs, grants, reversals, runs');
  }

  lemma OwedAfterRun(grants: seq<Grant>, reversals: map<Key, Reversal>, runs: Runs, k: RunKey, ws: Workspace)
    requires k !in runs && CreditsRemaining(grants, reversals, runs, k.ws) > 0
    ensures OwedTo(ws, grants, reversals, AfterAdmit(runs, k, true))
         == OwedTo(ws, grants, reversals, runs) - (if ws == k.ws then TopPrice(grants, ws) else 0.0)
  {
    CountsAfterInsert(runs, k, true, ws, k.month);
    hide Worth, GrantedRuns, ReversedRuns, PaidRuns, TopPrice, AfterAdmit;
    if ws == k.ws {
      OneRunLess(CreditsRemaining(grants, reversals, runs, ws), TopPrice(grants, ws));
    }
  }

  lemma OneRunLess(credits: int, price: real)
    requires credits > 0
    ensures Worth(credits - 1, price) == Worth(credits, price) - price
  {
  }

  /** Reversed runs come off their grant's workspace's balance, and off no other. */
  lemma {:induction false} ReversalLowers(grants: seq<Grant>, reversals: map<Key, Reversal>, runs: Runs, g: Grant,
                                          row: Reversal, ws: Workspace)
    requires GrantsSound(grants) && g in grants
    ensures CreditsRemaining(grants, reversals[g.key := row], runs, ws)
         == CreditsRemaining(grants, reversals, runs, ws)
            - (if g.ws != ws then 0
               else row.runs - (if g.key in reversals then reversals[g.key].runs else 0))
  {
    var k :| 0 <= k < |grants| && grants[k] == g;
    var reversals' := reversals[g.key := row];
    forall i | 0 <= i < |grants| && i != k
      ensures ReversedFor(grants[i], reversals', ws) == ReversedFor(grants[i], reversals, ws)
    {
      assert grants[i].key != g.key;
    }
    SumChange(grants, k, x => ReversedFor(x, reversals, ws), x => ReversedFor(x, reversals', ws));
  }
}
