/**
  `WorkspaceLedger` of hosted/budget_gateway/workspaces.py: metering, purchases, refunds and
  liabilities over one database. Each method is one transaction, or the sequence of transactions the
  code makes.
 */
module Workspaces {
  import opened Common
  import opened Credits
  import opened Metering
  import opened UsdcChain

  datatype Admission = Admission(admitted: bool, paid: bool, monthRuns: int, credits: int)

  datatype PurchaseState = Pending | Settled | Failed

  /** One row of `pending_purchases`. Nothing checks `runs` here. */
  datatype Purchase = Purchase(
    ws: Workspace, runs: int, cents: nat, authorizer: Account, nonce: Nonce, validBefore: int, state: PurchaseState)

  /** A proof call's result: None, the two errors it raises, the crash, or the runs reversed. */
  datatype ProofOutcome = NoGrant | Clash | BadAmount | Crashed | Reversed(runs: int)

  predicate BacksAnother(proofs: seq<Proof>, tx: Tx, key: Key) {
    exists i :: 0 <= i < |proofs| && proofs[i].tx == tx && proofs[i].key != key
  }

  // ---- Balances ----

  /** The reversal of a grant, if any: its row carries the grant's workspace. */
  function ReversedFor(g: Grant, reversals: map<Key, Reversal>, ws: Workspace): int {
    if g.ws == ws && g.key in reversals then reversals[g.key].runs else 0
  }

  function ReversedRuns(grants: seq<Grant>, reversals: map<Key, Reversal>, ws: Workspace): int {
    Sum(grants, g => ReversedFor(g, reversals, ws))
  }

  function CreditsRemaining(grants: seq<Grant>, reversals: map<Key, Reversal>, runs: Runs, ws: Workspace): int {
    GrantedRuns(grants, ws) - ReversedRuns(grants, reversals, ws) - PaidRuns(runs, ws)
  }

  // ---- Table invariants ----

  ghost predicate GrantsSound(grants: seq<Grant>) {
    && (forall i, j :: 0 <= i < j < |grants| ==> grants[i].key != grants[j].key)
    && (forall i :: 0 <= i < |grants| ==> grants[i].runs > 0)
  }

  /** Every reversal is the proportional one of its own grant. */
  ghost predicate ReversalsSound(grants: seq<Grant>, reversals: map<Key, Reversal>) {
    && (forall k :: k in reversals ==> Granted(grants, k))
    && (forall i :: 0 <= i < |grants| && grants[i].key in reversals ==>
          Proportional(grants[i], reversals[grants[i].key]))
  }

  ghost predicate ProofsSound(proofs: seq<Proof>) {
    forall i, j :: 0 <= i < j < |proofs| ==> proofs[i].tx != proofs[j].tx
  }

  ghost predicate OrderSound(pending: map<Key, Purchase>, order: seq<Key>) {
    && (forall k :: k in pending <==> k in order)
    && (forall i, j :: 0 <= i < j < |order| ==> order[i] != order[j])
  }

  /** For a source only ever credited through its purchases: a purchase is settled exactly when its
      grant exists, and the grant is the one bought. */
  ghost predicate SettledMeansCredited(source: Source, grants: seq<Grant>, pending: map<Key, Purchase>) {
    && (forall k :: k in pending && k.source == source && pending[k].runs > 0 ==>
          (pending[k].state.Settled? <==> Granted(grants, k)))
    && (forall i :: 0 <= i < |grants| && grants[i].key.source == source ==>
          var k := grants[i].key;
          k in pending && grants[i].ws == pending[k].ws && grants[i].runs == pending[k].runs
          && grants[i].cents == pending[k].cents)
  }

  lemma ReversedNonNegative(grants: seq<Grant>, reversals: map<Key, Reversal>, ws: Workspace)
    requires ReversalsSound(grants, reversals)
    ensures 0 <= ReversedRuns(grants, reversals, ws) <= GrantedRuns(grants, ws)
  {
    forall i | 0 <= i < |grants|
      ensures 0 <= ReversedFor(grants[i], reversals, ws) <= RunsFor(grants[i], ws)
    {
      if grants[i].key in reversals {
        var r := reversals[grants[i].key];
        TargetMonotone(grants[i].runs, grants[i].cents, r.cents, r.cents);
      }
    }
    SumZeroOrMore(grants, g => ReversedFor(g, reversals, ws));
    SumBounded(grants, g => ReversedFor(g, reversals, ws), g => RunsFor(g, ws));
  }

  lemma GrantedGrows(grants: seq<Grant>, g: Grant, ws: Workspace)
    ensures GrantedRuns(grants + [g], ws) == GrantedRuns(grants, ws) + RunsFor(g, ws)
  {
  }

  // ---- What the chain will ever say ----

  /** `paidAt` is when each authorization is used, now or later, if ever. The i-th question is asked at
      `at(i)` and answered unless the node cannot be reached. */
  datatype Oracle = Oracle(paidAt: map<(Account, Nonce), int>, at: nat -> int, reachable: nat -> bool)
  {
    function Ask(i: nat, who: Account, nonce: Nonce): Option<bool> {
      if !reachable(i) then None
      else Some((who, nonce) in paidAt && paidAt[(who, nonce)] <= at(i))
    }
  }

  /** EIP-3009: no authorization is used at or after its `validBefore`. */
  ghost predicate RespectsWindows(o: Oracle, pending: map<Key, Purchase>) {
    forall k :: k in pending && (pending[k].authorizer, pending[k].nonce) in o.paidAt ==>
      o.paidAt[(pending[k].authorizer, pending[k].nonce)] < pending[k].validBefore
  }

  predicate EverPaid(o: Oracle, p: Purchase) {
    (p.authorizer, p.nonce) in o.paidAt
  }

  class WorkspaceLedger {
    const free: int
    var runs: Runs
    var grants: seq<Grant>
    var reversals: map<Key, Reversal>
    var pending: map<Key, Purchase>
    var order: seq<Key>
    var proofs: seq<Proof>
    ghost var history: seq<CallEvent>

    ghost predicate Valid()
      reads this
    {
      && GrantsSound(grants) && ReversalsSound(grants, reversals) && ProofsSound(proofs)
      && OrderSound(pending, order)
      && Refines(runs, history)
      && WithinAllowance(runs, free, grants)
    }

    constructor (freeRunsPerMonth: int)
      ensures Valid() && free == freeRunsPerMonth && history == []
      ensures runs == map[] && grants == [] && reversals == map[] && pending == map[] && proofs == []
    {
      free := freeRunsPerMonth;
      runs, grants, reversals, pending, order, proofs, history := map[], [], map[], map[], [], [], [];
      new;
      assert forall ws, month :: FreeKeys(runs, ws, month) == {};
      assert forall ws :: PaidKeys(runs, ws) == {};
    }

    // ---- Metering ----

    /** Admits one call. A new run takes a free slot, or a credit once the month's rows reach the
        allowance. */
    method HoldRun(key: RunKey) returns (a: Admission)
      requires Valid()
      modifies this`runs, this`history
      ensures Valid()
      ensures a.admitted <==> key in old(runs) || MonthRuns(old(runs), key.ws, key.month) < free
                              || CreditsRemaining(grants, reversals, old(runs), key.ws) > 0
      ensures a.admitted ==> history == old(history) + [Admitted(key)] && runs == AfterAdmit(old(runs), key, a.paid)
      ensures !a.admitted ==> history == old(history) && runs == old(runs)
      ensures key !in old(runs) ==> (a.paid <==> MonthRuns(old(runs), key.ws, key.month) >= free)
      ensures key in old(runs) ==> a.paid == old(runs)[key].paid
      // the figures it reports are those after the call
      ensures a.monthRuns == MonthRuns(runs, key.ws, key.month)
      ensures a.credits == CreditsRemaining(grants, reversals, runs, key.ws)
      // no hold takes the balance below zero
      ensures a.credits < CreditsRemaining(grants, reversals, old(runs), key.ws) ==> a.credits >= 0
    {
      hide Refines, WithinAllowance, GrantsSound, ReversalsSound, ProofsSound, OrderSound, MonthRuns, FreeRuns,
           PaidRuns, GrantedRuns, ReversedRuns;
      var count := MonthRuns(runs, key.ws, key.month);
      var credits := CreditsRemaining(grants, reversals, runs, key.ws);
      if key in runs {
        var known := runs[key].paid;
        AdmitRefines(runs, history, key, known);
        AllowanceAfterAdmit(runs, free, grants, key, known);
        SameCounts(runs, AfterAdmit(runs, key, known), key.ws, key.month);
        runs := runs[key := runs[key].(inflight := runs[key].inflight + 1)];
        history := history + [Admitted(key)];
        return Admission(true, known, count, credits);
      }
      var paid := count >= free;
      if paid && credits <= 0 {
        return Admission(false, true, count, credits);
      }
      AdmitRefines(runs, history, key, paid);
      ReversedNonNegative(grants, reversals, key.ws);
      FreeWithinMonth(runs, key.ws, key.month);
      AllowanceAfterAdmit(runs, free, grants, key, paid);
      CountsAfterInsert(runs, key, paid, key.ws, key.month);
      runs := runs[key := Run(paid, Held, 1)];
      history := history + [Admitted(key)];
      return Admission(true, paid, count + 1, credits - (if paid then 1 else 0));
    }

    /** Closes one admitted call. Every admitted call is closed at most once. */
    method FinishCall(key: RunKey, answered: bool)
      requires Valid() && OpenCalls(history, key) > 0
      modifies this`runs, this`history
      ensures Valid() && history == old(history) + [Finished(key, answered)]
      ensures runs == AfterFinish(old(runs), key, answered)
    {
      hide Refines, WithinAllowance, GrantsSound, ReversalsSound, ProofsSound, OrderSound, MonthRuns, FreeRuns,
           PaidRuns, GrantedRuns, ReversedRuns;
      FinishRefines(runs, history, key, answered);
      AllowanceShrinks(runs, AfterFinish(runs, key, answered), free, grants, key.month);
      history := history + [Finished(key, answered)];
      if key !in runs {
        return;
      }
      runs := runs[key := runs[key].(inflight := Max(runs[key].inflight - 1, 0))];
      if answered {
        runs := runs[key := runs[key].(state := Billed)];
      } else if runs[key].state.Held? && runs[key].inflight == 0 {
        runs := runs - {key};
      }
      assert runs == AfterFinish(old(runs), key, answered);
    }

    /** At startup: no call survived, so held runs are released and billed ones kept. */
    method ReleaseOrphanedHolds() returns (released: nat)
      requires Valid()
      modifies this`runs, this`history
      ensures Valid() && history == old(history) + [Restarted]
      ensures runs == AfterRestart(old(runs)) && released == |old(runs)| - |runs|
    {
      hide Refines, WithinAllowance, GrantsSound, ReversalsSound, ProofsSound, OrderSound, MonthRuns, FreeRuns,
           PaidRuns, GrantedRuns, ReversedRuns;
      RestartRefines(runs, history);
      ghost var anyMonth: Month :| true;
      AllowanceShrinks(runs, AfterRestart(runs), free, grants, anyMonth);
      var held := set k | k in runs && runs[k].state.Held?;
      released := |held|;
      ghost var kept := runs.Keys - held;
      assert runs.Keys == kept + held;
      assert AfterRestart(runs).Keys == kept;
      runs := map k | k in runs && runs[k].state.Billed? :: runs[k].(inflight := 0);
      history := history + [Restarted];
    }

    // ---- Credits ----

    ghost function BooksNow(): Books
      reads this
    {
      Books(grants, reversals, proofs)
    }

    /** Grants credits for one confirmed payment: never twice for a key, and never zero runs. */
    method Grant(key: Key, ws: Workspace, bought: int, cents: nat, external: Option<Ref>) returns (granted: bool)
      requires Valid()
      modifies this`grants
      ensures Valid()
      ensures granted <==> !Granted(old(grants), key) && bought > 0
      ensures grants == if granted then old(grants) + [Credits.Grant(key, ws, bought, cents, external)] else old(grants)
      ensures forall s :: s != key.source && SettledMeansCredited(s, old(grants), pending) ==>
                SettledMeansCredited(s, grants, pending)
    {
      hide Refines, WithinAllowance, ReversalsSound, ProofsSound, OrderSound, SettledMeansCredited;
      if Granted(grants, key) || bought <= 0 {
        return false;
      }
      var g := Credits.Grant(key, ws, bought, cents, external);
      NewGrantKeepsTables(grants, g, reversals, runs, free);
      forall s | s != key.source && SettledMeansCredited(s, grants, pending)
        ensures SettledMeansCredited(s, grants + [g], pending)
      {
        OtherSourceCredited(s, grants, g, pending);
      }
      grants := grants + [g];
      return true;
    }

    /** Reverses credits in proportion to the refunded amount. */
    method ApplyRefund(source: Source, ref: Option<Ref>, refundedCents: int, external: Option<Ref>)
      returns (reversed: Option<int>)
      requires Valid()
      modifies this`reversals
      ensures Valid()
      ensures var g := Find(grants, source, ref, external);
              if g.None? then reversed == None && reversals == old(reversals)
              else BooksNow() == ApplyTo(old(BooksNow()), g.value, refundedCents)
                   && reversed == Some(reversals[g.value.key].runs)
    {
      hide Refines, WithinAllowance, ProofsSound, OrderSound;
      var found := Find(grants, source, ref, external);
      if found.None? {
        return None;
      }
      var g := found.value;
      var refunded := Min(Max(refundedCents, 0), g.cents);
      var target := if refunded >= g.cents then g.runs else (g.runs * refunded) / Max(g.cents, 1);
      ghost var before := if g.key in reversals then Some(reversals[g.key]) else None;
      RefundKeepsProportion(g, before, refundedCents);
      var row := if g.key in reversals then
                   reversals[g.key].(runs := Max(reversals[g.key].runs, target),
                                     cents := Max(reversals[g.key].cents, refunded))
                 else Reversal(g.ws, target, refunded);
      RefundKeepsReversals(grants, reversals, g, row);
      reversals := reversals[g.key := row];
      return Some(row.runs);
    }

    /** Records one verified refund transfer and reverses credits for all verified so far. The process
        may crash between its two transactions. */
    method RecordRefundProof(key: Key, tx: Tx, cents: int, crash: bool) returns (outcome: ProofOutcome)
      requires Valid()
      modifies this`reversals, this`proofs
      ensures Valid()
      ensures outcome.NoGrant? <==> !Granted(grants, key)
      ensures outcome.Clash? <==> Granted(grants, key) && BacksAnother(old(proofs), tx, key)
      ensures outcome.BadAmount? <==> Granted(grants, key) && !KnownTx(old(proofs), tx) && cents <= 0
      ensures outcome.NoGrant? || outcome.Clash? || outcome.BadAmount? ==> BooksNow() == old(BooksNow())
      ensures crash ==> !outcome.Reversed?
      ensures outcome.Crashed? ==> crash && BooksNow() == WithProof(old(BooksNow()), tx, key, cents)
      ensures outcome.Reversed? ==>
                var g := Find(grants, key.source, Some(key.ref), None);
                g.Some? && BooksNow() == AfterProof(old(BooksNow()), g.value, tx, cents)
                && outcome.runs == reversals[key].runs
    {
      hide Refines, WithinAllowance, ReversalsSound, GrantsSound, OrderSound;
      if !Granted(grants, key) {
        return NoGrant;
      }
      if BacksAnother(proofs, tx, key) {
        return Clash;
      }
      if !KnownTx(proofs, tx) {
        if cents <= 0 {
          return BadAmount;
        }
        proofs := proofs + [Proof(tx, key, cents)];
      }
      if crash {
        return Crashed;
      }
      var total := ProvenCents(proofs, key);
      var reversed := ApplyRefund(key.source, Some(key.ref), total, None);
      return Reversed(reversed.value);
    }

    // ---- Purchases ----

    method RecordPending(key: Key, p: Purchase)
      requires Valid() && p.state == Pending
      modifies this`pending, this`order
      ensures Valid()
      ensures pending == if key in old(pending) then old(pending) else old(pending)[key := p]
      ensures order == if key in old(pending) then old(order) else old(order) + [key]
      ensures forall s :: SettledMeansCredited(s, grants, old(pending)) ==> SettledMeansCredited(s, grants, pending)
    {
      hide Refines, WithinAllowance, ReversalsSound, ProofsSound, GrantsSound;
      if key in pending {
        return;
      }
      pending := pending[key := p];
      order := order + [key];
    }

    /** Turns a purchase into credits. True only for the call that granted. */
    method SettlePending(key: Key) returns (granted: bool)
      requires Valid()
      modifies this`grants, this`pending
      ensures Valid()
      ensures key !in old(pending) ==> !granted && grants == old(grants) && pending == old(pending)
      ensures key in old(pending) ==>
                var p := old(pending)[key];
                && pending == old(pending)[key := p.(state := Settled)]
                && (granted <==> !Granted(old(grants), key) && p.runs > 0)
                && grants == if granted then old(grants) + [Credits.Grant(key, p.ws, p.runs, p.cents, None)]
                             else old(grants)
      ensures forall s :: SettledMeansCredited(s, old(grants), old(pending)) ==>
                SettledMeansCredited(s, grants, pending)
      ensures old(grants) <= grants && (key in old(pending) && old(pending)[key].runs > 0 ==> Granted(grants, key))
    {
      hide Refines, WithinAllowance, ReversalsSound, ProofsSound, SettledMeansCredited;
      if key !in pending {
        return false;
      }
      var p := pending[key];
      forall s | SettledMeansCredited(s, grants, pending)
        ensures SettledMeansCredited(s, AfterSettle(grants, key, p), pending[key := p.(state := Settled)])
      {
        SettleKeepsCredited(s, grants, pending, key);
      }
      granted := !Granted(grants, key) && p.runs > 0;
      if granted {
        var g := Credits.Grant(key, p.ws, p.runs, p.cents, None);
        NewGrantKeepsTables(grants, g, reversals, runs, free);
        grants := grants + [g];
        assert grants[|grants| - 1].key == key;
      }
      pending := pending[key := p.(state := Settled)];
    }

    /** Marks a pending purchase failed. A settled one stays settled. */
    method FailPending(key: Key)
      requires Valid()
      modifies this`pending
      ensures Valid()
      ensures pending == if key in old(pending) && old(pending)[key].state.Pending?
                         then old(pending)[key := old(pending)[key].(state := Failed)] else old(pending)
      ensures forall s :: SettledMeansCredited(s, grants, old(pending)) ==> SettledMeansCredited(s, grants, pending)
    {
      hide Refines, WithinAllowance, ReversalsSound, ProofsSound, GrantsSound;
      if key in pending && pending[key].state.Pending? {
        pending := pending[key := pending[key].(state := Failed)];
      }
    }

    /** What other calls do meanwhile. */
    method Rivals(ops: seq<Rival>)
      requires Valid()
      modifies this`grants, this`pending
      ensures Valid() && pending.Keys == old(pending).Keys
      ensures forall k :: k in pending ==> Evolved(old(pending)[k], pending[k])
      ensures forall k :: k in pending && Untouched(ops, k) ==> pending[k] == old(pending)[k]
      ensures forall s :: SettledMeansCredited(s, old(grants), old(pending)) ==>
                SettledMeansCredited(s, grants, pending)
      ensures old(grants) <= grants
    {
      hide Refines, WithinAllowance, ReversalsSound, ProofsSound, GrantsSound, SettledMeansCredited, OrderSound;
      for i := 0 to |ops|
        invariant Valid() && pending.Keys == old(pending).Keys && old(grants) <= grants
        invariant forall k :: k in pending ==> Evolved(old(pending)[k], pending[k])
        invariant forall k :: k in pending && Untouched(ops, k) ==> pending[k] == old(pending)[k]
        invariant forall s :: SettledMeansCredited(s, old(grants), old(pending)) ==>
                    SettledMeansCredited(s, grants, pending)
      {
        if ops[i].key in pending {
          match ops[i]
          case Settling(key) => var _ := SettlePending(key);
          case Failing(key) => FailPending(key);
        }
      }
    }

    /** Resolves pending purchases from the chain, with other calls before each question and between the
        answer and what is made of it. `now` was read before the first question, and the grace covers the
        skew between the service's clock and the chain's. */
    method ReconcilePending(now: int, grace: int, chain: Oracle, env: nat -> seq<Rival>)
      returns (settled: nat, failed: nat, unresolved: nat, ghost paid: seq<Key>, ghost gone: seq<Key>)
      requires Valid() && RespectsWindows(chain, pending)
      requires forall i :: chain.at(i) + grace >= now
      modifies this`grants, this`pending
      ensures Valid() && pending.Keys == old(pending).Keys
      ensures settled + failed + unresolved == |PendingKeys(old(pending), old(order))|
      ensures settled == |paid| && failed == |gone|
      // it settles exactly those whose question was answered "used", and fails exactly those answered
      // "unused" with window and grace over; what it settles is credited
      ensures var open := PendingKeys(old(pending), old(order));
              && (forall k :: k in open ==> k in old(pending))
              && Told(chain, now, grace, old(pending), open, |open|, paid, gone)
      ensures forall k :: k in paid && k in old(pending) && old(pending)[k].runs > 0 ==> Granted(grants, k)
      // what this call settles was paid for and stays settled; what it fails never transfers, then or later
      ensures forall k :: k in paid ==> k in old(pending) && EverPaid(chain, old(pending)[k]) && IsSettled(pending, k)
      ensures forall k :: k in gone ==> k in old(pending) && !EverPaid(chain, old(pending)[k]) && k in pending
                                        && !pending[k].state.Pending?
      // a settled purchase stays settled, and one that no other call touches changes only on the chain's word
      ensures forall k :: k in pending ==> Evolved(old(pending)[k], pending[k])
      ensures forall k :: k in pending && LeftAlone(env, k) ==>
                Resolved(chain, now, grace, old(pending)[k], pending[k])
      ensures forall s :: SettledMeansCredited(s, old(grants), old(pending)) ==>
                SettledMeansCredited(s, grants, pending)
    {
      hide Valid, SettledMeansCredited, LeftAlone, Untouched, RespectsWindows, Evolved, Resolved, PendingKeys;
      settled, failed, unresolved, paid, gone := 0, 0, 0, [], [];
      var snapshot := pending;
      var open := OpenPurchases();
      NoProgress(chain, now, grace, env, snapshot);
      for i := 0 to |open|
        invariant Valid() && Progress(chain, now, grace, env, snapshot, pending, paid, gone)
        invariant settled + failed + unresolved == i && settled == |paid| && failed == |gone|
        invariant Told(chain, now, grace, snapshot, open, i, paid, gone)
        invariant old(grants) <= grants
        invariant forall k :: k in paid && k in snapshot && snapshot[k].runs > 0 ==> Granted(grants, k)
        invariant forall j :: i <= j < |open| && LeftAlone(env, open[j]) ==> Kept(snapshot, pending, open[j])
        invariant forall s :: SettledMeansCredited(s, old(grants), snapshot) ==>
                    SettledMeansCredited(s, grants, pending)
      {
        hide Progress, Told, Granted, Valid;
        ghost var credited := grants;
        var key := open[i];
        assert key in open;
        var verdict := AskAndResolve(i, key, snapshot, now, grace, chain, env, paid, gone);
        ToldOneMore(chain, now, grace, snapshot, open, i, paid, gone, verdict);
        StillGranted(credited, grants);
        if verdict.Settled? {
          settled := settled + 1;
          paid := paid + [key];
        } else if verdict.Failed? {
          failed := failed + 1;
          gone := gone + [key];
        } else {
          unresolved := unresolved + 1;
        }
      }
    }

    /** One turn of the loop: other calls, the question, other calls again, and the verdict. */
    method AskAndResolve(i: nat, key: Key, snapshot: map<Key, Purchase>, now: int, grace: int, chain: Oracle,
                         env: nat -> seq<Rival>, ghost paid: seq<Key>, ghost gone: seq<Key>)
      returns (verdict: PurchaseState)
      requires Valid() && RespectsWindows(chain, snapshot) && chain.at(i) + grace >= now
      requires Progress(chain, now, grace, env, snapshot, pending, paid, gone)
      requires key in snapshot && snapshot[key].state.Pending? && (LeftAlone(env, key) ==> Kept(snapshot, pending, key))
      modifies this`grants, this`pending
      ensures Valid()
      ensures verdict.Settled? <==> ToldPaid(chain, i, snapshot[key])
      ensures verdict.Failed? <==> ToldGone(chain, i, snapshot[key], now, grace)
      ensures Progress(chain, now, grace, env, snapshot, pending, if verdict.Settled? then paid + [key] else paid,
                       if verdict.Failed? then gone + [key] else gone)
      ensures forall k :: k != key && LeftAlone(env, k) && Kept(snapshot, old(pending), k) ==>
                Kept(snapshot, pending, k)
      ensures old(grants) <= grants && (verdict.Settled? && snapshot[key].runs > 0 ==> Granted(grants, key))
      ensures forall s :: SettledMeansCredited(s, old(grants), old(pending)) ==>
                SettledMeansCredited(s, grants, pending)
    {
      hide Valid, SettledMeansCredited, LeftAlone, Untouched, RespectsWindows, Resolved, Granted, Progress, Evolved;
      var p := snapshot[key];
      ProgressKeys(chain, now, grace, env, snapshot, pending, paid, gone);
      ghost var before := pending;
      Rivals(env(2 * i));
      RivalsProgress(chain, now, grace, env, snapshot, before, pending, paid, gone, 2 * i);
      var used := chain.Ask(i, p.authorizer, p.nonce);
      AnswerFor(chain, i, snapshot, key, now, grace);
      before := pending;
      Rivals(env(2 * i + 1));
      RivalsProgress(chain, now, grace, env, snapshot, before, pending, paid, gone, 2 * i + 1);
      before := pending;
      SameRuns(chain, now, grace, env, snapshot, pending, paid, gone, key);
      verdict := Resolve(key, used, p.validBefore, now, grace);
      VerdictProgress(chain, now, grace, env, snapshot, before, pending, paid, gone, key, verdict);
    }

    /** The purchases that are pending now. */
    method OpenPurchases() returns (open: seq<Key>)
      requires Valid()
      ensures open == PendingKeys(pending, order)
      ensures forall k :: k in open ==> k in pending && pending[k].state.Pending?
      ensures forall i, j :: 0 <= i < j < |open| ==> open[i] != open[j]
    {
      PendingKeysAreListed(pending, order);
      open := PendingKeys(pending, order);
    }

    /** Acts on the chain's answer about one purchase. */
    method Resolve(key: Key, used: Option<bool>, validBefore: int, now: int, grace: int)
      returns (verdict: PurchaseState)
      requires Valid() && key in pending
      modifies this`grants, this`pending
      ensures Valid() && key in old(pending)
      ensures verdict == (if used == Some(true) then Settled
                          else if used == Some(false) && now > validBefore + grace then Failed
                          else Pending)
      ensures pending == (if verdict.Settled? || (verdict.Failed? && old(pending)[key].state.Pending?)
                          then old(pending)[key := old(pending)[key].(state := verdict)] else old(pending))
      ensures forall s :: SettledMeansCredited(s, old(grants), old(pending)) ==>
                SettledMeansCredited(s, grants, pending)
      ensures old(grants) <= grants
      ensures verdict.Settled? && old(pending)[key].runs > 0 ==> Granted(grants, key)
    {
      hide Refines, WithinAllowance, ReversalsSound, ProofsSound, GrantsSound, SettledMeansCredited;
      if used == Some(true) {
        var _ := SettlePending(key);
        return Settled;
      }
      if used == Some(false) && now > validBefore + grace {
        FailPending(key);
        return Failed;
      }
      return Pending;
    }

    /** What could be owed back: unspent credits at the dearest price paid, rounded up, plus pending. */
    method OutstandingLiabilityCents() returns (owed: int)
      requires Valid()
      ensures owed == Liability(grants, reversals, pending, order, runs)
    {
      hide GrantsSound, ReversalsSound, ProofsSound, OrderSound, Refines, WithinAllowance, CreditsRemaining, TopPrice,
           Buyers;
      var prices, buyers := DearestPrices(grants);
      var total := 0.0;
      for i := 0 to |buyers|
        invariant total == OwedTotal(buyers[..i], grants, reversals, runs)
      {
        assert buyers[..i + 1][..i] == buyers[..i] && buyers[i] in buyers;
        var credits := Max(CreditsRemaining(grants, reversals, runs, buyers[i]), 0);
        total := total + credits as real * prices[buyers[i]];
      }
      assert buyers[..|buyers|] == buyers;
      return Ceiling(total) + PendingCents(pending, order);
    }
  }

  /** One pass over the grants: who bought, and the highest price each one paid. */
  method DearestPrices(grants: seq<Grant>) returns (prices: map<Workspace, real>, buyers: seq<Workspace>)
    ensures buyers == Buyers(grants)
    ensures forall ws :: ws in prices <==> ws in buyers
    ensures forall ws :: ws in prices ==> prices[ws] == TopPrice(grants, ws)
  {
    prices, buyers := map[], [];
    for i := 0 to |grants|
      invariant buyers == Buyers(grants[..i])
      invariant forall ws :: ws in prices <==> ws in buyers
      invariant forall ws :: ws in prices ==> prices[ws] == TopPrice(grants[..i], ws)
    {
      var g := grants[i];
      assert grants[..i + 1][..i] == grants[..i];
      NoBuyerNoPrice(grants[..i], g.ws);
      var price := RealMax(if g.ws in prices then prices[g.ws] else 0.0, Price(g));
      buyers := if g.ws in prices then buyers else buyers + [g.ws];
      prices := prices[g.ws := price];
    }
    assert grants[..|grants|] == grants;
  }

  // ---- Reconciling ----

  /** The snapshot of pending purchases. */
  function PendingKeys(pending: map<Key, Purchase>, order: seq<Key>): seq<Key> {
    if order == [] then []
    else
      var rest := PendingKeys(pending, order[..|order| - 1]);
      var k := order[|order| - 1];
      if k in pending && pending[k].state.Pending? then rest + [k] else rest
  }

  lemma {:induction false} PendingKeysAreListed(pending: map<Key, Purchase>, order: seq<Key>)
    requires forall i, j :: 0 <= i < j < |order| ==> order[i] != order[j]
    ensures var keys := PendingKeys(pending, order);
            && (forall k :: k in keys <==> k in order && k in pending && pending[k].state.Pending?)
            && (forall i, j :: 0 <= i < j < |keys| ==> keys[i] != keys[j])
  {
    if order != [] {
      var last := order[|order| - 1];
      PendingKeysAreListed(pending, order[..|order| - 1]);
      assert order == order[..|order| - 1] + [last];
    }
  }

  /** What one reconciliation may do to a purchase. */
  ghost predicate Resolved(chain: Oracle, now: int, grace: int, before: Purchase, after: Purchase) {
    || after == before
    || (before.state.Pending? && after == before.(state := Settled) && EverPaid(chain, before))
    || (before.state.Pending? && after == before.(state := Failed) && !EverPaid(chain, before)
        && now > before.validBefore + grace)
  }

  /** A call of another process about one purchase. */
  datatype Rival = Settling(key: Key) | Failing(key: Key)

  predicate Untouched(ops: seq<Rival>, k: Key) {
    forall i :: 0 <= i < |ops| ==> ops[i].key != k
  }

  ghost predicate LeftAlone(env: nat -> seq<Rival>, k: Key) {
    forall n :: Untouched(env(n), k)
  }

  /** Only the state moves: never out of settled, and never back to pending. */
  predicate Evolved(before: Purchase, after: Purchase) {
    && after == before.(state := after.state)
    && (before.state.Settled? ==> after.state.Settled?)
    && (after.state.Pending? ==> before.state.Pending?)
  }

  predicate IsSettled(pending: map<Key, Purchase>, k: Key) {
    k in pending && pending[k].state.Settled?
  }

  /** Where a reconciliation that began with `snapshot` has got to: see ReconcilePending. */
  ghost predicate Progress(chain: Oracle, now: int, grace: int, env: nat -> seq<Rival>, snapshot: map<Key, Purchase>,
                           pending: map<Key, Purchase>, paid: seq<Key>, gone: seq<Key>)
  {
    && pending.Keys == snapshot.Keys
    && (forall k :: k in paid ==> k in snapshot && EverPaid(chain, snapshot[k]) && IsSettled(pending, k))
    && (forall k :: k in gone ==>
          k in snapshot && !EverPaid(chain, snapshot[k]) && k in pending && !pending[k].state.Pending?)
    && (forall k :: k in pending ==> Evolved(snapshot[k], pending[k]))
    && (forall k :: k in pending && LeftAlone(env, k) ==> Resolved(chain, now, grace, snapshot[k], pending[k]))
  }

  predicate Kept(snapshot: map<Key, Purchase>, pending: map<Key, Purchase>, k: Key) {
    k in snapshot && k in pending && pending[k] == snapshot[k]
  }

  lemma NoProgress(chain: Oracle, now: int, grace: int, env: nat -> seq<Rival>, snapshot: map<Key, Purchase>)
    ensures Progress(chain, now, grace, env, snapshot, snapshot, [], [])
  {
  }

  lemma ProgressKeys(chain: Oracle, now: int, grace: int, env: nat -> seq<Rival>, snapshot: map<Key, Purchase>,
                     pending: map<Key, Purchase>, paid: seq<Key>, gone: seq<Key>)
    requires Progress(chain, now, grace, env, snapshot, pending, paid, gone)
    ensures pending.Keys == snapshot.Keys
  {
  }

  lemma SameRuns(chain: Oracle, now: int, grace: int, env: nat -> seq<Rival>, snapshot: map<Key, Purchase>,
                 pending: map<Key, Purchase>, paid: seq<Key>, gone: seq<Key>, key: Key)
    requires Progress(chain, now, grace, env, snapshot, pending, paid, gone) && key in snapshot
    ensures key in pending && pending[key].runs == snapshot[key].runs
  {
    assert Evolved(snapshot[key], pending[key]);
  }

  lemma RivalsProgress(chain: Oracle, now: int, grace: int, env: nat -> seq<Rival>, snapshot: map<Key, Purchase>,
                       before: map<Key, Purchase>, pending: map<Key, Purchase>, paid: seq<Key>, gone: seq<Key>, n: nat)
    requires Progress(chain, now, grace, env, snapshot, before, paid, gone) && pending.Keys == before.Keys
    requires forall k :: k in pending ==> Evolved(before[k], pending[k])
    requires forall k :: k in pending && Untouched(env(n), k) ==> pending[k] == before[k]
    ensures Progress(chain, now, grace, env, snapshot, pending, paid, gone)
    ensures forall k :: LeftAlone(env, k) && k in before ==> k in pending && pending[k] == before[k]
  {
    hide Untouched;
    forall k | LeftAlone(env, k) && k in before
      ensures k in pending && pending[k] == before[k]
    {
      assert Untouched(env(n), k);
    }
    forall k | k in pending
      ensures Evolved(snapshot[k], pending[k])
    {
      assert Evolved(snapshot[k], before[k]) && Evolved(before[k], pending[k]);
    }
  }

  lemma VerdictProgress(chain: Oracle, now: int, grace: int, env: nat -> seq<Rival>, snapshot: map<Key, Purchase>,
                        before: map<Key, Purchase>, pending: map<Key, Purchase>, paid: seq<Key>, gone: seq<Key>,
                        key: Key, verdict: PurchaseState)
    requires Progress(chain, now, grace, env, snapshot, before, paid, gone) && key in before
    requires snapshot[key].state.Pending? && (LeftAlone(env, key) ==> Kept(snapshot, before, key))
    requires verdict.Settled? ==> EverPaid(chain, snapshot[key])
    requires verdict.Failed? ==> !EverPaid(chain, snapshot[key]) && now > snapshot[key].validBefore + grace
    requires pending == (if verdict.Settled? || (verdict.Failed? && before[key].state.Pending?)
                         then before[key := before[key].(state := verdict)] else before)
    ensures Progress(chain, now, grace, env, snapshot, pending, if verdict.Settled? then paid + [key] else paid,
                     if verdict.Failed? then gone + [key] else gone)
  {
    hide LeftAlone, Evolved, Resolved;
    VerdictOne(chain, now, grace, snapshot[key], before[key], pending[key], verdict, LeftAlone(env, key));
    forall k | k in pending
      ensures Evolved(snapshot[k], pending[k])
      ensures LeftAlone(env, k) ==> Resolved(chain, now, grace, snapshot[k], pending[k])
    {
      assert k != key ==> pending[k] == before[k];
    }
  }

  lemma VerdictOne(chain: Oracle, now: int, grace: int, snapshot: Purchase, before: Purchase, after: Purchase,
                   verdict: PurchaseState, alone: bool)
    requires Evolved(snapshot, before) && snapshot.state.Pending? && (alone ==> before == snapshot)
    requires verdict.Settled? ==> EverPaid(chain, snapshot)
    requires verdict.Failed? ==> !EverPaid(chain, snapshot) && now > snapshot.validBefore + grace
    requires after == (if verdict.Settled? || (verdict.Failed? && before.state.Pending?)
                       then before.(state := verdict) else before)
    ensures Evolved(snapshot, after) && (alone ==> Resolved(chain, now, grace, snapshot, after))
  {
  }

  /** What the answer to the i-th question says about `p`. */
  predicate ToldPaid(chain: Oracle, i: nat, p: Purchase) {
    chain.Ask(i, p.authorizer, p.nonce) == Some(true)
  }

  predicate ToldGone(chain: Oracle, i: nat, p: Purchase, now: int, grace: int) {
    chain.Ask(i, p.authorizer, p.nonce) == Some(false) && now > p.validBefore + grace
  }

  /** After `n` questions: who was settled and who was failed. */
  ghost predicate Told(chain: Oracle, now: int, grace: int, snapshot: map<Key, Purchase>, open: seq<Key>, n: nat,
                       paid: seq<Key>, gone: seq<Key>)
    requires n <= |open| && forall k :: k in open ==> k in snapshot
  {
    && (forall i :: 0 <= i < |open| ==>
          (open[i] in paid <==> i < n && ToldPaid(chain, i, snapshot[open[i]]))
          && (open[i] in gone <==> i < n && ToldGone(chain, i, snapshot[open[i]], now, grace)))
    && (forall k :: k in paid || k in gone ==> k in open)
  }

  lemma ToldOneMore(chain: Oracle, now: int, grace: int, snapshot: map<Key, Purchase>, open: seq<Key>, n: nat,
                    paid: seq<Key>, gone: seq<Key>, verdict: PurchaseState)
    requires n < |open| && forall k :: k in open ==> k in snapshot
    requires forall i, j :: 0 <= i < j < |open| ==> open[i] != open[j]
    requires Told(chain, now, grace, snapshot, open, n, paid, gone)
    requires verdict.Settled? <==> ToldPaid(chain, n, snapshot[open[n]])
    requires verdict.Failed? <==> ToldGone(chain, n, snapshot[open[n]], now, grace)
    ensures Told(chain, now, grace, snapshot, open, n + 1, if verdict.Settled? then paid + [open[n]] else paid,
                 if verdict.Failed? then gone + [open[n]] else gone)
  {
  }

  lemma StillGranted(before: seq<Credits.Grant>, after: seq<Credits.Grant>)
    requires before <= after
    ensures forall k :: Granted(before, k) ==> Granted(after, k)
  {
    forall k | Granted(before, k)
      ensures Granted(after, k)
    {
      var i :| 0 <= i < |before| && before[i].key == k;
      assert after[i].key == k;
    }
  }

  lemma AnswerFor(chain: Oracle, i: nat, pending: map<Key, Purchase>, k: Key, now: int, grace: int)
    requires chain.at(i) + grace >= now && RespectsWindows(chain, pending) && k in pending
    ensures var used := chain.Ask(i, pending[k].authorizer, pending[k].nonce);
            && (used == Some(true) ==> EverPaid(chain, pending[k]))
            && (used == Some(false) && now > pending[k].validBefore + grace ==> !EverPaid(chain, pending[k]))
  {
    AnswerIsFinal(chain, i, pending[k], now, grace);
  }

  /** An authorization seen unused, after its window closed by the service's clock and grace, is never used. */
  lemma AnswerIsFinal(chain: Oracle, i: nat, p: Purchase, now: int, grace: int)
    requires chain.at(i) + grace >= now
    requires EverPaid(chain, p) ==> chain.paidAt[(p.authorizer, p.nonce)] < p.validBefore
    ensures chain.Ask(i, p.authorizer, p.nonce) == Some(true) ==> EverPaid(chain, p)
    ensures chain.Ask(i, p.authorizer, p.nonce) == Some(false) && now > p.validBefore + grace ==> !EverPaid(chain, p)
  {
  }

  // ---- Liabilities ----

  function RealMax(a: real, b: real): real {
    if a >= b then a else b
  }

  function Price(g: Grant): real {
    if g.runs == 0 then 0.0 else g.cents as real / g.runs as real
  }

  /** The highest price per run a workspace paid. */
  function TopPrice(grants: seq<Grant>, ws: Workspace): real {
    if grants == [] then 0.0
    else
      var before := TopPrice(grants[..|grants| - 1], ws);
      var g := grants[|grants| - 1];
      if g.ws == ws then RealMax(before, Price(g)) else before
  }

  /** The workspaces with a grant, in the order of their first one. */
  function Buyers(grants: seq<Grant>): seq<Workspace> {
    if grants == [] then []
    else
      var before := Buyers(grants[..|grants| - 1]);
      var ws := grants[|grants| - 1].ws;
      if ws in before then before else before + [ws]
  }

  lemma {:induction false} NoBuyerNoPrice(grants: seq<Grant>, ws: Workspace)
    ensures ws !in Buyers(grants) ==> TopPrice(grants, ws) == 0.0
  {
    if grants != [] {
      NoBuyerNoPrice(grants[..|grants| - 1], ws);
    }
  }

  /** What a balance is worth. A workspace in debt is owed nothing. */
  function Worth(credits: int, price: real): real {
    Max(credits, 0) as real * price
  }

  function OwedTo(ws: Workspace, grants: seq<Grant>, reversals: map<Key, Reversal>, runs: Runs): real {
    Worth(CreditsRemaining(grants, reversals, runs, ws), TopPrice(grants, ws))
  }

  function OwedTotal(buyers: seq<Workspace>, grants: seq<Grant>, reversals: map<Key, Reversal>, runs: Runs): real {
    if buyers == [] then 0.0
    else
      OwedTotal(buyers[..|buyers| - 1], grants, reversals, runs) + OwedTo(buyers[|buyers| - 1], grants, reversals, runs)
  }

  function Ceiling(x: real): int {
    -((-x).Floor)
  }

  function PendingCents(pending: map<Key, Purchase>, order: seq<Key>): int {
    Sum(order, k => if k in pending && pending[k].state.Pending? then pending[k].cents else 0)
  }

  /** Each workspace's credits at the dearest price it paid, rounded up in all, and pending purchases. */
  function Liability(grants: seq<Grant>, reversals: map<Key, Reversal>, pending: map<Key, Purchase>, order: seq<Key>,
                     runs: Runs): int
  {
    Ceiling(OwedTotal(Buyers(grants), grants, reversals, runs)) + PendingCents(pending, order)
  }

  function AfterSettle(grants: seq<Grant>, key: Key, p: Purchase): seq<Grant> {
    if !Granted(grants, key) && p.runs > 0 then grants + [Credits.Grant(key, p.ws, p.runs, p.cents, None)] else grants
  }

  lemma GrantedAfter(grants: seq<Grant>, g: Grant, k: Key)
    ensures Granted(grants + [g], k) <==> Granted(grants, k) || g.key == k
  {
    if Granted(grants, k) {
      var i :| 0 <= i < |grants| && grants[i].key == k;
      assert (grants + [g])[i].key == k;
    }
    assert (grants + [g])[|grants|] == g;
  }

  lemma OtherSourceCredited(s: Source, grants: seq<Grant>, g: Grant, pending: map<Key, Purchase>)
    requires s != g.key.source && SettledMeansCredited(s, grants, pending)
    ensures SettledMeansCredited(s, grants + [g], pending)
  {
    forall k | k in pending && k.source == s && pending[k].runs > 0
      ensures pending[k].state.Settled? <==> Granted(grants + [g], k)
    {
      GrantedAfter(grants, g, k);
    }
  }

  lemma SettleKeepsCredited(s: Source, grants: seq<Grant>, pending: map<Key, Purchase>, key: Key)
    requires key in pending && SettledMeansCredited(s, grants, pending)
    ensures SettledMeansCredited(s, AfterSettle(grants, key, pending[key]),
                                 pending[key := pending[key].(state := Settled)])
  {
    var p := pending[key];
    var g := Credits.Grant(key, p.ws, Max(p.runs, 0), p.cents, None);
    forall k | k in pending
      ensures Granted(AfterSettle(grants, key, p), k) <==> Granted(grants, k) || (k == key && p.runs > 0)
    {
      GrantedAfter(grants, g, k);
    }
  }

  /** A settled purchase lacks its grant exactly when it bought no runs: the insert is ignored when it
      breaks the table's check, and the state still becomes settled. */
  lemma SettledWithoutGrantExactly(s: Source, grants: seq<Grant>, pending: map<Key, Purchase>, k: Key)
    requires GrantsSound(grants) && SettledMeansCredited(s, grants, pending)
    requires k in pending && k.source == s && pending[k].state.Settled?
    ensures !Granted(grants, k) <==> pending[k].runs <= 0
  {
    if i :| 0 <= i < |grants| && grants[i].key == k {
      assert grants[i].runs == pending[k].runs;
    }
  }

  /** Such a purchase, recorded and settled. */
  method SettleNothing(free: int, key: Key, p: Purchase) returns (ledger: WorkspaceLedger)
    requires p.state.Pending? && p.runs <= 0
    ensures fresh(ledger) && IsSettled(ledger.pending, key) && !Granted(ledger.grants, key)
  {
    ledger := new WorkspaceLedger(free);
    ledger.RecordPending(key, p);
    var _ := ledger.SettlePending(key);
  }

  lemma NewGrantKeepsTables(grants: seq<Grant>, g: Grant, reversals: map<Key, Reversal>, runs: Runs, free: int)
    requires GrantsSound(grants) && ReversalsSound(grants, reversals) && WithinAllowance(runs, free, grants)
    requires !Granted(grants, g.key) && g.runs > 0
    ensures GrantsSound(grants + [g]) && ReversalsSound(grants + [g], reversals)
    ensures WithinAllowance(runs, free, grants + [g])
  {
    hide PaidRuns, FreeRuns, GrantedRuns;
    forall k
      ensures Granted(grants + [g], k) <==> Granted(grants, k) || g.key == k
    {
      GrantedAfter(grants, g, k);
    }
    forall ws
      ensures GrantedRuns(grants + [g], ws) >= GrantedRuns(grants, ws)
    {
      GrantedGrows(grants, g, ws);
    }
  }

  lemma RefundKeepsReversals(grants: seq<Grant>, reversals: map<Key, Reversal>, g: Grant, row: Reversal)
    requires GrantsSound(grants) && ReversalsSound(grants, reversals) && g in grants && Proportional(g, row)
    ensures ReversalsSound(grants, reversals[g.key := row])
  {
  }

  lemma AllowanceAfterAdmit(runs: Runs, free: int, grants: seq<Grant>, key: RunKey, paid: bool)
    requires WithinAllowance(runs, free, grants)
    requires key !in runs && paid ==> PaidRuns(runs, key.ws) < GrantedRuns(grants, key.ws)
    requires key !in runs && !paid ==> FreeRuns(runs, key.ws, key.month) < free
    ensures WithinAllowance(AfterAdmit(runs, key, paid), free, grants)
  {
    hide FreeRuns, PaidRuns, MonthRuns, GrantedRuns, AfterAdmit;
    forall ws: Workspace, month: Month
      ensures FreeRuns(AfterAdmit(runs, key, paid), ws, month) <= Max(free, 0)
    {
      AllowanceAt(runs, free, grants, key, paid, ws, month);
    }
    forall ws: Workspace
      ensures PaidRuns(AfterAdmit(runs, key, paid), ws) <= GrantedRuns(grants, ws)
    {
      AllowanceAt(runs, free, grants, key, paid, ws, key.month);
    }
  }

  lemma AllowanceAt(runs: Runs, free: int, grants: seq<Grant>, key: RunKey, paid: bool, ws: Workspace, month: Month)
    requires WithinAllowance(runs, free, grants)
    requires key !in runs && paid ==> PaidRuns(runs, key.ws) < GrantedRuns(grants, key.ws)
    requires key !in runs && !paid ==> FreeRuns(runs, key.ws, key.month) < free
    ensures FreeRuns(AfterAdmit(runs, key, paid), ws, month) <= Max(free, 0)
    ensures PaidRuns(AfterAdmit(runs, key, paid), ws) <= GrantedRuns(grants, ws)
  {
    hide FreeRuns, PaidRuns, MonthRuns, GrantedRuns, AfterAdmit;
    if key in runs {
      AdmitKeepsPaid(runs, key, paid);
      SameCounts(runs, AfterAdmit(runs, key, paid), ws, month);
    } else {
      CountsAfterInsert(runs, key, paid, ws, month);
    }
  }

  lemma AdmitKeepsPaid(runs: Runs, key: RunKey, paid: bool)
    requires key in runs
    ensures AfterAdmit(runs, key, paid).Keys == runs.Keys
    ensures forall k :: k in runs ==> AfterAdmit(runs, key, paid)[k].paid == runs[k].paid
  {
  }

  lemma AllowanceShrinks(runs: Runs, runs': Runs, free: int, grants: seq<Grant>, month: Month)
    requires WithinAllowance(runs, free, grants)
    requires forall k :: k in runs' ==> k in runs && runs'[k].paid == runs[k].paid
    ensures WithinAllowance(runs', free, grants)
  {
    hide FreeRuns, PaidRuns, MonthRuns, GrantedRuns;
    forall ws: Workspace, m: Month
      ensures FreeRuns(runs', ws, m) <= Max(free, 0)
    {
      CountsNeverRise(runs, runs', ws, m);
    }
    forall ws: Workspace
      ensures PaidRuns(runs', ws) <= GrantedRuns(grants, ws)
    {
      CountsNeverRise(runs, runs', ws, month);
    }
  }
}
