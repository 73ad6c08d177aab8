/**
  What one process of examples/agent_economy/authority.py leaves behind when nobody interferes: how an
  admission is answered, what a purchase, a model call and a reconciliation end in, and when a
  reconciliation raises.
 */
module RuntimeAlone {
  import opened Common
  import opened Ledger
  import opened LedgerInvariant
  import opened LedgerAnswers
  import opened UsdcChain
  import opened Runtime
  import opened RuntimeInvariant
  import opened RuntimeSafety
  import opened RuntimeTheorems
  import opened RuntimeBounds
  import opened RuntimeCharges
  import opened RuntimeSteps

  /** In order, with every cost and outcome on record as it was decided. */
  ghost predicate Healthy(w: World) {
    Ok(w) && exists charges :: Billed(w, charges)
  }

  /** Every prompt run from the start stays healthy. */
  lemma RunsStayHealthy(payer: Account, now: int, moves: seq<Move>)
    requires Legal(Start(payer, now), moves) && Prompt(Start(payer, now), moves)
    ensures Healthy(Play(Start(payer, now), moves))
  {
    hide Inv, Ok, Legal, Prompt, Play, Charges, ClocksSafe, NoneMissed, Billed;
    var start := Start(payer, now);
    StartOk(payer, now);
    NoClocksYet(payer, now);
    StartBilled(payer, now);
    PromptMissesNone(start, moves, None);
    PromptKeepsOk(start, moves);
    PlayKeepsBilled(start, moves, {});
  }

  lemma MoveKeepsHealthy(w: World, m: Move)
    requires Healthy(w) && Enabled(w, m) && !LateTransferMissed(w, m)
    ensures Healthy(Next(w, m))
  {
    hide Ok, Next, Enabled, LateTransferMissed, Billed, ChargeOf;
    var charges :| Billed(w, charges);
    MoveKeepsOk(w, m);
    MoveKeepsBilled(w, m, charges);
  }

  lemma HealthyIsOrderly(w: World)
    requires Healthy(w)
    ensures Inv(w.db) && Orderly(w)
  {
    hide Inv, Billed, Unrevoked, LeavesApart, NoncesApart, ListedActions, ActionsOk, BalanceOk, ViewOf;
    forall q | q in w.procs
      ensures ProcOk(SceneOf(w), w.actions, w.procs[q])
    {
    }
  }

  // ---- A process alone, to its end ----

  datatype Ending = Ending(world: World, raised: bool)

  /** All the steps left to a reconciling process. It raises when the ledger refuses to record its cost or
      its outcome next to another one. */
  ghost function Alone(w: World, pid: nat): Ending
    requires Inv(w.db) && Orderly(w) && pid in w.procs && Closing(w.procs[pid])
    decreases Distance(w, pid)
  {
    ClosingGoes(w, pid);
    NextKeepsInv(w, Go(pid));
    StaysOrderly(w, Go(pid));
    var w' := Next(w, Go(pid));
    if pid in w'.procs then Alone(w', pid)
    else Ending(w', w.procs[pid].AtConsume? || w.procs[pid].AtSettle?)
  }

  lemma AloneGoes(w: World, pid: nat)
    requires Inv(w.db) && Orderly(w) && pid in w.procs && Closing(w.procs[pid])
    ensures w.procs[pid].a in w.actions && Enabled(w, Go(pid))
    ensures var w' := Next(w, Go(pid));
            && Inv(w'.db) && Orderly(w')
            && (if pid in w'.procs then Closing(w'.procs[pid]) && Alone(w, pid) == Alone(w', pid)
                else Alone(w, pid) == Ending(w', w.procs[pid].AtConsume? || w.procs[pid].AtSettle?))
  {
    hide Inv, Next, Orderly;
    KnownProc(w, pid);
    ClosingGoes(w, pid);
    NextKeepsInv(w, Go(pid));
    StaysOrderly(w, Go(pid));
  }

  /** Nothing but `a`'s state, `a`'s leaf and the process changed. */
  ghost predicate OnlyTouches(w: World, w': World, pid: nat, a: ActionId, state: Runtime.State) {
    && a in w.actions
    && w' == w.(db := w'.db, actions := w.actions[a := w.actions[a].(state := state)], procs := w.procs - {pid})
    && (w.actions[a].leaf in w'.db.rows <==> w.actions[a].leaf in w.db.rows)
    && (forall b :: b in w.actions && b != a ==>
          ViewOf(w'.db, w.actions[b].leaf) == ViewOf(w.db, w.actions[b].leaf))
  }

  /** What a close that went through leaves: the final state, and a leaf that is settled with this spend. */
  ghost predicate Closed(w: World, e: Ending, pid: nat, a: ActionId, final: Runtime.State, own: int) {
    && !e.raised && OnlyTouches(w, e.world, pid, a, final) && Healthy(e.world)
    && OwnSpend(e.world.db.log, w.actions[a].leaf) == own
    && (w.actions[a].leaf in e.world.db.rows ==> !e.world.db.rows[w.actions[a].leaf].active)
  }

  lemma OneOutcome(first: string, second: string, row: ActionRow, used: bool, now: int)
    requires Says(first, row, used, now) && Says(second, row, used, now)
    ensures first == second
  {
  }

  lemma StepAlone(w: World, pid: nat)
    requires Healthy(w) && pid in w.procs && Closing(w.procs[pid]) && !LateTransferMissed(w, Go(pid))
    ensures Inv(w.db) && Orderly(w) && w.procs[pid].a in w.actions && Enabled(w, Go(pid)) && Healthy(Next(w, Go(pid)))
    ensures var w' := Next(w, Go(pid));
            && Inv(w'.db) && Orderly(w')
            && (if pid in w'.procs then Closing(w'.procs[pid]) && Alone(w, pid) == Alone(w', pid)
                else Alone(w, pid) == Ending(w', w.procs[pid].AtConsume? || w.procs[pid].AtSettle?))
  {
    hide Inv, Next, Healthy, LateTransferMissed, Orderly;
    HealthyIsOrderly(w);
    AloneGoes(w, pid);
    MoveKeepsHealthy(w, Go(pid));
  }

  lemma KnownProc(w: World, pid: nat)
    requires Orderly(w) && pid in w.procs
    ensures w.procs[pid].a in w.actions
  {
  }

  lemma MarkAlone(w: World, pid: nat)
    requires Healthy(w) && pid in w.procs && w.procs[pid].AtMark?
    ensures Inv(w.db) && Orderly(w) && w.procs[pid].a in w.actions
    ensures var pc := w.procs[pid];
            Alone(w, pid) == Ending(w.SetState(pc.a, pc.final).End(pid), false)
            && Healthy(w.SetState(pc.a, pc.final).End(pid))
  {
    hide Healthy, Orderly, Inv, Step, Alone;
    StepAlone(w, pid);
  }

  /** Settling a leaf under its own key: never in conflict with what is on record. */
  lemma SettleLeaf(db: Db, row: ActionRow, used: bool, now: int, outcome: string)
    requires Inv(db) && NoKids(db, row.leaf) && OutcomeSays(db.log, row, used, now) && Says(outcome, row, used, now)
    ensures Forest(db.rows)
    ensures var (db', reply) := Step(db, Settle(Own(LeafSettle), row.leaf, outcome));
            && !reply.Conflict? && !reply.Invalid?
            && OwnSpend(db'.log, row.leaf) == OwnSpend(db.log, row.leaf)
            && (row.leaf in db'.rows <==> row.leaf in db.rows)
            && (row.leaf in db'.rows ==> !db'.rows[row.leaf].active)
  {
    hide Slots, SettledSpend, OwnSpend, Solvent, Says, NoKids, Revoking, ActiveBelow, Step;
    var entry := Requested(Settle(Own(LeafSettle), row.leaf, outcome));
    SettleAnswer(db, row.leaf, outcome);
    SettleCharges(db, row.leaf, outcome);
    RecordedAs(db.log, row.leaf, Own(LeafSettle));
    if Recorded(db.log, row.leaf, Own(LeafSettle)) {
      var fact :| Entry(row.leaf, Own(LeafSettle), fact) in db.log;
      OneOutcome(fact.outcome, outcome, row, used, now);
    }
    if entry in db.log {
      var i :| 0 <= i < |db.log| && db.log[i] == entry;
    }
  }

  lemma SettleAlone(w: World, pid: nat)
    requires Healthy(w) && pid in w.procs && w.procs[pid].AtSettle?
    ensures Inv(w.db) && Orderly(w) && w.procs[pid].a in w.actions
    ensures var pc := w.procs[pid];
            Closed(w, Alone(w, pid), pid, pc.a, pc.final, OwnSpend(w.db.log, w.actions[pc.a].leaf))
  {
    hide Ok, Inv, Step, Billed, ViewOf, OwnSpend, Says, OutcomeSays, NoKids, Alone;
    var pc := w.procs[pid];
    StepAlone(w, pid);
    SettlesWell(w, pid);
    var row := w.actions[pc.a];
    OkIsInv(w);
    OkLeaf(w, pc.a);
    var op := Settle(Own(LeafSettle), row.leaf, pc.outcome);
    SettleLeaf(w.db, row, w.Used(row), w.now, pc.outcome);
    NoKidsAfterSettle(w.db, row.leaf, pc.outcome);
    OwnRequest(w, pc.a, op);
    var w' := Next(w, Go(pid));
    assert w' == w.(db := Step(w.db, op).0).Goto(pid, AtMark(pc.a, pc.final));
    hide Next, Healthy, Orderly;
    MarkAlone(w', pid);
    assert w'.procs - {pid} == w.procs - {pid};
  }

  lemma OkLeaf(w: World, a: ActionId)
    requires Ok(w) && a in w.actions
    ensures NoKids(w.db, w.actions[a].leaf) && w.actions[a].delegation != w.actions[a].leaf
  {
    LeafHasNoKids(w, a);
  }

  lemma SettlesWell(w: World, pid: nat)
    requires Healthy(w) && pid in w.procs && w.procs[pid].AtSettle? && w.procs[pid].a in w.actions
    ensures var row := w.actions[w.procs[pid].a];
            OutcomeSays(w.db.log, row, w.Used(row), w.now) && Says(w.procs[pid].outcome, row, w.Used(row), w.now)
  {
    hide Ok, OutcomeSays, Says, CostOnce, OwnSpend;
    var charges :| Billed(w, charges);
    var row := w.actions[w.procs[pid].a];
    assert ActionBilled(SceneOf(w), w.procs[pid].a, row, charges);
    assert PcBilled(SceneOf(w), row, w.procs[pid], charges);
  }

  lemma NoKidsAfterSettle(db: Db, leaf: Id, outcome: string)
    requires Inv(db) && NoKids(db, leaf)
    ensures Forest(db.rows) && NoKids(Step(db, Settle(Own(LeafSettle), leaf, outcome)).0, leaf)
  {
    hide Slots, SettledSpend, OwnSpend, Revoking, ActiveBelow, Solvent;
    var op := Settle(Own(LeafSettle), leaf, outcome);
    forall x
      ensures !ChildOf(Step(db, op).0.rows, x, leaf)
    {
      assert !ChildOf(db.rows, x, leaf);
    }
  }

  /** Whether another cost is on record for the leaf already. */
  ghost predicate OtherCost(w: World, a: ActionId, cost: int)
    requires a in w.actions
  {
    var own := OwnSpend(w.db.log, w.actions[a].leaf);
    own != 0 && own != cost
  }

  /** What the leaf has spent once `cost` was asked to be recorded. */
  ghost function SpentAfter(w: World, a: ActionId, cost: int): int
    requires a in w.actions
  {
    var leaf := w.actions[a].leaf;
    if Inactive(w.db.rows, leaf) then OwnSpend(w.db.log, leaf) else cost
  }

  lemma ConsumeLeaf(db: Db, row: ActionRow, cost: int)
    requires Inv(db) && Unrevoked(db) && row.leaf in db.rows && CostOnce(db.log, row.leaf)
    requires LeafOk(row, ViewOf(db, row.leaf)) && 0 < cost <= row.amount && AmountOk(row.amount)
    ensures var (db', reply) := Step(db, Consume(Own(LeafConsume), row.leaf, Some(cost)));
            var own := OwnSpend(db.log, row.leaf);
            && (reply.Conflict? <==> own != 0 && own != cost) && !reply.Invalid? && (reply.Conflict? ==> db' == db)
            && row.leaf in db'.rows && db'.rows[row.leaf].active == db.rows[row.leaf].active
            && (!reply.Conflict? ==> OwnSpend(db'.log, row.leaf) == if db.rows[row.leaf].active then cost else own)
  {
    hide Slots, SettledSpend, OwnSpend, Solvent, Revoking, ActiveBelow, Step, CostOnce, LeafOk, Inv;
    ConsumeAnswer(db, row, cost);
    ConsumeCharges(db, row, cost);
  }

  lemma NoKidsAfterConsume(db: Db, leaf: Id, cost: int)
    requires Inv(db) && NoKids(db, leaf)
    ensures Forest(db.rows) && NoKids(Step(db, Consume(Own(LeafConsume), leaf, Some(cost))).0, leaf)
  {
    hide Slots, SettledSpend, OwnSpend, Revoking, ActiveBelow, Solvent;
    var op := Consume(Own(LeafConsume), leaf, Some(cost));
    forall x
      ensures !ChildOf(Step(db, op).0.rows, x, leaf)
    {
      assert !ChildOf(db.rows, x, leaf);
    }
  }

  lemma ConsumesWell(w: World, pid: nat)
    requires Healthy(w) && pid in w.procs && w.procs[pid].AtConsume? && w.procs[pid].a in w.actions
    ensures var row := w.actions[w.procs[pid].a];
            && Inv(w.db) && Unrevoked(w.db) && row.leaf in w.db.rows && CostOnce(w.db.log, row.leaf)
            && LeafOk(row, ViewOf(w.db, row.leaf)) && 0 < w.procs[pid].cost <= row.amount && AmountOk(row.amount)
  {
    hide OutcomeSays, Says, CostOnce, OwnSpend, Inv, Unrevoked, LeavesApart, NoncesApart, ListedActions, BalanceOk,
         SentKnown, LeafOk, FinalTells;
    var charges :| Billed(w, charges);
    var row := w.actions[w.procs[pid].a];
    assert ActionBilled(SceneOf(w), w.procs[pid].a, row, charges);
    assert ProcOk(SceneOf(w), w.actions, w.procs[pid]) && OneOk(SceneOf(w), w.procs[pid].a, row);
  }

  lemma ConsumeAlone(w: World, pid: nat)
    requires Healthy(w) && pid in w.procs && w.procs[pid].AtConsume?
    ensures Inv(w.db) && Orderly(w) && w.procs[pid].a in w.actions
    ensures var pc := w.procs[pid];
            if OtherCost(w, pc.a, pc.cost) then Alone(w, pid) == Ending(w.End(pid), true) && Healthy(w.End(pid))
            else Closed(w, Alone(w, pid), pid, pc.a, pc.final, SpentAfter(w, pc.a, pc.cost))
  {
    hide Ok, Inv, Step, Billed, ViewOf, OwnSpend, NoKids, CostOnce, LeafOk, Unrevoked, Alone;
    var pc := w.procs[pid];
    StepAlone(w, pid);
    ConsumesWell(w, pid);
    OkLeaf(w, pc.a);
    var op := Consume(Own(LeafConsume), w.actions[pc.a].leaf, Some(pc.cost));
    ConsumeLeaf(w.db, w.actions[pc.a], pc.cost);
    NoKidsAfterConsume(w.db, w.actions[pc.a].leaf, pc.cost);
    OwnRequest(w, pc.a, op);
    var w' := Next(w, Go(pid));
    var db' := Step(w.db, op).0;
    if OtherCost(w, pc.a, pc.cost) {
      assert w' == w.End(pid);
    } else {
      assert w' == w.(db := db').Goto(pid, AtSettle(pc.a, pc.outcome, pc.final));
      hide Next, Healthy, Orderly;
      SettleAlone(w', pid);
      assert w'.procs - {pid} == w.procs - {pid};
    }
  }

  lemma CloseAlone(w: World, pid: nat, a: ActionId, cost: Option<int>, outcome: string, final: Runtime.State)
    requires Healthy(w) && pid in w.procs && w.procs[pid] == Close(a, cost, outcome, final)
    ensures Inv(w.db) && Orderly(w) && a in w.actions
    ensures var paid := cost.Some? && cost.value > 0;
            if paid && OtherCost(w, a, cost.value) then
              Alone(w, pid) == Ending(w.End(pid), true) && Healthy(w.End(pid))
            else
              Closed(w, Alone(w, pid), pid, a, final,
                     if paid then SpentAfter(w, a, cost.value) else OwnSpend(w.db.log, w.actions[a].leaf))
  {
    hide Healthy, OtherCost, SpentAfter, Closed, Orderly, Inv, OwnSpend, Alone;
    if cost.Some? && cost.value > 0 {
      ConsumeAlone(w, pid);
    } else {
      SettleAlone(w, pid);
    }
  }

  // ---- Reconciling ----

  /** What reconciling an action leads to. */
  function EndOf(w: World, a: ActionId): Runtime.State
    requires a in w.actions
  {
    var row := w.actions[a];
    match row.state
    case RESERVING => ABANDONED
    case ABANDONING => ABANDONED
    case CALLING => SETTLED
    case AUTHORIZED =>
      if w.Used(row) then SETTLED
      else if row.auth.Some? && w.now > row.auth.value.validBefore then EXPIRED
      else AUTHORIZED
    case _ => row.state
  }

  /** A call whose real cost is on record cannot be closed with the ceiling any more. */
  ghost predicate Stuck(w: World, a: ActionId) {
    a in w.actions && w.actions[a].state.CALLING? && OtherCost(w, a, w.actions[a].amount)
  }

  /** What a reconciliation of `a` by `pid` leaves. A leaf that is closed as settled has spent the whole
      amount, unless it had been settled before. */
  ghost predicate Reconciled(w: World, e: Ending, pid: nat, a: ActionId) {
    && a in w.actions
    && if Stuck(w, a) then e == Ending(w.End(pid), true)
       else
         var (row, final) := (w.actions[a], EndOf(w, a));
         && !e.raised && OnlyTouches(w, e.world, pid, a, final)
         && (final == row.state ==> e.world.db == w.db)
         && (final != row.state && row.leaf in e.world.db.rows ==> !e.world.db.rows[row.leaf].active)
         && OwnSpend(e.world.db.log, row.leaf)
            == (if final != row.state && final.SETTLED? then SpentAfter(w, a, row.amount)
                else OwnSpend(w.db.log, row.leaf))
  }

  /** Seen RESERVING: claimed, then released. */
  lemma ClaimAlone(w: World, pid: nat, a: ActionId)
    requires Healthy(w) && pid in w.procs && w.procs[pid] == AtClaim(a) && a in w.actions
    requires w.actions[a].state == RESERVING
    ensures Inv(w.db) && Orderly(w)
    ensures Closed(w, Alone(w, pid), pid, a, ABANDONED, OwnSpend(w.db.log, w.actions[a].leaf))
  {
    hide Healthy, Orderly, Inv, OwnSpend, Step, Alone;
    StepAlone(w, pid);
    var w' := Next(w, Go(pid));
    assert w' == w.SetState(a, ABANDONING).Goto(pid, Close(a, None, "abandoned", ABANDONED));
    hide Next;
    CloseAlone(w', pid, a, None, "abandoned", ABANDONED);
    ThroughState(w, w', Alone(w', pid), pid, a, ABANDONING, ABANDONED, OwnSpend(w.db.log, w.actions[a].leaf));
  }

  lemma ThroughState(w: World, w1: World, e: Ending, pid: nat, a: ActionId, state: Runtime.State,
                     final: Runtime.State, own: int)
    requires a in w.actions && Closed(w1, e, pid, a, final, own)
    requires w1 == w.(actions := w.actions[a := w.actions[a].(state := state)], procs := w1.procs)
    requires w1.procs - {pid} == w.procs - {pid}
    ensures Closed(w, e, pid, a, final, own)
  {
    hide Healthy, OwnSpend, ViewOf;
    assert w1.actions[a := w1.actions[a].(state := final)] == w.actions[a := w.actions[a].(state := final)];
    forall b | b in w.actions && b != a
      ensures ViewOf(e.world.db, w.actions[b].leaf) == ViewOf(w.db, w.actions[b].leaf)
    {
      assert b in w1.actions && w1.actions[b] == w.actions[b];
    }
  }

  /** The two reads of a signed payment. */
  lemma ChainAlone(w: World, pid: nat, a: ActionId)
    requires Healthy(w) && pid in w.procs && w.procs[pid] == AtChain(a) && a in w.actions
    requires w.actions[a].state == AUTHORIZED
    ensures Inv(w.db) && Orderly(w)
    ensures var own := OwnSpend(w.db.log, w.actions[a].leaf);
            match EndOf(w, a)
            case SETTLED => Closed(w, Alone(w, pid), pid, a, SETTLED, SpentAfter(w, a, w.actions[a].amount))
            case EXPIRED => Closed(w, Alone(w, pid), pid, a, EXPIRED, own)
            case _ => Alone(w, pid) == Ending(w.End(pid), false) && Healthy(w.End(pid))
  {
    hide Healthy, Orderly, Inv, OwnSpend, Step, SpentAfter, OtherCost, Alone;
    StepAlone(w, pid);
    var row := w.actions[a];
    var w1 := Next(w, Go(pid));
    if w.Used(row) {
      assert w1 == w.Goto(pid, Close(a, Some(row.amount), "settled", SETTLED));
      hide Next;
      CloseAlone(w1, pid, a, Some(row.amount), "settled", SETTLED);
      PaidOnce(w, a);
      SameSpend(w, w1, a, row.amount);
      ThroughProcs(w, w1, Alone(w1, pid), pid, a, SETTLED, SpentAfter(w, a, row.amount));
    } else {
      assert w1 == w.Goto(pid, AtClock(a));
      StepAlone(w1, pid);
      var w2 := Next(w1, Go(pid));
      if row.auth.Some? && w.now > row.auth.value.validBefore {
        assert w2 == w.Goto(pid, Close(a, None, "expired", EXPIRED));
        hide Next;
        CloseAlone(w2, pid, a, None, "expired", EXPIRED);
        ThroughProcs(w, w2, Alone(w2, pid), pid, a, EXPIRED, OwnSpend(w.db.log, row.leaf));
      } else {
        assert w2 == w.End(pid);
      }
    }
  }

  lemma ThroughProcs(w: World, w1: World, e: Ending, pid: nat, a: ActionId, final: Runtime.State, own: int)
    requires Closed(w1, e, pid, a, final, own) && pid in w1.procs && w1 == w.Goto(pid, w1.procs[pid])
    ensures Closed(w, e, pid, a, final, own)
  {
    hide Healthy, OwnSpend, ViewOf;
    assert w1.procs - {pid} == w.procs - {pid};
  }

  lemma SameSpend(w: World, w1: World, a: ActionId, cost: int)
    requires a in w.actions && w1 == w.(procs := w1.procs)
    ensures SpentAfter(w1, a, cost) == SpentAfter(w, a, cost) && (OtherCost(w1, a, cost) <==> OtherCost(w, a, cost))
  {
  }

  /** A payment's leaf has spent nothing or its amount. */
  lemma PaidOnce(w: World, a: ActionId)
    requires Healthy(w) && a in w.actions && w.actions[a].state == AUTHORIZED
    ensures !OtherCost(w, a, w.actions[a].amount)
    ensures w.actions[a].amount <= 0 ==>
              w.actions[a].amount == 0 && SpentAfter(w, a, w.actions[a].amount) == OwnSpend(w.db.log, w.actions[a].leaf)
  {
    hide Billed, OwnSpend, Inv, Unrevoked, LeavesApart, NoncesApart, ListedActions, BalanceOk, SentKnown, FinalTells,
         ProcsOk;
    assert OneOk(SceneOf(w), a, w.actions[a]);
  }

  lemma CallingSpend(w: World, a: ActionId)
    requires Healthy(w) && a in w.actions && w.actions[a].state == CALLING
    ensures w.actions[a].amount <= 0 ==>
              && !OtherCost(w, a, w.actions[a].amount)
              && SpentAfter(w, a, w.actions[a].amount) == OwnSpend(w.db.log, w.actions[a].leaf)
  {
    hide Billed, OwnSpend, Inv, Unrevoked, LeavesApart, NoncesApart, ListedActions, BalanceOk, SentKnown, FinalTells,
         ProcsOk;
    assert OneOk(SceneOf(w), a, w.actions[a]);
  }

  /** A reconciliation that nobody disturbs. */
  lemma ReconcileAlone(w: World, pid: nat, a: ActionId)
    requires Healthy(w) && pid in w.procs && w.procs[pid] == AtReconcile(a)
    ensures Inv(w.db) && Orderly(w) && Reconciled(w, Alone(w, pid), pid, a) && Healthy(Alone(w, pid).world)
  {
    hide Healthy, Orderly, Inv, OwnSpend, Step, SpentAfter, OtherCost, OnlyTouches, Alone;
    StepAlone(w, pid);
    var row := w.actions[a];
    var w1 := Next(w, Go(pid));
    match row.state
    case RESERVING =>
      assert w1 == w.Goto(pid, AtClaim(a));
      hide Next;
      ClaimAlone(w1, pid, a);
      ThroughProcs(w, w1, Alone(w1, pid), pid, a, ABANDONED, OwnSpend(w.db.log, row.leaf));
    case ABANDONING =>
      assert w1 == w.Goto(pid, Close(a, None, "abandoned", ABANDONED));
      hide Next;
      CloseAlone(w1, pid, a, None, "abandoned", ABANDONED);
      ThroughProcs(w, w1, Alone(w1, pid), pid, a, ABANDONED, OwnSpend(w.db.log, row.leaf));
    case CALLING =>
      assert w1 == w.Goto(pid, Close(a, Some(row.amount), "completed", SETTLED));
      hide Next;
      CloseAlone(w1, pid, a, Some(row.amount), "completed", SETTLED);
      CallingSpend(w, a);
      SameSpend(w, w1, a, row.amount);
      if Stuck(w, a) {
        assert w1.End(pid) == w.End(pid);
      } else {
        ThroughProcs(w, w1, Alone(w1, pid), pid, a, SETTLED, SpentAfter(w, a, row.amount));
      }
    case AUTHORIZED =>
      assert w1 == w.Goto(pid, AtChain(a));
      hide Next;
      ChainAlone(w1, pid, a);
      SameSpend(w, w1, a, row.amount);
      if EndOf(w, a).SETTLED? {
        ThroughProcs(w, w1, Alone(w1, pid), pid, a, SETTLED, SpentAfter(w, a, row.amount));
      } else if EndOf(w, a).EXPIRED? {
        ThroughProcs(w, w1, Alone(w1, pid), pid, a, EXPIRED, OwnSpend(w.db.log, row.leaf));
      } else {
        assert w1.End(pid) == w.End(pid);
        NothingTouched(w, pid, a);
      }
    case _ =>
      assert w1 == w.End(pid);
      NothingTouched(w, pid, a);
  }

  lemma NothingTouched(w: World, pid: nat, a: ActionId)
    requires a in w.actions
    ensures OnlyTouches(w, w.End(pid), pid, a, w.actions[a].state)
  {
    assert w.actions[a := w.actions[a].(state := w.actions[a].state)] == w.actions;
  }

  // ---- Admitting ----

  /** How an admission went: an error was raised, the reservation was refused, a reconcile released it
      first, or the action is under way. */
  datatype Outcome = Raised | Refused | Released | Admitted

  function LeafRequest(row: ActionRow): Op {
    Reserve(Own(LeafReserve), row.delegation, row.leaf, row.agent, row.amount)
  }

  /** The delegation can pay for it. */
  ghost predicate Admits(w: World, row: ActionRow)
    requires Inv(w.db)
  {
    && AmountOk(row.amount) && row.amount >= 0
    && Funds(w.db, row.delegation, row.amount) && !Revoking(w.db.rows, row.delegation)
  }

  function Entered(w: World, a: ActionId, row: ActionRow): World {
    w.(actions := w.actions[a := row], listed := w.listed + [a])
  }

  /** With the reservation of its leaf, when the ledger made it. */
  ghost function Holding(w: World, a: ActionId, row: ActionRow): World
    requires Inv(w.db)
  {
    Entered(w, a, row).(db := Step(w.db, LeafRequest(row)).0)
  }

  ghost predicate ReservedAlone(w: World, w': World, pid: nat, a: ActionId, row: ActionRow, outcome: Outcome)
    requires Inv(w.db)
  {
    match outcome
    case Admitted => Admits(w, row) && w' == Holding(w, a, row).Goto(pid, AtCommit(a)) && Healthy(w')
    case Refused => AmountOk(row.amount) && !Admits(w, row) && w' == Entered(w, a, row.(state := REFUSED))
    case Raised => !AmountOk(row.amount) && w' == Entered(w, a, row)
    case Released => false
  }

  lemma BeginAlone(w: World, pid: nat, a: ActionId, row: ActionRow)
    requires Healthy(w) && Enabled(w, Begin(pid, a, row))
    ensures Inv(w.db)
    ensures var w1 := Next(w, Begin(pid, a, row));
            && w1 == Entered(w, a, row).Goto(pid, AtReserve(a)) && Healthy(w1) && Inv(w1.db) && Enabled(w1, Go(pid))
            && var w2 := Next(w1, Go(pid));
            && Inv(w2.db)
            && (if Admits(w, row) then ReservedAlone(w, w2, pid, a, row, Admitted)
                else if !AmountOk(row.amount) then ReservedAlone(w, w2, pid, a, row, Raised)
                else w2 == Entered(w, a, row).Goto(pid, AtRefuse(a)))
  {
    hide Healthy, Inv, Step, Funds, Revoking;
    HealthyIsOrderly(w);
    InvIsShaped(w.db);
    var w1 := Next(w, Begin(pid, a, row));
    MoveKeepsHealthy(w, Begin(pid, a, row));
    ReserveExactly(w.db, Own(LeafReserve), row.delegation, row.leaf, row.agent, row.amount);
    MoveKeepsHealthy(w1, Go(pid));
    HealthyIsOrderly(Next(w1, Go(pid)));
    var reply := Step(w.db, LeafRequest(row)).1;
    assert reply.Done? || reply.Known? || reply.Refused? || reply.Conflict? || reply.Invalid?;
    assert w.procs - {pid} == w.procs;
    assert w1.procs - {pid} == w.procs;
    assert w1.procs[pid := AtCommit(a)] == w.procs[pid := AtCommit(a)];
    assert w1.procs[pid := AtRefuse(a)] == w.procs[pid := AtRefuse(a)];
  }

  lemma RefuseAlone(w: World, w2: World, pid: nat, a: ActionId, row: ActionRow)
    requires Inv(w.db) && pid !in w.procs && w2 == Entered(w, a, row).Goto(pid, AtRefuse(a)) && Enabled(w2, Go(pid))
    ensures Next(w2, Go(pid)) == Entered(w, a, row.(state := REFUSED))
  {
    hide Inv, Step;
    assert w2.procs - {pid} == w.procs;
    assert w2.actions[a := row.(state := REFUSED)] == w.actions[a := row.(state := REFUSED)];
  }

  /** The admission as its steps show it. */
  lemma AdmitAlone(w: World, w1: World, w2: World, pid: nat, a: ActionId, row: ActionRow)
    requires Healthy(w) && Enabled(w, Begin(pid, a, row)) && Inv(w.db) && w1 == Next(w, Begin(pid, a, row))
    requires Inv(w1.db) && Enabled(w1, Go(pid)) && w2 == Next(w1, Go(pid))
    ensures if pid !in w2.procs then ReservedAlone(w, w2, pid, a, row, Raised)
            else if w2.procs[pid].AtCommit? then ReservedAlone(w, w2, pid, a, row, Admitted)
            else
              Inv(w2.db) && (Enabled(w2, Go(pid)) ==> ReservedAlone(w, Next(w2, Go(pid)), pid, a, row, Outcome.Refused))
  {
    hide Healthy, Inv, Step, Next, Admits;
    BeginAlone(w, pid, a, row);
    if AmountOk(row.amount) && !Admits(w, row) && Enabled(w2, Go(pid)) {
      RefuseAlone(w, w2, pid, a, row);
    }
  }

  // ---- A purchase ----

  /** The signature is for this purchase, with a nonce that was never used and never signed before. */
  ghost predicate Signable(w: World, row: ActionRow, auth: Authorization) {
    && auth.payer == w.payer && auth.to == row.payTo && auth.value == row.amount
    && !AuthorizationState(w.chain, w.payer, auth.nonce)
    && forall b :: b in w.actions && w.actions[b].auth.Some? ==> w.actions[b].auth.value.nonce != auth.nonce
  }

  /** A refused purchase leaves its refused row. One that raised leaves its row RESERVING, and holds its
      reservation if only the signature was wrong. */
  ghost predicate TurnedDown(w: World, w': World, a: ActionId, row: ActionRow, auth: Authorization, outcome: Outcome)
    requires Inv(w.db)
  {
    match outcome
    case Refused => AmountOk(row.amount) && !Admits(w, row) && w' == Entered(w, a, row.(state := REFUSED))
    case Raised =>
      if Admits(w, row) then !Signable(w, row, auth) && w' == Holding(w, a, row)
      else !AmountOk(row.amount) && w' == Entered(w, a, row)
    case _ => false
  }

  function Signed(row: ActionRow, auth: Authorization): ActionRow {
    row.(state := AUTHORIZED, auth := Some(auth))
  }

  ghost predicate AuthorizedAlone(w: World, w': World, pid: nat, a: ActionId, row: ActionRow, auth: Authorization,
                                  outcome: Outcome)
    requires Inv(w.db)
  {
    if outcome.Admitted? then
      && Admits(w, row) && Signable(w, row, auth)
      && w' == Holding(w, a, Signed(row, auth)).Goto(pid, AtSend(a)) && Healthy(w')
    else TurnedDown(w, w', a, row, auth, outcome)
  }

  lemma TurnedDownAlone(w: World, w1: World, pid: nat, a: ActionId, row: ActionRow, auth: Authorization,
                        outcome: Outcome)
    requires Inv(w.db) && ReservedAlone(w, w1, pid, a, row, outcome) && !outcome.Admitted?
    ensures TurnedDown(w, w1, a, row, auth, outcome)
    ensures AuthorizedAlone(w, w1, pid, a, row, auth, outcome)
  {
    hide Inv;
  }

  lemma SignAlone(w: World, w1: World, pid: nat, a: ActionId, row: ActionRow, auth: Authorization)
    requires Healthy(w) && Inv(w.db) && Enabled(w, Begin(pid, a, row)) && row.kind.X402?
    requires ReservedAlone(w, w1, pid, a, row, Admitted)
    ensures Inv(w1.db) && (Enabled(w1, Sign(pid, auth)) <==> Signable(w, row, auth))
    ensures if Signable(w, row, auth) then
              var w2 := Next(w1, Sign(pid, auth));
              pid in w2.procs && AuthorizedAlone(w, w2, pid, a, row, auth, Admitted)
            else Enabled(w1, Crash(pid)) && AuthorizedAlone(w, Next(w1, Crash(pid)), pid, a, row, auth, Raised)
  {
    hide Healthy, Inv, Step, Admits;
    HealthyIsOrderly(w1);
    FreshNonce(w.actions, a, row, auth.nonce);
    if Signable(w, row, auth) {
      MoveKeepsHealthy(w1, Sign(pid, auth));
      assert w1.procs[pid := AtSend(a)] == w.procs[pid := AtSend(a)];
      assert w1.actions[a := Signed(row, auth)] == w.actions[a := Signed(row, auth)];
    } else {
      assert w1.procs - {pid} == w.procs;
    }
  }

  /** The purchase's own row, which carries no signature yet, takes no nonce. */
  lemma FreshNonce(actions: map<ActionId, ActionRow>, a: ActionId, row: ActionRow, nonce: Nonce)
    requires a !in actions && row.auth.None?
    ensures (forall b :: b in actions && actions[b].auth.Some? ==> actions[b].auth.value.nonce != nonce)
       <==> (var after := actions[a := row];
             forall b :: b in after && after[b].auth.Some? ==> after[b].auth.value.nonce != nonce)
  {
    var after := actions[a := row];
    assert forall b :: b in actions ==> b in after && after[b] == actions[b];
  }

  /** What a leaf looks like. */
  ghost predicate LeafIs(db: Db, row: ActionRow, active: bool, own: int) {
    && row.leaf in db.rows && db.rows[row.leaf].parent == Some(row.delegation)
    && db.rows[row.leaf].authority == row.amount && db.rows[row.leaf].active == active
    && OwnSpend(db.log, row.leaf) == own
  }

  function PaidState(paid: bool, auth: Authorization, now: int): Runtime.State {
    if paid then SETTLED else if now > auth.validBefore then EXPIRED else AUTHORIZED
  }

  /** The signature was sent; the seller may have presented it; and the chain and the clock decided. */
  ghost predicate Delivered(w: World, w': World, a: ActionId, row: ActionRow, auth: Authorization, paid: bool) {
    var final := PaidState(paid, auth, w.now);
    && w' == Entered(w, a, row.(state := final, auth := Some(auth))).(
               db := w'.db, sent := w.sent + {a}, chain := if paid then Transferred(w.chain, auth) else w.chain)
    && LeafIs(w'.db, row, final.AUTHORIZED?, if paid then row.amount else 0)
  }

  /** A whole purchase. `presented`: the seller took the signature to the chain while it was out. */
  ghost predicate PaidAlone(w: World, w': World, a: ActionId, row: ActionRow, auth: Authorization, presented: bool,
                            outcome: Outcome)
    requires Inv(w.db)
  {
    if outcome.Admitted? then
      && Admits(w, row) && Signable(w, row, auth)
      && Delivered(w, w', a, row, auth, presented && Check(w.chain, auth, true, row.payTo, row.amount, w.now).None?)
    else TurnedDown(w, w', a, row, auth, outcome)
  }

  lemma SendAlone(w: World, w1: World, pid: nat, a: ActionId, row: ActionRow, auth: Authorization)
    requires Inv(w.db) && AuthorizedAlone(w, w1, pid, a, row, auth, Admitted)
    ensures Inv(w1.db) && Enabled(w1, Go(pid))
    ensures var w2 := Next(w1, Go(pid));
            && w2 == Holding(w, a, Signed(row, auth)).(sent := w.sent + {a}).Goto(pid, AtReconcile(a)) && Healthy(w2)
            && (Enabled(w2, Transfer(a)) <==> Check(w.chain, auth, true, row.payTo, row.amount, w.now).None?)
  {
    hide Healthy, Inv, Step, Admits, Signable, Check;
    HealthyIsOrderly(w1);
    MoveKeepsHealthy(w1, Go(pid));
    assert w1.procs[pid := AtReconcile(a)] == w.procs[pid := AtReconcile(a)];
  }

  /** A leaf just reserved is active and has spent nothing. */
  lemma HeldLeaf(w: World, w2: World, a: ActionId, row: ActionRow)
    requires Healthy(w2) && Inv(w.db) && a in w2.actions && w2.actions[a].leaf == row.leaf && row.leaf !in w.db.rows
    requires w2.actions[a].delegation == row.delegation && w2.actions[a].amount == row.amount
    requires w2.db == Step(w.db, LeafRequest(row)).0 && Admits(w, row)
    ensures LeafIs(w2.db, row, true, 0)
  {
    hide Billed, Inv, Unrevoked, LeavesApart, NoncesApart, ListedActions, BalanceOk, SentKnown, FinalTells,
         ProcsOk, Step, OwnSpend, Funds, Revoking;
    InvIsShaped(w.db);
    ReserveExactly(w.db, Own(LeafReserve), row.delegation, row.leaf, row.agent, row.amount);
    assert OneOk(SceneOf(w2), a, w2.actions[a]);
    InsertSpends(w.db, row);
  }

  lemma InsertSpends(db: Db, row: ActionRow)
    requires Inv(db) && row.leaf !in db.rows
    ensures Forest(db.rows) && OwnSpend(Step(db, LeafRequest(row)).0.log, row.leaf) == 0
  {
    hide Slots, SettledSpend, OwnSpend, Solvent, Revoking;
    NoSpendYet(db, row.leaf);
    if Decide(db, LeafRequest(row)).Accept? {
      SpendAfter(db.log, Decide(db, LeafRequest(row)).entry, row.leaf);
    }
  }

  lemma LeafRow(w: World, a: ActionId)
    requires Healthy(w) && a in w.actions && w.actions[a].leaf in w.db.rows
    ensures var row := w.actions[a];
            w.db.rows[row.leaf].parent == Some(row.delegation) && w.db.rows[row.leaf].authority == row.amount
  {
    hide Billed, Inv, Unrevoked, LeavesApart, NoncesApart, ListedActions, BalanceOk, SentKnown, FinalTells,
         ProcsOk, OwnSpend;
    assert OneOk(SceneOf(w), a, w.actions[a]);
  }

  /** The seller's part: the transfer goes through if the chain accepts it, and nothing else changes. */
  lemma PresentAlone(w: World, a: ActionId, row: ActionRow, auth: Authorization)
    requires Healthy(w) && a in w.actions && w.actions[a] == Signed(row, auth) && auth.payer == w.payer
    requires Enabled(w, Transfer(a))
    ensures Inv(w.db)
    ensures var w' := Next(w, Transfer(a));
            w' == w.(chain := Transferred(w.chain, auth)) && Healthy(w') && w'.Used(Signed(row, auth))
  {
    hide Healthy, Inv, Step, Enabled;
    HealthyIsOrderly(w);
    MoveKeepsHealthy(w, Transfer(a));
    UsedByTransfer(w.chain, row, auth);
  }

  lemma UsedByTransfer(chain: Chain, row: ActionRow, auth: Authorization)
    ensures NonceSpent(auth.payer, Transferred(chain, auth), Signed(row, auth))
  {
  }

  lemma DeliverAlone(w: World, w2: World, w3: World, pid: nat, a: ActionId, row: ActionRow, auth: Authorization,
                     paid: bool)
    requires Inv(w.db) && Admits(w, row) && Signable(w, row, auth) && pid !in w.procs && row.leaf !in w.db.rows
    requires w2 == Holding(w, a, Signed(row, auth)).(sent := w.sent + {a}).Goto(pid, AtReconcile(a)) && Healthy(w2)
    requires w3 == (if paid then w2.(chain := Transferred(w.chain, auth)) else w2) && Healthy(w3)
    requires w3.Used(Signed(row, auth)) == paid
    ensures Inv(w3.db) && Orderly(w3) && Delivered(w, Alone(w3, pid).world, a, row, auth, paid)
  {
    hide Healthy, Inv, Step, Admits, Signable, OwnSpend, Alone;
    ReconcileAlone(w3, pid, a);
    HeldLeaf(w, w3, a, row);
    var e := Alone(w3, pid);
    var final := PaidState(paid, auth, w.now);
    assert EndOf(w3, a) == final;
    assert w3.procs - {pid} == w.procs;
    assert w3.actions[a := Signed(row, auth).(state := final)]
        == w.actions[a := row.(state := final, auth := Some(auth))];
    LeafRow(e.world, a);
  }

  /** Nobody moves but the seller, who may present the signature once it is out. */
  ghost predicate OnlySeller(env: nat -> seq<Move>, a: ActionId) {
    && (forall i :: i != 4 ==> env(i) == [])
    && (env(4) == [] || env(4) == [Transfer(a)])
  }

  lemma TurnedDownPaid(w: World, w1: World, pid: nat, a: ActionId, row: ActionRow, auth: Authorization,
                       presented: bool, outcome: Outcome)
    requires Inv(w.db) && AuthorizedAlone(w, w1, pid, a, row, auth, outcome) && !outcome.Admitted?
    ensures PaidAlone(w, w1, a, row, auth, presented, outcome)
  {
  }

  lemma PayAlone(w: World, w1: World, w2: World, w3: World, pid: nat, a: ActionId, row: ActionRow,
                 auth: Authorization, presented: bool)
    requires Healthy(w) && Enabled(w, Begin(pid, a, row)) && Inv(w.db)
    requires AuthorizedAlone(w, w1, pid, a, row, auth, Admitted)
    requires Inv(w1.db) && Enabled(w1, Go(pid)) && w2 == Next(w1, Go(pid)) && Inv(w2.db)
    requires w3 == if presented && Enabled(w2, Transfer(a)) then Next(w2, Transfer(a)) else w2
    ensures Inv(w3.db) && Orderly(w3) && pid in w3.procs && Closing(w3.procs[pid])
    ensures PaidAlone(w, Alone(w3, pid).world, a, row, auth, presented, Admitted)
  {
    hide Healthy, Inv, Next, Admits, Check, Alone, Delivered;
    SendAlone(w, w1, pid, a, row, auth);
    var paid := presented && Check(w.chain, auth, true, row.payTo, row.amount, w.now).None?;
    if paid {
      PresentAlone(w2, a, row, auth);
    }
    DeliverAlone(w, w2, w3, pid, a, row, auth, paid);
  }

  // ---- A model call ----

  /** A whole model call: the leaf has spent the provider's bill, cut to the ceiling, and returned the rest. */
  ghost predicate MeteredAlone(w: World, w': World, a: ActionId, row: ActionRow, cost: int, outcome: Outcome)
    requires Inv(w.db)
  {
    match outcome
    case Admitted =>
      && Admits(w, row) && w' == Entered(w, a, row.(state := SETTLED)).(db := w'.db)
      && LeafIs(w'.db, row, false, Max(0, Min(cost, row.amount)))
    case Refused => AmountOk(row.amount) && !Admits(w, row) && w' == Entered(w, a, row.(state := REFUSED))
    case Raised => !AmountOk(row.amount) && w' == Entered(w, a, row)
    case Released => false
  }

  lemma TurnedDownMetered(w: World, w1: World, pid: nat, a: ActionId, row: ActionRow, cost: int, outcome: Outcome)
    requires Inv(w.db) && ReservedAlone(w, w1, pid, a, row, outcome) && !outcome.Admitted?
    ensures MeteredAlone(w, w1, a, row, cost, outcome)
  {
  }

  lemma CallAlone(w: World, w1: World, pid: nat, a: ActionId, row: ActionRow)
    requires Inv(w.db) && ReservedAlone(w, w1, pid, a, row, Admitted) && row.kind.Model? && row.state == RESERVING
    ensures Inv(w1.db) && Enabled(w1, Go(pid))
    ensures var w2 := Next(w1, Go(pid));
            w2 == Holding(w, a, row.(state := CALLING)).Goto(pid, AtCall(a)) && Healthy(w2) && Inv(w2.db)
  {
    hide Healthy, Inv, Step, Admits;
    HealthyIsOrderly(w1);
    MoveKeepsHealthy(w1, Go(pid));
    assert w1.procs[pid := AtCall(a)] == w.procs[pid := AtCall(a)];
    assert w1.actions[a := row.(state := CALLING)] == w.actions[a := row.(state := CALLING)];
    HealthyIsOrderly(Next(w1, Go(pid)));
  }

  lemma BillAlone(w: World, w2: World, pid: nat, a: ActionId, row: ActionRow, cost: int)
    requires Inv(w.db) && Admits(w, row) && pid !in w.procs && row.leaf !in w.db.rows
    requires w2 == Holding(w, a, row.(state := CALLING)).Goto(pid, AtCall(a)) && Healthy(w2) && Inv(w2.db)
    ensures Enabled(w2, Bill(pid, cost))
    ensures var w3 := Next(w2, Bill(pid, cost));
            && Inv(w3.db) && Orderly(w3) && pid in w3.procs && Closing(w3.procs[pid])
            && MeteredAlone(w, Alone(w3, pid).world, a, row, cost, Admitted)
  {
    hide Healthy, Inv, Step, Admits, OwnSpend, Alone;
    MoveKeepsHealthy(w2, Bill(pid, cost));
    var w3 := Next(w2, Bill(pid, cost));
    var charged := Some(Min(cost, row.amount));
    assert w3 == Holding(w, a, row.(state := CALLING)).Goto(pid, Close(a, charged, "completed", SETTLED));
    HeldLeaf(w, w3, a, row);
    CloseAlone(w3, pid, a, charged, "completed", SETTLED);
    var e := Alone(w3, pid);
    assert w3.procs - {pid} == w.procs;
    assert w3.actions[a := row.(state := SETTLED)] == w.actions[a := row.(state := SETTLED)];
    LeafRow(e.world, a);
  }

  lemma MeterAlone(w: World, w1: World, w2: World, pid: nat, a: ActionId, row: ActionRow, cost: int)
    requires Enabled(w, Begin(pid, a, row)) && row.kind.Model? && Inv(w.db)
    requires ReservedAlone(w, w1, pid, a, row, Admitted)
    requires Inv(w1.db) && Enabled(w1, Go(pid)) && w2 == Next(w1, Go(pid))
    ensures pid in w2.procs && Inv(w2.db) && Enabled(w2, Bill(pid, cost))
    ensures var w3 := Next(w2, Bill(pid, cost));
            && Inv(w3.db) && Orderly(w3) && pid in w3.procs && Closing(w3.procs[pid])
            && MeteredAlone(w, Alone(w3, pid).world, a, row, cost, Admitted)
  {
    hide Healthy, Inv, Next, Admits, Alone;
    CallAlone(w, w1, pid, a, row);
    BillAlone(w, w2, pid, a, row, cost);
  }

  // ---- Reconciling all ----

  /** What `reconcile` leaves of an action it visited. */
  ghost predicate EndsAs(w: World, w': World, a: ActionId) {
    && a in w.actions && a in w'.actions
    && w'.actions[a] == w.actions[a].(state := EndOf(w, a))
    && (w'.actions[a].state != w.actions[a].state ==>
          && (w.actions[a].leaf in w'.db.rows ==> !w'.db.rows[w.actions[a].leaf].active)
          && (w'.actions[a].state.SETTLED? ==>
                OwnSpend(w'.db.log, w.actions[a].leaf) == SpentAfter(w, a, w.actions[a].amount)))
  }

  /** What it leaves of one it did not close. */
  ghost predicate LeftAlone(w: World, w': World, a: ActionId) {
    && a in w.actions && a in w'.actions && w'.actions[a] == w.actions[a]
    && ViewOf(w'.db, w.actions[a].leaf) == ViewOf(w.db, w.actions[a].leaf)
  }

  /** `closed` were reconciled, in this order, and nothing else happened. */
  ghost predicate Swept(w: World, w': World, closed: seq<ActionId>) {
    && Healthy(w) && Healthy(w')
    && w' == w.(db := w'.db, actions := w'.actions) && w'.actions.Keys == w.actions.Keys
    && (forall a :: a in closed ==> a in w.actions && !Stuck(w, a) && EndsAs(w, w', a))
    && (forall a :: a in w.actions && a !in closed ==> LeftAlone(w, w', a))
  }

  lemma OpenOnce(w: World)
    requires Healthy(w)
    ensures Once(OpenIds(w.actions, w.listed))
  {
    OpenIdsOnce(w.actions, w.listed);
  }

  lemma {:induction false} OpenIdsOnce(actions: map<ActionId, ActionRow>, listed: seq<ActionId>)
    requires Once(listed)
    ensures Once(OpenIds(actions, listed))
  {
    if listed != [] {
      var front, last := listed[..|listed| - 1], listed[|listed| - 1];
      var rest := OpenIds(actions, front);
      OpenIdsOnce(actions, front);
      OpenIdsExactly(actions, front);
      forall i | 0 <= i < |rest|
        ensures rest[i] != last
      {
        assert rest[i] in rest;
        var k :| 0 <= k < |front| && front[k] == rest[i];
        assert listed[k] == front[k];
      }
    }
  }

  predicate Once(ids: seq<ActionId>) {
    forall i, j :: 0 <= i < j < |ids| ==> ids[i] != ids[j]
  }

  lemma SweptNone(w: World)
    requires Healthy(w)
    ensures Swept(w, w, [])
  {
    hide Healthy;
  }

  /** An action not reconciled yet will end as it would have at first. */
  lemma StillSame(w: World, w': World, a: ActionId)
    requires Healthy(w) && Healthy(w') && LeftAlone(w, w', a)
    requires w' == w.(db := w'.db, actions := w'.actions)
    ensures EndOf(w', a) == EndOf(w, a) && (Stuck(w', a) <==> Stuck(w, a))
    ensures OwnSpend(w'.db.log, w.actions[a].leaf) == OwnSpend(w.db.log, w.actions[a].leaf)
    ensures SpentAfter(w', a, w.actions[a].amount) == SpentAfter(w, a, w.actions[a].amount)
  {
    hide Healthy, Inv, OwnSpend, Orderly, ViewOf;
    HealthyIsOrderly(w);
    HealthyIsOrderly(w');
    SameView(w.db, w'.db, w.actions[a].leaf);
  }

  lemma SameView(db: Db, db': Db, leaf: Id)
    requires Inv(db) && Inv(db') && ViewOf(db', leaf) == ViewOf(db, leaf)
    ensures OwnSpend(db'.log, leaf) == OwnSpend(db.log, leaf) && (leaf in db'.rows <==> leaf in db.rows)
    ensures leaf in db.rows ==> db'.rows[leaf] == db.rows[leaf]
  {
    hide Slots, SettledSpend, OwnSpend, Solvent;
    if leaf !in db.rows {
      NoSpendYet(db, leaf);
      NoSpendYet(db', leaf);
    }
  }

  lemma SweepOne(w: World, w1: World, pid: nat, a: ActionId, closed: seq<ActionId>)
    requires Swept(w, w1, closed) && pid !in w.procs && a in w.actions && a !in closed
    ensures Inv(w1.db) && Enabled(w1, Reconcile(pid, a))
    ensures var w2 := Next(w1, Reconcile(pid, a));
            && Inv(w2.db) && Orderly(w2) && pid in w2.procs && Closing(w2.procs[pid])
            && var e := Alone(w2, pid);
            && e.raised == Stuck(w, a)
            && (if e.raised then e.world == w1 else Swept(w, e.world, closed + [a]))
  {
    hide Healthy, Inv, Orderly, OwnSpend, OnlyTouches, EndsAs, LeftAlone, Stuck, EndOf, SpentAfter;
    HealthyIsOrderly(w1);
    assert LeftAlone(w, w1, a);
    OnFile(w, w1, a);
    assert w1.actions[a].amount == w.actions[a].amount;
    var w2 := Next(w1, Reconcile(pid, a));
    assert w2 == w1.Goto(pid, AtReconcile(a));
    MoveKeepsHealthy(w1, Reconcile(pid, a));
    ReconcileAlone(w2, pid, a);
    StillSame(w, w1, a);
    StartsSame(w1, w2, pid, a);
    var e := Alone(w2, pid);
    assert w2.procs - {pid} == w1.procs;
    if !e.raised {
      SweptOn(w, w1, w2, e, pid, a, closed);
    }
  }

  lemma OnFile(w: World, w1: World, a: ActionId)
    requires LeftAlone(w, w1, a)
    ensures a in w.actions && a in w1.actions && w1.actions[a] == w.actions[a]
  {
  }

  lemma StartsSame(w1: World, w2: World, pid: nat, a: ActionId)
    requires a in w1.actions && w2 == w1.Goto(pid, AtReconcile(a))
    ensures Stuck(w2, a) == Stuck(w1, a) && EndOf(w2, a) == EndOf(w1, a)
    ensures SpentAfter(w2, a, w1.actions[a].amount) == SpentAfter(w1, a, w1.actions[a].amount)
  {
    hide OwnSpend;
  }

  lemma SweptOn(w: World, w1: World, w2: World, e: Ending, pid: nat, a: ActionId, closed: seq<ActionId>)
    requires Swept(w, w1, closed) && pid !in w.procs && a in w.actions && a !in closed && a in w1.actions
    requires w2 == w1.Goto(pid, AtReconcile(a)) && Reconciled(w2, e, pid, a) && !e.raised && Healthy(e.world)
    requires !Stuck(w2, a) && !Stuck(w, a) && EndOf(w2, a) == EndOf(w, a) && LeftAlone(w, w1, a)
    requires SpentAfter(w2, a, w.actions[a].amount) == SpentAfter(w, a, w.actions[a].amount)
    ensures Swept(w, e.world, closed + [a])
  {
    hide Healthy, Inv, Orderly, OwnSpend, Stuck, EndOf, SpentAfter, ViewOf;
    var w' := e.world;
    assert w2.procs - {pid} == w.procs;
    assert w'.actions.Keys == w.actions.Keys;
    assert w'.actions[a] == w.actions[a].(state := EndOf(w, a));
    assert EndsAs(w, w', a);
    forall b | b in closed
      ensures b in w.actions && !Stuck(w, b) && EndsAs(w, w', b)
    {
      assert EndsAs(w, w1, b) && b in w1.actions && b != a;
      EndsStill(w, w1, w', b);
    }
    forall b | b in w.actions && b !in closed + [a]
      ensures LeftAlone(w, w', b)
    {
      assert LeftAlone(w, w1, b);
    }
  }

  lemma EndsStill(w: World, w1: World, w': World, b: ActionId)
    requires EndsAs(w, w1, b) && b in w'.actions && w'.actions[b] == w1.actions[b]
    requires ViewOf(w'.db, w1.actions[b].leaf) == ViewOf(w1.db, w1.actions[b].leaf)
    requires Healthy(w1) && Healthy(w')
    ensures EndsAs(w, w', b)
  {
    hide Healthy, Inv, OwnSpend, Orderly, ViewOf, EndOf, SpentAfter;
    HealthyIsOrderly(w1);
    HealthyIsOrderly(w');
    SameView(w1.db, w'.db, w1.actions[b].leaf);
  }
}
