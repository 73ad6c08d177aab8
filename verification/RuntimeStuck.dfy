/**
  A model call that dies between recording its cost and settling its leaf (examples/agent_economy/
  authority.py:285-293 and 405-410): no reconciliation can close it, and each one that reaches it raises.
 */
module RuntimeStuck {
  import opened Common
  import opened Ledger
  import opened LedgerInvariant
  import opened Runtime
  import opened RuntimeInvariant
  import opened RuntimeSafety
  import opened RuntimeTheorems
  import opened RuntimeBounds
  import opened RuntimeCharges
  import opened RuntimeSteps
  import opened RuntimeAlone

  /** No process is left that knows the call's own cost, or is past recording one. */
  ghost predicate Deserted(w: World, a: ActionId) {
    forall q :: q in w.procs && w.procs[q].a == a ==> Ignorant(w, w.procs[q])
  }

  predicate Ignorant(w: World, pc: Pc) {
    && !pc.AtCall? && !pc.AtSettle? && !pc.AtMark?
    && (pc.AtConsume? && pc.a in w.actions ==> pc.cost == w.actions[pc.a].amount)
  }

  /** The ledger never lets go of the recorded cost. */
  lemma CostStays(w: World, m: Move, a: ActionId)
    requires Healthy(w) && Enabled(w, m) && Stuck(w, a) && Deserted(w, a)
    ensures Inv(w.db)
    ensures OwnSpend(Next(w, m).db.log, w.actions[a].leaf) == OwnSpend(w.db.log, w.actions[a].leaf)
  {
    hide Ok, Inv, Next, Step, Billed, OwnSpend, ViewOf, CostOnce, LeafOk, Unrevoked, NoKids;
    OkIsInv(w);
    LeafAfter(w, m, a);
    if m.Go? && w.procs[m.pid].a == a && w.procs[m.pid].AtConsume? {
      ConsumesWell(w, m.pid);
      InvIsShaped(w.db);
      DbAfter(w, m);
      ConsumeLeaf(w.db, w.actions[a], w.procs[m.pid].cost);
    }
  }

  lemma StaysStuck(w: World, m: Move, a: ActionId)
    requires Healthy(w) && Enabled(w, m) && Stuck(w, a) && Deserted(w, a)
    ensures Inv(w.db) && Stuck(Next(w, m), a)
  {
    hide Ok, Inv, Next, Enabled, Billed, OwnSpend, Deserted;
    CostStays(w, m, a);
    RowAfter(w, m, a);
    NotMarked(w, m, a);
  }

  lemma NotMarked(w: World, m: Move, a: ActionId)
    requires Enabled(w, m) && Deserted(w, a)
    ensures !(m.Go? && w.procs[m.pid] == AtMark(a, SETTLED))
  {
  }

  lemma KnowsCalling(w: World, a: ActionId)
    requires Ok(w) && Stuck(w, a)
    ensures TrackOf(w.actions[a]).Calling? && w.actions[a].amount > 0
  {
    hide Inv, Unrevoked, LeavesApart, NoncesApart, ListedActions, BalanceOk, SentKnown, FinalTells, ProcsOk, OwnSpend;
    assert OneOk(SceneOf(w), a, w.actions[a]);
  }

  /** Nor does anyone learn the call's own cost again. */
  lemma NobodyLearns(w: World, m: Move, a: ActionId, q: nat)
    requires Healthy(w) && Enabled(w, m) && Stuck(w, a) && Deserted(w, a)
    requires Inv(w.db) && q in Next(w, m).procs && Next(w, m).procs[q].a == a
    ensures Ignorant(w, Next(w, m).procs[q])
  {
    hide Inv, Billed, OwnSpend, Step, Unrevoked, LeavesApart, NoncesApart, ListedActions, BalanceOk, SentKnown,
         FinalTells, ActionsOk, ViewOf, LeafOk, CostOnce, Advance;
    KnowsCalling(w, a);
    if !Touches(m, q) {
      ProcStays(w, m, q);
    } else if m.Go? {
      StepStaysIgnorant(w, a, q);
    }
  }

  lemma StepStaysIgnorant(w: World, a: ActionId, q: nat)
    requires Healthy(w) && Enabled(w, Go(q)) && Stuck(w, a) && Deserted(w, a) && TrackOf(w.actions[a]).Calling?
    requires w.actions[a].amount > 0 && Inv(w.db) && q in Next(w, Go(q)).procs && Next(w, Go(q)).procs[q].a == a
    ensures Ignorant(w, Next(w, Go(q)).procs[q])
  {
    hide Inv, Billed, OwnSpend, Step, Unrevoked, LeavesApart, NoncesApart, ListedActions, BalanceOk, SentKnown,
         FinalTells, ActionsOk, LeafOk, CostOnce;
    var pc := w.procs[q];
    assert ProcOk(SceneOf(w), w.actions, pc);
    if pc.AtConsume? && pc.a == a {
      ConsumesWell(w, q);
      InvIsShaped(w.db);
      ConsumeLeaf(w.db, w.actions[a], pc.cost);
    }
  }

  lemma StaysDeserted(w: World, m: Move, a: ActionId)
    requires Healthy(w) && Enabled(w, m) && Stuck(w, a) && Deserted(w, a)
    ensures Inv(w.db) && Deserted(Next(w, m), a)
  {
    hide Ok, Inv, Next, Enabled, Billed, OwnSpend, Stuck, Ignorant, Deserted;
    OkIsInv(w);
    var w' := Next(w, m);
    AmountStays(w, m, a);
    forall q | q in w'.procs && w'.procs[q].a == a
      ensures Ignorant(w', w'.procs[q])
    {
      NobodyLearns(w, m, a, q);
      SameIgnorance(w, w', w'.procs[q]);
    }
    DesertedIs(w', a);
  }

  lemma AmountStays(w: World, m: Move, a: ActionId)
    requires Ok(w) && Enabled(w, m) && Stuck(w, a)
    ensures Inv(w.db) && a in w.actions && a in Next(w, m).actions
    ensures Next(w, m).actions[a].amount == w.actions[a].amount
  {
    hide Ok, Inv, Next, Enabled, OwnSpend;
    OkIsInv(w);
    RowAfter(w, m, a);
  }

  lemma SameIgnorance(w: World, w': World, pc: Pc)
    requires Ignorant(w, pc) && pc.a in w.actions && pc.a in w'.actions
    requires w'.actions[pc.a].amount == w.actions[pc.a].amount
    ensures Ignorant(w', pc)
  {
  }

  lemma DesertedIs(w: World, a: ActionId)
    requires forall q :: q in w.procs && w.procs[q].a == a ==> Ignorant(w, w.procs[q])
    ensures Deserted(w, a)
  {
  }

  lemma {:induction false} StuckInRun(w: World, moves: seq<Move>, a: ActionId)
    requires Healthy(w) && Inv(w.db) && Legal(w, moves) && NoneMissed(w, moves) && Stuck(w, a) && Deserted(w, a)
    ensures Healthy(Play(w, moves)) && Stuck(Play(w, moves), a)
    decreases |moves|
  {
    hide Healthy, Next, Enabled, LateTransferMissed, Inv, Stuck, Deserted;
    if moves != [] {
      NextKeepsInv(w, moves[0]);
      MoveKeepsHealthy(w, moves[0]);
      StaysStuck(w, moves[0], a);
      StaysDeserted(w, moves[0], a);
      StuckInRun(Next(w, moves[0]), moves[1..], a);
    }
  }

  /** From there on, in every prompt run, the call is never settled, its reservation is never released, and
      each reconciliation left to itself raises when it reaches it, and changes nothing. */
  lemma NeverClosed(w: World, moves: seq<Move>, a: ActionId, pid: nat)
    requires Healthy(w) && Inv(w.db) && ClocksSafe(w, None) && Legal(w, moves) && Prompt(w, moves)
    requires Stuck(w, a) && Deserted(w, a)
    ensures var w' := Play(w, moves);
            && Stuck(w', a) && Healthy(w')
            && (pid in w'.procs && w'.procs[pid] == AtReconcile(a) ==>
                  Orderly(w') && Alone(w', pid) == Ending(w'.End(pid), true))
  {
    hide Ok, Inv, Legal, Prompt, Play, ClocksSafe, NoneMissed, Billed, Stuck, Deserted, Orderly, Alone;
    PromptMissesNone(w, moves, None);
    StuckInRun(w, moves, a);
    var w' := Play(w, moves);
    if pid in w'.procs && w'.procs[pid] == AtReconcile(a) {
      ReconcileAlone(w', pid, a);
    }
  }

  /** Billed below its ceiling, about to record the cost. */
  lemma BilledLow(w: World, w2: World, pid: nat, a: ActionId, row: ActionRow, cost: int)
    requires Inv(w.db) && Admits(w, row) && 0 < cost < row.amount && row.leaf !in w.db.rows
    requires w2 == Holding(w, a, row.(state := CALLING)).Goto(pid, AtCall(a)) && Healthy(w2) && Inv(w2.db)
    ensures Enabled(w2, Bill(pid, cost))
    ensures var w3 := Next(w2, Bill(pid, cost));
            && w3 == Holding(w, a, row.(state := CALLING)).Goto(pid, AtConsume(a, cost, "completed", SETTLED))
            && Healthy(w3) && LeafIs(w3.db, row.(state := CALLING), true, 0)
  {
    hide Healthy, Inv, Step, Admits, OwnSpend;
    MoveKeepsHealthy(w2, Bill(pid, cost));
    var w3 := Next(w2, Bill(pid, cost));
    assert w2.procs[pid := AtConsume(a, cost, "completed", SETTLED)]
        == w.procs[pid := AtConsume(a, cost, "completed", SETTLED)];
    HeldLeaf(w, w3, a, row);
  }

  /** The cost is recorded, and the process dies. */
  lemma DiesNow(w3: World, pid: nat, a: ActionId, cost: int)
    requires Healthy(w3) && pid in w3.procs && w3.procs[pid] == AtConsume(a, cost, "completed", SETTLED)
    requires a in w3.actions && w3.actions[a].state == CALLING && cost < w3.actions[a].amount
    requires LeafIs(w3.db, w3.actions[a], true, 0)
    requires forall q :: q in w3.procs && q != pid ==> w3.procs[q].a != a
    ensures Inv(w3.db) && Enabled(w3, Go(pid))
    ensures var w4 := Next(w3, Go(pid));
            && Inv(w4.db) && Enabled(w4, Crash(pid))
            && var w5 := Next(w4, Crash(pid));
            Healthy(w5) && Stuck(w5, a) && Deserted(w5, a)
  {
    hide Ok, Inv, Step, Billed, OwnSpend, ViewOf, CostOnce, LeafOk, Unrevoked;
    HealthyIsOrderly(w3);
    ConsumesWell(w3, pid);
    InvIsShaped(w3.db);
    ConsumeLeaf(w3.db, w3.actions[a], cost);
    hide Healthy;
    MoveKeepsHealthy(w3, Go(pid));
    HealthyIsOrderly(Next(w3, Go(pid)));
    MoveKeepsHealthy(Next(w3, Go(pid)), Crash(pid));
  }

  /** Such a death: the call is admitted and billed below its ceiling, the cost is recorded, and the process
      dies before it settles the leaf. */
  lemma DiesInBetween(w: World, pid: nat, a: ActionId, row: ActionRow, cost: int)
    requires Healthy(w) && Inv(w.db) && Enabled(w, Begin(pid, a, row)) && row.kind.Model?
    requires Admits(w, row) && 0 < cost < row.amount
    ensures var moves := [Begin(pid, a, row), Go(pid)] + [Go(pid), Bill(pid, cost)] + [Go(pid), Crash(pid)];
            Legal(w, moves) && Healthy(Play(w, moves)) && Stuck(Play(w, moves), a) && Deserted(Play(w, moves), a)
  {
    hide Healthy, Inv, Step, Admits, OwnSpend, Stuck, Deserted, LeafIs, Legal, Play, Holding;
    BeginAlone(w, pid, a, row);
    var w1 := Next(w, Begin(pid, a, row));
    var w2 := Next(w1, Go(pid));
    CallAlone(w, w2, pid, a, row);
    var w3 := Next(w2, Go(pid));
    BilledLow(w, w3, pid, a, row, cost);
    var w4 := Next(w3, Bill(pid, cost));
    HeldProcs(w, w4, pid, a, row);
    DiesNow(w4, pid, a, cost);
    var w5 := Next(w4, Go(pid));
    var w6 := Next(w5, Crash(pid));
    hide Next, Enabled;
    LeadsTwo(w, Begin(pid, a, row), w1, Go(pid), w2);
    LeadsTwo(w2, Go(pid), w3, Bill(pid, cost), w4);
    LeadsTwo(w4, Go(pid), w5, Crash(pid), w6);
    LeadsOn(w, [Begin(pid, a, row), Go(pid)], w2, [Go(pid), Bill(pid, cost)], w4);
    LeadsOn(w, [Begin(pid, a, row), Go(pid)] + [Go(pid), Bill(pid, cost)], w4, [Go(pid), Crash(pid)], w6);
  }

  lemma HeldProcs(w: World, w4: World, pid: nat, a: ActionId, row: ActionRow)
    requires Healthy(w) && Inv(w.db) && a !in w.actions && pid in w4.procs
    requires w4 == Holding(w, a, row.(state := CALLING)).Goto(pid, w4.procs[pid])
    ensures a in w4.actions && w4.actions[a] == row.(state := CALLING)
    ensures forall q :: q in w4.procs && q != pid ==> w4.procs[q].a != a
  {
    HealthyIsOrderly(w);
    hide Healthy, Inv, Step;
  }

  lemma LeadsTwo(w: World, m: Move, w1: World, n: Move, w2: World)
    requires Inv(w.db) && Enabled(w, m) && Next(w, m) == w1 && Inv(w1.db) && Enabled(w1, n) && Next(w1, n) == w2
    ensures Leads(w, [m, n], w2)
  {
    hide Inv, Next, Enabled, Leads;
    LeadsOne(w, m, w1);
    LeadsOne(w1, n, w2);
    LeadsOn(w, [m], w1, [n], w2);
    assert [m] + [n] == [m, n];
  }
}
