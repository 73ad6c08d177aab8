/** Runs of the runtime, and what backs the money that can leave the payer's account. */
module RuntimeTheorems {
  import opened Common
  import opened Ledger
  import opened LedgerInvariant
  import opened LedgerTheorems
  import opened LedgerRuns
  import opened UsdcChain
  import opened Runtime
  import opened RuntimeInvariant
  import opened RuntimeSafety

  // ---- Runs ----

  /** The one request to the ledger a move makes, if any. */
  ghost function RequestOf(w: World, m: Move): Option<Op>
    requires Enabled(w, m)
  {
    match m
    case OpenWork(root, agent, budget) => Some(CreateRoot(Own(Stage.Open), root, agent, budget))
    case DelegateTo(parent, child, agent, maximum) =>
      Some(Reserve(Own(Delegate), parent, child, agent, maximum))
    case FinishOf(d) => Some(Settle(Own(Finish), d, "finished"))
    case Go(pid) =>
      var row := w.actions[w.procs[pid].a];
      (match w.procs[pid]
       case AtReserve(_) => Some(Reserve(Own(LeafReserve), row.delegation, row.leaf, row.agent, row.amount))
       case AtConsume(_, cost, _, _) => Some(Consume(Own(LeafConsume), row.leaf, Some(cost)))
       case AtSettle(_, outcome, _) => Some(Settle(Own(LeafSettle), row.leaf, outcome))
       case _ => None)
    case _ => None
  }

  lemma DbAfter(w: World, m: Move)
    requires Inv(w.db) && Enabled(w, m)
    ensures Next(w, m).db == match RequestOf(w, m)
                             case None => w.db
                             case Some(op) => Step(w.db, op).0
  {
    hide Inv, Step;
    InvIsShaped(w.db);
  }

  lemma NextKeepsInv(w: World, m: Move)
    requires Inv(w.db) && Enabled(w, m)
    ensures Inv(Next(w, m).db)
  {
    hide Inv, Step, Next, Enabled;
    DbAfter(w, m);
    if RequestOf(w, m).Some? {
      StepKeepsInv(w.db, RequestOf(w, m).value);
    }
  }

  /** Each move can happen where the ones before it lead. */
  ghost predicate Legal(w: World, moves: seq<Move>)
    requires Inv(w.db)
    decreases |moves|
  {
    moves != [] ==>
      Enabled(w, moves[0]) && (NextKeepsInv(w, moves[0]); Legal(Next(w, moves[0]), moves[1..]))
  }

  ghost function Play(w: World, moves: seq<Move>): (w': World)
    requires Inv(w.db) && Legal(w, moves)
    ensures Inv(w'.db)
    decreases |moves|
  {
    if moves == [] then w
    else
      NextKeepsInv(w, moves[0]);
      Play(Next(w, moves[0]), moves[1..])
  }

  /** No reconciliation of the run finds the window closed on a payment it had just seen unused, but
      that went through in between. */
  ghost predicate NoneMissed(w: World, moves: seq<Move>)
    requires Inv(w.db) && Legal(w, moves)
    decreases |moves|
  {
    moves != [] ==>
      !LateTransferMissed(w, moves[0])
      && (NextKeepsInv(w, moves[0]); NoneMissed(Next(w, moves[0]), moves[1..]))
  }

  /** Nothing opened, nothing signed. */
  function Start(payer: Account, now: int): (w: World)
    ensures Inv(w.db)
  {
    EmptyInv();
    World(payer, EMPTY, map[], [], map[], {}, Chain(map[], map[]), 0, now)
  }

  lemma StartOk(payer: Account, now: int)
    ensures Ok(Start(payer, now))
  {
  }

  lemma {:induction false} PlayKeepsOk(w: World, moves: seq<Move>)
    requires Ok(w) && Legal(w, moves) && NoneMissed(w, moves)
    ensures Ok(Play(w, moves))
    decreases |moves|
  {
    hide Next, Enabled, LateTransferMissed, Inv, Unrevoked, LeavesApart, NoncesApart, ListedActions, ActionsOk,
         ProcsOk, BalanceOk, SentKnown;
    if moves != [] {
      NextKeepsInv(w, moves[0]);
      MoveKeepsOk(w, moves[0]);
      PlayKeepsOk(Next(w, moves[0]), moves[1..]);
    }
  }

  /** `moves` can be played from `w` and end in `w'`. */
  ghost predicate Leads(w: World, moves: seq<Move>, w': World) {
    Inv(w.db) && Legal(w, moves) && Play(w, moves) == w'
  }

  lemma LeadsOne(w: World, m: Move, w': World)
    requires Inv(w.db) && Enabled(w, m) && Next(w, m) == w'
    ensures Leads(w, [m], w')
  {
    hide Inv, Next, Enabled;
    NextKeepsInv(w, m);
    var moves := [m];
    assert moves[0] == m && moves[1..] == [];
    assert Legal(w', []) && Play(w', []) == w';
    assert Legal(w, moves);
  }

  lemma {:induction false} LeadsOn(w: World, ms: seq<Move>, w1: World, ns: seq<Move>, w2: World)
    requires Leads(w, ms, w1) && Leads(w1, ns, w2)
    ensures Leads(w, ms + ns, w2)
    decreases |ms|
  {
    hide Inv, Next, Enabled;
    if ms == [] {
      assert ms + ns == ns;
    } else {
      NextKeepsInv(w, ms[0]);
      assert (ms + ns)[1..] == ms[1..] + ns;
      LeadsOn(Next(w, ms[0]), ms[1..], w1, ns, w2);
    }
  }

  // ---- A work's budget never moves ----

  lemma BudgetStays(db: Db, op: Op, r: Id)
    requires Inv(db) && r in db.rows && !op.DoGrant?
    ensures r in Step(db, op).0.rows
    ensures Step(db, op).0.rows[r].authority == db.rows[r].authority
    ensures Step(db, op).0.rows[r].parent == db.rows[r].parent
  {
    hide Slots, SettledSpend, OwnSpend, Revoking, ActiveBelow, Solvent, Record;
    StepIsLater(db, op);
    if !op.Mark? && Decide(db, op).Accept? {
      AcceptedApplies(db, op);
      AcceptedKind(db, op);
      AuthorityAfter(db, Decide(db, op).entry, r);
    }
  }

  lemma AcceptedKind(db: Db, op: Op)
    requires Forest(db.rows) && !op.Mark? && Decide(db, op).Accept?
    ensures Decide(db, op).entry.fact.Grant? <==> op.DoGrant?
  {
  }

  lemma {:induction false} PlayKeepsBudget(w: World, moves: seq<Move>, r: Id)
    requires Inv(w.db) && Legal(w, moves) && r in w.db.rows
    ensures var w' := Play(w, moves);
            r in w'.db.rows && w'.db.rows[r].authority == w.db.rows[r].authority
            && w'.db.rows[r].parent == w.db.rows[r].parent
    decreases |moves|
  {
    hide Inv, Next, Enabled, Step;
    if moves != [] {
      NextKeepsInv(w, moves[0]);
      DbAfter(w, moves[0]);
      if RequestOf(w, moves[0]).Some? {
        BudgetStays(w.db, RequestOf(w, moves[0]).value, r);
      }
      PlayKeepsBudget(Next(w, moves[0]), moves[1..], r);
    }
  }

  // ---- Outflow ----

  /** What action `a` may cost the work of `r`: a payment that moved, or that its sent signature can
      still move, and the model cost the ledger consumed. */
  ghost function OutflowOf(w: World, r: Id, a: ActionId): int
    requires Forest(w.db.rows)
  {
    if a !in w.actions || !Under(w.db.rows, w.actions[a].delegation, r) then 0
    else
      var row := w.actions[a];
      if row.kind.Model? then OwnSpend(w.db.log, row.leaf)
      else if w.Used(row) then w.chain.used[(w.payer, row.auth.value.nonce)]
      else if a in w.sent && row.auth.Some? && w.now < row.auth.value.validBefore then row.auth.value.value
      else 0
  }

  ghost function Outflow(w: World, r: Id): int
    requires Forest(w.db.rows)
  {
    Sum(w.listed, a => OutflowOf(w, r, a))
  }

  function LeafOf(w: World, other: Id, a: ActionId): Id {
    if a in w.actions then w.actions[a].leaf else other
  }

  ghost function WeightUnder(w: World, r: Id, x: Id): int
    requires Forest(w.db.rows)
  {
    if Under(w.db.rows, x, r) then Weight(w.db, x) else 0
  }

  /** What an action can cost is covered by what its leaf has spent or still holds. */
  lemma ActionIsCovered(w: World, r: Id, a: ActionId)
    requires Ok(w) && a in w.actions && OutflowOf(w, r, a) > 0
    ensures w.actions[a].leaf in w.db.rows
    ensures OutflowOf(w, r, a) <= WeightUnder(w, r, w.actions[a].leaf)
  {
    hide Slots, SettledSpend, OwnSpend, Under, Unrevoked, LeavesApart, NoncesApart, ListedActions, BalanceOk,
         SentKnown, ProcsOk;
    var row := w.actions[a];
    assert OneOk(SceneOf(w), a, row);
    if row.leaf !in w.db.rows {
      NoSpendYet(w.db, row.leaf);
    }
    UnderStep(w.db.rows, row.leaf, r);
  }

  lemma OutflowIsBacked(w: World, r: Id)
    requires Ok(w) && r in w.db.rows
    ensures Outflow(w, r) <= Hold(w.db.rows[r]) <= w.db.rows[r].authority
  {
    SubtreeConservation(w.db, r);
    BackedBySubtree(w, r);
    hide Slots, SettledSpend, OwnSpend, Under, Unrevoked, LeavesApart, NoncesApart, ListedActions, BalanceOk,
         SentKnown, ProcsOk, ActionsOk, Outflow, SubtreeTotal;
  }

  lemma WeightsNonNegative(db: Db)
    requires Inv(db)
    ensures forall x :: Weight(db, x) >= 0
  {
    hide Slots, SettledSpend, OwnSpend;
    forall x
      ensures Weight(db, x) >= 0
    {
      SpendNonNegative(db, x);
    }
  }

  lemma BackedBySubtree(w: World, r: Id)
    requires Ok(w) && r in w.db.rows
    ensures Outflow(w, r) <= SubtreeTotal(w.db, r)
  {
    hide Slots, SettledSpend, OwnSpend, Under, Unrevoked, NoncesApart, BalanceOk, SentKnown, ProcsOk, ActionsOk,
         OutflowOf, Weight, Solvent;
    WeightsNonNegative(w.db);
    forall i | 0 <= i < |w.listed|
      ensures OutflowOf(w, r, w.listed[i]) <= 0
              || (LeafOf(w, r, w.listed[i]) in w.db.order
                  && OutflowOf(w, r, w.listed[i]) <= WeightUnder(w, r, LeafOf(w, r, w.listed[i])))
    {
      assert w.listed[i] in w.listed;
      if OutflowOf(w, r, w.listed[i]) > 0 {
        ActionIsCovered(w, r, w.listed[i]);
        assert w.db.order[w.db.rows[LeafOf(w, r, w.listed[i])].rowid] == LeafOf(w, r, w.listed[i]);
      }
    }
    ListedLeavesApart(w, r);
    SumInjected(w.listed, w.db.order, a => LeafOf(w, r, a), a => OutflowOf(w, r, a), x => WeightUnder(w, r, x));
    SumAgree(w.db.order, x => WeightUnder(w, r, x), x => if Under(w.db.rows, x, r) then Weight(w.db, x) else 0);
  }

  lemma ListedLeavesApart(w: World, r: Id)
    requires LeavesApart(w.db, w.actions) && ListedActions(w.actions, w.listed)
    ensures forall i, j :: 0 <= i < j < |w.listed| ==>
              w.listed[i] != w.listed[j] && LeafOf(w, r, w.listed[i]) != LeafOf(w, r, w.listed[j])
  {
  }

  /** In any run that misses no late transfer, the outflow of a delegation's tree stays within the
      authority the delegation had. */
  lemma OutflowWithoutMiss(w: World, moves: seq<Move>, r: Id)
    requires Ok(w) && Legal(w, moves) && NoneMissed(w, moves) && r in w.db.rows
    ensures Outflow(Play(w, moves), r) <= w.db.rows[r].authority
  {
    hide Outflow, Inv, Legal, NoneMissed, Unrevoked, LeavesApart, NoncesApart, ListedActions, ActionsOk, ProcsOk,
         BalanceOk, SentKnown;
    PlayKeepsOk(w, moves);
    PlayKeepsBudget(w, moves, r);
    OutflowIsBacked(Play(w, moves), r);
  }

  lemma MovedIsOutflow(w: World, r: Id)
    requires Ok(w)
    requires forall a :: a in w.actions && w.Used(w.actions[a]) ==> Under(w.db.rows, w.actions[a].delegation, r)
    ensures TotalMoved(w.payer, w.chain, w.actions, w.listed) <= Outflow(w, r)
  {
    hide Slots, SettledSpend, OwnSpend, Under, Unrevoked, NoncesApart, BalanceOk, SentKnown, ProcsOk, LeavesApart;
    forall i | 0 <= i < |w.listed|
      ensures Moved(w.payer, w.chain, w.actions, w.listed[i]) <= OutflowOf(w, r, w.listed[i])
    {
      var a := w.listed[i];
      assert a in w.listed && OneOk(SceneOf(w), a, w.actions[a]);
      SpendNonNegative(w.db, w.actions[a].leaf);
    }
    SumBounded(w.listed, a => Moved(w.payer, w.chain, w.actions, a), a => OutflowOf(w, r, a));
  }
}
