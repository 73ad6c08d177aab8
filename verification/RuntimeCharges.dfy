/**
  What the runtime charges: a model call is settled at the provider's bill cut to the ceiling, or at the
  ceiling itself if a reconcile closed it (examples/agent_economy/authority.py:285-322 and 405-410), and the
  ledger records each leaf's cost and outcome once.
 */
module RuntimeCharges {
  import opened Common
  import opened Ledger
  import opened LedgerInvariant
  import opened LedgerTheorems
  import opened UsdcChain
  import opened Runtime
  import opened RuntimeInvariant
  import opened RuntimeSafety
  import opened RuntimeTheorems
  import opened RuntimeBounds

  type Charge = (ActionId, int)

  /** What a move decides to charge a model call: the bill, never above the reserved ceiling, or the whole
      ceiling when a reconcile finds the call outstanding. */
  function ChargeOf(w: World, m: Move): set<Charge>
    requires Enabled(w, m)
  {
    match m
    case Bill(pid, cost) =>
      var a := w.procs[pid].a;
      {(a, Max(0, Min(cost, w.actions[a].amount)))}
    case Go(pid) =>
      var a := w.procs[pid].a;
      if w.procs[pid].AtReconcile? && w.actions[a].state.CALLING? then {(a, w.actions[a].amount)} else {}
    case _ => {}
  }

  /** All that was decided in a run. */
  ghost function Charges(w: World, moves: seq<Move>): set<Charge>
    requires Inv(w.db) && Legal(w, moves)
    decreases |moves|
  {
    if moves == [] then {}
    else
      NextKeepsInv(w, moves[0]);
      ChargeOf(w, moves[0]) + Charges(Next(w, moves[0]), moves[1..])
  }

  // ---- A leaf's own events ----

  /** At most one cost is on record under the leaf's own key, and it is all the leaf spent. */
  ghost predicate CostOnce(log: seq<Entry>, leaf: Id) {
    var own := OwnSpend(log, leaf);
    && (forall fact :: Entry(leaf, Own(LeafConsume), fact) in log ==>
          own != 0 && fact == Consumption(Some(own)))
    && (own != 0 ==> Entry(leaf, Own(LeafConsume), Consumption(Some(own))) in log)
  }

  /** The payment's window is over for good. */
  predicate Over(row: ActionRow, used: bool, now: int) {
    row.auth.Some? && !used && now > row.auth.value.validBefore
  }

  /** What closing with this outcome says about the action. */
  predicate Says(outcome: string, row: ActionRow, used: bool, now: int) {
    match TrackOf(row)
    case Dropped => outcome == "abandoned"
    case Calling => outcome == "completed"
    case Paying => (outcome == "settled" && used) || (outcome == "expired" && Over(row, used, now))
    case _ => false
  }

  ghost predicate OutcomeSays(log: seq<Entry>, row: ActionRow, used: bool, now: int) {
    forall fact :: Entry(row.leaf, Own(LeafSettle), fact) in log ==>
      fact.Settlement? && Says(fact.outcome, row, used, now)
  }

  // ---- The invariant ----

  predicate Inactive(rows: map<Id, Row>, leaf: Id) {
    leaf in rows && !rows[leaf].active
  }

  ghost predicate ActionBilled(s: Scene, a: ActionId, row: ActionRow, charges: set<Charge>) {
    var own := OwnSpend(s.db.log, row.leaf);
    && CostOnce(s.db.log, row.leaf)
    && OutcomeSays(s.db.log, row, NonceSpent(s.payer, s.chain, row), s.now)
    && (row.leaf in s.db.rows ==> AmountOk(row.amount))
    && (TrackOf(row).Calling? ==>
          && (own == 0 || (a, own) in charges)
          && (Inactive(s.db.rows, row.leaf) || row.state.SETTLED? ==> (a, own) in charges))
  }

  ghost predicate PcBilled(s: Scene, row: ActionRow, pc: Pc, charges: set<Charge>) {
    && (pc.AtConsume? || pc.AtSettle? ==> Says(pc.outcome, row, NonceSpent(s.payer, s.chain, row), s.now))
    && (TrackOf(row).Calling? ==>
          && (pc.AtConsume? ==> (pc.a, pc.cost) in charges)
          && (pc.AtSettle? || pc.AtMark? ==> (pc.a, OwnSpend(s.db.log, row.leaf)) in charges))
  }

  ghost predicate Billed(w: World, charges: set<Charge>) {
    && (forall a :: a in w.actions ==> ActionBilled(SceneOf(w), a, w.actions[a], charges))
    && (forall p :: p in w.procs && w.procs[p].a in w.actions ==>
          PcBilled(SceneOf(w), w.actions[w.procs[p].a], w.procs[p], charges))
  }

  // ---- What a request does to a leaf's own events ----

  /** Nothing was spent, nothing was settled, and no cost or outcome was recorded. */
  ghost predicate LeafKept(db: Db, db': Db, leaf: Id) {
    && OwnSpend(db'.log, leaf) == OwnSpend(db.log, leaf)
    && (forall fact ::
          Entry(leaf, Own(LeafConsume), fact) in db'.log <==> Entry(leaf, Own(LeafConsume), fact) in db.log)
    && (forall fact ::
          Entry(leaf, Own(LeafSettle), fact) in db'.log <==> Entry(leaf, Own(LeafSettle), fact) in db.log)
    && (Inactive(db'.rows, leaf) ==> Inactive(db.rows, leaf))
  }

  lemma KeptByOthers(db: Db, op: Op, leaf: Id)
    requires Inv(db) && !op.Mark? && op.id != leaf && NoKids(db, leaf) && (op.Reserve? ==> op.parent != leaf)
    ensures LeafKept(db, Step(db, op).0, leaf)
    ensures leaf in Step(db, op).0.rows <==> leaf in db.rows
  {
    hide Slots, SettledSpend, OwnSpend, Revoking, ActiveBelow, Solvent, Record, NoKids;
    OtherRequest(db, op, leaf);
    if Decide(db, op).Accept? {
      AcceptedApplies(db, op);
      AcceptedShape(db, op);
      hide Decide;
      OtherRecord(db, Decide(db, op).entry, leaf);
      SpendAfter(db.log, Decide(db, op).entry, leaf);
    }
  }

  lemma KeptByReserve(db: Db, row: ActionRow)
    requires Inv(db) && row.leaf !in db.rows && row.delegation != row.leaf
    ensures var op := Reserve(Own(LeafReserve), row.delegation, row.leaf, row.agent, row.amount);
            LeafKept(db, Step(db, op).0, row.leaf) && (row.leaf in Step(db, op).0.rows ==> AmountOk(row.amount))
  {
    hide Slots, SettledSpend, OwnSpend, Revoking, ActiveBelow, Solvent;
    var op := Reserve(Own(LeafReserve), row.delegation, row.leaf, row.agent, row.amount);
    if Decide(db, op).Accept? {
      SpendAfter(db.log, Decide(db, op).entry, row.leaf);
    }
  }

  lemma ConsumeCharges(db: Db, row: ActionRow, cost: int)
    requires Inv(db) && Unrevoked(db) && row.leaf in db.rows && CostOnce(db.log, row.leaf)
    requires LeafOk(row, ViewOf(db, row.leaf)) && 0 < cost <= row.amount
    ensures var (db', reply) := Step(db, Consume(Own(LeafConsume), row.leaf, Some(cost)));
            var own, own' := OwnSpend(db.log, row.leaf), OwnSpend(db'.log, row.leaf);
            && CostOnce(db'.log, row.leaf)
            && (own' == own || own' == cost)
            && (forall fact :: Entry(row.leaf, Own(LeafSettle), fact) in db'.log
                               <==> Entry(row.leaf, Own(LeafSettle), fact) in db.log)
            && row.leaf in db'.rows && db'.rows[row.leaf].active == db.rows[row.leaf].active
            && (reply.Conflict? <==> AmountOk(cost) && own != 0 && own != cost)
            && (!reply.Conflict? && !reply.Invalid? ==>
                  own' == cost || (own' == own && !db.rows[row.leaf].active))
            && (db.rows[row.leaf].active && AmountOk(cost) && !reply.Conflict? ==> own' == cost)
  {
    hide Slots, SettledSpend, OwnSpend, Revoking, ActiveBelow, Solvent, Step;
    var op := Consume(Own(LeafConsume), row.leaf, Some(cost));
    var entry := Requested(op);
    SpendAfter(db.log, entry, row.leaf);
    ConsumeAnswer(db, row, cost);
  }

  /** The request is accepted when nothing is on record, and is known when this cost is. */
  lemma ConsumeAnswer(db: Db, row: ActionRow, cost: int)
    requires Inv(db) && Unrevoked(db) && row.leaf in db.rows && CostOnce(db.log, row.leaf)
    requires LeafOk(row, ViewOf(db, row.leaf)) && 0 < cost <= row.amount
    ensures var op := Consume(Own(LeafConsume), row.leaf, Some(cost));
            var own := OwnSpend(db.log, row.leaf);
            Step(db, op) ==
            if !AmountOk(cost) then (db, Invalid)
            else if own == cost then (db, Known)
            else if own != 0 then (db, Conflict)
            else if db.rows[row.leaf].active then (Record(db, Requested(op)), Done)
            else (db, Refused)
  {
    hide Slots, SettledSpend, OwnSpend, Revoking, ActiveBelow, Solvent, Record;
    var op := Consume(Own(LeafConsume), row.leaf, Some(cost));
    NeverRevoking(db, row.leaf);
    RecordedAs(db.log, row.leaf, Own(LeafConsume));
    if Requested(op) in db.log {
      assert Recorded(db.log, row.leaf, Own(LeafConsume));
    }
  }

  lemma RecordedAs(log: seq<Entry>, d: Id, e: EventId)
    ensures Recorded(log, d, e) <==> exists fact :: Entry(d, e, fact) in log
  {
    if Recorded(log, d, e) {
      var i :| 0 <= i < |log| && log[i].delegation == d && log[i].event == e;
      assert Entry(d, e, log[i].fact) == log[i];
    }
  }

  /** The leaf is settled when it is active, and the request is known when this outcome is on record. */
  lemma SettleAnswer(db: Db, leaf: Id, outcome: string)
    requires Inv(db) && NoKids(db, leaf)
    ensures Forest(db.rows)
    ensures var op := Settle(Own(LeafSettle), leaf, outcome);
            Step(db, op) ==
            if leaf !in db.rows then (db, Refused)
            else if Requested(op) in db.log then (db, Known)
            else if Recorded(db.log, leaf, Own(LeafSettle)) then (db, Conflict)
            else if db.rows[leaf].active then (Record(db, Requested(op)), Done)
            else (db, Refused)
  {
    hide Slots, SettledSpend, OwnSpend, Revoking, Solvent, Record;
    RecordedAs(db.log, leaf, Own(LeafSettle));
    forall x | x in db.rows && Under(db.rows, x, leaf)
      ensures x == leaf
    {
      NothingUnder(db, leaf, x);
    }
  }

  lemma {:induction false} NothingUnder(db: Db, leaf: Id, x: Id)
    requires Forest(db.rows) && NoKids(db, leaf) && x in db.rows && Under(db.rows, x, leaf)
    ensures x == leaf
    decreases db.rows[x].rowid
  {
    assert !ChildOf(db.rows, x, leaf);
    if db.rows[x].parent.Some? && x != leaf {
      NothingUnder(db, leaf, Parent(db.rows, x));
    }
  }

  lemma SettleCharges(db: Db, leaf: Id, outcome: string)
    requires Inv(db) && NoKids(db, leaf)
    ensures Forest(db.rows)
    ensures var db' := Step(db, Settle(Own(LeafSettle), leaf, outcome)).0;
            && OwnSpend(db'.log, leaf) == OwnSpend(db.log, leaf) && (leaf in db'.rows <==> leaf in db.rows)
            && (forall fact :: Entry(leaf, Own(LeafConsume), fact) in db'.log
                               <==> Entry(leaf, Own(LeafConsume), fact) in db.log)
            && (forall fact :: Entry(leaf, Own(LeafSettle), fact) in db'.log ==>
                  Entry(leaf, Own(LeafSettle), fact) in db.log || fact == Settlement(outcome))
  {
    hide Slots, SettledSpend, OwnSpend, Revoking, ActiveBelow, Solvent, Step, NoKids;
    SettleAnswer(db, leaf, outcome);
    SpendAfter(db.log, Requested(Settle(Own(LeafSettle), leaf, outcome)), leaf);
  }

  // ---- What a move does to one action ----

  /** Only its own close touches what a leaf spent or how it ended. */
  lemma LeafAfter(w: World, m: Move, b: ActionId)
    requires Ok(w) && Enabled(w, m) && b in w.actions
    ensures LeafKept(w.db, Next(w, m).db, w.actions[b].leaf)
            || (m.Go? && w.procs[m.pid].a == b && (w.procs[m.pid].AtConsume? || w.procs[m.pid].AtSettle?))
    ensures w.actions[b].leaf in Next(w, m).db.rows ==>
              w.actions[b].leaf in w.db.rows || AmountOk(w.actions[b].amount)
  {
    hide Inv, Next, NoKids, LeafKept, ActionOk, Unrevoked, NoncesApart, ListedActions, BalanceOk, SentKnown, ViewOf,
         Step;
    var leaf := w.actions[b].leaf;
    LeafHasNoKids(w, b);
    InvIsShaped(w.db);
    DbAfter(w, m);
    if RequestOf(w, m).None? {
      KeptItself(w.db, leaf);
    } else {
      var op := RequestOf(w, m).value;
      if op.id != leaf {
        NotTheParent(w, m, b);
        KeptByOthers(w.db, op, leaf);
      } else {
        OwnRequestOnly(w, m, b);
        if w.procs[m.pid].AtReserve? {
          NotReservedYet(w, m.pid);
          KeptByReserve(w.db, w.actions[b]);
        } else {
          CloseKeepsLeaf(w, m.pid);
        }
      }
    }
  }

  lemma CloseKeepsLeaf(w: World, pid: nat)
    requires Ok(w) && Enabled(w, Go(pid)) && (w.procs[pid].AtConsume? || w.procs[pid].AtSettle?)
    ensures Next(w, Go(pid)).db.rows.Keys == w.db.rows.Keys
  {
    hide Ok, Inv, Next, Enabled, Step;
    OkIsInv(w);
    InvIsShaped(w.db);
    DbAfter(w, Go(pid));
    NothingInserted(w.db, RequestOf(w, Go(pid)).value);
  }

  lemma NothingInserted(db: Db, op: Op)
    requires Forest(db.rows) && (op.Consume? || op.Settle?)
    ensures Step(db, op).0.rows.Keys == db.rows.Keys
  {
  }

  lemma KeptItself(db: Db, leaf: Id)
    ensures LeafKept(db, db, leaf)
  {
  }

  lemma NotTheParent(w: World, m: Move, b: ActionId)
    requires Ok(w) && Enabled(w, m) && b in w.actions && RequestOf(w, m).Some?
    ensures var op := RequestOf(w, m).value;
            !op.Mark? && (op.Reserve? ==> op.parent != w.actions[b].leaf)
  {
    hide Inv, Unrevoked, NoncesApart, ListedActions, BalanceOk, SentKnown, ViewOf, ActionsOk, ProcsOk;
  }

  /** Requests about an action's leaf come from the action's own processes. */
  lemma OwnRequestOnly(w: World, m: Move, b: ActionId)
    requires Ok(w) && Enabled(w, m) && b in w.actions && RequestOf(w, m).Some?
    requires RequestOf(w, m).value.id == w.actions[b].leaf
    ensures m.Go? && w.procs[m.pid].a == b
    ensures w.procs[m.pid].AtReserve? || w.procs[m.pid].AtConsume? || w.procs[m.pid].AtSettle?
  {
    hide Inv, Unrevoked, NoncesApart, ListedActions, BalanceOk, SentKnown, ViewOf, ActionsOk, ProcsOk;
  }

  lemma NotReservedYet(w: World, pid: nat)
    requires Ok(w) && Enabled(w, Go(pid)) && w.procs[pid].AtReserve?
    ensures var row := w.actions[w.procs[pid].a];
            row.leaf !in w.db.rows && row.delegation != row.leaf
  {
    hide Inv, Unrevoked, NoncesApart, ListedActions, BalanceOk, SentKnown, ActionOk;
    assert ProcOk(SceneOf(w), w.actions, w.procs[pid]);
    LeafHasNoKids(w, w.procs[pid].a);
  }

  /** How an action's row may move. */
  predicate RowMoves(row: ActionRow, row': ActionRow) {
    && row'.leaf == row.leaf && row'.amount == row.amount && row'.kind == row.kind
    && (TrackOf(row') == TrackOf(row) || TrackOf(row).Open?)
    && (row.auth.Some? ==> row'.auth == row.auth)
  }

  lemma RowAfterGo(w: World, pid: nat, b: ActionId)
    requires Ok(w) && Enabled(w, Go(pid)) && b in w.actions
    ensures b in Next(w, Go(pid)).actions
    ensures var (row, row') := (w.actions[b], Next(w, Go(pid)).actions[b]);
            && RowMoves(row, row')
            && (row'.state.SETTLED? && !row.state.SETTLED? ==> w.procs[pid] == AtMark(b, SETTLED))
            && (TrackOf(row').Calling? && TrackOf(row).Open? ==> row'.state.CALLING? && w.procs[pid] == AtCommit(b))
  {
    hide Inv, Step, Unrevoked, LeavesApart, NoncesApart, ListedActions, BalanceOk, SentKnown, ViewOf, ActionOk, Dead;
    assert ProcOk(SceneOf(w), w.actions, w.procs[pid]);
  }

  lemma RowAfter(w: World, m: Move, b: ActionId)
    requires Ok(w) && Enabled(w, m) && b in w.actions
    ensures b in Next(w, m).actions
    ensures var (row, row') := (w.actions[b], Next(w, m).actions[b]);
            && RowMoves(row, row')
            && (row'.state.SETTLED? && !row.state.SETTLED? ==> m.Go? && w.procs[m.pid] == AtMark(b, SETTLED))
            && (TrackOf(row').Calling? && TrackOf(row).Open? ==>
                  row'.state.CALLING? && m.Go? && w.procs[m.pid] == AtCommit(b))
  {
    hide Inv, Step, Unrevoked, LeavesApart, NoncesApart, ListedActions, BalanceOk, SentKnown, ViewOf, Advance, ProcOk,
         LeafOk, FinalTells;
    if m.Go? {
      RowAfterGo(w, m.pid, b);
    } else {
      assert OneOk(SceneOf(w), b, w.actions[b]);
    }
  }

  /** A payment that went through stays so, and one that is over stays so. */
  lemma ChainAfter(w: World, m: Move, b: ActionId)
    requires Ok(w) && Enabled(w, m) && b in w.actions && w.actions[b].auth.Some?
    ensures var row := w.actions[b];
            && (w.Used(row) ==> Next(w, m).Used(row))
            && (Over(row, w.Used(row), w.now) ==> Over(row, Next(w, m).Used(row), Next(w, m).now))
  {
    hide Inv, Step, Unrevoked, LeavesApart, ListedActions, BalanceOk, SentKnown, ViewOf, Next;
    ClockAndPayer(w, m);
    AuthStays(w, m, b);
    var row := w.actions[b];
    if !w.Used(row) && Next(w, m).Used(row) {
      UsedFrom(w, m, row.auth.value.nonce);
    }
    if w.Used(row) {
      NonceStays(w, m, row.auth.value.nonce);
    }
  }

  lemma NonceStays(w: World, m: Move, nonce: Nonce)
    requires Inv(w.db) && Enabled(w, m) && AuthorizationState(w.chain, w.payer, nonce)
    ensures AuthorizationState(Next(w, m).chain, w.payer, nonce)
  {
    hide Inv, Step;
  }

  // ---- Every move keeps it ----

  lemma NoEventsYet(db: Db, leaf: Id)
    requires LogSound(db) && leaf !in db.rows
    ensures CostOnce(db.log, leaf) && OwnSpend(db.log, leaf) == 0
    ensures forall e, fact :: Entry(leaf, e, fact) !in db.log
  {
    NoSpendYet(db, leaf);
    hide OwnSpend;
  }

  /** A new action starts with a leaf nobody ever asked about. */
  lemma BegunBilled(w: World, a: ActionId, row: ActionRow, charges: set<Charge>)
    requires Inv(w.db) && row.leaf !in w.db.rows && row.state == RESERVING
    ensures ActionBilled(SceneOf(w), a, row, charges)
  {
    hide Slots, SettledSpend, OwnSpend, Solvent, CostOnce;
    NoEventsYet(w.db, row.leaf);
  }

  /** The outcome still says the same. */
  lemma SaysStill(outcome: string, row: ActionRow, used: bool, now: int, row': ActionRow, used': bool, now': int)
    requires Says(outcome, row, used, now) && RowMoves(row, row') && (used ==> used')
    requires Over(row, used, now) ==> Over(row', used', now')
    ensures Says(outcome, row', used', now')
  {
  }

  /** An action whose leaf was not closed by this move. */
  lemma KeptBilled(s: Scene, s': Scene, a: ActionId, row: ActionRow, row': ActionRow, charges: set<Charge>,
                   charges': set<Charge>)
    requires ActionBilled(s, a, row, charges) && charges <= charges' && RowMoves(row, row')
    requires LeafKept(s.db, s'.db, row.leaf)
    requires row.leaf in s'.db.rows ==> row.leaf in s.db.rows || AmountOk(row.amount)
    requires NonceSpent(s.payer, s.chain, row) ==> NonceSpent(s'.payer, s'.chain, row')
    requires Over(row, NonceSpent(s.payer, s.chain, row), s.now)
             ==> Over(row', NonceSpent(s'.payer, s'.chain, row'), s'.now)
    requires TrackOf(row).Open? && TrackOf(row').Calling? ==>
               OwnSpend(s.db.log, row.leaf) == 0 && !Inactive(s.db.rows, row.leaf)
    requires row'.state.SETTLED? && !row.state.SETTLED? && TrackOf(row').Calling? ==>
               (a, OwnSpend(s.db.log, row.leaf)) in charges
    ensures ActionBilled(s', a, row', charges')
  {
    hide OwnSpend, NonceSpent, Says, Over;
    forall fact | Entry(row.leaf, Own(LeafSettle), fact) in s'.db.log
      ensures fact.Settlement? && Says(fact.outcome, row', NonceSpent(s'.payer, s'.chain, row'), s'.now)
    {
      SaysStill(fact.outcome, row, NonceSpent(s.payer, s.chain, row), s.now, row',
                NonceSpent(s'.payer, s'.chain, row'), s'.now);
    }
  }

  /** A close's write to the ledger changes nothing else an action depends on. */
  lemma CloseStep(w: World, pid: nat)
    requires Inv(w.db) && Enabled(w, Go(pid)) && (w.procs[pid].AtConsume? || w.procs[pid].AtSettle?)
    ensures RequestOf(w, Go(pid)).Some?
    ensures Next(w, Go(pid)).actions == w.actions
    ensures Forest(w.db.rows)
    ensures SceneOf(Next(w, Go(pid))) == SceneOf(w).(db := Step(w.db, RequestOf(w, Go(pid)).value).0)
  {
    hide Inv, Step;
    InvIsShaped(w.db);
  }

  lemma ConsumedBilled(w: World, pid: nat, charges: set<Charge>)
    requires Ok(w) && Enabled(w, Go(pid)) && w.procs[pid].AtConsume? && Billed(w, charges)
    ensures var a := w.procs[pid].a;
            && a in Next(w, Go(pid)).actions
            && ActionBilled(SceneOf(Next(w, Go(pid))), a, Next(w, Go(pid)).actions[a], charges)
  {
    hide Slots, SettledSpend, OwnSpend, Solvent, NoncesApart, ListedActions, BalanceOk, SentKnown, CostOnce, Says,
         NoKids, Unrevoked, LeavesApart, Inv, Step, LeafOk, FinalTells, Next;
    var pc := w.procs[pid];
    var row := w.actions[pc.a];
    assert ProcOk(SceneOf(w), w.actions, pc) && OneOk(SceneOf(w), pc.a, row);
    assert ActionBilled(SceneOf(w), pc.a, row, charges) && PcBilled(SceneOf(w), row, pc, charges);
    CloseStep(w, pid);
    ConsumeCharges(w.db, row, pc.cost);
  }

  lemma SettledBilled(w: World, pid: nat, charges: set<Charge>)
    requires Ok(w) && Enabled(w, Go(pid)) && w.procs[pid].AtSettle? && Billed(w, charges)
    ensures var a := w.procs[pid].a;
            && a in Next(w, Go(pid)).actions
            && ActionBilled(SceneOf(Next(w, Go(pid))), a, Next(w, Go(pid)).actions[a], charges)
  {
    hide Slots, SettledSpend, OwnSpend, Solvent, NoncesApart, ListedActions, BalanceOk, SentKnown, Says,
         NoKids, Unrevoked, LeavesApart, Inv, Step, ActionOk, PcOk, ViewOf, Next;
    var pc := w.procs[pid];
    var row := w.actions[pc.a];
    assert ProcOk(SceneOf(w), w.actions, pc);
    assert ActionBilled(SceneOf(w), pc.a, row, charges) && PcBilled(SceneOf(w), row, pc, charges);
    CloseStep(w, pid);
    LeafHasNoKids(w, pc.a);
    SettleCharges(w.db, row.leaf, pc.outcome);
  }

  lemma CloserOnly(w: World, m: Move, b: ActionId, charges: set<Charge>)
    requires Ok(w) && Enabled(w, m) && b in w.actions && Billed(w, charges)
    requires !(m.Go? && w.procs[m.pid].a == b && (w.procs[m.pid].AtConsume? || w.procs[m.pid].AtSettle?))
    ensures b in Next(w, m).actions
    ensures ActionBilled(SceneOf(Next(w, m)), b, Next(w, m).actions[b], charges + ChargeOf(w, m))
  {
    hide Inv, Next, Enabled, LeafKept, RowMoves, Over, CostOnce, OutcomeSays, OwnSpend, ChargeOf, TrackOf;
    LeafAfter(w, m, b);
    RowAfter(w, m, b);
    ClockAndPayer(w, m);
    var (row, row') := (w.actions[b], Next(w, m).actions[b]);
    if TrackOf(row).Open? {
      OpensEmpty(w, m, b);
    }
    if row'.state.SETTLED? && !row.state.SETTLED? && TrackOf(row').Calling? && !TrackOf(row).Open? {
      SameTrack(row, row');
      MarkIsPaid(w, m, b, charges);
    }
    ChainOverAfter(w, m, b);
    KeptBilled(SceneOf(w), SceneOf(Next(w, m)), b, row, row', charges, charges + ChargeOf(w, m));
  }

  lemma SameTrack(row: ActionRow, row': ActionRow)
    requires RowMoves(row, row') && !TrackOf(row).Open?
    ensures TrackOf(row') == TrackOf(row)
  {
  }

  lemma ChainOverAfter(w: World, m: Move, b: ActionId)
    requires Ok(w) && Enabled(w, m) && b in w.actions && b in Next(w, m).actions
    requires RowMoves(w.actions[b], Next(w, m).actions[b])
    ensures var (w', row) := (Next(w, m), w.actions[b]);
            && (w.Used(row) ==> w'.Used(w'.actions[b]))
            && (Over(row, w.Used(row), w.now) ==> Over(w'.actions[b], w'.Used(w'.actions[b]), w'.now))
  {
    hide Ok, Next, Enabled;
    if w.actions[b].auth.Some? {
      ChainAfter(w, m, b);
    }
  }

  lemma OpensEmpty(w: World, m: Move, b: ActionId)
    requires Ok(w) && b in w.actions && TrackOf(w.actions[b]).Open?
    ensures OwnSpend(w.db.log, w.actions[b].leaf) == 0 && !Inactive(w.db.rows, w.actions[b].leaf)
  {
    hide Slots, SettledSpend, OwnSpend, Solvent, Unrevoked, LeavesApart, NoncesApart, ListedActions, ProcsOk, BalanceOk,
         SentKnown;
    assert OneOk(SceneOf(w), b, w.actions[b]);
    if w.actions[b].leaf !in w.db.rows {
      NoSpendYet(w.db, w.actions[b].leaf);
    }
  }

  lemma MarkIsPaid(w: World, m: Move, b: ActionId, charges: set<Charge>)
    requires Enabled(w, m) && m.Go? && w.procs[m.pid] == AtMark(b, SETTLED) && b in w.actions
    requires Billed(w, charges) && TrackOf(w.actions[b]).Calling?
    ensures (b, OwnSpend(w.db.log, w.actions[b].leaf)) in charges
  {
    assert PcBilled(SceneOf(w), w.actions[b], w.procs[m.pid], charges);
  }

  lemma ActionStaysBilled(w: World, m: Move, b: ActionId, charges: set<Charge>)
    requires Ok(w) && Enabled(w, m) && Billed(w, charges) && b in Next(w, m).actions
    ensures ActionBilled(SceneOf(Next(w, m)), b, Next(w, m).actions[b], charges + ChargeOf(w, m))
  {
    hide Ok, Inv, Next, ActionBilled, Billed, ChargeOf;
    OkIsInv(w);
    if b !in w.actions {
      OnlyBegins(w, m, b);
      BegunBilled(w, b, m.row, charges + ChargeOf(w, m));
    } else if m.Go? && w.procs[m.pid].a == b && w.procs[m.pid].AtConsume? {
      ConsumedBilled(w, m.pid, charges);
      MoreCharges(SceneOf(Next(w, m)), b, Next(w, m).actions[b], charges, charges + ChargeOf(w, m));
    } else if m.Go? && w.procs[m.pid].a == b && w.procs[m.pid].AtSettle? {
      SettledBilled(w, m.pid, charges);
      MoreCharges(SceneOf(Next(w, m)), b, Next(w, m).actions[b], charges, charges + ChargeOf(w, m));
    } else {
      CloserOnly(w, m, b, charges);
    }
  }

  lemma MoreCharges(s: Scene, a: ActionId, row: ActionRow, charges: set<Charge>, charges': set<Charge>)
    requires ActionBilled(s, a, row, charges) && charges <= charges'
    ensures ActionBilled(s, a, row, charges')
  {
  }

  lemma OnlyBegins(w: World, m: Move, b: ActionId)
    requires Inv(w.db) && Enabled(w, m) && b in Next(w, m).actions && b !in w.actions
    ensures m.Begin? && m.action == b && Next(w, m).actions[b] == m.row && Next(w, m).db == w.db
    ensures SceneOf(Next(w, m)) == SceneOf(w) && m.row.leaf !in w.db.rows && m.row.state == RESERVING
  {
    hide Inv, Step;
  }

  /** What a leaf spent grows only by a cost that was decided. */
  lemma OwnAfter(w: World, m: Move, b: ActionId, charges: set<Charge>)
    requires Ok(w) && Enabled(w, m) && Billed(w, charges) && b in w.actions
    ensures var (own, own') := (OwnSpend(w.db.log, w.actions[b].leaf), OwnSpend(Next(w, m).db.log, w.actions[b].leaf));
            own' == own || (TrackOf(w.actions[b]).Calling? ==> (b, own') in charges)
  {
    hide Slots, SettledSpend, OwnSpend, Solvent, NoncesApart, ListedActions, BalanceOk, SentKnown, CostOnce, Says,
         NoKids, Unrevoked, LeavesApart, Inv, Step, LeafOk, FinalTells, Next;
    if m.Go? && w.procs[m.pid].a == b && w.procs[m.pid].AtConsume? {
      var pc, row := w.procs[m.pid], w.actions[b];
      assert ProcOk(SceneOf(w), w.actions, pc) && OneOk(SceneOf(w), b, row);
      assert ActionBilled(SceneOf(w), b, row, charges) && PcBilled(SceneOf(w), row, pc, charges);
      InvIsShaped(w.db);
      DbAfter(w, m);
      ConsumeCharges(w.db, row, pc.cost);
    } else if m.Go? && w.procs[m.pid].a == b && w.procs[m.pid].AtSettle? {
      InvIsShaped(w.db);
      DbAfter(w, m);
      LeafHasNoKids(w, b);
      SettleCharges(w.db, w.actions[b].leaf, w.procs[m.pid].outcome);
    } else {
      LeafAfter(w, m, b);
    }
  }

  /** A process that did not move. */
  lemma OthersStayBilled(w: World, m: Move, q: nat, charges: set<Charge>)
    requires Ok(w) && Enabled(w, m) && Billed(w, charges) && q in w.procs && w.procs[q].a in w.actions
    ensures w.procs[q].a in Next(w, m).actions
    ensures PcBilled(SceneOf(Next(w, m)), Next(w, m).actions[w.procs[q].a], w.procs[q], charges + ChargeOf(w, m))
  {
    hide Inv, Next, Enabled, RowMoves, Over, OwnSpend, ChargeOf, Says, ViewOf, ActionBilled, Unrevoked, LeavesApart,
         NoncesApart, ListedActions, BalanceOk, SentKnown, NonceSpent, ActionsOk, Dead;
    var pc := w.procs[q];
    var b := pc.a;
    assert ProcOk(SceneOf(w), w.actions, pc) && PcBilled(SceneOf(w), w.actions[b], pc, charges);
    RowAfter(w, m, b);
    ChainOverAfter(w, m, b);
    OwnAfter(w, m, b, charges);
    SameLeaf(w.actions[b], Next(w, m).actions[b]);
    if pc.AtConsume? || pc.AtSettle? {
      SaysStill(pc.outcome, w.actions[b], w.Used(w.actions[b]), w.now, Next(w, m).actions[b],
                Next(w, m).Used(Next(w, m).actions[b]), Next(w, m).now);
    }
    if pc.AtConsume? || pc.AtSettle? || pc.AtMark? {
      SameTrack(w.actions[b], Next(w, m).actions[b]);
    }
  }

  lemma SameLeaf(row: ActionRow, row': ActionRow)
    requires RowMoves(row, row')
    ensures row'.leaf == row.leaf
  {
  }

  /** Closing with the cost just decided, or with the outcome the track and the reads call for. */
  lemma CloseBilled(s: Scene, a: ActionId, row: ActionRow, cost: Option<int>, outcome: string, final: Runtime.State,
                    charges: set<Charge>)
    requires ActionBilled(s, a, row, charges)
    requires TrackOf(row).Calling? ==>
               cost.Some? && (a, Max(0, cost.value)) in charges
    requires Says(outcome, row, NonceSpent(s.payer, s.chain, row), s.now)
    ensures PcBilled(s, row, Close(a, cost, outcome, final), charges)
  {
  }

  lemma BillerBilled(w: World, pid: nat, cost: int, charges: set<Charge>)
    requires Ok(w) && Enabled(w, Bill(pid, cost)) && Billed(w, charges)
    ensures var w' := Next(w, Bill(pid, cost));
            && pid in w'.procs && w'.procs[pid].a in w'.actions
            && PcBilled(SceneOf(w'), w'.actions[w'.procs[pid].a], w'.procs[pid], charges + ChargeOf(w, Bill(pid, cost)))
  {
    hide Inv, OwnSpend, ViewOf, ActionBilled, Unrevoked, LeavesApart, NoncesApart, ListedActions, BalanceOk, SentKnown,
         NonceSpent, ActionsOk, Dead, PcBilled;
    var a := w.procs[pid].a;
    assert ProcOk(SceneOf(w), w.actions, w.procs[pid]);
    MoreCharges(SceneOf(w), a, w.actions[a], charges, charges + ChargeOf(w, Bill(pid, cost)));
    CloseBilled(SceneOf(w), a, w.actions[a], Some(Min(cost, w.actions[a].amount)), "completed", SETTLED,
                charges + ChargeOf(w, Bill(pid, cost)));
  }

  /** The reads and the claim of a reconciliation. */
  lemma ReaderBilled(w: World, pid: nat, charges: set<Charge>)
    requires Ok(w) && Enabled(w, Go(pid)) && Billed(w, charges) && !LateTransferMissed(w, Go(pid))
    requires w.procs[pid].AtReconcile? || w.procs[pid].AtClaim? || w.procs[pid].AtChain? || w.procs[pid].AtClock?
    ensures var w' := Next(w, Go(pid));
            pid in w'.procs ==>
              && w'.procs[pid].a in w'.actions
              && PcBilled(SceneOf(w'), w'.actions[w'.procs[pid].a], w'.procs[pid], charges + ChargeOf(w, Go(pid)))
  {
    hide Inv, OwnSpend, ViewOf, ActionBilled, Unrevoked, LeavesApart, NoncesApart, ListedActions, BalanceOk, SentKnown,
         PcBilled, Step, ActionOk, NonceSpent;
    var pc := w.procs[pid];
    var a, ch := pc.a, charges + ChargeOf(w, Go(pid));
    var row := w.actions[a];
    assert ProcOk(SceneOf(w), w.actions, pc) && OneOk(SceneOf(w), a, row);
    MoreCharges(SceneOf(w), a, row, charges, ch);
    if pc.AtClaim? && row.state == RESERVING {
      ActionStaysBilled(w, Go(pid), a, charges);
      CloseBilled(SceneOf(Next(w, Go(pid))), a, row.(state := ABANDONING), None, "abandoned", ABANDONED, ch);
    } else if pc.AtReconcile? && row.state == ABANDONING {
      CloseBilled(SceneOf(w), a, row, None, "abandoned", ABANDONED, ch);
    } else if pc.AtReconcile? && row.state == CALLING {
      CallingAmount(w.payer, row, ViewOf(w.db, row.leaf), w.Used(row), a in w.sent, w.now);
      CloseBilled(SceneOf(w), a, row, Some(row.amount), "completed", SETTLED, ch);
    } else if pc.AtChain? && w.Used(row) {
      CloseBilled(SceneOf(w), a, row, Some(row.amount), "settled", SETTLED, ch);
    } else if pc.AtClock? && row.auth.Some? && w.now > row.auth.value.validBefore {
      CloseBilled(SceneOf(w), a, row, None, "expired", EXPIRED, ch);
    } else {
      OnwardBilled(w, pid, ch);
    }
  }

  lemma CallingAmount(payer: Account, row: ActionRow, view: View, used: bool, sent: bool, now: int)
    requires ActionOk(payer, row, view, used, sent, now) && row.state.CALLING?
    ensures TrackOf(row).Calling? && row.amount >= 0
  {
  }

  /** Nothing is closed yet. */
  lemma OnwardBilled(w: World, pid: nat, charges: set<Charge>)
    requires Inv(w.db) && Enabled(w, Go(pid))
    requires var pc := w.procs[pid];
             var row := w.actions[pc.a];
             || (pc.AtReconcile? && row.state != ABANDONING && row.state != CALLING)
             || (pc.AtClaim? && row.state != RESERVING)
             || (pc.AtChain? && !w.Used(row))
             || (pc.AtClock? && !(row.auth.Some? && w.now > row.auth.value.validBefore))
    ensures var w' := Next(w, Go(pid));
            pid in w'.procs ==>
              && w'.procs[pid].a in w'.actions
              && PcBilled(SceneOf(w'), w'.actions[w'.procs[pid].a], w'.procs[pid], charges)
  {
    hide Inv, OwnSpend, Step;
  }

  /** The writes of a close. */
  lemma ConsumerBilled(w: World, pid: nat, charges: set<Charge>)
    requires Ok(w) && Enabled(w, Go(pid)) && Billed(w, charges) && w.procs[pid].AtConsume?
    ensures var w' := Next(w, Go(pid));
            pid in w'.procs ==>
              && w'.procs[pid].a in w'.actions
              && PcBilled(SceneOf(w'), w'.actions[w'.procs[pid].a], w'.procs[pid], charges)
  {
    hide Slots, SettledSpend, OwnSpend, Solvent, NoncesApart, ListedActions, BalanceOk, SentKnown, CostOnce, Says,
         NoKids, Unrevoked, LeavesApart, Inv, Step, LeafOk, FinalTells, NonceSpent, OutcomeSays;
    var pc := w.procs[pid];
    var row := w.actions[pc.a];
    assert ProcOk(SceneOf(w), w.actions, pc) && OneOk(SceneOf(w), pc.a, row);
    assert ActionBilled(SceneOf(w), pc.a, row, charges) && PcBilled(SceneOf(w), row, pc, charges);
    InvIsShaped(w.db);
    ConsumeCharges(w.db, row, pc.cost);
  }

  lemma SettlerBilled(w: World, pid: nat, charges: set<Charge>)
    requires Ok(w) && Enabled(w, Go(pid)) && Billed(w, charges) && w.procs[pid].AtSettle?
    ensures var w' := Next(w, Go(pid));
            pid in w'.procs ==>
              && w'.procs[pid].a in w'.actions
              && PcBilled(SceneOf(w'), w'.actions[w'.procs[pid].a], w'.procs[pid], charges)
  {
    hide Slots, SettledSpend, OwnSpend, Solvent, NoncesApart, ListedActions, BalanceOk, SentKnown, CostOnce, Says,
         NoKids, Unrevoked, LeavesApart, Inv, Step, ActionOk, PcOk, NonceSpent, OutcomeSays, ViewOf, ActionBilled;
    var pc := w.procs[pid];
    var row := w.actions[pc.a];
    assert ProcOk(SceneOf(w), w.actions, pc) && PcBilled(SceneOf(w), row, pc, charges);
    InvIsShaped(w.db);
    LeafHasNoKids(w, pc.a);
    SettleCharges(w.db, row.leaf, pc.outcome);
  }

  /** The other steps start or end nothing that is being closed. */
  lemma StarterBilled(w: World, m: Move, q: nat, charges: set<Charge>)
    requires Inv(w.db) && Enabled(w, m) && Touches(m, q) && q in Next(w, m).procs
    requires m.Begin? || m.Sign? || m.Reconcile? || m.Crash?
             || (m.Go? && (w.procs[q].AtReserve? || w.procs[q].AtRefuse? || w.procs[q].AtCommit? || w.procs[q].AtSend?
                           || w.procs[q].AtMark?))
    ensures var w' := Next(w, m);
            w'.procs[q].a in w'.actions ==>
              PcBilled(SceneOf(w'), w'.actions[w'.procs[q].a], w'.procs[q], charges)
  {
    hide Inv, OwnSpend, Step;
  }

  lemma PcStaysBilled(w: World, m: Move, q: nat, charges: set<Charge>)
    requires Ok(w) && Enabled(w, m) && !LateTransferMissed(w, m) && Billed(w, charges)
    requires q in Next(w, m).procs && Next(w, m).procs[q].a in Next(w, m).actions
    ensures var w' := Next(w, m);
            PcBilled(SceneOf(w'), w'.actions[w'.procs[q].a], w'.procs[q], charges + ChargeOf(w, m))
  {
    hide Ok, Inv, Next, PcBilled, Billed, ChargeOf;
    OkIsInv(w);
    if !Touches(m, q) {
      ProcStays(w, m, q);
      OkKnows(w, q);
      OthersStayBilled(w, m, q, charges);
    } else if m.Bill? {
      BillerBilled(w, q, m.cost, charges);
    } else if m.Go? && (w.procs[q].AtReconcile? || w.procs[q].AtClaim? || w.procs[q].AtChain? || w.procs[q].AtClock?) {
      ReaderBilled(w, q, charges);
    } else if m.Go? && (w.procs[q].AtConsume? || w.procs[q].AtSettle?) {
      if w.procs[q].AtConsume? {
        ConsumerBilled(w, q, charges);
      } else {
        SettlerBilled(w, q, charges);
      }
      var w' := Next(w, m);
      PcMoreCharges(SceneOf(w'), w'.actions[w'.procs[q].a], w'.procs[q], charges, charges + ChargeOf(w, m));
    } else {
      StarterBilled(w, m, q, charges + ChargeOf(w, m));
    }
  }

  lemma OkKnows(w: World, q: nat)
    requires Ok(w) && q in w.procs
    ensures w.procs[q].a in w.actions
  {
    assert ProcOk(SceneOf(w), w.actions, w.procs[q]);
  }

  lemma PcMoreCharges(s: Scene, row: ActionRow, pc: Pc, charges: set<Charge>, charges': set<Charge>)
    requires PcBilled(s, row, pc, charges) && charges <= charges'
    ensures PcBilled(s, row, pc, charges')
  {
  }

  lemma MoveKeepsBilled(w: World, m: Move, charges: set<Charge>)
    requires Ok(w) && Enabled(w, m) && !LateTransferMissed(w, m) && Billed(w, charges)
    ensures Billed(Next(w, m), charges + ChargeOf(w, m))
  {
    hide Ok, Inv, Next, Enabled, LateTransferMissed, ActionBilled, PcBilled, ChargeOf;
    OkIsInv(w);
    var w' := Next(w, m);
    forall a | a in w'.actions
      ensures ActionBilled(SceneOf(w'), a, w'.actions[a], charges + ChargeOf(w, m))
    {
      ActionStaysBilled(w, m, a, charges);
    }
    forall q | q in w'.procs && w'.procs[q].a in w'.actions
      ensures PcBilled(SceneOf(w'), w'.actions[w'.procs[q].a], w'.procs[q], charges + ChargeOf(w, m))
    {
      PcStaysBilled(w, m, q, charges);
    }
  }

  // ---- Whole runs ----

  lemma {:induction false} PlayKeepsBilled(w: World, moves: seq<Move>, charges: set<Charge>)
    requires Ok(w) && Legal(w, moves) && NoneMissed(w, moves) && Billed(w, charges)
    ensures Billed(Play(w, moves), charges + Charges(w, moves))
    decreases |moves|
  {
    hide Ok, Next, Enabled, LateTransferMissed, Inv, Billed, ChargeOf;
    OkIsInv(w);
    if moves == [] {
      assert charges + Charges(w, moves) == charges;
    } else {
      NextKeepsInv(w, moves[0]);
      MoveKeepsOk(w, moves[0]);
      MoveKeepsBilled(w, moves[0], charges);
      PlayKeepsBilled(Next(w, moves[0]), moves[1..], charges + ChargeOf(w, moves[0]));
      assert charges + ChargeOf(w, moves[0]) + Charges(Next(w, moves[0]), moves[1..]) == charges + Charges(w, moves);
    }
  }

  lemma StartBilled(payer: Account, now: int)
    ensures Billed(Start(payer, now), {})
  {
  }

  /** In every prompt run from the start, whatever processes met or died on the way, a settled model call is
      charged on its leaf what one of its own bills or one reconcile decided, and a settled payment its price. */
  lemma SettledAtItsCharge(payer: Account, now: int, moves: seq<Move>, a: ActionId)
    requires Legal(Start(payer, now), moves) && Prompt(Start(payer, now), moves)
    requires a in Play(Start(payer, now), moves).actions && Play(Start(payer, now), moves).actions[a].state.SETTLED?
    ensures var w := Play(Start(payer, now), moves);
            var row := w.actions[a];
            if row.kind.Model? then (a, OwnSpend(w.db.log, row.leaf)) in Charges(Start(payer, now), moves)
            else OwnSpend(w.db.log, row.leaf) == row.amount
  {
    hide Inv, Ok, Legal, Prompt, Play, Charges, ClocksSafe, NoneMissed, OwnSpend, CostOnce, OutcomeSays;
    var start := Start(payer, now);
    StartOk(payer, now);
    NoClocksYet(payer, now);
    StartBilled(payer, now);
    PromptMissesNone(start, moves, None);
    PlayKeepsBilled(start, moves, {});
    assert {} + Charges(start, moves) == Charges(start, moves);
    assert ActionBilled(SceneOf(Play(start, moves)), a, Play(start, moves).actions[a], Charges(start, moves));
    FinalStatesTell(payer, now, moves, a);
  }

  lemma NoClocksYet(payer: Account, now: int)
    ensures ClocksSafe(Start(payer, now), None)
  {
  }
}
