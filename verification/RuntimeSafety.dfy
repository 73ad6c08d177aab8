/** Every move keeps the runtime invariant, unless it misses a late transfer. */
module RuntimeSafety {
  import opened Common
  import opened Ledger
  import opened LedgerInvariant
  import opened UsdcChain
  import opened Runtime
  import opened RuntimeInvariant

  // ---- How one action may evolve under its processes ----

  predicate Evolves(row: ActionRow, view: View, used: bool, now: int,
                    row': ActionRow, view': View, used': bool, now': int) {
    && row'.kind == row.kind && row'.amount == row.amount
    && (TrackOf(row') == TrackOf(row) || TrackOf(row).Open?)
    && (row.auth.Some? ==> row'.auth == row.auth)
    && (view.Present? ==> view'.Present? && (view.own == row.amount ==> view'.own == row.amount))
    && (used ==> used')
    && (Dead(row, used, now) ==> Dead(row', used', now'))
  }

  /** The parts of `Evolves` only the action's owner may use. */
  predicate OwnersPart(row: ActionRow, view: View, row': ActionRow, view': View) {
    && (view'.Absent? <==> view.Absent?)
    && (TrackOf(row).Open? ==> TrackOf(row').Open? || TrackOf(row').Dropped?)
  }

  lemma PcStable(pc: Pc, row: ActionRow, view: View, used: bool, now: int,
                 row': ActionRow, view': View, used': bool, now': int)
    requires PcOk(pc, row, view, used, now) && Evolves(row, view, used, now, row', view', used', now')
    requires Owned(pc).Some? ==> OwnersPart(row, view, row', view')
    ensures PcOk(pc, row', view', used', now')
  {
  }

  /** Another action row, or the same action with a later scene. */
  ghost predicate RowEvolves(s: Scene, row: ActionRow, s': Scene, row': ActionRow) {
    Evolves(row, ViewOf(s.db, row.leaf), NonceSpent(s.payer, s.chain, row), s.now,
            row', ViewOf(s'.db, row.leaf), NonceSpent(s'.payer, s'.chain, row'), s'.now)
  }

  ghost predicate RowRespected(s: Scene, row: ActionRow, s': Scene, row': ActionRow) {
    OwnersPart(row, ViewOf(s.db, row.leaf), row', ViewOf(s'.db, row.leaf))
  }

  /** Process `pid` did something about action `a`: its row and its leaf may have changed, no other. */
  ghost predicate Local(s: Scene, actions: map<ActionId, ActionRow>, s': Scene, actions': map<ActionId, ActionRow>,
                        a: ActionId) {
    && s'.payer == s.payer && s'.chain == s.chain && s'.now == s.now
    && (s'.sent == s.sent || s'.sent == s.sent + {a})
    && a in actions && actions'.Keys == actions.Keys
    && actions'[a] == actions[a].(state := actions'[a].state, auth := actions'[a].auth)
    && (forall b :: b in actions && b != a ==>
          actions'[b] == actions[b] && ViewOf(s'.db, actions[b].leaf) == ViewOf(s.db, actions[b].leaf))
  }

  lemma LocalKeepsActions(s: Scene, actions: map<ActionId, ActionRow>, s': Scene,
                          actions': map<ActionId, ActionRow>, a: ActionId)
    requires Local(s, actions, s', actions', a) && ActionsOk(s, actions) && OneOk(s', a, actions'[a])
    ensures ActionsOk(s', actions')
  {
    hide ViewOf, ActionOk;
    forall b | b in actions'
      ensures OneOk(s', b, actions'[b])
    {
      assert b != a ==> OneOk(s, b, actions[b]);
    }
  }

  /** Every other process still remembers the truth. */
  lemma LocalKeepsProcs(s: Scene, actions: map<ActionId, ActionRow>, procs: map<nat, Pc>, s': Scene,
                        actions': map<ActionId, ActionRow>, procs': map<nat, Pc>, a: ActionId, pid: nat)
    requires Local(s, actions, s', actions', a) && ProcsOk(s, actions, procs)
    requires forall q :: q in procs' && q != pid ==> q in procs && procs'[q] == procs[q]
    requires RowEvolves(s, actions[a], s', actions'[a])
    requires (pid in procs && Owned(procs[pid]) == Some(a)) || RowRespected(s, actions[a], s', actions'[a])
    requires pid in procs' ==>
               ProcOk(s', actions', procs'[pid])
               && (Owned(procs'[pid]).None? || (pid in procs && Owned(procs'[pid]) == Owned(procs[pid])))
    ensures ProcsOk(s', actions', procs')
  {
    hide ViewOf, PcOk, Evolves, OwnersPart;
    forall q | q in procs'
      ensures ProcOk(s', actions', procs'[q])
    {
      if q != pid {
        var pc := procs[q];
        assert ProcOk(s, actions, pc);
        if pc.a == a {
          PcStable(pc, actions[a], ViewOf(s.db, actions[a].leaf), NonceSpent(s.payer, s.chain, actions[a]), s.now,
                   actions'[a], ViewOf(s'.db, actions[a].leaf), NonceSpent(s'.payer, s'.chain, actions'[a]), s'.now);
        }
      }
    }
  }

  lemma SameMoved(payer: Account, chain: Chain, actions: map<ActionId, ActionRow>, chain': Chain,
                  actions': map<ActionId, ActionRow>, listed: seq<ActionId>)
    requires forall a :: a in listed ==> Moved(payer, chain', actions', a) == Moved(payer, chain, actions, a)
    ensures TotalMoved(payer, chain', actions', listed) == TotalMoved(payer, chain, actions, listed)
  {
    SumAgree(listed, a => Moved(payer, chain, actions, a), a => Moved(payer, chain', actions', a));
  }

  lemma SameApart(db: Db, actions: map<ActionId, ActionRow>, db': Db, actions': map<ActionId, ActionRow>,
                  listed: seq<ActionId>)
    requires LeavesApart(db, actions) && ListedActions(actions, listed) && actions'.Keys == actions.Keys
    requires forall a :: a in actions ==>
               actions'[a].leaf == actions[a].leaf && actions'[a].delegation == actions[a].delegation
               && NoKids(db', actions[a].leaf)
    ensures LeavesApart(db', actions') && ListedActions(actions', listed)
  {
  }

  /** A local change that respects the owner keeps the whole invariant. */
  lemma LocalKeepsOk(w: World, w': World, a: ActionId, pid: nat)
    requires Ok(w) && Local(SceneOf(w), w.actions, SceneOf(w'), w'.actions, a)
    requires w'.listed == w.listed && w'.funded == w.funded
    requires Inv(w'.db) && Unrevoked(w'.db) && forall b :: b in w.actions ==> NoKids(w'.db, w.actions[b].leaf)
    requires OneOk(SceneOf(w'), a, w'.actions[a]) && NoncesApart(w'.actions)
    requires w'.Used(w'.actions[a]) == w.Used(w.actions[a])
    requires RowEvolves(SceneOf(w), w.actions[a], SceneOf(w'), w'.actions[a])
    requires (pid in w.procs && Owned(w.procs[pid]) == Some(a))
             || RowRespected(SceneOf(w), w.actions[a], SceneOf(w'), w'.actions[a])
    requires forall q :: q in w'.procs && q != pid ==> q in w.procs && w'.procs[q] == w.procs[q]
    requires pid in w'.procs ==>
               ProcOk(SceneOf(w'), w'.actions, w'.procs[pid])
               && (Owned(w'.procs[pid]).None? || (pid in w.procs && Owned(w'.procs[pid]) == Owned(w.procs[pid])))
    ensures Ok(w')
  {
    hide Inv, ViewOf, NoKids, OneOk, ProcOk, ProcsOk, ActionsOk, RowEvolves, RowRespected, TotalMoved, Unrevoked,
         ListedActions, LeavesApart, NoncesApart;
    LocalKeepsActions(SceneOf(w), w.actions, SceneOf(w'), w'.actions, a);
    LocalKeepsProcs(SceneOf(w), w.actions, w.procs, SceneOf(w'), w'.actions, w'.procs, a, pid);
    ListedKnown(w.actions, w.listed);
    SameMoved(w.payer, w.chain, w.actions, w.chain, w'.actions, w.listed);
    SameApart(w.db, w.actions, w'.db, w'.actions, w.listed);
  }

  lemma ListedKnown(actions: map<ActionId, ActionRow>, listed: seq<ActionId>)
    requires ListedActions(actions, listed)
    ensures forall a :: a in listed ==> a in actions
  {
  }

  // ---- Moves of a process alone ----

  lemma PcMove(w: World, pid: nat, next: Option<Pc>, w': World)
    requires Ok(w) && w' == if next.Some? then w.Goto(pid, next.value) else w.End(pid)
    requires next.Some? ==> ProcOk(SceneOf(w), w.actions, next.value) && Owned(next.value).None?
    ensures Ok(w')
  {
    hide Inv, Unrevoked, LeavesApart, NoncesApart, ListedActions, ActionsOk, BalanceOk, SentKnown, ProcOk;
  }

  /** The action's row goes to another state, and the process to `next` or its end. */
  lemma RowMove(w: World, a: ActionId, pid: nat, state: Runtime.State, next: Option<Pc>)
    requires Ok(w) && a in w.actions
    requires var row' := w.actions[a].(state := state);
             && !TrackOf(row').Broken? && (TrackOf(row').Paying? <==> row'.auth.Some?)
             && FinalTells(row', ViewOf(w.db, row'.leaf), w.Used(row'), w.now)
             && (TrackOf(row') == TrackOf(w.actions[a])
                 || (TrackOf(w.actions[a]).Open?
                     && (TrackOf(row').Dropped?
                         || (TrackOf(row').Calling? && ViewOf(w.db, row'.leaf).Present?
                             && pid in w.procs && Owned(w.procs[pid]) == Some(a)))))
    requires next.Some? ==>
               Owned(next.value).None? && ProcOk(SceneOf(w), w.SetState(a, state).actions, next.value)
    ensures Ok(if next.Some? then w.SetState(a, state).Goto(pid, next.value) else w.SetState(a, state).End(pid))
  {
    hide Inv, NoKids, Unrevoked, ViewOf, RowEvolves, RowRespected, ProcOk, BalanceOk, SentKnown, ListedActions;
    var w' := if next.Some? then w.SetState(a, state).Goto(pid, next.value) else w.SetState(a, state).End(pid);
    assert OneOk(SceneOf(w), a, w.actions[a]);
    StateChange(SceneOf(w), a, w.actions[a], state);
    LocalKeepsOk(w, w', a, pid);
  }

  lemma StateChange(s: Scene, a: ActionId, row: ActionRow, state: Runtime.State)
    requires OneOk(s, a, row)
    requires var row' := row.(state := state);
             && !TrackOf(row').Broken? && (TrackOf(row').Paying? <==> row'.auth.Some?)
             && FinalTells(row', ViewOf(s.db, row'.leaf), NonceSpent(s.payer, s.chain, row'), s.now)
             && (TrackOf(row') == TrackOf(row)
                 || (TrackOf(row).Open?
                     && (TrackOf(row').Dropped? || (TrackOf(row').Calling? && ViewOf(s.db, row.leaf).Present?))))
    ensures OneOk(s, a, row.(state := state))
    ensures RowEvolves(s, row, s, row.(state := state))
    ensures TrackOf(row.(state := state)).Dropped? || TrackOf(row.(state := state)) == TrackOf(row) ==>
              RowRespected(s, row, s, row.(state := state))
  {
  }

  // ---- Requests to the ledger ----

  /** A request about `a`'s own leaf leaves every other action's leaf alone. */
  lemma OwnRequest(w: World, a: ActionId, op: Op)
    requires Ok(w) && a in w.actions && !op.Mark? && op.id == w.actions[a].leaf
    requires op.Reserve? ==> op.parent == w.actions[a].delegation
    requires NoKids(Step(w.db, op).0, op.id)
    ensures var db' := Step(w.db, op).0;
            && Inv(db') && Unrevoked(db')
            && (forall b :: b in w.actions ==> NoKids(db', w.actions[b].leaf))
            && (forall b :: b in w.actions && b != a ==>
                  ViewOf(db', w.actions[b].leaf) == ViewOf(w.db, w.actions[b].leaf))
  {
    hide Inv, NoKids, ViewOf, Unrevoked, Step, ActionsOk, ProcsOk, BalanceOk;
    InvIsShaped(w.db);
    StepKeepsInv(w.db, op);
    StaysUnrevoked(w.db, op);
    forall b | b in w.actions && b != a
      ensures NoKids(Step(w.db, op).0, w.actions[b].leaf)
      ensures ViewOf(Step(w.db, op).0, w.actions[b].leaf) == ViewOf(w.db, w.actions[b].leaf)
    {
      OtherRequest(w.db, op, w.actions[b].leaf);
    }
  }

  /** A request about a delegation that is no leaf changes nothing an action depends on. */
  lemma ElsewhereKeepsOk(w: World, op: Op)
    requires Ok(w) && !op.Mark? && !w.IsLeaf(op.id) && (op.Reserve? ==> !w.IsLeaf(op.parent))
    ensures Ok(w.(db := Step(w.db, op).0))
  {
    hide Inv, NoKids, ViewOf, Unrevoked, Step, ActionOk, PcOk, NoncesApart, ListedActions, BalanceOk, SentKnown;
    InvIsShaped(w.db);
    StepKeepsInv(w.db, op);
    StaysUnrevoked(w.db, op);
    var w' := w.(db := Step(w.db, op).0);
    forall b | b in w.actions
      ensures NoKids(w'.db, w.actions[b].leaf)
      ensures ViewOf(w'.db, w.actions[b].leaf) == ViewOf(w.db, w.actions[b].leaf)
    {
      OtherRequest(w.db, op, w.actions[b].leaf);
    }
    forall b | b in w.actions
      ensures OneOk(SceneOf(w'), b, w.actions[b])
    {
      assert OneOk(SceneOf(w), b, w.actions[b]);
    }
    forall q | q in w.procs
      ensures ProcOk(SceneOf(w'), w.actions, w.procs[q])
    {
      assert ProcOk(SceneOf(w), w.actions, w.procs[q]);
    }
  }

  /** `a`'s leaf changed under `op`, issued by process `pid`, which goes on to `next`. */
  lemma LeafMove(w: World, a: ActionId, pid: nat, op: Op, next: Option<Pc>, w': World)
    requires Ok(w) && a in w.actions && !op.Mark? && op.id == w.actions[a].leaf
    requires op.Reserve? ==> op.parent == w.actions[a].delegation
    requires NoKids(Step(w.db, op).0, op.id)
    requires w' == if next.Some? then w.(db := Step(w.db, op).0).Goto(pid, next.value)
                   else w.(db := Step(w.db, op).0).End(pid)
    requires OneOk(SceneOf(w'), a, w.actions[a])
    requires RowEvolves(SceneOf(w), w.actions[a], SceneOf(w'), w.actions[a])
    requires pid in w.procs
             && (Owned(w.procs[pid]) == Some(a) || RowRespected(SceneOf(w), w.actions[a], SceneOf(w'), w.actions[a]))
    requires next.Some? ==>
               ProcOk(SceneOf(w'), w.actions, next.value)
               && (Owned(next.value).None? || Owned(next.value) == Owned(w.procs[pid]))
    ensures Ok(w')
  {
    hide Inv, NoKids, ViewOf, Unrevoked, Step, OneOk, ProcOk, RowEvolves, RowRespected, LeavesApart, NoncesApart,
         ListedActions, BalanceOk, SentKnown;
    OwnRequest(w, a, op);
    LocalKeepsOk(w, w', a, pid);
  }

  lemma ReserveMove(w: World, pid: nat, a: ActionId)
    requires Ok(w) && pid in w.procs && w.procs[pid] == AtReserve(a)
    ensures Ok(Advance(w, pid, w.procs[pid]))
  {
    hide Inv, NoKids, Unrevoked, LeavesApart, NoncesApart, ListedActions, BalanceOk, SentKnown, Step;
    assert ProcOk(SceneOf(w), w.actions, w.procs[pid]) && OneOk(SceneOf(w), a, w.actions[a]);
    var row := w.actions[a];
    LeafHasNoKids(w, a);
    InvIsShaped(w.db);
    LeafReserved(w.db, row);
    var op := Reserve(Own(LeafReserve), row.delegation, row.leaf, row.agent, row.amount);
    var reply := Step(w.db, op).1;
    var next := if reply.Done? || reply.Known? then Some(AtCommit(a))
                else if reply.Refused? then Some(AtRefuse(a)) else None;
    LeafMove(w, a, pid, op, next, Advance(w, pid, w.procs[pid]));
  }

  lemma LeafHasNoKids(w: World, a: ActionId)
    requires LeavesApart(w.db, w.actions) && a in w.actions
    ensures NoKids(w.db, w.actions[a].leaf) && w.actions[a].delegation != w.actions[a].leaf
  {
  }

  /** What a consumption about to be recorded says of the leaf, before and after. */
  lemma ConsumeKnows(payer: Account, row: ActionRow, view: View, used: bool, sent: bool, now: int, pc: Pc)
    requires ActionOk(payer, row, view, used, sent, now) && PcOk(pc, row, view, used, now) && pc.AtConsume?
    ensures view.Present? && LeafOk(row, view) && pc.cost > 0
  {
  }

  /** `view` became `view'` when the ledger answered, and `recorded` says whether the cost is on record. */
  lemma ConsumedKnows(payer: Account, row: ActionRow, view: View, used: bool, sent: bool, now: int, pc: Pc, view': View,
                      recorded: bool)
    requires ActionOk(payer, row, view, used, sent, now) && PcOk(pc, row, view, used, now) && pc.AtConsume?
    requires view.Present? && view'.Present? && LeafOk(row, view') && view'.row.active == view.row.active
    requires view'.own == view.own || (view'.own == view.own + pc.cost && view'.own <= row.amount && view.row.active)
    requires (recorded && pc.cost == row.amount && (view.own == 0 || view.own == row.amount)
              && (!view.row.active ==> view.own == row.amount)) ==> view'.own == row.amount
    ensures ActionOk(payer, row, view', used, sent, now)
    ensures Evolves(row, view, used, now, row, view', used, now) && OwnersPart(row, view, row, view')
    ensures recorded ==> PcOk(AtSettle(pc.a, pc.outcome, pc.final), row, view', used, now)
  {
  }

  lemma ConsumeMove(w: World, pid: nat, pc: Pc)
    requires Ok(w) && pid in w.procs && w.procs[pid] == pc && pc.AtConsume?
    ensures pc.a in w.actions && Ok(Advance(w, pid, pc))
  {
    hide Inv, NoKids, Unrevoked, LeavesApart, NoncesApart, ListedActions, BalanceOk, SentKnown, Step, ActionOk, PcOk,
         Evolves, OwnersPart, LeafOk;
    assert ProcOk(SceneOf(w), w.actions, pc) && OneOk(SceneOf(w), pc.a, w.actions[pc.a]);
    var row := w.actions[pc.a];
    var view, used, sent := ViewOf(w.db, row.leaf), w.Used(row), pc.a in w.sent;
    LeafHasNoKids(w, pc.a);
    InvIsShaped(w.db);
    ConsumeKnows(w.payer, row, view, used, sent, w.now, pc);
    LeafConsumed(w.db, row, pc.cost);
    var op := Consume(Own(LeafConsume), row.leaf, Some(pc.cost));
    var (db', reply) := Step(w.db, op);
    var recorded := !reply.Conflict? && !reply.Invalid?;
    ConsumedKnows(w.payer, row, view, used, sent, w.now, pc, ViewOf(db', row.leaf), recorded);
    var next := if recorded then Some(AtSettle(pc.a, pc.outcome, pc.final)) else None;
    LeafMove(w, pc.a, pid, op, next, Advance(w, pid, pc));
  }

  lemma SettleMove(w: World, pid: nat, pc: Pc)
    requires Ok(w) && pid in w.procs && w.procs[pid] == pc && pc.AtSettle?
    ensures pc.a in w.actions && Ok(Advance(w, pid, pc))
  {
    hide Inv, NoKids, Unrevoked, LeavesApart, NoncesApart, ListedActions, BalanceOk, SentKnown, Step;
    assert ProcOk(SceneOf(w), w.actions, pc) && OneOk(SceneOf(w), pc.a, w.actions[pc.a]);
    var row := w.actions[pc.a];
    LeafHasNoKids(w, pc.a);
    InvIsShaped(w.db);
    LeafSettled(w.db, row, pc.outcome);
    var op := Settle(Own(LeafSettle), row.leaf, pc.outcome);
    var next := if Step(w.db, op).1.Conflict? then None else Some(AtMark(pc.a, pc.final));
    LeafMove(w, pc.a, pid, op, next, Advance(w, pid, pc));
  }

  // ---- The other moves ----

  lemma AllNoKids(db: Db, actions: map<ActionId, ActionRow>)
    requires LeavesApart(db, actions)
    ensures forall a :: a in actions ==> NoKids(db, actions[a].leaf)
  {
  }

  /** The compare-and-set to AUTHORIZED, by the process that reserved the leaf. */
  lemma SignedRow(s: Scene, actions: map<ActionId, ActionRow>, a: ActionId, auth: Authorization)
    requires a in actions && OneOk(s, a, actions[a]) && ViewOf(s.db, actions[a].leaf).Present?
    requires actions[a].kind.X402? && actions[a].state == RESERVING
    requires auth.payer == s.payer && auth.to == actions[a].payTo && auth.value == actions[a].amount
    requires !AuthorizationState(s.chain, s.payer, auth.nonce)
    ensures var row' := actions[a].(state := AUTHORIZED, auth := Some(auth));
            && OneOk(s, a, row') && RowEvolves(s, actions[a], s, row') && TrackOf(row').Paying?
            && !NonceSpent(s.payer, s.chain, row') && !NonceSpent(s.payer, s.chain, actions[a])
  {
  }

  lemma SignedApart(actions: map<ActionId, ActionRow>, a: ActionId, row': ActionRow)
    requires NoncesApart(actions) && a in actions && row'.auth.Some?
    requires forall b :: b in actions && actions[b].auth.Some? ==>
               actions[b].auth.value.nonce != row'.auth.value.nonce
    ensures NoncesApart(actions[a := row'])
  {
  }

  lemma SignMove(w: World, pid: nat, a: ActionId, auth: Authorization)
    requires Ok(w) && pid in w.procs && w.procs[pid] == AtCommit(a) && a in w.actions
    requires w.actions[a].kind.X402? && w.actions[a].state == RESERVING
    requires auth.payer == w.payer && auth.to == w.actions[a].payTo && auth.value == w.actions[a].amount
    requires !AuthorizationState(w.chain, w.payer, auth.nonce)
    requires forall b :: b in w.actions && w.actions[b].auth.Some? ==> w.actions[b].auth.value.nonce != auth.nonce
    ensures Ok(w.(actions := w.actions[a := w.actions[a].(state := AUTHORIZED, auth := Some(auth))])
                .Goto(pid, AtSend(a)))
  {
    hide Inv, NoKids, Unrevoked, LeavesApart, NoncesApart, ListedActions, BalanceOk, SentKnown, ViewOf, Step;
    assert ProcOk(SceneOf(w), w.actions, w.procs[pid]) && OneOk(SceneOf(w), a, w.actions[a]);
    var w' := w.(actions := w.actions[a := w.actions[a].(state := AUTHORIZED, auth := Some(auth))])
               .Goto(pid, AtSend(a));
    AllNoKids(w.db, w.actions);
    SignedRow(SceneOf(w), w.actions, a, auth);
    SignedApart(w.actions, a, w'.actions[a]);
    hide ActionOk, Evolves, ActionsOk, ProcsOk;
    LocalKeepsOk(w, w', a, pid);
  }

  /** The signature leaves the process. */
  lemma SendMove(w: World, pid: nat, a: ActionId)
    requires Ok(w) && pid in w.procs && w.procs[pid] == AtSend(a)
    ensures Ok(Advance(w, pid, w.procs[pid]))
  {
    hide Inv, NoKids, Unrevoked, LeavesApart, NoncesApart, ListedActions, BalanceOk, ViewOf, Step;
    assert ProcOk(SceneOf(w), w.actions, w.procs[pid]) && OneOk(SceneOf(w), a, w.actions[a]);
    AllNoKids(w.db, w.actions);
    LocalKeepsOk(w, Advance(w, pid, w.procs[pid]), a, pid);
  }

  lemma BeginMove(w: World, pid: nat, a: ActionId, row: ActionRow)
    requires Ok(w) && pid !in w.procs && a !in w.actions && row.state == RESERVING && row.auth.None?
    requires row.leaf !in w.db.rows && !w.IsLeaf(row.leaf) && row.leaf != row.delegation
    requires (forall b :: b in w.actions ==> w.actions[b].delegation != row.leaf) && !w.IsLeaf(row.delegation)
    ensures Ok(w.(actions := w.actions[a := row], listed := w.listed + [a]).Goto(pid, AtReserve(a)))
  {
    BeginApart(w, a, row);
    hide Inv, Unrevoked, ViewOf, LeavesApart, ListedActions, ActionOk, PcOk, TotalMoved;
    BeginActions(w, a, row);
    BeginBalance(w, a, row);
    BeginProcs(w, pid, a, row);
    BeginNonces(w.actions, a, row);
    hide ActionsOk, ProcsOk, NoncesApart;
  }

  lemma BeginNonces(actions: map<ActionId, ActionRow>, a: ActionId, row: ActionRow)
    requires NoncesApart(actions) && row.auth.None?
    ensures NoncesApart(actions[a := row])
  {
  }

  lemma BeginBalance(w: World, a: ActionId, row: ActionRow)
    requires ListedActions(w.actions, w.listed) && a !in w.actions && row.auth.None?
    ensures TotalMoved(w.payer, w.chain, w.actions[a := row], w.listed + [a])
         == TotalMoved(w.payer, w.chain, w.actions, w.listed)
  {
    ListedKnown(w.actions, w.listed);
    SumSnoc(w.listed, a, b => Moved(w.payer, w.chain, w.actions[a := row], b));
    SameMoved(w.payer, w.chain, w.actions, w.chain, w.actions[a := row], w.listed);
  }

  lemma BeginProcs(w: World, pid: nat, a: ActionId, row: ActionRow)
    requires ProcsOk(SceneOf(w), w.actions, w.procs) && pid !in w.procs && a !in w.actions
    requires row.leaf !in w.db.rows && row.state == RESERVING
    ensures ProcsOk(SceneOf(w), w.actions[a := row], w.procs[pid := AtReserve(a)])
  {
    hide ViewOf, PcOk;
    FreshPcOk(w.db, row, AtReserve(a), w.Used(row), w.now);
    forall q | q in w.procs
      ensures ProcOk(SceneOf(w), w.actions[a := row], w.procs[q])
    {
      assert ProcOk(SceneOf(w), w.actions, w.procs[q]);
    }
  }

  lemma FreshPcOk(db: Db, row: ActionRow, pc: Pc, used: bool, now: int)
    requires row.leaf !in db.rows && row.state == RESERVING && pc.AtReserve?
    ensures PcOk(pc, row, ViewOf(db, row.leaf), used, now)
  {
  }

  lemma BeginApart(w: World, a: ActionId, row: ActionRow)
    requires Inv(w.db) && LeavesApart(w.db, w.actions) && ListedActions(w.actions, w.listed)
    requires a !in w.actions && row.leaf !in w.db.rows && !w.IsLeaf(row.leaf) && row.leaf != row.delegation
    requires (forall b :: b in w.actions ==> w.actions[b].delegation != row.leaf) && !w.IsLeaf(row.delegation)
    ensures LeavesApart(w.db, w.actions[a := row]) && ListedActions(w.actions[a := row], w.listed + [a])
  {
    hide Slots, SettledSpend, OwnSpend, Solvent;
    forall x
      ensures !ChildOf(w.db.rows, x, row.leaf)
    {
    }
  }

  lemma BeginActions(w: World, a: ActionId, row: ActionRow)
    requires ActionsOk(SceneOf(w), w.actions) && SentKnown(w.sent, w.actions)
    requires a !in w.actions && row.leaf !in w.db.rows && row.state == RESERVING && row.auth.None?
    ensures ActionsOk(SceneOf(w), w.actions[a := row])
  {
  }

  /** A sent signature is executed by the chain. */
  lemma TransferMove(w: World, a: ActionId)
    requires Ok(w) && Enabled(w, Transfer(a))
    ensures Ok(Next(w, Transfer(a)))
  {
    hide Inv, NoKids, Unrevoked, ListedActions, LeavesApart, ViewOf;
    var w' := Next(w, Transfer(a));
    var auth := w.actions[a].auth.value;
    assert OneOk(SceneOf(w), a, w.actions[a]);
    TransferRules(w.chain, auth, true, w.actions[a].payTo, w.actions[a].amount, w.now);
    forall b | b in w.actions && b != a
      ensures w'.Used(w.actions[b]) == w.Used(w.actions[b])
    {
      assert w.actions[b].auth.Some? ==> w.actions[b].auth.value.nonce != auth.nonce;
    }
    TransferBalance(w, a);
    TransferActions(w, w', a);
    TransferProcs(w, w', a);
  }

  lemma TransferBalance(w: World, a: ActionId)
    requires Ok(w) && Enabled(w, Transfer(a))
    requires forall b :: b in w.actions && b != a ==>
               NonceSpent(w.payer, Transferred(w.chain, w.actions[a].auth.value), w.actions[b])
               == NonceSpent(w.payer, w.chain, w.actions[b])
    ensures BalanceOk(w.payer, Transferred(w.chain, w.actions[a].auth.value), w.funded, w.actions, w.listed)
  {
    hide Inv, NoKids, Unrevoked, LeavesApart, ViewOf, NoncesApart;
    assert OneOk(SceneOf(w), a, w.actions[a]);
    var chain' := Transferred(w.chain, w.actions[a].auth.value);
    TransferRules(w.chain, w.actions[a].auth.value, true, w.actions[a].payTo, w.actions[a].amount, w.now);
    var k :| 0 <= k < |w.listed| && w.listed[k] == a;
    SumChange(w.listed, k, b => Moved(w.payer, w.chain, w.actions, b), b => Moved(w.payer, chain', w.actions, b));
  }

  lemma TransferActions(w: World, w': World, a: ActionId)
    requires ActionsOk(SceneOf(w), w.actions) && Enabled(w, Transfer(a))
    requires w' == w.(chain := Transferred(w.chain, w.actions[a].auth.value))
    requires w'.Used(w.actions[a])
    requires forall b :: b in w.actions && b != a ==> w'.Used(w.actions[b]) == w.Used(w.actions[b])
    ensures ActionsOk(SceneOf(w'), w.actions)
  {
  }

  lemma TransferProcs(w: World, w': World, a: ActionId)
    requires ProcsOk(SceneOf(w), w.actions, w.procs) && Enabled(w, Transfer(a)) && w' == w.(chain := w'.chain)
    requires w'.Used(w.actions[a])
    requires forall b :: b in w.actions && b != a ==> w'.Used(w.actions[b]) == w.Used(w.actions[b])
    ensures ProcsOk(SceneOf(w'), w.actions, w.procs)
  {
  }

  lemma TickMove(w: World, time: int)
    requires Ok(w) && w.now <= time
    ensures Ok(w.(now := time))
  {
    hide Inv, NoKids, Unrevoked, LeavesApart, NoncesApart, ListedActions, BalanceOk, ViewOf;
    var w' := w.(now := time);
    forall b | b in w.actions
      ensures OneOk(SceneOf(w'), b, w.actions[b])
    {
      assert OneOk(SceneOf(w), b, w.actions[b]);
    }
    forall q | q in w.procs
      ensures ProcOk(SceneOf(w'), w.actions, w.procs[q])
    {
      assert ProcOk(SceneOf(w), w.actions, w.procs[q]);
    }
  }

  lemma MintMove(w: World, who: Account, atomic: nat)
    requires Ok(w)
    ensures Ok(Next(w, Mint(who, atomic)))
  {
    hide Inv, NoKids, Unrevoked, LeavesApart, NoncesApart, ListedActions, ViewOf, ActionOk, PcOk;
    var w' := Next(w, Mint(who, atomic));
    SameMoved(w.payer, w.chain, w.actions, w'.chain, w.actions, w.listed);
    forall b | b in w.actions
      ensures OneOk(SceneOf(w'), b, w.actions[b])
    {
      assert OneOk(SceneOf(w), b, w.actions[b]);
    }
    forall q | q in w.procs
      ensures ProcOk(SceneOf(w'), w.actions, w.procs[q])
    {
      assert ProcOk(SceneOf(w), w.actions, w.procs[q]);
    }
  }

  // ---- A process's own steps ----

  /** What the row's state allows a reconciling process to do next. */
  lemma ReadKnows(payer: Account, a: ActionId, row: ActionRow, view: View, used: bool, sent: bool, now: int)
    requires ActionOk(payer, row, view, used, sent, now)
    ensures row.state.RESERVING? ==> PcOk(AtClaim(a), row, view, used, now)
    ensures row.state.ABANDONING? ==> PcOk(Close(a, None, "abandoned", ABANDONED), row, view, used, now)
    ensures row.state.CALLING? ==> PcOk(Close(a, Some(row.amount), "completed", SETTLED), row, view, used, now)
    ensures row.state.AUTHORIZED? ==> PcOk(AtChain(a), row, view, used, now)
  {
  }

  /** Reading the action row decides what to close, and with what. */
  lemma ReadMove(w: World, pid: nat, pc: Pc)
    requires Ok(w) && pid in w.procs && w.procs[pid] == pc && pc.AtReconcile?
    ensures pc.a in w.actions && Ok(Advance(w, pid, pc))
  {
    hide Inv, NoKids, Unrevoked, LeavesApart, NoncesApart, ListedActions, BalanceOk, SentKnown, ViewOf, Step,
         ActionOk, PcOk;
    assert ProcOk(SceneOf(w), w.actions, pc) && OneOk(SceneOf(w), pc.a, w.actions[pc.a]);
    var row := w.actions[pc.a];
    ReadKnows(w.payer, pc.a, row, ViewOf(w.db, row.leaf), w.Used(row), pc.a in w.sent, w.now);
    var w' := Advance(w, pid, pc);
    PcMove(w, pid, if pid in w'.procs then Some(w'.procs[pid]) else None, w');
  }

  lemma ChainKnows(payer: Account, a: ActionId, row: ActionRow, view: View, used: bool, sent: bool, now: int)
    requires ActionOk(payer, row, view, used, sent, now) && PcOk(AtChain(a), row, view, used, now)
    ensures PcOk(if used then Close(a, Some(row.amount), "settled", SETTLED) else AtClock(a), row, view, used, now)
  {
  }

  lemma ClockKnows(payer: Account, a: ActionId, row: ActionRow, view: View, used: bool, sent: bool, now: int)
    requires ActionOk(payer, row, view, used, sent, now) && PcOk(AtClock(a), row, view, used, now)
    requires row.auth.Some? && now > row.auth.value.validBefore && !used
    ensures PcOk(Close(a, None, "expired", EXPIRED), row, view, used, now)
  {
  }

  /** So does reading the chain. */
  lemma ChainMove(w: World, pid: nat, pc: Pc)
    requires Ok(w) && pid in w.procs && w.procs[pid] == pc && pc.AtChain?
    ensures pc.a in w.actions && Ok(Advance(w, pid, pc))
  {
    hide Inv, NoKids, Unrevoked, LeavesApart, NoncesApart, ListedActions, BalanceOk, SentKnown, ViewOf, Step,
         ActionOk, PcOk;
    assert ProcOk(SceneOf(w), w.actions, pc) && OneOk(SceneOf(w), pc.a, w.actions[pc.a]);
    var row := w.actions[pc.a];
    ChainKnows(w.payer, pc.a, row, ViewOf(w.db, row.leaf), w.Used(row), pc.a in w.sent, w.now);
    var w' := Advance(w, pid, pc);
    PcMove(w, pid, if pid in w'.procs then Some(w'.procs[pid]) else None, w');
  }

  /** And reading the clock, unless a transfer landed since the chain was read. */
  lemma ClockMove(w: World, pid: nat, pc: Pc)
    requires Ok(w) && pid in w.procs && w.procs[pid] == pc && pc.AtClock?
    requires !LateTransferMissed(w, Go(pid))
    ensures pc.a in w.actions && Ok(Advance(w, pid, pc))
  {
    hide Inv, NoKids, Unrevoked, LeavesApart, NoncesApart, ListedActions, BalanceOk, SentKnown, ViewOf, Step,
         ActionOk, PcOk;
    assert ProcOk(SceneOf(w), w.actions, pc) && OneOk(SceneOf(w), pc.a, w.actions[pc.a]);
    var row := w.actions[pc.a];
    var w' := Advance(w, pid, pc);
    if row.auth.Some? && w.now > row.auth.value.validBefore {
      ClockKnows(w.payer, pc.a, row, ViewOf(w.db, row.leaf), w.Used(row), pc.a in w.sent, w.now);
    }
    PcMove(w, pid, if pid in w'.procs then Some(w'.procs[pid]) else None, w');
  }

  lemma ClaimMove(w: World, pid: nat, a: ActionId)
    requires Ok(w) && pid in w.procs && w.procs[pid] == AtClaim(a)
    ensures a in w.actions && Ok(Advance(w, pid, AtClaim(a)))
  {
    hide Inv, NoKids, Unrevoked, LeavesApart, NoncesApart, ListedActions, BalanceOk, SentKnown, ViewOf, Step;
    assert ProcOk(SceneOf(w), w.actions, w.procs[pid]) && OneOk(SceneOf(w), a, w.actions[a]);
    if w.actions[a].state == RESERVING {
      RowMove(w, a, pid, ABANDONING, Some(Close(a, None, "abandoned", ABANDONED)));
    } else {
      PcMove(w, pid, Some(AtReconcile(a)), Advance(w, pid, AtClaim(a)));
    }
  }

  lemma WriteMove(w: World, pid: nat, pc: Pc)
    requires Ok(w) && pid in w.procs && w.procs[pid] == pc && (pc.AtRefuse? || pc.AtMark?)
    ensures pc.a in w.actions && Ok(Advance(w, pid, pc))
  {
    hide Inv, NoKids, Unrevoked, LeavesApart, NoncesApart, ListedActions, BalanceOk, SentKnown, ViewOf, Step;
    assert ProcOk(SceneOf(w), w.actions, pc) && OneOk(SceneOf(w), pc.a, w.actions[pc.a]);
    RowMove(w, pc.a, pid, if pc.AtMark? then pc.final else REFUSED, None);
  }

  lemma CommitMove(w: World, pid: nat, a: ActionId)
    requires Ok(w) && pid in w.procs && w.procs[pid] == AtCommit(a) && a in w.actions && w.actions[a].kind.Model?
    ensures Ok(Advance(w, pid, AtCommit(a)))
  {
    hide Inv, NoKids, Unrevoked, LeavesApart, NoncesApart, ListedActions, BalanceOk, SentKnown, ViewOf, Step;
    assert ProcOk(SceneOf(w), w.actions, w.procs[pid]) && OneOk(SceneOf(w), a, w.actions[a]);
    if w.actions[a].state == RESERVING {
      RowMove(w, a, pid, CALLING, Some(AtCall(a)));
    } else {
      PcMove(w, pid, None, Advance(w, pid, AtCommit(a)));
    }
  }

  /** A provider's bill, cut to what was reserved, may be closed with. */
  lemma BillKnows(payer: Account, a: ActionId, row: ActionRow, view: View, used: bool, sent: bool, now: int, cost: int)
    requires ActionOk(payer, row, view, used, sent, now) && PcOk(AtCall(a), row, view, used, now)
    ensures PcOk(Close(a, Some(Min(cost, row.amount)), "completed", SETTLED), row, view, used, now)
  {
  }

  lemma BillMove(w: World, pid: nat, cost: int)
    requires Ok(w) && Enabled(w, Bill(pid, cost))
    ensures Ok(Next(w, Bill(pid, cost)))
  {
    hide Inv, NoKids, Unrevoked, LeavesApart, NoncesApart, ListedActions, BalanceOk, SentKnown, ViewOf, Step, ActionOk,
         PcOk;
    var a := w.procs[pid].a;
    var row := w.actions[a];
    assert ProcOk(SceneOf(w), w.actions, w.procs[pid]) && OneOk(SceneOf(w), a, row);
    BillKnows(w.payer, a, row, ViewOf(w.db, row.leaf), w.Used(row), a in w.sent, w.now, cost);
    PcMove(w, pid, Some(Close(a, Some(Min(cost, row.amount)), "completed", SETTLED)), Next(w, Bill(pid, cost)));
  }

  lemma AdvanceKeepsOk(w: World, pid: nat)
    requires Ok(w) && Enabled(w, Go(pid)) && !LateTransferMissed(w, Go(pid))
    ensures Ok(Next(w, Go(pid)))
  {
    var pc := w.procs[pid];
    match pc
    case AtReserve(a) => ReserveMove(w, pid, a);
    case AtRefuse(_) => WriteMove(w, pid, pc);
    case AtCommit(a) => CommitMove(w, pid, a);
    case AtSend(a) => SendMove(w, pid, a);
    case AtReconcile(_) => ReadMove(w, pid, pc);
    case AtClaim(a) => ClaimMove(w, pid, a);
    case AtChain(_) => ChainMove(w, pid, pc);
    case AtClock(_) => ClockMove(w, pid, pc);
    case AtConsume(_, _, _, _) => ConsumeMove(w, pid, pc);
    case AtSettle(_, _, _) => SettleMove(w, pid, pc);
    case AtMark(_, _) => WriteMove(w, pid, pc);
  }

  lemma OkIsInv(w: World)
    requires Ok(w)
    ensures Inv(w.db)
  {
  }

  /** Every move keeps the invariant, crashes included, as long as no late transfer is missed. */
  lemma MoveKeepsOk(w: World, m: Move)
    requires Ok(w) && Enabled(w, m) && !LateTransferMissed(w, m)
    ensures Ok(Next(w, m))
  {
    hide Ok, Step, Advance;
    OkIsInv(w);
    match m
    case OpenWork(root, agent, budget) => ElsewhereKeepsOk(w, CreateRoot(Own(Stage.Open), root, agent, budget));
    case DelegateTo(parent, child, agent, maximum) =>
      ElsewhereKeepsOk(w, Reserve(Own(Delegate), parent, child, agent, maximum));
    case FinishOf(d) => ElsewhereKeepsOk(w, Settle(Own(Finish), d, "finished"));
    case Begin(pid, a, row) => BeginMove(w, pid, a, row);
    case Go(pid) => AdvanceKeepsOk(w, pid);
    case Sign(pid, auth) =>
      if w.actions[w.procs[pid].a].state == RESERVING {
        SignMove(w, pid, w.procs[pid].a, auth);
      } else {
        PcMove(w, pid, None, Next(w, m));
      }
    case Bill(pid, cost) => BillMove(w, pid, cost);
    case Reconcile(pid, a) => PcMove(w, pid, Some(AtReconcile(a)), Next(w, m));
    case Crash(pid) => PcMove(w, pid, None, Next(w, m));
    case Transfer(a) => TransferMove(w, a);
    case Mint(who, atomic) => MintMove(w, who, atomic);
    case Tick(time) => TickMove(w, time);
  }
}
