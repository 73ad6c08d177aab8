/** What every move of the runtime keeps, as long as no late transfer is missed. */
module RuntimeInvariant {
  import opened Common
  import opened Ledger
  import opened LedgerInvariant
  import opened LedgerTheorems
  import opened UsdcChain
  import opened Runtime

  // ---- One action ----

  /** The irrevocable choice an action's state stands for. Leaving `Open` is a compare-and-set. */
  datatype Track = Open | Dropped | Calling | Paying | Broken

  function TrackOf(row: ActionRow): Track {
    match row.state
    case RESERVING => Track.Open
    case REFUSED => Dropped
    case ABANDONING => Dropped
    case ABANDONED => Dropped
    case CALLING => if row.kind.Model? then Calling else Broken
    case AUTHORIZED => if row.kind.X402? then Paying else Broken
    case EXPIRED => if row.kind.X402? then Paying else Broken
    case SETTLED => if row.kind.X402? then Paying else Calling
  }

  /** What the ledger knows about an action's leaf. */
  datatype View = Absent | Present(row: Row, own: int)

  ghost function ViewOf(db: Db, leaf: Id): View {
    if leaf in db.rows then Present(db.rows[leaf], OwnSpend(db.log, leaf)) else Absent
  }

  /** The signed payment can never go through any more. */
  predicate Dead(row: ActionRow, used: bool, now: int) {
    row.auth.Some? && !used && row.auth.value.validBefore <= now
  }

  predicate LeafOk(row: ActionRow, view: View) {
    view.Present? ==>
      && view.row.parent == Some(row.delegation)
      && 0 <= row.amount == view.row.authority
      && view.row.childReserved == 0
      && 0 <= view.own == view.row.consumed
  }

  /** What a final state tells: a settled payment went through and is recorded as spent, an expired one can
      never go through, and what was refused or abandoned was never signed and cost nothing. */
  predicate FinalTells(row: ActionRow, view: View, used: bool, now: int) {
    && (row.state.SETTLED? && row.kind.X402? ==> used && view.Present? && view.own == row.amount)
    && (row.state.EXPIRED? ==> Dead(row, used, now))
    && (row.state.ABANDONED? || row.state.REFUSED? ==> row.auth.None? && (view.Present? ==> view.own == 0))
  }

  predicate ActionOk(payer: Account, row: ActionRow, view: View, used: bool, sent: bool, now: int) {
    && LeafOk(row, view)
    && (row.auth.Some? <==> TrackOf(row).Paying?)
    && (row.auth.Some? ==>
          row.auth.value.payer == payer && row.auth.value.to == row.payTo && row.auth.value.value == row.amount)
    && (sent ==> TrackOf(row).Paying?)
    && (used ==> sent)
    && FinalTells(row, view, used, now)
    && match TrackOf(row)
       case Open => view.Present? ==> view.row.active && view.own == 0
       case Dropped => view.Present? ==> view.own == 0
       case Calling => view.Present? && view.own <= row.amount
       case Paying =>
         && view.Present?
         && (view.own == 0 || view.own == row.amount)
         && (!view.row.active ==> view.own == row.amount || Dead(row, used, now))
       case Broken => false
  }

  /** A process remembers nothing about its action that can turn out false. */
  predicate PcOk(pc: Pc, row: ActionRow, view: View, used: bool, now: int) {
    var track := TrackOf(row);
    match pc
    case AtReserve(_) => view.Absent? && (track.Open? || track.Dropped?)
    case AtRefuse(_) => view.Absent? && (track.Open? || track.Dropped?)
    case AtCommit(_) => view.Present? && (track.Open? || track.Dropped?)
    case AtSend(_) => track.Paying?
    case AtCall(_) => track.Calling?
    case AtReconcile(_) => true
    case AtClaim(_) => true
    case AtChain(_) => track.Paying?
    case AtClock(_) => track.Paying?
    case AtConsume(_, cost, _, final) =>
      final.SETTLED? && cost > 0 && FinalOk(final, row, used, now)
      && (if track.Paying? then cost == row.amount else cost <= row.amount)
    case AtSettle(_, _, final) =>
      FinalOk(final, row, used, now) && (final.SETTLED? && track.Paying? ==> view.Present? && view.own == row.amount)
    case AtMark(_, final) =>
      FinalOk(final, row, used, now) && (final.SETTLED? && track.Paying? ==> view.Present? && view.own == row.amount)
  }

  predicate FinalOk(final: Runtime.State, row: ActionRow, used: bool, now: int) {
    var track := TrackOf(row);
    match final
    case ABANDONED => track.Dropped?
    case EXPIRED => track.Paying? && Dead(row, used, now)
    case SETTLED => track.Calling? || (track.Paying? && used)
    case _ => false
  }

  /** Only the process that inserted an action can take it out of RESERVING towards spending. */
  function Owned(pc: Pc): Option<ActionId> {
    match pc
    case AtReserve(a) => Some(a)
    case AtRefuse(a) => Some(a)
    case AtCommit(a) => Some(a)
    case _ => None
  }

  // ---- The whole world ----

  ghost predicate Unrevoked(db: Db) {
    forall x :: x in db.rows ==> !db.rows[x].revoking
  }

  ghost predicate NoKids(db: Db, leaf: Id) {
    forall x :: !ChildOf(db.rows, x, leaf)
  }

  ghost predicate LeavesApart(db: Db, actions: map<ActionId, ActionRow>) {
    && (forall a :: a in actions ==> NoKids(db, actions[a].leaf))
    && (forall a, b :: a in actions && b in actions && a != b ==> actions[a].leaf != actions[b].leaf)
    && (forall a, b :: a in actions && b in actions ==> actions[a].delegation != actions[b].leaf)
  }

  ghost predicate NoncesApart(actions: map<ActionId, ActionRow>) {
    forall a, b :: a in actions && b in actions && a != b && actions[a].auth.Some? && actions[b].auth.Some?
      ==> actions[a].auth.value.nonce != actions[b].auth.value.nonce
  }

  ghost predicate ListedActions(actions: map<ActionId, ActionRow>, listed: seq<ActionId>) {
    && (forall a :: a in actions <==> a in listed)
    && (forall i, j :: 0 <= i < j < |listed| ==> listed[i] != listed[j])
  }

  /** What an action's health depends on besides its row: the ledger, the chain, and the clock. */
  datatype Scene = Scene(payer: Account, db: Db, chain: Chain, sent: set<ActionId>, now: int)

  function SceneOf(w: World): Scene {
    Scene(w.payer, w.db, w.chain, w.sent, w.now)
  }

  ghost predicate OneOk(s: Scene, a: ActionId, row: ActionRow) {
    && ActionOk(s.payer, row, ViewOf(s.db, row.leaf), NonceSpent(s.payer, s.chain, row), a in s.sent, s.now)
    && (NonceSpent(s.payer, s.chain, row) ==> s.chain.used[(s.payer, row.auth.value.nonce)] == row.amount)
  }

  ghost predicate ActionsOk(s: Scene, actions: map<ActionId, ActionRow>) {
    forall a :: a in actions ==> OneOk(s, a, actions[a])
  }

  ghost predicate ProcOk(s: Scene, actions: map<ActionId, ActionRow>, pc: Pc) {
    && pc.a in actions
    && PcOk(pc, actions[pc.a], ViewOf(s.db, actions[pc.a].leaf), NonceSpent(s.payer, s.chain, actions[pc.a]), s.now)
  }

  ghost predicate ProcsOk(s: Scene, actions: map<ActionId, ActionRow>, procs: map<nat, Pc>) {
    && (forall p :: p in procs ==> ProcOk(s, actions, procs[p]))
    && (forall p, q :: p in procs && q in procs && p != q && Owned(procs[p]).Some? ==>
          Owned(procs[p]) != Owned(procs[q]))
  }

  function Moved(payer: Account, chain: Chain, actions: map<ActionId, ActionRow>, a: ActionId): int {
    if a in actions && NonceSpent(payer, chain, actions[a]) then actions[a].amount else 0
  }

  ghost function TotalMoved(payer: Account, chain: Chain, actions: map<ActionId, ActionRow>,
                            listed: seq<ActionId>): int {
    Sum(listed, a => Moved(payer, chain, actions, a))
  }

  /** The payer's balance fell by no more than the actions' own payments. */
  ghost predicate BalanceOk(payer: Account, chain: Chain, funded: int, actions: map<ActionId, ActionRow>,
                            listed: seq<ActionId>) {
    BalanceOf(chain, payer) >= funded - TotalMoved(payer, chain, actions, listed)
  }

  ghost predicate SentKnown(sent: set<ActionId>, actions: map<ActionId, ActionRow>) {
    forall a :: a in sent ==> a in actions
  }

  ghost predicate Ok(w: World) {
    && Inv(w.db) && Unrevoked(w.db) && LeavesApart(w.db, w.actions) && NoncesApart(w.actions)
    && ListedActions(w.actions, w.listed)
    && ActionsOk(SceneOf(w), w.actions) && ProcsOk(SceneOf(w), w.actions, w.procs)
    && BalanceOk(w.payer, w.chain, w.funded, w.actions, w.listed)
    && SentKnown(w.sent, w.actions)
  }

  // ---- The ledger seen from a leaf ----

  /** A request about another delegation leaves a childless leaf as it is. */
  lemma OtherRequest(db: Db, op: Op, leaf: Id)
    requires Inv(db) && !op.Mark? && op.id != leaf && NoKids(db, leaf)
    requires op.Reserve? ==> op.parent != leaf
    ensures ViewOf(Step(db, op).0, leaf) == ViewOf(db, leaf)
    ensures NoKids(Step(db, op).0, leaf)
  {
    hide Slots, SettledSpend, OwnSpend, Revoking, ActiveBelow, Solvent, Record;
    if Decide(db, op).Accept? {
      var entry := Decide(db, op).entry;
      AcceptedApplies(db, op);
      AcceptedShape(db, op);
      hide Decide;
      OtherRecord(db, entry, leaf);
      SpendAfter(db.log, entry, leaf);
    }
  }

  lemma AcceptedShape(db: Db, op: Op)
    requires Forest(db.rows) && !op.Mark? && Decide(db, op).Accept?
    ensures Decide(db, op).entry.delegation == op.id
    ensures Decide(db, op).entry.fact.Reservation? ==> op.Reserve? && Decide(db, op).entry.fact.parent == op.parent
  {
  }

  lemma OtherRecord(db: Db, entry: Entry, leaf: Id)
    requires Applies(db.rows, entry) && entry.delegation != leaf && NoKids(db, leaf)
    requires entry.fact.Reservation? ==> entry.fact.parent != leaf
    ensures var db' := Record(db, entry);
            && (leaf in db'.rows <==> leaf in db.rows)
            && (leaf in db.rows ==> db'.rows[leaf] == db.rows[leaf])
            && NoKids(db', leaf) && db'.log == db.log + [entry]
  {
    assert !ChildOf(db.rows, entry.delegation, leaf);
    forall x
      ensures !ChildOf(Record(db, entry).rows, x, leaf)
    {
      assert !ChildOf(db.rows, x, leaf);
    }
  }

  lemma StaysUnrevoked(db: Db, op: Op)
    requires Inv(db) && Unrevoked(db) && !op.Mark?
    ensures Unrevoked(Step(db, op).0)
  {
    hide Slots, SettledSpend, OwnSpend, Revoking, ActiveBelow, Solvent, Record;
    if Decide(db, op).Accept? {
      AcceptedApplies(db, op);
      RecordStaysUnrevoked(db, Decide(db, op).entry);
    }
  }

  lemma RecordStaysUnrevoked(db: Db, entry: Entry)
    requires Unrevoked(db) && Applies(db.rows, entry)
    ensures Unrevoked(Record(db, entry))
  {
  }

  lemma NeverRevoking(db: Db, d: Id)
    requires Forest(db.rows) && Unrevoked(db)
    ensures !Revoking(db.rows, d)
  {
  }

  // ---- A leaf's own requests ----

  lemma LeafReserved(db: Db, row: ActionRow)
    requires Inv(db) && row.leaf !in db.rows && row.delegation != row.leaf && NoKids(db, row.leaf)
    ensures var (db', reply) :=
              Step(db, Reserve(Own(LeafReserve), row.delegation, row.leaf, row.agent, row.amount));
            var view := ViewOf(db', row.leaf);
            && NoKids(db', row.leaf) && !reply.Known?
            && (reply.Done? ==> view.Present? && LeafOk(row, view) && view.row.active && view.own == 0)
            && (!reply.Done? ==> db' == db)
  {
    hide Slots, SettledSpend, Revoking, ActiveBelow, Solvent;
    var op := Reserve(Own(LeafReserve), row.delegation, row.leaf, row.agent, row.amount);
    NoSpendYet(db, row.leaf);
    if Decide(db, op).Accept? {
      SpendAfter(db.log, Decide(db, op).entry, row.leaf);
      forall x
        ensures !ChildOf(Record(db, Decide(db, op).entry).rows, x, row.leaf)
      {
        assert !ChildOf(db.rows, x, row.leaf);
      }
    }
  }

  lemma SpendAtLeast(db: Db, d: Id, event: EventId, cost: int)
    requires LogSound(db) && Entry(d, event, Consumption(Some(cost))) in db.log
    ensures cost <= OwnSpend(db.log, d)
  {
    var entry := Entry(d, event, Consumption(Some(cost)));
    var k :| 0 <= k < |db.log| && db.log[k] == entry;
    SumCovers(db.log, k, e => KnownCost(e, d));
  }

  lemma LeafConsumed(db: Db, row: ActionRow, cost: int)
    requires Inv(db) && Unrevoked(db) && row.leaf in db.rows && NoKids(db, row.leaf)
    requires LeafOk(row, ViewOf(db, row.leaf)) && cost > 0
    ensures var (db', reply) := Step(db, Consume(Own(LeafConsume), row.leaf, Some(cost)));
            var view, view' := ViewOf(db, row.leaf), ViewOf(db', row.leaf);
            && NoKids(db', row.leaf)
            && view'.Present? && LeafOk(row, view') && view'.row.active == view.row.active
            && (view'.own == view.own || (view'.own == view.own + cost && view'.own <= row.amount && view.row.active))
            && (!reply.Conflict? && !reply.Invalid? && cost == row.amount
                && (view.own == 0 || view.own == row.amount) && (!view.row.active ==> view.own == row.amount)
                ==> view'.own == row.amount)
  {
    hide Slots, SettledSpend, OwnSpend, Revoking, ActiveBelow, Solvent;
    var op := Consume(Own(LeafConsume), row.leaf, Some(cost));
    NeverRevoking(db, row.leaf);
    var entry := Requested(op);
    if entry in db.log {
      SpendAtLeast(db, row.leaf, Own(LeafConsume), cost);
    }
    if Decide(db, op).Accept? {
      SpendAfter(db.log, entry, row.leaf);
      forall x
        ensures !ChildOf(Record(db, entry).rows, x, row.leaf)
      {
        assert !ChildOf(db.rows, x, row.leaf);
      }
    }
  }

  lemma LeafSettled(db: Db, row: ActionRow, outcome: string)
    requires Inv(db) && NoKids(db, row.leaf) && row.delegation != row.leaf
    requires LeafOk(row, ViewOf(db, row.leaf))
    ensures var (db', reply) := Step(db, Settle(Own(LeafSettle), row.leaf, outcome));
            var view, view' := ViewOf(db, row.leaf), ViewOf(db', row.leaf);
            && NoKids(db', row.leaf)
            && (view.Absent? ==> view'.Absent?)
            && (view.Present? ==>
                  view'.Present? && LeafOk(row, view') && view'.own == view.own
                  && (view'.row.active ==> view.row.active))
  {
    hide Slots, SettledSpend, OwnSpend, Revoking, ActiveBelow, Solvent;
    var op := Settle(Own(LeafSettle), row.leaf, outcome);
    if Decide(db, op).Accept? {
      SpendAfter(db.log, Requested(op), row.leaf);
      forall x
        ensures !ChildOf(Record(db, Requested(op)).rows, x, row.leaf)
      {
        assert !ChildOf(db.rows, x, row.leaf);
      }
    }
  }
}
