/**
  examples/agent_economy/authority.py as a state machine. Several processes share the ledger, the
  `actions` table and the payer's key. Each move is one durable write, one read, one provider call or
  one request leaving a process, and a process may crash between any two of them.
 */
module Runtime {
  import opened Common
  import opened Ledger
  import opened LedgerInvariant
  import opened UsdcChain

  type ActionId(==,!new,0)

  datatype Kind = X402 | Model

  datatype State = RESERVING | REFUSED | AUTHORIZED | CALLING | ABANDONING | ABANDONED | SETTLED | EXPIRED

  /** One row of `actions`. `leaf` is the id of the action's own delegation, which embeds the fresh
      random action id. `auth` holds the nonce and window written when the state becomes AUTHORIZED. */
  datatype ActionRow = ActionRow(
    delegation: Id, leaf: Id, agent: Name, kind: Kind, amount: int, payTo: Account, state: State,
    auth: Option<Authorization>)

  /** Where a process is: what it does next, and what it remembers for it. */
  datatype Pc =
    | AtReserve(a: ActionId)    // row inserted, leaf not reserved yet
    | AtRefuse(a: ActionId)     // reservation rejected
    | AtCommit(a: ActionId)     // leaf reserved, compare-and-set out of RESERVING pending
    | AtSend(a: ActionId)       // AUTHORIZED is durable, signature still inside the process
    | AtCall(a: ActionId)       // provider call outstanding
    | AtReconcile(a: ActionId)  // about to read the action row
    | AtClaim(a: ActionId)      // saw RESERVING, about to compare-and-set to ABANDONING
    | AtChain(a: ActionId)      // saw AUTHORIZED, about to read the chain
    | AtClock(a: ActionId)      // the chain said unused, about to read the clock
    | AtConsume(a: ActionId, cost: int, outcome: string, final: State)
    | AtSettle(a: ActionId, outcome: string, final: State)
    | AtMark(a: ActionId, final: State)

  /** `sent` are the actions whose signature has left the runtime. `funded` is what was ever minted
      to the payer. */
  datatype World = World(
    payer: Account, db: Db, actions: map<ActionId, ActionRow>, listed: seq<ActionId>, procs: map<nat, Pc>,
    sent: set<ActionId>, chain: Chain, funded: int, now: int)
  {
    function SetState(a: ActionId, s: State): World
      requires a in actions
    {
      this.(actions := actions[a := actions[a].(state := s)])
    }

    function Goto(pid: nat, pc: Pc): World {
      this.(procs := procs[pid := pc])
    }

    function End(pid: nat): World {
      this.(procs := procs - {pid})
    }

    predicate Used(row: ActionRow) {
      NonceSpent(payer, chain, row)
    }

    predicate IsLeaf(d: Id) {
      exists a :: a in actions && actions[a].leaf == d
    }
  }

  /** Whether the chain has used the nonce signed for this action. */
  predicate NonceSpent(payer: Account, chain: Chain, row: ActionRow) {
    row.auth.Some? && AuthorizationState(chain, payer, row.auth.value.nonce)
  }

  predicate Terminal(s: State) {
    s.REFUSED? || s.SETTLED? || s.EXPIRED? || s.ABANDONED?
  }

  /** `_close_leaf`: record a positive cost, if there is one, then settle the leaf, then set `final`. */
  function Close(a: ActionId, cost: Option<int>, outcome: string, final: State): Pc {
    if cost.Some? && cost.value > 0 then AtConsume(a, cost.value, outcome, final)
    else AtSettle(a, outcome, final)
  }

  datatype Move =
    | OpenWork(root: Id, agent: Name, budget: int)
    | DelegateTo(parent: Id, child: Id, agent: Name, maximum: int)
    | FinishOf(delegation: Id)
    | Begin(pid: nat, action: ActionId, row: ActionRow)
    | Go(pid: nat)
    | Sign(pid: nat, auth: Authorization)
    | Bill(pid: nat, cost: int)
    | Reconcile(pid: nat, action: ActionId)
    | Crash(pid: nat)
    | Transfer(action: ActionId)
    | Mint(who: Account, atomic: nat)
    | Tick(time: int)

  // ---- When a move can happen ----

  /** The caller of an action is any delegation but an action's leaf: tokens are minted for nothing
      else. Action ids, and with them leaf ids and nonces, are fresh when drawn. */
  predicate Enabled(w: World, m: Move) {
    match m
    case OpenWork(root, _, _) => !w.IsLeaf(root)
    case DelegateTo(parent, child, _, _) => !w.IsLeaf(parent) && !w.IsLeaf(child)
    case FinishOf(d) => !w.IsLeaf(d)
    case Begin(pid, a, row) =>
      && pid !in w.procs && a !in w.actions
      && row.state == RESERVING && row.auth == None
      && row.leaf !in w.db.rows && !w.IsLeaf(row.leaf) && row.leaf != row.delegation
      && (forall b :: b in w.actions ==> w.actions[b].delegation != row.leaf)
      && !w.IsLeaf(row.delegation)
    case Go(pid) => pid in w.procs && w.procs[pid].a in w.actions
      && !w.procs[pid].AtCall? && !(w.procs[pid].AtCommit? && w.actions[w.procs[pid].a].kind.X402?)
    case Sign(pid, auth) =>
      && pid in w.procs && w.procs[pid].AtCommit? && w.procs[pid].a in w.actions
      && w.actions[w.procs[pid].a].kind.X402?
      && auth.payer == w.payer && auth.to == w.actions[w.procs[pid].a].payTo
      && auth.value == w.actions[w.procs[pid].a].amount
      && !AuthorizationState(w.chain, w.payer, auth.nonce)
      && (forall b :: b in w.actions && w.actions[b].auth.Some? ==> w.actions[b].auth.value.nonce != auth.nonce)
    case Bill(pid, _) => pid in w.procs && w.procs[pid].AtCall? && w.procs[pid].a in w.actions
    case Reconcile(pid, a) => pid !in w.procs && a in w.actions
    case Crash(pid) => pid in w.procs
    case Transfer(a) =>
      && a in w.actions && a in w.sent && w.actions[a].auth.Some?
      && Check(w.chain, w.actions[a].auth.value, true, w.actions[a].payTo, w.actions[a].amount, w.now).None?
    case Mint(_, _) => true
    case Tick(time) => w.now <= time
  }

  /** Whether a move is one of this process. */
  predicate Touches(m: Move, pid: nat) {
    match m
    case Begin(p, _, _) => p == pid
    case Go(p) => p == pid
    case Sign(p, _) => p == pid
    case Bill(p, _) => p == pid
    case Reconcile(p, _) => p == pid
    case Crash(p) => p == pid
    case _ => false
  }

  // ---- What a move does ----

  ghost function Next(w: World, m: Move): World
    requires Inv(w.db) && Enabled(w, m)
  {
    match m
    case OpenWork(root, agent, budget) =>
      w.(db := Step(w.db, CreateRoot(Own(Open), root, agent, budget)).0)
    case DelegateTo(parent, child, agent, maximum) =>
      w.(db := Step(w.db, Reserve(Own(Delegate), parent, child, agent, maximum)).0)
    case FinishOf(d) =>
      w.(db := Step(w.db, Settle(Own(Finish), d, "finished")).0)
    case Begin(pid, a, row) =>
      w.(actions := w.actions[a := row], listed := w.listed + [a]).Goto(pid, AtReserve(a))
    case Go(pid) => Advance(w, pid, w.procs[pid])
    case Sign(pid, auth) =>
      // _transition(RESERVING -> AUTHORIZED): the signature is dropped if a reconcile came first
      var a := w.procs[pid].a;
      var row := w.actions[a];
      if row.state == RESERVING then
        w.(actions := w.actions[a := row.(state := AUTHORIZED, auth := Some(auth))]).Goto(pid, AtSend(a))
      else w.End(pid)
    case Bill(pid, cost) =>
      var a := w.procs[pid].a;
      w.Goto(pid, Close(a, Some(Min(cost, w.actions[a].amount)), "completed", SETTLED))
    case Reconcile(pid, a) => w.Goto(pid, AtReconcile(a))
    case Crash(pid) => w.End(pid)
    case Transfer(a) => w.(chain := Transferred(w.chain, w.actions[a].auth.value))
    case Mint(who, atomic) =>
      w.(chain := w.chain.(balances := Credit(w.chain.balances, who, atomic)),
         funded := w.funded + (if who == w.payer then atomic else 0))
    case Tick(time) => w.(now := time)
  }

  /** The next step of a process that needs no outside input. */
  ghost function Advance(w: World, pid: nat, pc: Pc): World
    requires Inv(w.db) && pc.a in w.actions
  {
    var a := pc.a;
    var row := w.actions[a];
    match pc
    case AtReserve(_) =>
      var (db', reply) := Step(w.db, Reserve(Own(LeafReserve), row.delegation, row.leaf, row.agent, row.amount));
      var w' := w.(db := db');
      if reply.Done? || reply.Known? then w'.Goto(pid, AtCommit(a))
      else if reply.Refused? then w'.Goto(pid, AtRefuse(a))
      else w'.End(pid)
    case AtRefuse(_) => w.SetState(a, REFUSED).End(pid)
    case AtCommit(_) =>
      // model_call: _transition(RESERVING -> CALLING)
      if row.state == RESERVING then w.SetState(a, CALLING).Goto(pid, AtCall(a)) else w.End(pid)
    case AtSend(_) => w.(sent := w.sent + {a}).Goto(pid, AtReconcile(a))
    case AtCall(_) => w
    case AtReconcile(_) =>
      if Terminal(row.state) then w.End(pid)
      else if row.state == RESERVING then w.Goto(pid, AtClaim(a))
      else if row.state == ABANDONING then w.Goto(pid, Close(a, None, "abandoned", ABANDONED))
      else if row.state == CALLING then w.Goto(pid, Close(a, Some(row.amount), "completed", SETTLED))
      else w.Goto(pid, AtChain(a))
    case AtClaim(_) =>
      // _transition(RESERVING -> ABANDONING), or look again
      if row.state == RESERVING then
        w.SetState(a, ABANDONING).Goto(pid, Close(a, None, "abandoned", ABANDONED))
      else w.Goto(pid, AtReconcile(a))
    case AtChain(_) =>
      if w.Used(row) then w.Goto(pid, Close(a, Some(row.amount), "settled", SETTLED)) else w.Goto(pid, AtClock(a))
    case AtClock(_) =>
      if row.auth.Some? && w.now > row.auth.value.validBefore then
        w.Goto(pid, Close(a, None, "expired", EXPIRED))
      else w.End(pid)
    case AtConsume(_, cost, outcome, final) =>
      var (db', reply) := Step(w.db, Consume(Own(LeafConsume), row.leaf, Some(cost)));
      var w' := w.(db := db');
      if reply.Conflict? || reply.Invalid? then w'.End(pid) else w'.Goto(pid, AtSettle(a, outcome, final))
    case AtSettle(_, outcome, final) =>
      var (db', reply) := Step(w.db, Settle(Own(LeafSettle), row.leaf, outcome));
      var w' := w.(db := db');
      if reply.Conflict? then w'.End(pid) else w'.Goto(pid, AtMark(a, final))
    case AtMark(_, final) => w.SetState(a, final).End(pid)
  }

  /** The one unsafe instant of reconciliation: the clock read finds the window closed although the
      payment went through after the chain read said it had not. */
  predicate LateTransferMissed(w: World, m: Move) {
    && m.Go? && m.pid in w.procs && w.procs[m.pid].AtClock? && w.procs[m.pid].a in w.actions
    && w.Used(w.actions[w.procs[m.pid].a])
    && w.now > w.actions[w.procs[m.pid].a].auth.value.validBefore
  }

  /** Some reading of the clock from `now` on is inside the window. */
  predicate WindowOpen(auth: Authorization, now: int) {
    Max(now, auth.validAfter + 1) < auth.validBefore
  }

  /** A chain read that finds the nonce unused while the payment's window is still open. */
  predicate ReadsOpen(w: World, m: Move) {
    && m.Go? && m.pid in w.procs && w.procs[m.pid].AtChain? && w.procs[m.pid].a in w.actions
    && var row := w.actions[w.procs[m.pid].a];
    && row.auth.Some? && !w.Used(row) && WindowOpen(row.auth.value, w.now)
  }

  /** The payment can still go through: its window is open, and its signature has left the runtime or is
      with a process that is about to send it. */
  ghost predicate Exposed(w: World, a: ActionId)
    requires a in w.actions
  {
    && w.actions[a].auth.Some? && WindowOpen(w.actions[a].auth.value, w.now)
    && (a in w.sent || exists q :: q in w.procs && w.procs[q] == AtSend(a))
  }
}
