/**
  `AuthorityRuntime` of examples/agent_economy/authority.py on its mutable tables: every durable step a
  process takes, and reconciliation run to its end with other processes' moves between any two steps.
 */
module RuntimeStore {
  import opened Common
  import opened Ledger
  import opened LedgerInvariant
  import opened LedgerStore
  import opened UsdcChain
  import opened Runtime
  import opened RuntimeTheorems
  import opened RuntimeSteps
  import opened RuntimeAlone

  class AuthorityRuntime {
    const payer: Account
    const ledger: EconomicAuthorityStore
    const chain: LocalUsdcChain
    var actions: map<ActionId, ActionRow>
    var listed: seq<ActionId>
    var procs: map<nat, Pc>
    var sent: set<ActionId>
    var funded: int
    var now: int

    constructor (payer: Account, ledger: EconomicAuthorityStore, chain: LocalUsdcChain, now: int)
      requires ledger.Tables() == EMPTY && chain.State() == Chain(map[], map[])
      ensures this.payer == payer && this.ledger == ledger && this.chain == chain
      ensures Ready() && World() == Start(payer, now)
    {
      this.payer, this.ledger, this.chain := payer, ledger, chain;
      actions, listed, procs, sent, funded, this.now := map[], [], map[], {}, 0, now;
      new;
      EmptyInv();
    }

    function World(): World
      reads this, ledger, chain
    {
      Runtime.World(payer, Db(ledger.rows, ledger.order, ledger.log), actions, listed, procs, sent,
                    Chain(chain.balances, chain.used), funded, now)
    }

    ghost predicate Ready()
      reads this, ledger, chain
    {
      ledger.Valid() && Inv(World().db) && Orderly(World())
    }

    // ---- The `actions` table ----

    /** Compare-and-set: moves the action only from the expected state, and says whether it did. */
    method Transition(a: ActionId, expected: State, state: State, auth: Option<Authorization>) returns (moved: bool)
      requires a in actions
      modifies this`actions
      ensures a in old(actions) && moved == (old(actions)[a].state == expected)
      ensures actions == if !moved then old(actions)
                         else old(actions)[a := old(actions)[a].(
                           state := state, auth := if auth.Some? then auth else old(actions)[a].auth)]
    {
      moved := actions[a].state == expected;
      if moved {
        var row := actions[a];
        actions := actions[a := row.(state := state, auth := if auth.Some? then auth else row.auth)];
      }
    }

    method Set(a: ActionId, state: State)
      requires a in actions
      modifies this`actions
      ensures a in old(actions) && actions == old(actions)[a := old(actions)[a].(state := state)]
    {
      actions := actions[a := actions[a].(state := state)];
    }

    // ---- A process's steps ----

    /** The steps that admit an action. */
    method Admit(pid: nat)
      requires Ready() && Enabled(World(), Go(pid))
      requires procs[pid].AtReserve? || procs[pid].AtRefuse? || procs[pid].AtCommit? || procs[pid].AtSend?
      modifies this, ledger
      ensures Ready() && Inv(old(World()).db)
      ensures World() == Next(old(World()), Go(pid))
    {
      hide Inv, Step, Orderly;
      StaysOrderly(World(), Go(pid));
      var a := procs[pid].a;
      var row := actions[a];
      match procs[pid]
      case AtReserve(_) =>
        var reply := ledger.Reserve(Own(LeafReserve), row.delegation, row.leaf, row.agent, row.amount);
        procs := if reply.Done? || reply.Known? then procs[pid := AtCommit(a)]
                 else if reply.Refused? then procs[pid := AtRefuse(a)]
                 else procs - {pid};
      case AtRefuse(_) =>
        Set(a, REFUSED);
        procs := procs - {pid};
      case AtCommit(_) =>
        var moved := Transition(a, RESERVING, CALLING, None);
        procs := if moved then procs[pid := AtCall(a)] else procs - {pid};
      case AtSend(_) =>
        sent := sent + {a};
        procs := procs[pid := AtReconcile(a)];
    }

    /** The reads and the claim of `_reconcile_action`. */
    method Look(pid: nat)
      requires Ready() && Enabled(World(), Go(pid))
      requires procs[pid].AtReconcile? || procs[pid].AtClaim? || procs[pid].AtChain? || procs[pid].AtClock?
      modifies this
      ensures Ready() && Inv(old(World()).db)
      ensures World() == Next(old(World()), Go(pid))
    {
      hide Inv, Step, Orderly;
      StaysOrderly(World(), Go(pid));
      var a := procs[pid].a;
      var row := actions[a];
      match procs[pid]
      case AtReconcile(_) =>
        if Terminal(row.state) {
          procs := procs - {pid};
        } else if row.state == RESERVING {
          procs := procs[pid := AtClaim(a)];
        } else if row.state == ABANDONING {
          procs := procs[pid := Close(a, None, "abandoned", ABANDONED)];
        } else if row.state == CALLING {
          procs := procs[pid := Close(a, Some(row.amount), "completed", SETTLED)];
        } else {
          procs := procs[pid := AtChain(a)];
        }
      case AtClaim(_) =>
        var moved := Transition(a, RESERVING, ABANDONING, None);
        procs := procs[pid := if moved then Close(a, None, "abandoned", ABANDONED) else AtReconcile(a)];
      case AtChain(_) =>
        var used := row.auth.Some? && (payer, row.auth.value.nonce) in chain.used;
        procs := procs[pid := if used then Close(a, Some(row.amount), "settled", SETTLED) else AtClock(a)];
      case AtClock(_) =>
        procs := if row.auth.Some? && now > row.auth.value.validBefore
                 then procs[pid := Close(a, None, "expired", EXPIRED)] else procs - {pid};
    }

    /** `_close_leaf` and the write of the final state. */
    method Finish(pid: nat)
      requires Ready() && Enabled(World(), Go(pid))
      requires procs[pid].AtConsume? || procs[pid].AtSettle? || procs[pid].AtMark?
      modifies this, ledger
      ensures Ready() && Inv(old(World()).db)
      ensures World() == Next(old(World()), Go(pid))
    {
      hide Inv, Step, Orderly;
      StaysOrderly(World(), Go(pid));
      var a := procs[pid].a;
      var row := actions[a];
      match procs[pid]
      case AtConsume(_, cost, outcome, final) =>
        var reply := ledger.Consume(Own(LeafConsume), row.leaf, Some(cost));
        procs := if reply.Conflict? || reply.Invalid? then procs - {pid} else procs[pid := AtSettle(a, outcome, final)];
      case AtSettle(_, outcome, final) =>
        var reply := ledger.Settle(Own(LeafSettle), row.leaf, outcome);
        procs := if reply.Conflict? then procs - {pid} else procs[pid := AtMark(a, final)];
      case AtMark(_, final) =>
        Set(a, final);
        procs := procs - {pid};
    }

    /** One move of any process, of the payer's account, of the chain or of the clock. */
    method Do(m: Move)
      requires Ready() && Enabled(World(), m)
      modifies this, ledger, chain
      ensures Ready() && Inv(old(World()).db)
      ensures World() == Next(old(World()), m)
    {
      hide Inv, Step, Advance, Orderly;
      StaysOrderly(World(), m);
      match m
      case OpenWork(root, agent, budget) => var _ := ledger.CreateRoot(Own(Stage.Open), root, agent, budget);
      case DelegateTo(parent, child, agent, maximum) =>
        var _ := ledger.Reserve(Own(Delegate), parent, child, agent, maximum);
      case FinishOf(d) => var _ := ledger.Settle(Own(Stage.Finish), d, "finished");
      case Begin(pid, a, row) =>
        actions, listed, procs := actions[a := row], listed + [a], procs[pid := AtReserve(a)];
      case Go(pid) => Resume(pid);
      case Sign(pid, auth) =>
        var a := procs[pid].a;
        var moved := Transition(a, RESERVING, AUTHORIZED, Some(auth));
        procs := if moved then procs[pid := AtSend(a)] else procs - {pid};
      case Bill(pid, cost) =>
        var a := procs[pid].a;
        procs := procs[pid := Close(a, Some(Min(cost, actions[a].amount)), "completed", SETTLED)];
      case Reconcile(pid, a) => procs := procs[pid := AtReconcile(a)];
      case Crash(pid) => procs := procs - {pid};
      case Transfer(a) =>
        var _ := chain.TransferWithAuthorization(actions[a].auth.value, true, actions[a].payTo, actions[a].amount, now);
      case Mint(who, atomic) =>
        chain.Mint(who, atomic);
        funded := funded + (if who == payer then atomic else 0);
      case Tick(time) => now := time;
    }

    method Resume(pid: nat)
      requires Ready() && Enabled(World(), Go(pid))
      modifies this, ledger
      ensures Ready() && Inv(old(World()).db)
      ensures World() == Next(old(World()), Go(pid))
    {
      hide Inv, Step, Next, Orderly;
      match procs[pid]
      case AtReserve(_) => Admit(pid);
      case AtRefuse(_) => Admit(pid);
      case AtCommit(_) => Admit(pid);
      case AtSend(_) => Admit(pid);
      case AtReconcile(_) => Look(pid);
      case AtClaim(_) => Look(pid);
      case AtChain(_) => Look(pid);
      case AtClock(_) => Look(pid);
      case AtCall(_) => assert false;
      case AtConsume(_, _, _, _) => Finish(pid);
      case AtSettle(_, _, _) => Finish(pid);
      case AtMark(_, _) => Finish(pid);
    }

    /** Whatever else happens before the process's next step. A move that cannot happen does not. */
    method Others(pid: nat, moves: seq<Move>) returns (ghost played: seq<Move>)
      requires Ready()
      modifies this, ledger, chain
      ensures Ready() && Leads(old(World()), played, World())
      ensures Undisturbed(old(World()), World(), pid)
      ensures moves == [] ==> World() == old(World())
      ensures |moves| == 1 ==>
                Inv(old(World().db))
                && World() == if !Touches(moves[0], pid) && Enabled(old(World()), moves[0])
                              then Next(old(World()), moves[0]) else old(World())
    {
      hide Inv, Next, Enabled, Leads, Orderly, Undisturbed;
      played := [];
      LeadsNowhere(World());
      NobodyDisturbs(World(), pid);
      for i := 0 to |moves|
        invariant Ready() && Leads(old(World()), played, World())
        invariant Undisturbed(old(World()), World(), pid)
        invariant i == 0 ==> World() == old(World())
        invariant i == 1 ==>
                    Inv(old(World().db))
                    && World() == if !Touches(moves[0], pid) && Enabled(old(World()), moves[0])
                                  then Next(old(World()), moves[0]) else old(World())
      {
        if !Touches(moves[i], pid) && Enabled(World(), moves[i]) {
          ghost var w := World();
          Do(moves[i]);
          LeavesUndisturbed(w, moves[i], pid);
          UndisturbedOn(old(World()), w, World(), pid);
          LeadsOne(w, moves[i], World());
          LeadsOn(old(World()), played, w, [moves[i]], World());
          played := played + [moves[i]];
        }
      }
    }

    /** Runs `_reconcile_action`, or what is left of it, to its end, and says whether it raised: the ledger
        would not record its cost, or its outcome. */
    method RunOut(pid: nat, env: nat -> seq<Move>, start: nat) returns (n: nat, raised: bool, ghost played: seq<Move>)
      requires Ready() && pid in procs && Closing(procs[pid])
      modifies this, ledger, chain
      ensures Ready() && pid !in procs && Leads(old(World()), played, World())
      ensures Respects(old(World()), World(), pid)
      ensures (forall i :: i >= start ==> env(i) == []) ==> Alone(old(World()), pid) == Ending(World(), raised)
    {
      hide Inv, Next, Enabled, Leads, Orderly, Respects, Alone;
      n, raised, played := start, false, [];
      ghost var calm := forall i :: i >= start ==> env(i) == [];
      LeadsNowhere(World());
      NobodyDisturbs(World(), pid);
      while pid in procs
        invariant Ready() && Leads(old(World()), played, World()) && n >= start
        invariant pid in procs ==> Closing(procs[pid])
        invariant Respects(old(World()), World(), pid)
        invariant calm ==> Alone(old(World()), pid)
                           == if pid in procs then Alone(World(), pid) else Ending(World(), raised)
        decreases Distance(World(), pid)
      {
        ghost var w := World();
        KnownProc(w, pid);
        var pc := procs[pid];
        ghost var more := Onward(pid, env(n));
        raised := pid !in procs && (pc.AtConsume? || pc.AtSettle?);
        RespectsOn(old(World()), w, World(), pid);
        LeadsOn(old(World()), played, w, more, World());
        played := played + more;
        n := n + 1;
      }
    }

    /** Whatever else happens, then one step of the process. */
    method Onward(pid: nat, env: seq<Move>) returns (ghost played: seq<Move>)
      requires Ready() && pid in procs && CanGo(procs[pid], actions[procs[pid].a].kind)
      modifies this, ledger, chain
      ensures Ready() && Leads(old(World()), played, World())
      ensures pid in old(procs) && Stepped(old(procs[pid]), World(), pid)
      ensures forall a :: a in old(actions) ==> a in actions && actions[a].kind == old(actions)[a].kind
      ensures Closing(old(procs[pid])) && pid in procs ==>
                Closing(procs[pid]) && Distance(World(), pid) < old(Distance(World(), pid))
      ensures !old(procs[pid]).AtSend? ==> Respects(old(World()), World(), pid)
      ensures old(procs[pid]).AtSend? && Mine(old(World()), pid, old(procs[pid]).a) ==>
                var a := old(procs[pid]).a;
                a in old(actions) && a in actions && a in sent && actions[a].auth == old(actions)[a].auth
                && Mine(World(), pid, a)
      ensures env == [] ==>
                && Inv(old(World()).db) && Enabled(old(World()), Go(pid)) && World() == Next(old(World()), Go(pid))
                && (Closing(old(procs[pid])) ==>
                      Alone(old(World()), pid)
                      == if pid in procs then Alone(World(), pid)
                         else Ending(World(), old(procs[pid]).AtConsume? || old(procs[pid]).AtSettle?))
    {
      hide Inv, Next, Enabled, Leads, Orderly, Respects, Alone, Mine;
      KnownProc(World(), pid);
      ghost var others := Others(pid, env);
      ghost var v := World();
      ghost var pc := procs[pid];
      StepGoes(v, pid);
      ActionsStay(v, Go(pid));
      if Closing(pc) {
        AloneGoes(v, pid);
        ClosingGoes(v, pid);
      }
      Do(Go(pid));
      if pc.AtSend? {
        SendGoes(v, pid, pc.a);
        if Mine(old(World()), pid, pc.a) {
          RespectsMine(old(World()), v, pid, pc.a);
        }
      } else {
        GoRespects(v, pid);
        RespectsOn(old(World()), v, World(), pid);
      }
      LeadsOne(v, Go(pid), World());
      LeadsOn(old(World()), others, v, [Go(pid)], World());
      played := others + [Go(pid)];
    }

    /** `_admit`: inserts the row, then reserves its leaf. */
    method Reserve(pid: nat, a: ActionId, row: ActionRow, env: nat -> seq<Move>)
      returns (result: Outcome, ghost played: seq<Move>)
      requires Ready() && Enabled(World(), Begin(pid, a, row))
      modifies this, ledger, chain
      ensures Ready() && Leads(old(World()), played, World())
      ensures a in actions && Mine(World(), pid, a) && actions[a].auth.None? && a !in sent
      ensures result.Admitted? <==> pid in procs
      ensures result.Admitted? ==> procs[pid] == AtCommit(a) && actions[a].kind == row.kind
      ensures result.Refused? ==> actions[a].state == REFUSED
      ensures !result.Released?
      // if nobody interferes
      ensures Healthy(old(World())) && env(0) == env(1) == [] ==>
                Inv(old(World()).db) && ReservedAlone(old(World()), World(), pid, a, row, result)
    {
      hide Inv, Next, Enabled, Leads, Orderly, Mine, Respects, Healthy, ReservedAlone;
      ghost var w := World();
      BeginSteps(w, pid, a, row);
      NotYetSigned(w, pid, a, row);
      Do(Begin(pid, a, row));
      LeadsOne(w, Begin(pid, a, row), World());
      ghost var w1 := World();
      ghost var ms := Onward(pid, env(0));
      RespectsMine(w1, World(), pid, a);
      LeadsOn(w, [Begin(pid, a, row)], w1, ms, World());
      played := [Begin(pid, a, row)] + ms;
      if Healthy(w) && env(0) == [] {
        AdmitAlone(w, w1, World(), pid, a, row);
      }
      if pid !in procs {
        return Raised, played;
      }
      if procs[pid].AtCommit? {
        return Admitted, played;
      }
      ghost var w2 := World();
      ms := Onward(pid, env(1));
      RespectsMine(w2, World(), pid, a);
      LeadsOn(w, played, w2, ms, World());
      played := played + ms;
      return Outcome.Refused, played;
    }

    /** Admits one purchase and, if its reservation holds, signs it and makes that durable. `auth` is what
        the payer's key signs. */
    method Authorize(pid: nat, a: ActionId, row: ActionRow, auth: Authorization, env: nat -> seq<Move>)
      returns (result: Outcome, ghost played: seq<Move>)
      requires Ready() && Enabled(World(), Begin(pid, a, row)) && row.kind.X402?
      modifies this, ledger, chain
      ensures Ready() && Leads(old(World()), played, World())
      ensures a in actions && Mine(World(), pid, a) && a !in sent
      ensures result.Admitted? <==> pid in procs
      ensures result.Admitted? ==> procs[pid] == AtSend(a) && actions[a].auth == Some(auth)
      ensures result.Refused? ==> actions[a].state == REFUSED
      // if nobody interferes
      ensures Healthy(old(World())) && env(0) == env(1) == env(2) == [] ==>
                Inv(old(World()).db) && AuthorizedAlone(old(World()), World(), pid, a, row, auth, result)
    {
      hide Inv, Next, Enabled, Leads, Orderly, Mine, Respects, Healthy, ReservedAlone, AuthorizedAlone;
      ghost var w := World();
      result, played := Reserve(pid, a, row, env);
      ghost var w1 := World();
      if !result.Admitted? {
        if Healthy(w) && env(0) == env(1) == [] {
          TurnedDownAlone(w, w1, pid, a, row, auth, result);
        }
        return;
      }
      ghost var others := Others(pid, env(2));
      RespectsMine(w1, World(), pid, a);
      LeadsOn(w, played, w1, others, World());
      played := played + others;
      ghost var w2 := World();
      if Healthy(w) && env(0) == env(1) == env(2) == [] {
        SignAlone(w, w2, pid, a, row, auth);
      }
      if !Enabled(World(), Sign(pid, auth)) {
        // the signed authorization does not match the admitted purchase
        CrashEnds(w2, pid, a);
        Do(Crash(pid));
        LeadsOne(w2, Crash(pid), World());
        LeadsOn(w, played, w2, [Crash(pid)], World());
        played := played + [Crash(pid)];
        return Raised, played;
      }
      SignSteps(w2, pid, auth);
      Do(Sign(pid, auth));
      LeadsOne(w2, Sign(pid, auth), World());
      LeadsOn(w, played, w2, [Sign(pid, auth)], World());
      played := played + [Sign(pid, auth)];
      result := if pid in procs then Admitted else Released;
    }

    /** A purchase from its admission to the end of its reconciliation. While the signature is with the
        seller, anything may happen. */
    method Pay(pid: nat, a: ActionId, row: ActionRow, auth: Authorization, env: nat -> seq<Move>)
      returns (result: Outcome, ghost played: seq<Move>)
      requires Ready() && Enabled(World(), Begin(pid, a, row)) && row.kind.X402?
      modifies this, ledger, chain
      ensures Ready() && pid !in procs && Leads(old(World()), played, World())
      // whatever others do: the signature of this purchase was sent exactly if it was admitted
      ensures a in actions && (result.Admitted? <==> a in sent)
      ensures result.Admitted? ==> actions[a].auth == Some(auth)
      ensures result.Refused? ==> actions[a].state == REFUSED
      // if nobody interferes, but the seller perhaps presents the signature to the chain
      ensures Healthy(old(World())) && OnlySeller(env, a) ==>
                Inv(old(World()).db) && PaidAlone(old(World()), World(), a, row, auth, env(4) != [], result)
    {
      hide Inv, Next, Enabled, Leads, Orderly, Mine, Respects, Healthy, Alone, AuthorizedAlone, PaidAlone;
      ghost var w := World();
      result, played := Authorize(pid, a, row, auth, env);
      ghost var w1 := World();
      if !result.Admitted? {
        if Healthy(w) && OnlySeller(env, a) {
          TurnedDownPaid(w, w1, pid, a, row, auth, env(4) != [], result);
        }
        return;
      }
      ghost var ms := Onward(pid, env(3));
      LeadsOn(w, played, w1, ms, World());
      played := played + ms;
      ghost var w2 := World();
      ms := Others(pid, env(4));
      RespectsMine(w2, World(), pid, a);
      LeadsOn(w, played, w2, ms, World());
      played := played + ms;
      ghost var w3 := World();
      if Healthy(w) && OnlySeller(env, a) {
        PayAlone(w, w1, w2, w3, pid, a, row, auth, env(4) != []);
      }
      var _, _, rest := RunOut(pid, env, 5);
      RespectsMine(w3, World(), pid, a);
      LeadsOn(w, played, w3, rest, World());
      played := played + rest;
    }

    /** A model call from its admission to its settlement. `cost` is what the provider reports. */
    method ModelCall(pid: nat, a: ActionId, row: ActionRow, cost: int, env: nat -> seq<Move>)
      returns (result: Outcome, ghost played: seq<Move>)
      requires Ready() && Enabled(World(), Begin(pid, a, row)) && row.kind.Model?
      modifies this, ledger, chain
      ensures Ready() && pid !in procs && Leads(old(World()), played, World())
      ensures a in actions && a !in sent && actions[a].auth.None?
      ensures result.Refused? ==> actions[a].state == REFUSED
      // if nobody interferes
      ensures Healthy(old(World())) && (forall i :: env(i) == []) ==>
                Inv(old(World()).db) && MeteredAlone(old(World()), World(), a, row, cost, result)
    {
      hide Inv, Next, Enabled, Leads, Orderly, Mine, Respects, Healthy, Alone, ReservedAlone, MeteredAlone;
      ghost var w := World();
      ghost var calm := Healthy(w) && forall i :: env(i) == [];
      result, played := Reserve(pid, a, row, env);
      ghost var w1 := World();
      if !result.Admitted? {
        if calm {
          TurnedDownMetered(w, w1, pid, a, row, cost, result);
        }
        return;
      }
      ghost var ms := Onward(pid, env(2));
      RespectsMine(w1, World(), pid, a);
      LeadsOn(w, played, w1, ms, World());
      played := played + ms;
      if calm {
        MeterAlone(w, w1, World(), pid, a, row, cost);
      }
      if pid !in procs {
        return Released, played;
      }
      ghost var w2 := World();
      ms := Others(pid, env(3));
      RespectsMine(w2, World(), pid, a);
      LeadsOn(w, played, w2, ms, World());
      played := played + ms;
      ghost var w3 := World();
      BillSteps(w3, pid, cost, a);
      Do(Bill(pid, cost));
      LeadsOne(w3, Bill(pid, cost), World());
      LeadsOn(w, played, w3, [Bill(pid, cost)], World());
      played := played + [Bill(pid, cost)];
      ghost var w4 := World();
      var _, _, rest := RunOut(pid, env, 4);
      RespectsMine(w4, World(), pid, a);
      LeadsOn(w, played, w4, rest, World());
      played := played + rest;
    }

    /** Reconciles the actions that were open when it started, one after the other. An error ends it: the
        rest is not visited. */
    method ReconcileAll(pid: nat, env: nat -> seq<Move>)
      returns (visited: seq<ActionId>, raised: bool, ghost played: seq<Move>)
      requires Ready() && pid !in procs && forall a :: a in listed ==> a in actions
      modifies this, ledger, chain
      ensures Ready() && pid !in procs && Leads(old(World()), played, World())
      ensures var open := OpenIds(old(actions), old(listed));
              visited <= open && (if raised then visited != [] else visited == open)
      // if nobody interferes
      ensures Healthy(old(World())) && (forall i :: env(i) == []) ==>
                var closed := if raised then visited[..|visited| - 1] else visited;
                && Swept(old(World()), World(), closed)
                && (raised ==> Stuck(old(World()), visited[|visited| - 1]))
    {
      hide Inv, Next, Enabled, Leads, Orderly, Respects, Healthy, Alone, Swept, Stuck;
      var open := OpenIds(actions, listed);
      OpenIdsExactly(actions, listed);
      visited, raised, played := [], false, [];
      ghost var w := World();
      ghost var calm := Healthy(w) && forall i :: env(i) == [];
      LeadsNowhere(w);
      if calm {
        SweptNone(w);
        OpenOnce(w);
      }
      var n := 0;
      for i := 0 to |open|
        invariant Ready() && pid !in procs && Leads(w, played, World())
        invariant visited == open[..i] && !raised
        invariant forall a :: a in open ==> a in actions
        invariant calm ==> Swept(w, World(), visited)
      {
        var a := open[i];
        ghost var w1 := World();
        ReconcileSteps(w1, pid, a);
        if calm {
          SweepOne(w, w1, pid, a, visited);
        }
        Do(Reconcile(pid, a));
        LeadsOne(w1, Reconcile(pid, a), World());
        LeadsOn(w, played, w1, [Reconcile(pid, a)], World());
        played := played + [Reconcile(pid, a)];
        ghost var w2 := World();
        ghost var rest;
        n, raised, rest := RunOut(pid, env, n);
        RespectsAll(w2, World(), pid);
        LeadsOn(w, played, w2, rest, World());
        played := played + rest;
        visited := visited + [a];
        if raised {
          return;
        }
      }
    }
  }
}
