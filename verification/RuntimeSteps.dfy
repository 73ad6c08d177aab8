/**
  The steps of one process among others (examples/agent_economy/authority.py): where each leads, what the
  others' steps leave alone, and how far a reconciliation is from its end.
 */
module RuntimeSteps {
  import opened Common
  import opened Ledger
  import opened LedgerInvariant
  import opened UsdcChain
  import opened Runtime
  import opened RuntimeInvariant
  import opened RuntimeTheorems
  import opened RuntimeBounds

  /** The process is where it was, and no action disappeared or went back to RESERVING. */
  ghost predicate Undisturbed(w: World, w': World, pid: nat) {
    && (pid in w'.procs <==> pid in w.procs) && (pid in w.procs ==> w'.procs[pid] == w.procs[pid])
    && (forall a :: a in w.actions ==> a in w'.actions && RowStays(w.actions[a], w'.actions[a]))
    && Respects(w, w', pid)
  }

  /** Actions that only `pid` may be starting stay so, and keep their signature or the lack of it. */
  ghost predicate Respects(w: World, w': World, pid: nat) {
    && (forall a :: a in w.actions ==> a in w'.actions)
    && (forall a :: a in w.actions && Mine(w, pid, a) ==> Mine(w', pid, a) && SignatureStays(w, w', a))
  }

  predicate RowStays(row: ActionRow, row': ActionRow) {
    (row'.state == RESERVING ==> row.state == RESERVING) && row'.kind == row.kind
  }

  /** Steps only the process that inserted the action takes. */
  predicate Starting(pc: Pc) {
    pc.AtReserve? || pc.AtRefuse? || pc.AtCommit? || pc.AtSend? || pc.AtCall?
  }

  /** No other process is starting `a`. */
  ghost predicate Mine(w: World, pid: nat, a: ActionId) {
    forall q :: q in w.procs && q != pid && w.procs[q].a == a ==> !Starting(w.procs[q])
  }

  predicate SignatureStays(w: World, w': World, a: ActionId) {
    a in w.actions && a in w'.actions && w'.actions[a].auth == w.actions[a].auth && (a in w'.sent <==> a in w.sent)
  }

  /** Processes and signatures are about actions on file, and what a process will mark its action with at
      the end is a terminal state. */
  ghost predicate Orderly(w: World) {
    && (forall q :: q in w.procs ==> w.procs[q].a in w.actions)
    && (forall q :: q in w.procs && (w.procs[q].AtConsume? || w.procs[q].AtSettle? || w.procs[q].AtMark?) ==>
          Terminal(w.procs[q].final))
    && SentKnown(w.sent, w.actions)
  }

  lemma StaysOrderly(w: World, m: Move)
    requires Inv(w.db) && Orderly(w) && Enabled(w, m)
    ensures Orderly(Next(w, m))
  {
    hide Inv, Step, Advance;
    if m.Go? {
      StepStaysOrderly(w, m.pid);
    }
  }

  lemma StepStaysOrderly(w: World, pid: nat)
    requires Inv(w.db) && Orderly(w) && Enabled(w, Go(pid))
    ensures Orderly(Next(w, Go(pid)))
  {
    hide Inv, Step, Terminal;
    StepOfOne(w, pid);
    var w' := Next(w, Go(pid));
    assert w'.sent <= w.sent + {w.procs[pid].a};
  }

  lemma StepOfOne(w: World, pid: nat)
    requires Inv(w.db) && Orderly(w) && Enabled(w, Go(pid))
    ensures var (pc, w') := (w.procs[pid], Next(w, Go(pid)));
            && w'.actions.Keys == w.actions.Keys
            && (w'.procs == w.procs - {pid} || (pid in w'.procs && w'.procs == w.procs[pid := w'.procs[pid]]))
            && (pid in w'.procs ==>
                  && w'.procs[pid].a == pc.a
                  && (w'.procs[pid].AtConsume? || w'.procs[pid].AtSettle? || w'.procs[pid].AtMark? ==>
                        Terminal(w'.procs[pid].final)))
  {
    hide Inv, Step, SentKnown;
  }

  /** No move takes an action away, changes its kind, or takes it back to RESERVING. */
  lemma ActionsStay(w: World, m: Move)
    requires Inv(w.db) && Orderly(w) && Enabled(w, m)
    ensures forall a :: a in w.actions ==> a in Next(w, m).actions && RowStays(w.actions[a], Next(w, m).actions[a])
  {
    hide Inv, Step;
  }

  lemma LeavesUndisturbed(w: World, m: Move, pid: nat)
    requires Inv(w.db) && Orderly(w) && Enabled(w, m) && !Touches(m, pid)
    ensures Undisturbed(w, Next(w, m), pid)
  {
    hide Inv, Step, Next, Enabled, Starting;
    ActionsStay(w, m);
    ProcStays(w, m, pid);
    forall a | a in w.actions && Mine(w, pid, a)
      ensures Mine(Next(w, m), pid, a) && SignatureStays(w, Next(w, m), a)
    {
      StartersComeFirst(w, m, pid, a);
      SignaturesAreOwn(w, m, pid, a);
    }
  }

  lemma NobodyDisturbs(w: World, pid: nat)
    ensures Undisturbed(w, w, pid) && Respects(w, w, pid)
  {
  }

  lemma UndisturbedOn(w: World, w1: World, w2: World, pid: nat)
    requires Undisturbed(w, w1, pid) && Undisturbed(w1, w2, pid)
    ensures Undisturbed(w, w2, pid)
  {
    hide Mine, SignatureStays, Respects;
    RespectsOn(w, w1, w2, pid);
  }

  lemma RespectsOn(w: World, w1: World, w2: World, pid: nat)
    requires Respects(w, w1, pid) && Respects(w1, w2, pid)
    ensures Respects(w, w2, pid)
  {
    hide Mine;
  }

  lemma RespectsMine(w: World, w': World, pid: nat, a: ActionId)
    requires Respects(w, w', pid) && a in w.actions && Mine(w, pid, a)
    ensures a in w'.actions && Mine(w', pid, a) && SignatureStays(w, w', a)
  {
  }

  lemma RespectsAll(w: World, w': World, pid: nat)
    requires Respects(w, w', pid)
    ensures forall a :: a in w.actions ==> a in w'.actions
  {
  }

  lemma NotYetSigned(w: World, pid: nat, a: ActionId, row: ActionRow)
    requires Inv(w.db) && Orderly(w) && Enabled(w, Begin(pid, a, row))
    ensures var w' := Next(w, Begin(pid, a, row));
            a in w'.actions && Mine(w', pid, a) && w'.actions[a].auth.None? && a !in w'.sent
  {
    hide Inv;
  }

  /** A process's own step keeps signatures too, except when it sends one. */
  lemma GoRespects(w: World, pid: nat)
    requires Inv(w.db) && Orderly(w) && Enabled(w, Go(pid)) && !w.procs[pid].AtSend?
    ensures Respects(w, Next(w, Go(pid)), pid)
  {
    hide Inv, Next, Enabled, Mine, SignatureStays;
    ActionsStay(w, Go(pid));
    forall a | a in w.actions && Mine(w, pid, a)
      ensures Mine(Next(w, Go(pid)), pid, a) && SignatureStays(w, Next(w, Go(pid)), a)
    {
      StartersComeFirst(w, Go(pid), pid, a);
      SignaturesAreOwn(w, Go(pid), pid, a);
    }
  }

  /** The signature leaves with its own process. */
  lemma SendGoes(w: World, pid: nat, a: ActionId)
    requires Inv(w.db) && Enabled(w, Go(pid)) && w.procs[pid] == AtSend(a) && a in w.actions
    ensures var w' := Next(w, Go(pid));
            a in w'.actions && a in w'.sent && w'.actions[a].auth == w.actions[a].auth
            && (Mine(w, pid, a) ==> Mine(w', pid, a))
  {
    hide Inv, Step;
  }

  /** No process starts an action that is on file already. */
  lemma StartersComeFirst(w: World, m: Move, pid: nat, a: ActionId)
    requires Inv(w.db) && Enabled(w, m) && a in w.actions && Mine(w, pid, a)
    ensures Mine(Next(w, m), pid, a)
  {
    hide Inv, Step;
    forall q | q in Next(w, m).procs && q != pid && Next(w, m).procs[q].a == a && Starting(Next(w, m).procs[q])
      ensures q in w.procs && w.procs[q].a == a && Starting(w.procs[q])
    {
      StarterFrom(w, m, q, a);
    }
  }

  lemma StarterFrom(w: World, m: Move, q: nat, a: ActionId)
    requires Inv(w.db) && Enabled(w, m) && a in w.actions
    requires q in Next(w, m).procs && Next(w, m).procs[q].a == a && Starting(Next(w, m).procs[q])
    ensures q in w.procs && w.procs[q].a == a && Starting(w.procs[q])
  {
    hide Inv, Step, Advance;
    if !Touches(m, q) {
      ProcStays(w, m, q);
    } else if m.Go? {
      StartsOn(w, q);
    }
  }

  lemma StartsOn(w: World, q: nat)
    requires Inv(w.db) && Enabled(w, Go(q)) && q in Next(w, Go(q)).procs && Starting(Next(w, Go(q)).procs[q])
    ensures Starting(w.procs[q]) && Next(w, Go(q)).procs[q].a == w.procs[q].a
  {
    hide Inv, Step;
  }

  /** An action is signed, and its signature sent, by the process that starts it. */
  lemma SignaturesAreOwn(w: World, m: Move, pid: nat, a: ActionId)
    requires Inv(w.db) && Enabled(w, m) && a in w.actions && Mine(w, pid, a)
    requires Touches(m, pid) ==> (m.Go? && !w.procs[pid].AtSend?)
    ensures SignatureStays(w, Next(w, m), a)
  {
    hide Inv, Step;
  }

  lemma LeadsNowhere(w: World)
    requires Inv(w.db)
    ensures Leads(w, [], w)
  {
  }

  /** Steps from `_reconcile_action` on. */
  predicate Closing(pc: Pc) {
    pc.AtReconcile? || pc.AtClaim? || pc.AtChain? || pc.AtClock? || pc.AtConsume? || pc.AtSettle? || pc.AtMark?
  }

  function Rank(pc: Pc, reserving: bool): nat {
    match pc
    case AtReconcile(_) => if reserving then 9 else 8
    case AtClaim(_) => if reserving then 8 else 9
    case AtChain(_) => 7
    case AtClock(_) => 6
    case AtConsume(_, _, _, _) => 5
    case AtSettle(_, _, _) => 4
    case _ => 3
  }

  /** How far a closing process is from its end. An action leaves RESERVING once. */
  function Distance(w: World, pid: nat): nat {
    if pid !in w.procs || w.procs[pid].a !in w.actions then 0
    else
      var reserving := w.actions[w.procs[pid].a].state == RESERVING;
      Rank(w.procs[pid], reserving) + (if reserving then 10 else 0)
  }

  /** A closing process can always go on, and gets nearer its end. */
  lemma ClosingGoes(w: World, pid: nat)
    requires Inv(w.db) && Orderly(w)
    requires pid in w.procs && w.procs[pid].a in w.actions && Closing(w.procs[pid])
    ensures Enabled(w, Go(pid))
    ensures var w' := Next(w, Go(pid));
            pid in w'.procs ==>
              && w'.procs[pid].a == w.procs[pid].a && w'.procs[pid].a in w'.actions
              && Closing(w'.procs[pid]) && Distance(w', pid) < Distance(w, pid)
  {
    hide Inv, Step;
  }

  /** The steps a process can take without outside input. */
  predicate CanGo(pc: Pc, kind: Kind) {
    Closing(pc) || pc.AtReserve? || pc.AtRefuse? || pc.AtSend? || (pc.AtCommit? && kind.Model?)
  }

  /** Where a step leads. */
  predicate Stepped(pc: Pc, w: World, pid: nat) {
    && pc.a in w.actions
    && (pid in w.procs ==> w.procs[pid].a == pc.a)
    && match pc
       case AtReserve(a) => pid in w.procs ==> w.procs[pid] == AtCommit(a) || w.procs[pid] == AtRefuse(a)
       case AtRefuse(a) => pid !in w.procs && w.actions[a].state == REFUSED
       case AtCommit(a) => pid in w.procs ==> w.procs[pid] == AtCall(a)
       case AtSend(a) => pid in w.procs && w.procs[pid] == AtReconcile(a)
       case _ => true
  }

  lemma StepGoes(w: World, pid: nat)
    requires Inv(w.db) && pid in w.procs && w.procs[pid].a in w.actions
    requires CanGo(w.procs[pid], w.actions[w.procs[pid].a].kind)
    ensures Enabled(w, Go(pid)) && Stepped(w.procs[pid], Next(w, Go(pid)), pid)
    ensures Next(w, Go(pid)).actions[w.procs[pid].a].kind == w.actions[w.procs[pid].a].kind
  {
    hide Inv, Step;
  }

  lemma BeginSteps(w: World, pid: nat, a: ActionId, row: ActionRow)
    requires Inv(w.db) && Enabled(w, Begin(pid, a, row))
    ensures var w' := Next(w, Begin(pid, a, row));
            pid in w'.procs && w'.procs[pid] == AtReserve(a) && a in w'.actions && w'.actions[a] == row
  {
    hide Inv;
  }

  lemma CrashEnds(w: World, pid: nat, a: ActionId)
    requires Inv(w.db) && pid in w.procs && a in w.actions && Mine(w, pid, a)
    ensures Enabled(w, Crash(pid)) && pid !in Next(w, Crash(pid)).procs
    ensures var w' := Next(w, Crash(pid));
            Mine(w', pid, a) && a in w'.actions && (a in w'.sent <==> a in w.sent)
  {
    hide Inv;
  }

  lemma SignSteps(w: World, pid: nat, auth: Authorization)
    requires Inv(w.db) && Enabled(w, Sign(pid, auth)) && Mine(w, pid, w.procs[pid].a)
    ensures var (a, w') := (w.procs[pid].a, Next(w, Sign(pid, auth)));
            && a in w'.actions && Mine(w', pid, a) && (a in w'.sent <==> a in w.sent)
            && (pid in w'.procs ==> w'.procs[pid] == AtSend(a) && w'.actions[a].auth == Some(auth))
            && (pid in w'.procs <==> w.actions[a].state == RESERVING)
  {
    hide Inv;
  }

  lemma BillSteps(w: World, pid: nat, cost: int, a: ActionId)
    requires Inv(w.db) && pid in w.procs && w.procs[pid] == AtCall(a) && a in w.actions && Mine(w, pid, a)
    ensures Enabled(w, Bill(pid, cost))
    ensures var w' := Next(w, Bill(pid, cost));
            && a in w'.actions && pid in w'.procs && w'.procs[pid].a == a && Closing(w'.procs[pid])
            && Mine(w', pid, a) && SignatureStays(w, w', a)
  {
    hide Inv;
  }

  lemma ReconcileSteps(w: World, pid: nat, a: ActionId)
    requires Inv(w.db) && pid !in w.procs && a in w.actions
    ensures Enabled(w, Reconcile(pid, a))
    ensures var w' := Next(w, Reconcile(pid, a));
            pid in w'.procs && w'.procs[pid] == AtReconcile(a) && w'.actions == w.actions
  {
    hide Inv;
  }

  /** The actions not in a terminal state. */
  function OpenIds(actions: map<ActionId, ActionRow>, listed: seq<ActionId>): seq<ActionId> {
    if listed == [] then []
    else
      var rest := OpenIds(actions, listed[..|listed| - 1]);
      var a := listed[|listed| - 1];
      if a in actions && !Terminal(actions[a].state) then rest + [a] else rest
  }

  lemma {:induction false} OpenIdsExactly(actions: map<ActionId, ActionRow>, listed: seq<ActionId>)
    ensures forall a :: a in OpenIds(actions, listed) <==> a in listed && a in actions && !Terminal(actions[a].state)
  {
    if listed != [] {
      OpenIdsExactly(actions, listed[..|listed| - 1]);
      assert listed == listed[..|listed| - 1] + [listed[|listed| - 1]];
    }
  }
}
