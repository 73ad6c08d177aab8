/**
  The headline result: what can leave the payer's account is bounded by the work's budget, as long as
  reconciliation's two reads, the chain and then the clock (examples/agent_economy/authority.py:411-421),
  are not torn apart while the payment's window is open.
 */
module RuntimeBounds {
  import opened Common
  import opened Ledger
  import opened LedgerInvariant
  import opened UsdcChain
  import opened Runtime
  import opened RuntimeInvariant
  import opened RuntimeSafety
  import opened RuntimeTheorems

  // ---- What one move can change ----

  lemma AuthStays(w: World, m: Move, a: ActionId)
    requires Ok(w) && Enabled(w, m) && a in w.actions && w.actions[a].auth.Some?
    ensures a in Next(w, m).actions && Next(w, m).actions[a].auth == w.actions[a].auth
  {
    hide Inv, Step, Unrevoked, LeavesApart, NoncesApart, ListedActions, ProcsOk, BalanceOk, SentKnown, ViewOf;
    assert OneOk(SceneOf(w), a, w.actions[a]);
  }

  lemma ClockAndPayer(w: World, m: Move)
    requires Inv(w.db) && Enabled(w, m)
    ensures Next(w, m).now >= w.now && Next(w, m).payer == w.payer
  {
    hide Inv, Step;
  }

  /** A signature leaves with the process that stood right before sending it. */
  lemma SentFrom(w: World, m: Move, a: ActionId)
    requires Inv(w.db) && Enabled(w, m) && a in Next(w, m).sent
    ensures a in w.sent || (m.Go? && m.pid in w.procs && w.procs[m.pid] == AtSend(a))
  {
    hide Inv, Step;
  }

  /** A process comes to stand there by signing an action that was RESERVING. */
  lemma SenderFrom(w: World, m: Move, q: nat)
    requires Inv(w.db) && Enabled(w, m) && q in Next(w, m).procs && Next(w, m).procs[q].AtSend?
    ensures (q in w.procs && w.procs[q] == Next(w, m).procs[q])
         || (Next(w, m).procs[q].a in w.actions && w.actions[Next(w, m).procs[q].a].state == RESERVING)
  {
    hide Inv, Step;
  }

  /** A nonce gets used by the transfer of a sent signature inside its window. */
  lemma UsedFrom(w: World, m: Move, nonce: Nonce)
    requires Inv(w.db) && Enabled(w, m)
    requires AuthorizationState(Next(w, m).chain, w.payer, nonce) && !AuthorizationState(w.chain, w.payer, nonce)
    ensures m.Transfer? && m.action in w.actions && m.action in w.sent && w.actions[m.action].auth.Some?
    ensures w.actions[m.action].auth.value.nonce == nonce && WindowOpen(w.actions[m.action].auth.value, w.now)
  {
    hide Inv, Step;
  }

  /** A process comes to its clock read from a chain read that found the nonce unused. */
  lemma ClockFrom(w: World, m: Move, q: nat)
    requires Inv(w.db) && Enabled(w, m) && q in Next(w, m).procs && Next(w, m).procs[q].AtClock?
    ensures q in w.procs
    ensures w.procs[q] == Next(w, m).procs[q]
         || (m == Go(q) && w.procs[q] == AtChain(Next(w, m).procs[q].a) && w.procs[q].a in w.actions
             && !w.Used(w.actions[w.procs[q].a]))
    ensures m == Go(q) || m == Crash(q) ==> w.procs[q].AtChain?
  {
    hide Inv, Step;
  }

  /** A process moves only by its own moves. */
  lemma ProcStays(w: World, m: Move, pid: nat)
    requires Inv(w.db) && Enabled(w, m) && !Touches(m, pid)
    ensures var w' := Next(w, m);
            (pid in w'.procs <==> pid in w.procs) && (pid in w.procs ==> w'.procs[pid] == w.procs[pid])
  {
    hide Inv, Step;
  }

  // ---- A payment that can no longer go through ----

  /** What cannot go through now never will. */
  lemma UnexposedStays(w: World, m: Move, a: ActionId)
    requires Ok(w) && Enabled(w, m) && a in w.actions && w.actions[a].auth.Some? && !Exposed(w, a)
    ensures a in Next(w, m).actions && Next(w, m).actions[a].auth == w.actions[a].auth
    ensures !Exposed(Next(w, m), a)
    ensures !w.Used(w.actions[a]) ==> !Next(w, m).Used(Next(w, m).actions[a])
  {
    hide Inv, Next, Enabled, Unrevoked, LeavesApart, ListedActions, ProcsOk, BalanceOk, SentKnown, ViewOf;
    AuthStays(w, m, a);
    ClockAndPayer(w, m);
    assert OneOk(SceneOf(w), a, w.actions[a]);
    var w' := Next(w, m);
    if a in w'.sent {
      SentFrom(w, m, a);
    }
    forall q | q in w'.procs && w'.procs[q] == AtSend(a)
      ensures q in w.procs && w.procs[q] == AtSend(a)
    {
      SenderFrom(w, m, q);
    }
    if !w.Used(w.actions[a]) && w'.Used(w'.actions[a]) {
      UsedFrom(w, m, w.actions[a].auth.value.nonce);
    }
  }

  /** The chain read itself. */
  lemma ReadStays(w: World, q: nat, a: ActionId)
    requires Inv(w.db) && Enabled(w, Go(q)) && w.procs[q] == AtChain(a) && !w.Used(w.actions[a])
    ensures Next(w, Go(q)) == w.(procs := w.procs[q := AtClock(a)])
  {
    hide Inv, Step;
  }

  // ---- Prompt runs ----

  /** Every process between the two reads, but perhaps one, is there for a payment that can no longer go
      through; that one's has not gone through yet. */
  ghost predicate ClocksSafe(w: World, but: Option<nat>) {
    forall q :: q in w.procs && w.procs[q].AtClock? && w.procs[q].a in w.actions
                && w.actions[w.procs[q].a].auth.Some? ==>
      !w.Used(w.actions[w.procs[q].a]) && (but == Some(q) || !Exposed(w, w.procs[q].a))
  }

  /** Who the move leaves between the reads of a payment that can still go through. */
  function Between(w: World, m: Move): Option<nat> {
    if ReadsOpen(w, m) then Some(m.pid) else None
  }

  lemma ClocksStaySafe(w: World, m: Move, but: Option<nat>)
    requires Ok(w) && Enabled(w, m) && ClocksSafe(w, but)
    requires but.Some? ==> m == Go(but.value) || m == Crash(but.value)
    ensures ClocksSafe(Next(w, m), Between(w, m))
  {
    hide Inv, Next, Enabled, Unrevoked, LeavesApart, NoncesApart, ListedActions, BalanceOk, SentKnown, ViewOf;
    var w' := Next(w, m);
    forall q | q in w'.procs && w'.procs[q].AtClock? && w'.procs[q].a in w'.actions
               && w'.actions[w'.procs[q].a].auth.Some?
      ensures !w'.Used(w'.actions[w'.procs[q].a]) && (Between(w, m) == Some(q) || !Exposed(w', w'.procs[q].a))
    {
      ClockFrom(w, m, q);
      assert ProcOk(SceneOf(w), w.actions, w.procs[q]);
      var a := w'.procs[q].a;
      assert OneOk(SceneOf(w), a, w.actions[a]);
      if w.procs[q] == w'.procs[q] {
        UnexposedStays(w, m, a);
      } else {
        ReadStays(w, q, a);
      }
    }
  }

  /** Every chain read that finds an open payment unused is directly followed by the same process's
      clock read, unless the process dies or the run ends there. A read of a payment whose window is
      over, which the clock tells beforehand, needs nothing. */
  ghost predicate Prompt(w: World, moves: seq<Move>)
    requires Inv(w.db) && Legal(w, moves)
    decreases |moves|
  {
    moves != [] ==>
      && (ReadsOpen(w, moves[0]) && |moves| > 1 ==> moves[1] == moves[0] || moves[1] == Crash(moves[0].pid))
      && (NextKeepsInv(w, moves[0]); Prompt(Next(w, moves[0]), moves[1..]))
  }

  /** A prompt run misses nothing. */
  lemma {:induction false} PromptMissesNone(w: World, moves: seq<Move>, but: Option<nat>)
    requires Ok(w) && Legal(w, moves) && Prompt(w, moves) && ClocksSafe(w, but)
    requires but.Some? && moves != [] ==> moves[0] == Go(but.value) || moves[0] == Crash(but.value)
    ensures NoneMissed(w, moves)
    decreases |moves|
  {
    hide Ok, Inv, Next, Enabled, ClocksSafe;
    if moves != [] {
      SafeNow(w, moves[0], but);
      OkIsInv(w);
      NextKeepsInv(w, moves[0]);
      MoveKeepsOk(w, moves[0]);
      ClocksStaySafe(w, moves[0], but);
      PromptMissesNone(Next(w, moves[0]), moves[1..], Between(w, moves[0]));
    }
  }

  /** So it keeps the runtime in order: leaving RESERVING happens once, and a leaf is closed without spend
      only when nothing can settle against it. */
  lemma PromptKeepsOk(w: World, moves: seq<Move>)
    requires Ok(w) && ClocksSafe(w, None) && Legal(w, moves) && Prompt(w, moves)
    ensures Ok(Play(w, moves))
  {
    hide Ok, Inv, Legal, Prompt, ClocksSafe, NoneMissed, Play;
    PromptMissesNone(w, moves, None);
    PlayKeepsOk(w, moves);
  }

  lemma SafeNow(w: World, m: Move, but: Option<nat>)
    requires ClocksSafe(w, but)
    ensures !LateTransferMissed(w, m)
  {
  }

  // ---- The bounds ----

  /** The bound. From any healthy state on, in any prompt run of any number of processes with crashes
      anywhere, what has left the payer's account for a delegation's tree, with what its sent signatures
      can still move and the model cost it was charged, never exceeds the authority that delegation had.
      It holds for a work's root and for every sub-agent. */
  lemma OutflowBounded(w: World, moves: seq<Move>, r: Id)
    requires Ok(w) && ClocksSafe(w, None) && Legal(w, moves) && Prompt(w, moves) && r in w.db.rows
    ensures Outflow(Play(w, moves), r) <= w.db.rows[r].authority
  {
    hide Outflow, Inv, Ok, Legal, Prompt, ClocksSafe, NoneMissed, Play;
    PromptMissesNone(w, moves, None);
    OutflowWithoutMiss(w, moves, r);
  }

  /** The bound for whole runs: whatever was opened, delegated, paid and called since the start, no
      delegation's tree has cost more than that delegation's authority. */
  lemma RunBounded(payer: Account, now: int, moves: seq<Move>, r: Id)
    requires Legal(Start(payer, now), moves) && Prompt(Start(payer, now), moves)
    requires r in Play(Start(payer, now), moves).db.rows
    ensures var w := Play(Start(payer, now), moves);
            Outflow(w, r) <= w.db.rows[r].authority
  {
    hide Inv, Ok, Outflow, Legal, Prompt, Play;
    StartOk(payer, now);
    PromptKeepsOk(Start(payer, now), moves);
    OutflowIsBacked(Play(Start(payer, now), moves), r);
  }

  /** With one work open, the payer's account itself cannot lose more than that work's budget. */
  lemma PayerLossBounded(w: World, moves: seq<Move>, r: Id)
    requires Ok(w) && ClocksSafe(w, None) && Legal(w, moves) && Prompt(w, moves) && r in w.db.rows
    requires var w' := Play(w, moves);
             forall a :: a in w'.actions && w'.Used(w'.actions[a]) ==>
               Under(w'.db.rows, w'.actions[a].delegation, r)
    ensures var w' := Play(w, moves);
            w'.funded - BalanceOf(w'.chain, w'.payer) <= w.db.rows[r].authority
  {
    hide Inv, Legal, Prompt, ClocksSafe, NoneMissed, Unrevoked, LeavesApart, NoncesApart, ProcsOk, SentKnown, Play,
         Under;
    PromptMissesNone(w, moves, None);
    PlayKeepsOk(w, moves);
    OutflowWithoutMiss(w, moves, r);
    MovedIsOutflow(Play(w, moves), r);
  }

  /** Every delegation without a parent is `r`. */
  ghost predicate OnlyRoot(rows: map<Id, Row>, r: Id) {
    forall x :: x in rows && rows[x].parent.None? ==> x == r
  }

  lemma StepKeepsOnlyRoot(db: Db, op: Op, r: Id)
    requires Inv(db) && OnlyRoot(db.rows, r) && (op.CreateRoot? ==> op.id == r)
    ensures OnlyRoot(Step(db, op).0.rows, r)
  {
    hide Slots, SettledSpend, OwnSpend, Revoking, ActiveBelow, Solvent;
  }

  lemma {:induction false} AllUnderRoot(rows: map<Id, Row>, x: Id, r: Id)
    requires Forest(rows) && OnlyRoot(rows, r) && x in rows
    ensures Under(rows, x, r)
    decreases rows[x].rowid
  {
    if rows[x].parent.Some? {
      AllUnderRoot(rows, Parent(rows, x), r);
    }
  }

  predicate OneWork(moves: seq<Move>, r: Id) {
    forall i :: 0 <= i < |moves| && moves[i].OpenWork? ==> moves[i].root == r
  }

  lemma {:induction false} PlayKeepsOnlyRoot(w: World, moves: seq<Move>, r: Id)
    requires Inv(w.db) && Legal(w, moves) && OneWork(moves, r) && OnlyRoot(w.db.rows, r)
    ensures OnlyRoot(Play(w, moves).db.rows, r)
    decreases |moves|
  {
    hide Inv, Next, Enabled, Step, OnlyRoot;
    if moves != [] {
      NextKeepsInv(w, moves[0]);
      DbAfter(w, moves[0]);
      if RequestOf(w, moves[0]).Some? {
        StepKeepsOnlyRoot(w.db, RequestOf(w, moves[0]).value, r);
      }
      PlayKeepsOnlyRoot(Next(w, moves[0]), moves[1..], r);
    }
  }

  /** A payment that went through was for an action of an existing delegation. */
  lemma PaidForDelegation(w: World, a: ActionId)
    requires Ok(w) && a in w.actions && w.Used(w.actions[a])
    ensures Forest(w.db.rows) && w.actions[a].delegation in w.db.rows
  {
    assert OneOk(SceneOf(w), a, w.actions[a]);
    assert ChildOf(w.db.rows, w.actions[a].leaf, w.actions[a].delegation);
  }

  /** A run from the start that opens one work: the payer's account loses at most that work's budget. */
  lemma SingleWorkLoss(payer: Account, now: int, moves: seq<Move>, r: Id)
    requires Legal(Start(payer, now), moves) && Prompt(Start(payer, now), moves) && OneWork(moves, r)
    requires r in Play(Start(payer, now), moves).db.rows
    ensures var w := Play(Start(payer, now), moves);
            w.funded - BalanceOf(w.chain, w.payer) <= w.db.rows[r].authority
  {
    hide Inv, Ok, Legal, Prompt, Play, Outflow, Under, OnlyRoot;
    var w := Play(Start(payer, now), moves);
    StartOk(payer, now);
    PromptKeepsOk(Start(payer, now), moves);
    NoRootYet(payer, now, r);
    PlayKeepsOnlyRoot(Start(payer, now), moves, r);
    forall a | a in w.actions && w.Used(w.actions[a])
      ensures Forest(w.db.rows) && Under(w.db.rows, w.actions[a].delegation, r)
    {
      PaidForDelegation(w, a);
      AllUnderRoot(w.db.rows, w.actions[a].delegation, r);
    }
    OutflowIsBacked(w, r);
    LossIsOutflow(w, r);
  }

  lemma NoRootYet(payer: Account, now: int, r: Id)
    ensures OnlyRoot(Start(payer, now).db.rows, r)
  {
  }

  lemma LossIsOutflow(w: World, r: Id)
    requires Ok(w) && r in w.db.rows
    requires forall a :: a in w.actions && w.Used(w.actions[a]) ==> Under(w.db.rows, w.actions[a].delegation, r)
    ensures w.funded - BalanceOf(w.chain, w.payer) <= Outflow(w, r)
  {
    hide Inv, Unrevoked, LeavesApart, NoncesApart, ListedActions, ActionsOk, ProcsOk, SentKnown, Under, Outflow,
         TotalMoved;
    MovedIsOutflow(w, r);
  }

  // ---- What a final state tells ----

  /** In every prompt run, a settled payment went through and is recorded as spent, an expired one can never
      go through, and what was refused or abandoned was never signed and cost nothing. So a payment that
      went through is recorded as spent or still open. */
  lemma FinalStatesTell(payer: Account, now: int, moves: seq<Move>, a: ActionId)
    requires Legal(Start(payer, now), moves) && Prompt(Start(payer, now), moves)
    requires a in Play(Start(payer, now), moves).actions
    ensures var w := Play(Start(payer, now), moves);
            var row := w.actions[a];
            && FinalTells(row, ViewOf(w.db, row.leaf), w.Used(row), w.now)
            && (w.Used(row) ==> row.state.SETTLED? || row.state.AUTHORIZED?)
  {
    hide Inv, Legal, Prompt, Play, Unrevoked, LeavesApart, NoncesApart, ListedActions, ProcsOk, BalanceOk, SentKnown,
         ViewOf;
    StartOk(payer, now);
    PromptKeepsOk(Start(payer, now), moves);
    var w := Play(Start(payer, now), moves);
    assert OneOk(SceneOf(w), a, w.actions[a]);
  }

  /** How an end may still change: only between the two that cost nothing. */
  predicate SameEnd(before: State, after: State) {
    Terminal(before) ==>
      after == before || ((before.REFUSED? || before.ABANDONED?) && (after.REFUSED? || after.ABANDONED?))
  }

  lemma OwnStepEnds(w: World, pid: nat, a: ActionId)
    requires Ok(w) && Enabled(w, Go(pid)) && a in w.actions
    ensures a in Next(w, Go(pid)).actions && SameEnd(w.actions[a].state, Next(w, Go(pid)).actions[a].state)
  {
    hide Inv, Step, Unrevoked, LeavesApart, NoncesApart, ListedActions, BalanceOk, SentKnown, ViewOf;
    assert OneOk(SceneOf(w), a, w.actions[a]) && ProcOk(SceneOf(w), w.actions, w.procs[pid]);
  }

  lemma EndStays(w: World, m: Move, a: ActionId)
    requires Ok(w) && Enabled(w, m) && a in w.actions
    ensures a in Next(w, m).actions && SameEnd(w.actions[a].state, Next(w, m).actions[a].state)
  {
    hide Ok, Inv, Step, Advance;
    OkIsInv(w);
    if m.Go? {
      OwnStepEnds(w, m.pid, a);
    }
  }

  lemma {:induction false} EndsStay(w: World, moves: seq<Move>, a: ActionId)
    requires Ok(w) && Legal(w, moves) && NoneMissed(w, moves) && a in w.actions
    ensures a in Play(w, moves).actions && SameEnd(w.actions[a].state, Play(w, moves).actions[a].state)
    decreases |moves|
  {
    hide Ok, Next, Enabled, LateTransferMissed;
    if moves != [] {
      OkIsInv(w);
      NextKeepsInv(w, moves[0]);
      MoveKeepsOk(w, moves[0]);
      EndStays(w, moves[0], a);
      EndsStay(Next(w, moves[0]), moves[1..], a);
    }
  }

  /** In every prompt run a settled or expired action stays so, and an ended one stays ended. */
  lemma EndsForGood(w: World, moves: seq<Move>, a: ActionId)
    requires Ok(w) && ClocksSafe(w, None) && Legal(w, moves) && Prompt(w, moves) && a in w.actions
    ensures a in Play(w, moves).actions && SameEnd(w.actions[a].state, Play(w, moves).actions[a].state)
  {
    hide Ok, Inv, Legal, Prompt, ClocksSafe, NoneMissed, Play;
    PromptMissesNone(w, moves, None);
    EndsStay(w, moves, a);
  }
}
