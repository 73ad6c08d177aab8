/**
  What goes wrong between two steps, and exactly when. Reconciliation reads the chain and then the clock
  (examples/agent_economy/authority.py:411-421). A transfer between the two reads, just before the
  window closes, is missed: its leaf is released although the money moved.
 */
module RuntimeRace {
  import opened Common
  import opened Ledger
  import opened LedgerInvariant
  import opened LedgerRuns
  import opened LedgerStore
  import opened UsdcChain
  import opened Runtime
  import opened RuntimeInvariant
  import opened RuntimeSafety
  import opened RuntimeTheorems
  import opened RuntimeBounds

  // ---- Exactly which chain reads can go wrong ----

  /** `moves` can be played from `w`, end in `v`, and miss no late transfer on the way. */
  ghost predicate Quiet(w: World, moves: seq<Move>, v: World) {
    Inv(w.db) && Legal(w, moves) && NoneMissed(w, moves) && Play(w, moves) == v
  }

  ghost predicate Apart(moves: seq<Move>, pid: nat) {
    forall i :: 0 <= i < |moves| ==> !Touches(moves[i], pid)
  }

  /** After the others' moves in `gap`, the process's clock read misses a transfer. */
  ghost predicate MissesAfter(w: World, pid: nat, gap: seq<Move>, v: World) {
    Apart(gap, pid) && Quiet(w, gap, v) && LateTransferMissed(v, Go(pid))
  }

  /** Something others can do after this read makes the clock read that follows it miss a transfer. */
  ghost predicate CanMiss(w: World, pid: nat)
    requires Inv(w.db) && Enabled(w, Go(pid))
  {
    exists gap, v :: MissesAfter(Next(w, Go(pid)), pid, gap, v)
  }

  lemma QuietOne(w: World, m: Move, v: World)
    requires Inv(w.db) && Enabled(w, m) && Next(w, m) == v && !LateTransferMissed(w, m)
    ensures Quiet(w, [m], v)
  {
    hide Inv, Next, Enabled, LateTransferMissed;
    NextKeepsInv(w, m);
    var moves := [m];
    assert moves[0] == m && moves[1..] == [];
    assert Legal(v, []) && NoneMissed(v, []) && Play(v, []) == v;
    assert Legal(w, moves);
  }

  lemma {:induction false} QuietOn(w: World, ms: seq<Move>, u: World, ns: seq<Move>, v: World)
    requires Quiet(w, ms, u) && Quiet(u, ns, v)
    ensures Quiet(w, ms + ns, v)
    decreases |ms|
  {
    hide Inv, Next, Enabled, LateTransferMissed;
    if ms == [] {
      assert ms + ns == ns;
    } else {
      NextKeepsInv(w, ms[0]);
      assert (ms + ns)[1..] == ms[1..] + ns;
      QuietOn(Next(w, ms[0]), ms[1..], u, ns, v);
    }
  }

  /** A payment that cannot go through at the read cannot go through by the clock read either. */
  lemma {:induction false} GapIsHarmless(w: World, pid: nat, a: ActionId, gap: seq<Move>, v: World)
    requires Ok(w) && Apart(gap, pid) && Quiet(w, gap, v)
    requires pid in w.procs && w.procs[pid] == AtClock(a) && a in w.actions && w.actions[a].auth.Some?
    requires !w.Used(w.actions[a]) && !Exposed(w, a)
    ensures !LateTransferMissed(v, Go(pid))
    decreases |gap|
  {
    hide Ok, Inv, Next, Enabled, Exposed;
    if gap != [] {
      var w1 := Next(w, gap[0]);
      NextKeepsInv(w, gap[0]);
      MoveKeepsOk(w, gap[0]);
      UnexposedStays(w, gap[0], a);
      ProcStays(w, gap[0], pid);
      GapIsHarmless(w1, pid, a, gap[1..], v);
    }
  }

  function Funding(w: World, a: ActionId): nat
    requires a in w.actions && w.actions[a].auth.Some?
  {
    Max(0, w.actions[a].auth.value.value - BalanceOf(w.chain, w.payer))
  }

  /** The payer is funded if need be, and the clock reads `t`. */
  function Funded(w: World, a: ActionId, t: int): World
    requires a in w.actions && w.actions[a].auth.Some?
  {
    w.(chain := w.chain.(balances := Credit(w.chain.balances, w.payer, Funding(w, a))),
       funded := w.funded + Funding(w, a), now := t)
  }

  /** Then the payment goes through, and its window closes. */
  function AfterTransfer(w: World, a: ActionId, t: int): World
    requires a in w.actions && w.actions[a].auth.Some?
  {
    var auth := w.actions[a].auth.value;
    Funded(w, a, t).(chain := Transferred(Funded(w, a, t).chain, auth), now := auth.validBefore + 1)
  }

  function TransferMoves(w: World, a: ActionId, t: int): seq<Move>
    requires a in w.actions && w.actions[a].auth.Some?
  {
    ([Mint(w.payer, Funding(w, a))] + [Tick(t)])
    + ([Transfer(a)] + [Tick(w.actions[a].auth.value.validBefore + 1)])
  }

  /** A sent signature whose nonce is unused and whose window is open can be used, once the payer is funded. */
  lemma SentCanTransfer(w: World, a: ActionId, t: int)
    requires Ok(w) && a in w.actions && a in w.sent && w.actions[a].auth.Some? && !w.Used(w.actions[a])
    requires w.actions[a].auth.value.validAfter < t < w.actions[a].auth.value.validBefore
    ensures Enabled(Funded(w, a, t), Transfer(a))
  {
    hide Inv, Unrevoked, LeavesApart, NoncesApart, ListedActions, ProcsOk, BalanceOk, SentKnown, ViewOf;
    assert OneOk(SceneOf(w), a, w.actions[a]);
  }

  lemma FundingIsQuiet(w: World, a: ActionId, t: int)
    requires Inv(w.db) && a in w.actions && w.actions[a].auth.Some? && t >= w.now
    ensures Quiet(w, [Mint(w.payer, Funding(w, a))] + [Tick(t)], Funded(w, a, t))
  {
    hide Inv, Step, Quiet;
    var w1 := Funded(w, a, t).(now := w.now);
    QuietOne(w, Mint(w.payer, Funding(w, a)), w1);
    QuietOne(w1, Tick(t), Funded(w, a, t));
    QuietOn(w, [Mint(w.payer, Funding(w, a))], w1, [Tick(t)], Funded(w, a, t));
  }

  lemma TransferIsQuiet(w: World, a: ActionId, t: int)
    requires Inv(w.db) && Enabled(w, Transfer(a)) && t >= w.now
    ensures Quiet(w, [Transfer(a)] + [Tick(t)],
                  w.(chain := Transferred(w.chain, w.actions[a].auth.value), now := t))
  {
    hide Inv, Step, Quiet;
    var w1 := w.(chain := Transferred(w.chain, w.actions[a].auth.value));
    QuietOne(w, Transfer(a), w1);
    QuietOne(w1, Tick(t), w1.(now := t));
    QuietOn(w, [Transfer(a)], w1, [Tick(t)], w1.(now := t));
  }

  lemma TransferMissed(w: World, pid: nat, a: ActionId, t: int)
    requires Ok(w) && Inv(w.db) && pid in w.procs && w.procs[pid] == AtClock(a) && a in w.actions && a in w.sent
    requires w.actions[a].auth.Some? && !w.Used(w.actions[a]) && t >= w.now
    requires w.actions[a].auth.value.validAfter < t < w.actions[a].auth.value.validBefore
    ensures MissesAfter(w, pid, TransferMoves(w, a, t), AfterTransfer(w, a, t))
  {
    hide Ok, Inv, Quiet, Enabled;
    SentCanTransfer(w, a, t);
    FundingIsQuiet(w, a, t);
    var auth := w.actions[a].auth.value;
    PaidByPayer(w, a);
    TransferIsQuiet(Funded(w, a, t), a, auth.validBefore + 1);
    QuietOn(w, [Mint(w.payer, Funding(w, a))] + [Tick(t)], Funded(w, a, t),
            [Transfer(a)] + [Tick(auth.validBefore + 1)], AfterTransfer(w, a, t));
  }

  lemma PaidByPayer(w: World, a: ActionId)
    requires Ok(w) && a in w.actions && w.actions[a].auth.Some?
    ensures w.actions[a].auth.value.payer == w.payer
  {
    assert OneOk(SceneOf(w), a, w.actions[a]);
  }

  /** A chain read that finds a payment unused can be followed by a clock read that misses it exactly
      when the payment can still go through: its window is open and its signature is, or is about to
      be, out. */
  lemma ChainReadExact(w: World, pid: nat, a: ActionId)
    requires Ok(w) && pid in w.procs && w.procs[pid] == AtChain(a) && a in w.actions && !w.Used(w.actions[a])
    ensures Inv(w.db) && Enabled(w, Go(pid))
    ensures CanMiss(w, pid) <==> Exposed(w, a)
  {
    hide Inv, Step, Unrevoked, LeavesApart, NoncesApart, ListedActions, BalanceOk, SentKnown, ViewOf;
    assert ProcOk(SceneOf(w), w.actions, w.procs[pid]) && OneOk(SceneOf(w), a, w.actions[a]);
    var w1 := Next(w, Go(pid));
    ReadStays(w, pid, a);
    MoveKeepsOk(w, Go(pid));
    if CanMiss(w, pid) && !Exposed(w, a) {
      var gap, v :| MissesAfter(w1, pid, gap, v);
      GapIsHarmless(w1, pid, a, gap, v);
    }
    if Exposed(w, a) {
      if a !in w.sent {
        var q :| q in w.procs && w.procs[q] == AtSend(a);
        assert q in w1.procs && w1.procs[q] == AtSend(a);
      }
      ExposedCanMiss(w1, pid, a);
    }
  }

  lemma ExposedCanMiss(w: World, pid: nat, a: ActionId)
    requires Ok(w) && Inv(w.db) && pid in w.procs && w.procs[pid] == AtClock(a) && a in w.actions
    requires w.actions[a].auth.Some? && !w.Used(w.actions[a]) && Exposed(w, a)
    ensures exists gap, v :: MissesAfter(w, pid, gap, v)
  {
    hide Ok, Inv, Step, MissesAfter, TransferMoves, AfterTransfer;
    var t := Max(w.now, w.actions[a].auth.value.validAfter + 1);
    if a in w.sent {
      TransferMissed(w, pid, a, t);
    } else {
      var q :| q in w.procs && w.procs[q] == AtSend(a);
      var w1 := w.(sent := w.sent + {a}, procs := w.procs[q := AtReconcile(a)]);
      QuietOne(w, Go(q), w1);
      MoveKeepsOk(w, Go(q));
      TransferMissed(w1, pid, a, t);
      MissesLater(w, pid, Go(q), w1, TransferMoves(w1, a, t), AfterTransfer(w1, a, t));
    }
  }

  lemma MissesLater(w: World, pid: nat, m: Move, w1: World, gap: seq<Move>, v: World)
    requires !Touches(m, pid) && Quiet(w, [m], w1) && MissesAfter(w1, pid, gap, v)
    ensures MissesAfter(w, pid, [m] + gap, v)
  {
    hide Quiet;
    QuietOn(w, [m], w1, gap, v);
  }

  // ---- A run that spends a budget twice ----

  datatype Cast = Cast(
    root: Id, leaf1: Id, leaf2: Id, a1: ActionId, a2: ActionId, n1: Nonce, n2: Nonce, payer: Account, shop: Account,
    agent: Name)
  {
    predicate Distinct() {
      root != leaf1 && root != leaf2 && leaf1 != leaf2 && a1 != a2 && n1 != n2 && payer != shop
    }

    // the ledger: a budget of 1, all of it reserved by leaf1, released, and reserved again by leaf2

    function RootRow(childReserved: int): Row {
      Row(None, agent, 1, 0, childReserved, 0, 0, true, None, false, 0)
    }

    function LeafRow(rowid: nat): Row {
      NewRow(Some(root), agent, 1, rowid)
    }

    function Opened(): Entry {
      Entry(root, Own(Stage.Open), Root(agent, 1))
    }

    function Reserved(leaf: Id): Entry {
      Entry(leaf, Own(LeafReserve), Reservation(root, agent, 1))
    }

    function Expired(): Entry {
      Entry(leaf1, Own(LeafSettle), Settlement("expired"))
    }

    function Db1(): Db {
      Db(map[root := RootRow(0)], [root], [Opened()])
    }

    function Db2(): Db {
      Db(map[root := RootRow(1), leaf1 := LeafRow(1)], [root, leaf1], [Opened(), Reserved(leaf1)])
    }

    function Db3(): Db {
      Db(map[root := RootRow(0), leaf1 := LeafRow(1).(released := 1, active := false, outcome := Some("expired"))],
         [root, leaf1], [Opened(), Reserved(leaf1), Expired()])
    }

    function Db4(): Db {
      Db(Db3().rows[root := RootRow(1)][leaf2 := LeafRow(2)], [root, leaf1, leaf2],
         [Opened(), Reserved(leaf1), Expired(), Reserved(leaf2)])
    }

    // the two payments, each for the whole budget

    function Purchase(leaf: Id): ActionRow {
      ActionRow(root, leaf, agent, X402, 1, shop, RESERVING, None)
    }

    function Signature(nonce: Nonce, validBefore: int): Authorization {
      Authorization(payer, shop, 1, -1, validBefore, nonce)
    }

    function Signed(leaf: Id, nonce: Nonce, validBefore: int): ActionRow {
      Purchase(leaf).(state := AUTHORIZED, auth := Some(Signature(nonce, validBefore)))
    }

    function Chain0(): Chain {
      Chain(map[payer := 2], map[])
    }

    function Chain1(): Chain {
      Transferred(Chain0(), Signature(n1, 1))
    }

    // the worlds the run goes through

    function World2(): World {
      World(payer, Db1(), map[], [], map[], {}, Chain0(), 2, 0)
    }

    function World4(): World {
      World(payer, Db2(), map[a1 := Purchase(leaf1)], [a1], map[0 := AtCommit(a1)], {}, Chain0(), 2, 0)
    }

    function World8(): World {
      World(payer, Db2(), map[a1 := Signed(leaf1, n1, 1)], [a1], map[0 := AtClock(a1)], {a1}, Chain0(), 2, 0)
    }

    function World10(): World {
      World8().(chain := Chain1(), now := 2)
    }

    function World12(): World {
      World10().(db := Db3(), procs := map[0 := AtMark(a1, EXPIRED)])
    }

    function World14(): World {
      World12().(db := Db4(), actions := map[a1 := Signed(leaf1, n1, 1), a2 := Purchase(leaf2)], listed := [a1, a2],
                 procs := map[0 := AtMark(a1, EXPIRED), 1 := AtCommit(a2)])
    }

    function World17(): World {
      World14().(actions := map[a1 := Signed(leaf1, n1, 1), a2 := Signed(leaf2, n2, 4)], sent := {a1, a2},
                 procs := map[0 := AtMark(a1, EXPIRED), 1 := AtReconcile(a2)],
                 chain := Transferred(Chain1(), Signature(n2, 4)))
    }
  }

  lemma LedgerOpens(c: Cast)
    requires c.Distinct()
    ensures Inv(EMPTY) && Step(EMPTY, CreateRoot(Own(Stage.Open), c.root, c.agent, 1)) == (c.Db1(), Done)
    ensures Inv(c.Db1()) && Unrevoked(c.Db1())
  {
    EmptyInv();
    hide Inv;
    InvIsShaped(EMPTY);
    Accepted(EMPTY, CreateRoot(Own(Stage.Open), c.root, c.agent, 1), c.Opened(), c.Db1());
  }

  lemma LedgerReserves(c: Cast)
    requires c.Distinct() && Inv(c.Db1()) && Unrevoked(c.Db1())
    ensures Step(c.Db1(), Reserve(Own(LeafReserve), c.root, c.leaf1, c.agent, 1)) == (c.Db2(), Done)
    ensures Inv(c.Db2()) && Unrevoked(c.Db2())
  {
    hide Inv, Revoking;
    var op := Reserve(Own(LeafReserve), c.root, c.leaf1, c.agent, 1);
    InvIsShaped(c.Db1());
    NeverRevoking(c.Db1(), c.root);
    Accepted(c.Db1(), op, c.Reserved(c.leaf1), c.Db2());
  }

  lemma LedgerReleases(c: Cast)
    requires c.Distinct() && Inv(c.Db2())
    ensures Step(c.Db2(), Settle(Own(LeafSettle), c.leaf1, "expired")) == (c.Db3(), Done)
    ensures Inv(c.Db3()) && Unrevoked(c.Db3())
  {
    hide Inv, ActiveBelow;
    var op := Settle(Own(LeafSettle), c.leaf1, "expired");
    InvIsShaped(c.Db2());
    DeepSearchIsShallow(c.Db2(), c.leaf1);
    Accepted(c.Db2(), op, c.Expired(), c.Db3());
  }

  lemma LedgerReservesAgain(c: Cast)
    requires c.Distinct() && Inv(c.Db3()) && Unrevoked(c.Db3())
    ensures Step(c.Db3(), Reserve(Own(LeafReserve), c.root, c.leaf2, c.agent, 1)) == (c.Db4(), Done)
    ensures Inv(c.Db4())
  {
    hide Inv, Revoking;
    var op := Reserve(Own(LeafReserve), c.root, c.leaf2, c.agent, 1);
    InvIsShaped(c.Db3());
    NeverRevoking(c.Db3(), c.root);
    Accepted(c.Db3(), op, c.Reserved(c.leaf2), c.Db4());
  }

  /** A purchase is inserted and its leaf reserved. */
  lemma Buys(c: Cast, w: World, pid: nat, a: ActionId, row: ActionRow, db': Db)
    requires Inv(w.db) && Enabled(w, Begin(pid, a, row))
    requires Step(w.db, Reserve(Own(LeafReserve), row.delegation, row.leaf, row.agent, row.amount)) == (db', Done)
    ensures Leads(w, [Begin(pid, a, row), Go(pid)],
                  w.(db := db', actions := w.actions[a := row], listed := w.listed + [a],
                     procs := w.procs[pid := AtCommit(a)]))
  {
    hide Inv, Step;
    var w1 := w.(actions := w.actions[a := row], listed := w.listed + [a], procs := w.procs[pid := AtReserve(a)]);
    var w2 := w.(db := db', actions := w.actions[a := row], listed := w.listed + [a],
                 procs := w.procs[pid := AtCommit(a)]);
    LeadsOne(w, Begin(pid, a, row), w1);
    assert w.procs[pid := AtReserve(a)][pid := AtCommit(a)] == w.procs[pid := AtCommit(a)];
    LeadsOne(w1, Go(pid), w2);
    LeadsOn(w, [Begin(pid, a, row)], w1, [Go(pid)], w2);
    assert [Begin(pid, a, row)] + [Go(pid)] == [Begin(pid, a, row), Go(pid)];
  }

  /** It is signed and sent. */
  lemma Pays(w: World, pid: nat, a: ActionId, auth: Authorization)
    requires Inv(w.db) && Enabled(w, Sign(pid, auth)) && w.procs[pid].a == a && w.actions[a].state == RESERVING
    ensures Leads(w, [Sign(pid, auth), Go(pid)],
                  w.(actions := w.actions[a := w.actions[a].(state := AUTHORIZED, auth := Some(auth))],
                     procs := w.procs[pid := AtReconcile(a)], sent := w.sent + {a}))
  {
    hide Inv, Step;
    var w1 := w.(actions := w.actions[a := w.actions[a].(state := AUTHORIZED, auth := Some(auth))],
                 procs := w.procs[pid := AtSend(a)]);
    var w2 := w1.(procs := w.procs[pid := AtReconcile(a)], sent := w.sent + {a});
    LeadsOne(w, Sign(pid, auth), w1);
    assert w.procs[pid := AtSend(a)][pid := AtReconcile(a)] == w.procs[pid := AtReconcile(a)];
    LeadsOne(w1, Go(pid), w2);
    LeadsOn(w, [Sign(pid, auth)], w1, [Go(pid)], w2);
    assert [Sign(pid, auth)] + [Go(pid)] == [Sign(pid, auth), Go(pid)];
  }

  lemma Two(w: World, m: Move, w1: World, n: Move, w2: World)
    requires Inv(w.db) && Enabled(w, m) && Next(w, m) == w1
    requires Inv(w1.db) && Enabled(w1, n) && Next(w1, n) == w2
    ensures Leads(w, [m, n], w2)
  {
    hide Inv, Next, Enabled;
    LeadsOne(w, m, w1);
    LeadsOne(w1, n, w2);
    LeadsOn(w, [m], w1, [n], w2);
    assert [m] + [n] == [m, n];
  }

  lemma OpensWork(c: Cast)
    requires c.Distinct()
    ensures Leads(Start(c.payer, 0), [Mint(c.payer, 2), OpenWork(c.root, c.agent, 1)], c.World2())
    ensures Inv(c.Db1()) && Unrevoked(c.Db1())
  {
    hide Inv, Step;
    LedgerOpens(c);
    var w0 := Start(c.payer, 0);
    var w1 := w0.(chain := c.Chain0(), funded := 2);
    assert Credit(map[], c.payer, 2) == map[c.payer := 2];
    Two(w0, Mint(c.payer, 2), w1, OpenWork(c.root, c.agent, 1), c.World2());
  }

  lemma SendsFirst(c: Cast)
    requires c.Distinct() && Inv(c.Db2())
    ensures Leads(c.World4(), [Sign(0, c.Signature(c.n1, 1)), Go(0)] + [Go(0), Go(0)], c.World8())
  {
    hide Inv, Step;
    Pays(c.World4(), 0, c.a1, c.Signature(c.n1, 1));
    var sent := c.World8().(procs := map[0 := AtReconcile(c.a1)]);
    Two(sent, Go(0), c.World8().(procs := map[0 := AtChain(c.a1)]), Go(0), c.World8());
    LeadsOn(c.World4(), [Sign(0, c.Signature(c.n1, 1)), Go(0)], sent, [Go(0), Go(0)], c.World8());
  }

  lemma PaysFirst(c: Cast)
    requires c.Distinct() && Inv(c.Db1()) && Unrevoked(c.Db1())
    ensures Leads(c.World2(),
                  [Begin(0, c.a1, c.Purchase(c.leaf1)), Go(0)]
                  + ([Sign(0, c.Signature(c.n1, 1)), Go(0)] + [Go(0), Go(0)]), c.World8())
    ensures Inv(c.Db2()) && Unrevoked(c.Db2())
  {
    hide Inv, Step;
    LedgerReserves(c);
    Buys(c, c.World2(), 0, c.a1, c.Purchase(c.leaf1), c.Db2());
    SendsFirst(c);
    LeadsOn(c.World2(), [Begin(0, c.a1, c.Purchase(c.leaf1)), Go(0)], c.World4(),
            [Sign(0, c.Signature(c.n1, 1)), Go(0)] + [Go(0), Go(0)], c.World8());
  }

  /** The transfer goes through at time 0, the window closes at 1, and the clock is read at 2. */
  lemma MissesIt(c: Cast)
    requires c.Distinct() && Inv(c.Db2()) && Unrevoked(c.Db2())
    ensures Leads(c.World8(), [Transfer(c.a1), Tick(2)] + [Go(0), Go(0)], c.World12())
    ensures LateTransferMissed(c.World10(), Go(0))
    ensures Inv(c.Db3()) && Unrevoked(c.Db3())
  {
    hide Inv, Step;
    LedgerReleases(c);
    var moved := c.World8().(chain := c.Chain1());
    Two(c.World8(), Transfer(c.a1), moved, Tick(2), c.World10());
    Two(c.World10(), Go(0), c.World10().(procs := map[0 := AtSettle(c.a1, "expired", EXPIRED)]), Go(0), c.World12());
    LeadsOn(c.World8(), [Transfer(c.a1), Tick(2)], c.World10(), [Go(0), Go(0)], c.World12());
  }

  lemma SecondTransfers(c: Cast)
    requires c.Distinct() && Inv(c.Db4())
    ensures Leads(c.World17().(chain := c.Chain1()), [Transfer(c.a2)], c.World17())
  {
    hide Inv, Step;
    LeadsOne(c.World17().(chain := c.Chain1()), Transfer(c.a2), c.World17());
  }

  lemma SecondSent(c: Cast)
    requires c.Distinct() && Inv(c.Db4())
    ensures Leads(c.World14(), [Sign(1, c.Signature(c.n2, 4)), Go(1)], c.World17().(chain := c.Chain1()))
  {
    hide Inv, Step;
    Pays(c.World14(), 1, c.a2, c.Signature(c.n2, 4));
  }

  lemma SecondPaid(c: Cast)
    requires c.Distinct() && Inv(c.Db4())
    ensures Leads(c.World14(), [Sign(1, c.Signature(c.n2, 4)), Go(1)] + [Transfer(c.a2)], c.World17())
  {
    hide Leads;
    SecondSent(c);
    SecondTransfers(c);
    LeadsOn(c.World14(), [Sign(1, c.Signature(c.n2, 4)), Go(1)], c.World17().(chain := c.Chain1()),
            [Transfer(c.a2)], c.World17());
  }

  lemma PaysAgain(c: Cast)
    requires c.Distinct() && Inv(c.Db3()) && Unrevoked(c.Db3())
    ensures Leads(c.World12(),
                  [Begin(1, c.a2, c.Purchase(c.leaf2)), Go(1)]
                  + ([Sign(1, c.Signature(c.n2, 4)), Go(1)] + [Transfer(c.a2)]), c.World17())
    ensures Inv(c.Db4())
  {
    hide Inv, Step;
    LedgerReservesAgain(c);
    Buys(c, c.World12(), 1, c.a2, c.Purchase(c.leaf2), c.Db4());
    SecondPaid(c);
    LeadsOn(c.World12(), [Begin(1, c.a2, c.Purchase(c.leaf2)), Go(1)], c.World14(),
            [Sign(1, c.Signature(c.n2, 4)), Go(1)] + [Transfer(c.a2)], c.World17());
  }

  /** The whole run. */
  function RaceMoves(c: Cast): seq<Move> {
    [Mint(c.payer, 2), OpenWork(c.root, c.agent, 1)]
    + (([Begin(0, c.a1, c.Purchase(c.leaf1)), Go(0)]
        + ([Sign(0, c.Signature(c.n1, 1)), Go(0)] + [Go(0), Go(0)]))
       + (([Transfer(c.a1), Tick(2)] + [Go(0), Go(0)])
          + ([Begin(1, c.a2, c.Purchase(c.leaf2)), Go(1)]
             + ([Sign(1, c.Signature(c.n2, 4)), Go(1)] + [Transfer(c.a2)]))))
  }

  /** The bound fails without its condition: a budget of 1 pays out 2, in one process with no crash,
      when a transfer lands between the two reads of a reconciliation. */
  lemma BudgetSpentTwice(c: Cast)
    requires c.Distinct()
    ensures Leads(Start(c.payer, 0), RaceMoves(c), c.World17())
    ensures Inv(c.Db4()) && c.World17().db.rows[c.root].authority == 1
    ensures Outflow(c.World17(), c.root) == 2
    ensures BalanceOf(c.World17().chain, c.payer) == 0
  {
    hide Inv;
    OpensWork(c);
    PaysFirst(c);
    MissesIt(c);
    PaysAgain(c);
    LeadsOn(c.World8(), [Transfer(c.a1), Tick(2)] + [Go(0), Go(0)], c.World12(),
            [Begin(1, c.a2, c.Purchase(c.leaf2)), Go(1)]
            + ([Sign(1, c.Signature(c.n2, 4)), Go(1)] + [Transfer(c.a2)]), c.World17());
    LeadsOn(c.World2(),
            [Begin(0, c.a1, c.Purchase(c.leaf1)), Go(0)]
            + ([Sign(0, c.Signature(c.n1, 1)), Go(0)] + [Go(0), Go(0)]), c.World8(),
            ([Transfer(c.a1), Tick(2)] + [Go(0), Go(0)])
            + ([Begin(1, c.a2, c.Purchase(c.leaf2)), Go(1)]
               + ([Sign(1, c.Signature(c.n2, 4)), Go(1)] + [Transfer(c.a2)])), c.World17());
    LeadsOn(Start(c.payer, 0), [Mint(c.payer, 2), OpenWork(c.root, c.agent, 1)], c.World2(),
            ([Begin(0, c.a1, c.Purchase(c.leaf1)), Go(0)]
             + ([Sign(0, c.Signature(c.n1, 1)), Go(0)] + [Go(0), Go(0)]))
            + (([Transfer(c.a1), Tick(2)] + [Go(0), Go(0)])
               + ([Begin(1, c.a2, c.Purchase(c.leaf2)), Go(1)]
                  + ([Sign(1, c.Signature(c.n2, 4)), Go(1)] + [Transfer(c.a2)]))), c.World17());
    FinalOutflow(c);
  }

  lemma FinalOutflow(c: Cast)
    requires c.Distinct() && Inv(c.Db4())
    ensures Outflow(c.World17(), c.root) == 2
    ensures BalanceOf(c.World17().chain, c.payer) == 0
  {
    hide Slots, SettledSpend, OwnSpend, Solvent;
    var w := c.World17();
    assert Under(w.db.rows, c.root, c.root);
    assert OutflowOf(w, c.root, c.a1) == 1 && OutflowOf(w, c.root, c.a2) == 1;
    var f := a => OutflowOf(w, c.root, a);
    assert w.listed == [c.a1] + [c.a2];
    SumSnoc([c.a1], c.a2, f);
    SumSnoc([], c.a1, f);
    assert [] + [c.a1] == [c.a1];
  }

  // ---- An action that ends twice ----

  /** The work with its budget of 1, and process 0 with a purchase of 2. */
  function Overdrawn(c: Cast, state: State, procs: map<nat, Pc>): World {
    World(c.payer, c.Db1(), map[c.a1 := c.Purchase(c.leaf1).(amount := 2, state := state)], [c.a1], procs, {},
          Chain(map[], map[]), 0, 0)
  }

  lemma OverdrawBegins(c: Cast)
    requires c.Distinct() && Inv(c.Db1())
    requires Step(EMPTY, CreateRoot(Own(Stage.Open), c.root, c.agent, 1)) == (c.Db1(), Done)
    ensures Leads(Start(c.payer, 0), [OpenWork(c.root, c.agent, 1), Begin(0, c.a1, c.Purchase(c.leaf1).(amount := 2))],
                  Overdrawn(c, RESERVING, map[0 := AtReserve(c.a1)]))
  {
    hide Inv, Step;
    var w1 := Start(c.payer, 0).(db := c.Db1());
    Two(Start(c.payer, 0), OpenWork(c.root, c.agent, 1), w1,
        Begin(0, c.a1, c.Purchase(c.leaf1).(amount := 2)), Overdrawn(c, RESERVING, map[0 := AtReserve(c.a1)]));
  }

  lemma OverdrawStops(c: Cast)
    requires c.Distinct() && Inv(c.Db1())
    ensures Leads(Overdrawn(c, RESERVING, map[0 := AtReserve(c.a1)]), [Go(0)],
                  Overdrawn(c, RESERVING, map[0 := AtRefuse(c.a1)]))
  {
    hide Inv, Step;
    InvIsShaped(c.Db1());
    OverdrawRefused(c);
    LeadsOne(Overdrawn(c, RESERVING, map[0 := AtReserve(c.a1)]), Go(0),
             Overdrawn(c, RESERVING, map[0 := AtRefuse(c.a1)]));
  }

  lemma Overdraws(c: Cast)
    requires c.Distinct()
    ensures Inv(c.Db1())
    ensures Leads(Start(c.payer, 0),
                  [OpenWork(c.root, c.agent, 1), Begin(0, c.a1, c.Purchase(c.leaf1).(amount := 2))]
                  + [Go(0)], Overdrawn(c, RESERVING, map[0 := AtRefuse(c.a1)]))
  {
    hide Inv, Step, Leads;
    LedgerOpens(c);
    OverdrawBegins(c);
    OverdrawStops(c);
    LeadsOn(Start(c.payer, 0), [OpenWork(c.root, c.agent, 1), Begin(0, c.a1, c.Purchase(c.leaf1).(amount := 2))],
            Overdrawn(c, RESERVING, map[0 := AtReserve(c.a1)]), [Go(0)],
            Overdrawn(c, RESERVING, map[0 := AtRefuse(c.a1)]));
  }

  lemma OverdrawRefused(c: Cast)
    requires c.Distinct() && Forest(c.Db1().rows)
    ensures Step(c.Db1(), Reserve(Own(LeafReserve), c.root, c.leaf1, c.agent, 2)) == (c.Db1(), Refused)
    ensures Step(c.Db1(), Settle(Own(LeafSettle), c.leaf1, "abandoned")) == (c.Db1(), Refused)
  {
    hide Revoking;
  }

  /** Process 0 is about to write REFUSED, and process 1 reconciles. */
  function Beside(c: Cast, state: State, pc: Pc): World {
    Overdrawn(c, state, map[0 := AtRefuse(c.a1), 1 := pc])
  }

  lemma OtherClaims(c: Cast)
    requires Inv(c.Db1())
    ensures Leads(Overdrawn(c, RESERVING, map[0 := AtRefuse(c.a1)]), [Reconcile(1, c.a1), Go(1)],
                  Beside(c, RESERVING, AtClaim(c.a1)))
  {
    hide Inv, Step;
    Two(Overdrawn(c, RESERVING, map[0 := AtRefuse(c.a1)]), Reconcile(1, c.a1),
        Beside(c, RESERVING, AtReconcile(c.a1)), Go(1), Beside(c, RESERVING, AtClaim(c.a1)));
  }

  lemma OtherCloses(c: Cast)
    requires c.Distinct() && Inv(c.Db1())
    ensures Leads(Beside(c, RESERVING, AtClaim(c.a1)), [Go(1), Go(1)], Beside(c, ABANDONING, AtMark(c.a1, ABANDONED)))
  {
    hide Inv, Step;
    InvIsShaped(c.Db1());
    OverdrawRefused(c);
    Two(Beside(c, RESERVING, AtClaim(c.a1)), Go(1),
        Beside(c, ABANDONING, AtSettle(c.a1, "abandoned", ABANDONED)), Go(1),
        Beside(c, ABANDONING, AtMark(c.a1, ABANDONED)));
  }

  lemma OtherAbandons(c: Cast)
    requires c.Distinct() && Inv(c.Db1())
    ensures Leads(Overdrawn(c, RESERVING, map[0 := AtRefuse(c.a1)]),
                  [Reconcile(1, c.a1), Go(1)] + ([Go(1), Go(1)] + [Go(1)]),
                  Overdrawn(c, ABANDONED, map[0 := AtRefuse(c.a1)]))
  {
    hide Inv, Step, Leads;
    OtherClaims(c);
    OtherCloses(c);
    var w4, w5 := Beside(c, ABANDONING, AtMark(c.a1, ABANDONED)), Overdrawn(c, ABANDONED, map[0 := AtRefuse(c.a1)]);
    assert w4.procs - {1} == w5.procs;
    LeadsOne(w4, Go(1), w5);
    LeadsOn(Beside(c, RESERVING, AtClaim(c.a1)), [Go(1), Go(1)], w4, [Go(1)], w5);
    LeadsOn(Overdrawn(c, RESERVING, map[0 := AtRefuse(c.a1)]), [Reconcile(1, c.a1), Go(1)],
            Beside(c, RESERVING, AtClaim(c.a1)), [Go(1), Go(1)] + [Go(1)], w5);
  }

  /** A reservation is refused; before its process writes that down, another one reconciles the action to
      ABANDONED; then the first writes REFUSED over it. */
  lemma EndsTwice(c: Cast)
    requires c.Distinct()
    ensures Leads(Start(c.payer, 0),
                  ([OpenWork(c.root, c.agent, 1), Begin(0, c.a1, c.Purchase(c.leaf1).(amount := 2))] + [Go(0)])
                  + ([Reconcile(1, c.a1), Go(1)] + ([Go(1), Go(1)] + [Go(1)])),
                  Overdrawn(c, ABANDONED, map[0 := AtRefuse(c.a1)]))
    ensures Leads(Overdrawn(c, ABANDONED, map[0 := AtRefuse(c.a1)]), [Go(0)], Overdrawn(c, REFUSED, map[]))
  {
    hide Leads, Step, Inv;
    Overdraws(c);
    InvIsShaped(c.Db1());
    OtherAbandons(c);
    LeadsOn(Start(c.payer, 0),
            [OpenWork(c.root, c.agent, 1), Begin(0, c.a1, c.Purchase(c.leaf1).(amount := 2))] + [Go(0)],
            Overdrawn(c, RESERVING, map[0 := AtRefuse(c.a1)]),
            [Reconcile(1, c.a1), Go(1)] + ([Go(1), Go(1)] + [Go(1)]),
            Overdrawn(c, ABANDONED, map[0 := AtRefuse(c.a1)]));
    assert map[0 := AtRefuse(c.a1)] - {0} == map[];
    LeadsOne(Overdrawn(c, ABANDONED, map[0 := AtRefuse(c.a1)]), Go(0), Overdrawn(c, REFUSED, map[]));
  }
}
