/** The ledger's promises, stated for every run from an empty store and for every later state. */
module LedgerRuns {
  import opened Common
  import opened Ledger
  import opened LedgerInvariant
  import opened LedgerTheorems

  // ---- From an empty store ----

  lemma {:induction false} RunKeepsBooks(db: Db, ops: seq<Op>)
    requires Inv(db) && AuthorityIsIssued(db) && FoldsFromLog(db)
    ensures AuthorityIsIssued(Run(db, ops)) && FoldsFromLog(Run(db, ops))
    decreases |ops|
  {
    hide AuthorityIsIssued, FoldsFromLog, Step, Slots, SettledSpend, OwnSpend;
    if ops != [] {
      StepKeepsInv(db, ops[0]);
      StepKeepsIssued(db, ops[0]);
      StepKeepsFold(db, ops[0]);
      RunKeepsBooks(Step(db, ops[0]).0, ops[1..]);
    }
  }

  lemma EmptyBooks()
    ensures Inv(EMPTY) && AuthorityIsIssued(EMPTY) && FoldsFromLog(EMPTY)
  {
  }

  /** The store after `ops`, starting empty. */
  ghost function History(ops: seq<Op>): (db: Db)
    ensures Inv(db)
  {
    EmptyInv();
    Run(EMPTY, ops)
  }

  /** No overspend anywhere: in every reachable state, the spend recorded in a delegation's tree,
      with what is still spendable or locked there, never exceeds what it was opened with plus
      the grants accepted for it. */
  lemma NoOverspend(ops: seq<Op>, d: Id)
    requires d in History(ops).rows
    ensures var db := History(ops);
            TreeSpend(db, d) + Spendable(db, d) + Locked(db, d) <= Issued(db.log, d)
  {
    hide Locked, Spendable, TreeSpend, Run, FoldsFromLog;
    EmptyBooks();
    RunKeepsBooks(EMPTY, ops);
    WhereItWent(History(ops), d);
  }

  /** Balances are a fold of the event log: two runs that recorded the same events left the same
      balances, whatever was refused, replayed or marked in between. */
  lemma SameEventsSameBalances(ops1: seq<Op>, ops2: seq<Op>)
    requires History(ops1).log == History(ops2).log
    ensures Unmarked(History(ops1)) == Unmarked(History(ops2))
  {
    EmptyBooks();
    RunKeepsBooks(EMPTY, ops1);
    RunKeepsBooks(EMPTY, ops2);
  }

  // ---- From any state to any later state ----

  /** Nothing recorded is forgotten, no delegation moves or reopens, no mark or taint is lifted, and
      a settled row is final but for its mark. */
  ghost predicate Later(db: Db, db': Db) {
    && db.log <= db'.log
    && Extends(db.rows, db'.rows)
    && (forall x :: x in db.rows ==> LaterRow(db.rows[x], db'.rows[x]))
  }

  predicate LaterRow(row: Row, row': Row) {
    && (row.revoking ==> row'.revoking)
    && row.unknownCount <= row'.unknownCount
    && row'.agent == row.agent
    && (!row.active ==> row' == row.(revoking := row'.revoking))
  }

  lemma LaterTransitive(a: Db, b: Db, c: Db)
    requires Later(a, b) && Later(b, c)
    ensures Later(a, c)
  {
    forall x | x in a.rows
      ensures LaterRow(a.rows[x], c.rows[x])
    {
      assert LaterRow(a.rows[x], b.rows[x]) && LaterRow(b.rows[x], c.rows[x]);
    }
  }

  lemma RecordExtends(db: Db, entry: Entry)
    requires Forest(db.rows) && Applies(db.rows, entry)
    ensures Extends(db.rows, Record(db, entry).rows) && db.log <= Record(db, entry).log
  {
  }

  lemma RecordIsLater(db: Db, entry: Entry)
    requires Forest(db.rows) && ActiveUpward(db.rows) && Applies(db.rows, entry)
    requires entry.fact.Reservation? ==> entry.fact.parent in db.rows && db.rows[entry.fact.parent].active
    requires !entry.fact.Root? && !entry.fact.Reservation? ==> db.rows[entry.delegation].active
    ensures Later(db, Record(db, entry))
  {
    hide Extends;
    RecordExtends(db, entry);
    forall x | x in db.rows
      ensures x in Record(db, entry).rows && LaterRow(db.rows[x], Record(db, entry).rows[x])
    {
      if entry.delegation in db.rows && db.rows[entry.delegation].parent == Some(x) {
        assert ChildOf(db.rows, entry.delegation, x);
      }
    }
  }

  lemma StepIsLater(db: Db, op: Op)
    requires Inv(db)
    ensures Later(db, Step(db, op).0)
  {
    hide Slots, SettledSpend, OwnSpend, Record, Revoking, ActiveBelow;
    if !op.Mark? && Decide(db, op).Accept? {
      AcceptedApplies(db, op);
      RecordIsLater(db, Decide(db, op).entry);
    }
  }

  lemma {:induction false} RunIsLater(db: Db, ops: seq<Op>)
    requires Inv(db)
    ensures Later(db, Run(db, ops))
    decreases |ops|
  {
    hide Step, Slots, SettledSpend, OwnSpend;
    if ops != [] {
      StepKeepsInv(db, ops[0]);
      StepIsLater(db, ops[0]);
      RunIsLater(Step(db, ops[0]).0, ops[1..]);
      LaterTransitive(db, Step(db, ops[0]).0, Run(db, ops));
    }
  }

  // ---- Replays ----

  predicate AmountsOk(op: Op) {
    match op
    case DoGrant(_, _, amount) => AmountOk(amount)
    case Consume(_, _, cost) => cost.Some? ==> AmountOk(cost.value)
    case _ => true
  }

  lemma RecordedWhenAnswered(db: Db, op: Op)
    requires Forest(db.rows) && (op.DoGrant? || op.Consume? || op.Settle?)
    requires Step(db, op).1.Done? || Step(db, op).1.Known?
    ensures Requested(op) in Step(db, op).0.log && op.id in Step(db, op).0.rows && AmountsOk(op)
  {
  }

  lemma KnownWhenRecorded(db: Db, op: Op)
    requires Inv(db) && (op.DoGrant? || op.Consume? || op.Settle?)
    requires Requested(op) in db.log && op.id in db.rows && AmountsOk(op)
    ensures Step(db, op) == (db, Known)
  {
  }

  lemma ConflictWhenRecordedOtherwise(db: Db, op: Op, other: Op)
    requires Inv(db) && (op.DoGrant? || op.Consume? || op.Settle?) && op.id in db.rows
    requires other.DoGrant? || other.Consume? || other.Settle?
    requires Requested(other) in db.log && other.id == op.id && other.event == op.event && other != op
    ensures Step(db, op) == (db, if AmountsOk(op) then Conflict else Invalid)
  {
    hide Revoking, ActiveBelow, Slots, SettledSpend, OwnSpend, Solvent;
    assert Recorded(db.log, op.id, op.event);
    assert Requested(op) !in db.log;
  }

  /** Once a request is answered True, the same request is answered True for ever and changes
      nothing, and any other request under the same key raises or is invalid, and changes nothing. */
  lemma ReplayIsInert(db: Db, op: Op, ops: seq<Op>, other: Op)
    requires Inv(db) && (op.DoGrant? || op.Consume? || op.Settle?)
    requires Step(db, op).1.Done? || Step(db, op).1.Known?
    requires other.DoGrant? || other.Consume? || other.Settle?
    requires other.id == op.id && other.event == op.event && other != op
    ensures Inv(Step(db, op).0)
    ensures var later := Run(Step(db, op).0, ops);
            && Step(later, op) == (later, Known)
            && Step(later, other) == (later, if AmountsOk(other) then Conflict else Invalid)
  {
    hide Decide, Record, Later;
    StepKeepsInv(db, op);
    RecordedWhenAnswered(db, op);
    RunKeepsRecords(Step(db, op).0, ops, op);
    KnownWhenRecorded(Run(Step(db, op).0, ops), op);
    ConflictWhenRecordedOtherwise(Run(Step(db, op).0, ops), other, op);
  }

  lemma RunKeepsRecords(db: Db, ops: seq<Op>, op: Op)
    requires Inv(db) && (op.DoGrant? || op.Consume? || op.Settle?)
    requires Requested(op) in db.log && op.id in db.rows
    ensures Requested(op) in Run(db, ops).log && op.id in Run(db, ops).rows
  {
    hide Run, Slots, SettledSpend, OwnSpend;
    RunIsLater(db, ops);
  }

  /** A reserve that created its delegation is answered "already_exists" by every later retry until
      a grant changes the delegation's authority. From then on the retry raises. */
  lemma ReserveRetry(before: seq<Op>, op: Op, after: seq<Op>)
    requires op.Reserve? && Step(History(before), op).1.Done?
    ensures Inv(Step(History(before), op).0)
    ensures var later := Run(Step(History(before), op).0, after);
            Step(later, op) == (later, if Issued(later.log, op.id) == op.maximum then Known else Conflict)
  {
    hide Decide, Record;
    var db := History(before);
    EmptyBooks();
    RunKeepsBooks(EMPTY, before);
    StepKeepsInv(db, op);
    StepKeepsIssued(db, op);
    StepKeepsFold(db, op);
    CreatedRow(db, op);
    RunKeepsRow(Step(db, op).0, after, op.id);
    RunKeepsBooks(Step(db, op).0, after);
    RetryCompares(Run(Step(db, op).0, after), op);
  }

  /** What a request does, once it is known to be accepted. */
  lemma Accepted(db: Db, op: Op, entry: Entry, db': Db)
    requires Inv(db) && !op.Mark? && Decide(db, op) == Accept(entry)
    requires Record(db, entry).rows == db'.rows
    requires Record(db, entry).order == db'.order && db.log + [entry] == db'.log
    requires Record(db, entry).log == db.log + [entry]
    ensures Step(db, op) == (db', Done) && Inv(db')
  {
    hide Decide, Record, Slots, SettledSpend, OwnSpend, Solvent;
    StepKeepsInv(db, op);
  }

  lemma RunOne(db: Db, op: Op, ops: seq<Op>)
    requires Inv(db)
    ensures Inv(Step(db, op).0) && Run(db, [op] + ops) == Run(Step(db, op).0, ops)
  {
    hide Step, Slots, SettledSpend, OwnSpend;
    StepKeepsInv(db, op);
    assert ([op] + ops)[0] == op && ([op] + ops)[1..] == ops;
  }

  /** A retried reservation: of 5, from a root of 10, for a child that is then granted 1. */
  datatype Retry = Retry(
    root: Id, child: Id, agent: Name, opening: EventId, reserving: EventId, granting: EventId)
  {
    function Reserving(): Op {
      Op.Reserve(reserving, root, child, agent, 5)
    }

    function RootRow(childReserved: int): Row {
      NewRow(None, agent, 10, 0).(childReserved := childReserved)
    }

    function AfterRoot(): Db {
      Db(map[root := RootRow(0)], [root], [Entry(root, opening, Root(agent, 10))])
    }

    function AfterReserve(): Db {
      Db(map[root := RootRow(5), child := NewRow(Some(root), agent, 5, 1)], [root, child],
         AfterRoot().log + [Entry(child, reserving, Reservation(root, agent, 5))])
    }

    function AfterGrant(): Db {
      Db(map[root := RootRow(6), child := NewRow(Some(root), agent, 6, 1)], [root, child],
         AfterReserve().log + [Entry(child, granting, Fact.Grant(1))])
    }
  }

  lemma RetryOpened(r: Retry)
    ensures Inv(EMPTY) && Inv(r.AfterRoot())
    ensures Step(EMPTY, CreateRoot(r.opening, r.root, r.agent, 10)) == (r.AfterRoot(), Done)
  {
    EmptyInv();
    hide Inv;
    InvIsShaped(EMPTY);
    Accepted(EMPTY, CreateRoot(r.opening, r.root, r.agent, 10), Entry(r.root, r.opening, Root(r.agent, 10)),
             r.AfterRoot());
  }

  lemma RetryReserved(r: Retry)
    requires r.root != r.child && Inv(r.AfterRoot())
    ensures Inv(r.AfterReserve()) && Step(r.AfterRoot(), r.Reserving()) == (r.AfterReserve(), Done)
  {
    hide Inv;
    InvIsShaped(r.AfterRoot());
    assert !Revoking(r.AfterRoot().rows, r.root);
    Accepted(r.AfterRoot(), r.Reserving(), Entry(r.child, r.reserving, Reservation(r.root, r.agent, 5)),
             r.AfterReserve());
  }

  lemma RetryGranted(r: Retry)
    requires r.root != r.child && r.reserving != r.granting && Inv(r.AfterReserve())
    ensures Inv(r.AfterGrant())
    ensures Step(r.AfterReserve(), DoGrant(r.granting, r.child, 1)) == (r.AfterGrant(), Done)
  {
    hide Inv;
    InvIsShaped(r.AfterReserve());
    assert !Revoking(r.AfterReserve().rows, r.child);
    Accepted(r.AfterReserve(), DoGrant(r.granting, r.child, 1), Entry(r.child, r.granting, Fact.Grant(1)),
             r.AfterGrant());
  }

  /** A concrete retry that raises where `already_exists` would be expected. */
  lemma ReserveRetryRaises(r: Retry)
    requires r.root != r.child && r.reserving != r.granting
    ensures var db := History([CreateRoot(r.opening, r.root, r.agent, 10)]
                              + ([r.Reserving()] + ([DoGrant(r.granting, r.child, 1)] + [])));
            Inv(db) && db == r.AfterGrant() && Step(db, r.Reserving()) == (db, Conflict)
  {
    RetryOpened(r);
    RetryReserved(r);
    RetryGranted(r);
    hide Inv, Step;
    var grant := [DoGrant(r.granting, r.child, 1)] + [];
    RunOne(EMPTY, CreateRoot(r.opening, r.root, r.agent, 10), [r.Reserving()] + grant);
    RunOne(r.AfterRoot(), r.Reserving(), grant);
    RunOne(r.AfterReserve(), DoGrant(r.granting, r.child, 1), []);
    InvIsShaped(r.AfterGrant());
    RetryCompares(r.AfterGrant(), r.Reserving());
  }

  lemma CreatedRow(db: Db, op: Op)
    requires Forest(db.rows) && op.Reserve? && Step(db, op).1.Done?
    ensures var db' := Step(db, op).0;
            op.id in db'.rows && db'.rows[op.id].parent == Some(op.parent) && db'.rows[op.id].agent == op.agent
            && AmountOk(op.maximum)
  {
  }

  lemma RunKeepsRow(db: Db, ops: seq<Op>, d: Id)
    requires Inv(db) && d in db.rows
    ensures var later := Run(db, ops);
            d in later.rows && later.rows[d].parent == db.rows[d].parent && later.rows[d].agent == db.rows[d].agent
  {
    hide Run, Slots, SettledSpend, OwnSpend;
    RunIsLater(db, ops);
  }

  lemma RetryCompares(db: Db, op: Op)
    requires Forest(db.rows) && op.Reserve? && op.id in db.rows && AmountOk(op.maximum)
    requires db.rows[op.id].parent == Some(op.parent) && db.rows[op.id].agent == op.agent
    ensures Step(db, op) == (db, if db.rows[op.id].authority == op.maximum then Known else Conflict)
  {
  }

  // ---- Unknown cost ----

  /** Whatever a delegation occupies, each of its ancestors occupies too. */
  lemma {:induction false} SlotClimbs(db: Db, x: Id, a: Id)
    requires Inv(db) && x in db.rows && Under(db.rows, x, a) && x != a
    ensures a in db.rows
    ensures db.rows[x].Slot() <= db.rows[a].childReserved <= db.rows[a].Slot()
    decreases db.rows[x].rowid
  {
    hide Slots, SettledSpend, OwnSpend;
    UnderIsLater(db.rows, x, a);
    UnderStep(db.rows, x, a);
    SlotFits(db, x);
    if Parent(db.rows, x) != a {
      SlotClimbs(db, Parent(db.rows, x), a);
    }
  }

  /** Once a delegation with an unknown cost settles, everything it did not knowingly spend stays
      set aside, in every later state, by every one of its ancestors, settled or not. */
  lemma Quarantine(db: Db, x: Id, a: Id, ops: seq<Op>)
    requires Inv(db) && x in db.rows && Under(db.rows, x, a) && x != a
    requires !db.rows[x].active && db.rows[x].unknownCount > 0
    ensures var later := Run(db, ops);
            var unspent := db.rows[x].authority - db.rows[x].consumed;
            && a in later.rows
            && unspent <= later.rows[a].childReserved
            && (!later.rows[a].active ==>
                  unspent <= later.rows[a].authority - later.rows[a].consumed - later.rows[a].released)
  {
    RunIsLater(db, ops);
    var later := Run(db, ops);
    LineageKept(db.rows, later.rows, x);
    SlotClimbs(later, x, a);
  }

  /** A tainted delegation never funds a child again. */
  lemma TaintedNeverFunds(db: Db, p: Id, ops: seq<Op>, op: Op)
    requires Inv(db) && p in db.rows && db.rows[p].unknownCount > 0
    requires op.Reserve? || op.DoGrant?
    requires var later := Run(db, ops);
             if op.Reserve? then op.parent == p else ChildOf(later.rows, op.id, p)
    ensures Step(Run(db, ops), op).0 == Run(db, ops) && !Step(Run(db, ops), op).1.Done?
  {
    hide Slots, SettledSpend, OwnSpend, Run, Revoking;
    RunIsLater(db, ops);
  }

  // ---- Revocation ----

  /** The subtree of `d` is the same set of delegations, each with the same authority and the same
      own recorded spend. */
  ghost predicate SameSubtree(db: Db, db': Db, d: Id)
    requires Forest(db.rows) && Forest(db'.rows)
  {
    && (forall x :: x in db'.rows && Under(db'.rows, x, d) <==> x in db.rows && Under(db.rows, x, d))
    && (forall x :: x in db.rows && Under(db.rows, x, d) && x in db'.rows ==>
          && db'.rows[x].authority == db.rows[x].authority
          && OwnSpend(db'.log, x) == OwnSpend(db.log, x)
          && db'.rows[x].unknownCount == db.rows[x].unknownCount)
  }

  lemma RevokingDownward(rows: map<Id, Row>, x: Id, d: Id)
    requires Forest(rows) && x in rows && Under(rows, x, d) && Revoking(rows, d)
    ensures Revoking(rows, x)
    decreases rows[x].rowid
  {
    UnderStep(rows, x, d);
    if x != d {
      RevokingDownward(rows, Parent(rows, x), d);
      var a :| a in Lineage(rows, Parent(rows, x)) && rows[a].revoking;
      assert a in Lineage(rows, x);
    }
  }

  lemma RevokingStays(db: Db, db': Db, d: Id)
    requires Forest(db.rows) && Forest(db'.rows) && Later(db, db') && d in db.rows && Revoking(db.rows, d)
    ensures Revoking(db'.rows, d)
  {
    LineageKept(db.rows, db'.rows, d);
    var a :| a in Lineage(db.rows, d) && db.rows[a].revoking;
    assert LaterRow(db.rows[a], db'.rows[a]);
  }

  /** No accepted event but a settlement, or the opening of an unrelated root, touches a lineage
      that carries a mark. */
  ghost predicate OffMarkedLineages(rows: map<Id, Row>, entry: Entry)
    requires Forest(rows)
  {
    match entry.fact
    case Root(_, _) => entry.delegation !in rows
    case Reservation(p, _, _) => entry.delegation !in rows && p in rows && !Revoking(rows, p)
    case Settlement(_) => entry.delegation in rows
    case _ => entry.delegation in rows && !Revoking(rows, entry.delegation)
  }

  lemma AcceptedOffMarkedLineages(db: Db, op: Op)
    requires Forest(db.rows) && !op.Mark? && Decide(db, op).Accept?
    ensures OffMarkedLineages(db.rows, Decide(db, op).entry)
  {
  }

  lemma NewRowParent(db: Db, entry: Entry)
    requires entry.fact.Root? || entry.fact.Reservation?
    ensures entry.delegation in Record(db, entry).rows
    ensures Record(db, entry).rows[entry.delegation].parent
         == if entry.fact.Root? then None else Some(entry.fact.parent)
  {
  }

  /** While `d` is being revoked, no accepted event but a settlement is about its subtree. */
  lemma OnlySettlementsBelow(rows: map<Id, Row>, rows': map<Id, Row>, entry: Entry, d: Id)
    requires Forest(rows) && Forest(rows') && Extends(rows, rows') && OffMarkedLineages(rows, entry)
    requires d in rows && Revoking(rows, d) && entry.delegation in rows'
    requires entry.fact.Root? ==> rows'[entry.delegation].parent == None
    requires entry.fact.Reservation? ==> rows'[entry.delegation].parent == Some(entry.fact.parent)
    ensures entry.fact.Settlement? || !Under(rows', entry.delegation, d)
  {
    hide Revoking, Under;
    UnderStep(rows', entry.delegation, d);
    var host := if entry.fact.Reservation? then entry.fact.parent else entry.delegation;
    if !entry.fact.Settlement? && host in rows {
      OldUnder(rows, rows', host, d);
      if Under(rows, host, d) {
        RevokingDownward(rows, host, d);
      }
    }
  }

  lemma OldUnder(rows: map<Id, Row>, rows': map<Id, Row>, x: Id, d: Id)
    requires Forest(rows) && Forest(rows') && Extends(rows, rows') && x in rows
    ensures Under(rows', x, d) <==> Under(rows, x, d)
  {
    LineageKept(rows, rows', x);
  }

  /** An event about `y` leaves the figures of every other delegation's subtree rows alone. */
  lemma RecordElsewhere(db: Db, entry: Entry, x: Id)
    requires Applies(db.rows, entry) && x in db.rows
    requires entry.fact.Settlement? || x != entry.delegation
    ensures x in Record(db, entry).rows
    ensures Record(db, entry).rows[x].authority == db.rows[x].authority
    ensures Record(db, entry).rows[x].unknownCount == db.rows[x].unknownCount
    ensures OwnSpend(Record(db, entry).log, x) == OwnSpend(db.log, x)
  {
    AuthorityAfter(db, entry, x);
    SpendAfter(db.log, entry, x);
  }

  lemma FreezeStep(db: Db, op: Op, d: Id)
    requires Inv(db) && d in db.rows && Revoking(db.rows, d)
    ensures Inv(Step(db, op).0) && Later(db, Step(db, op).0)
    ensures SameSubtree(db, Step(db, op).0, d) && Revoking(Step(db, op).0.rows, d)
  {
    hide Slots, SettledSpend, OwnSpend, Revoking, ActiveBelow, Under, Record, Decide, Solvent;
    StepKeepsInv(db, op);
    StepIsLater(db, op);
    RevokingStays(db, Step(db, op).0, d);
    if op.Mark? {
      if op.id in db.rows && !db.rows[op.id].revoking {
        InvIsShaped(Step(db, op).0);
        MarkElsewhere(db, op.id, d);
      }
    } else if Decide(db, op).Accept? {
      AcceptedApplies(db, op);
      AcceptedOffMarkedLineages(db, op);
      RecordElsewhereUnder(db, Decide(db, op).entry, d);
    }
  }

  lemma MarkElsewhere(db: Db, m: Id, d: Id)
    requires Forest(db.rows) && m in db.rows && Forest(SetMark(db, m).rows)
    ensures SameSubtree(db, SetMark(db, m), d)
  {
    hide Under;
    forall x | x in db.rows {
      OldUnder(db.rows, SetMark(db, m).rows, x, d);
    }
  }

  lemma RecordElsewhereUnder(db: Db, entry: Entry, d: Id)
    requires Forest(db.rows) && Forest(Record(db, entry).rows) && Extends(db.rows, Record(db, entry).rows)
    requires Applies(db.rows, entry) && OffMarkedLineages(db.rows, entry)
    requires d in db.rows && Revoking(db.rows, d)
    ensures SameSubtree(db, Record(db, entry), d)
  {
    hide OwnSpend, Under, Record, Revoking;
    var db' := Record(db, entry);
    if entry.fact.Root? || entry.fact.Reservation? {
      NewRowParent(db, entry);
    }
    AuthorityAfter(db, entry, entry.delegation);
    OnlySettlementsBelow(db.rows, db'.rows, entry, d);
    forall x | x in db'.rows
      ensures Under(db'.rows, x, d) ==> x in db.rows
    {
      AuthorityAfter(db, entry, x);
    }
    forall x | x in db.rows
      ensures Under(db'.rows, x, d) <==> Under(db.rows, x, d)
      ensures Under(db.rows, x, d) ==>
                && db'.rows[x].authority == db.rows[x].authority
                && db'.rows[x].unknownCount == db.rows[x].unknownCount
                && OwnSpend(db'.log, x) == OwnSpend(db.log, x)
    {
      OldUnder(db.rows, db'.rows, x, d);
      if entry.fact.Settlement? || x != entry.delegation {
        RecordElsewhere(db, entry, x);
      }
    }
  }

  /** Freeze: once `d` or an ancestor is marked, its set of descendants, their authority and their
      own recorded spend never change again, in any run. */
  lemma {:induction false} Freeze(db: Db, ops: seq<Op>, d: Id)
    requires Inv(db) && d in db.rows && Revoking(db.rows, d)
    ensures SameSubtree(db, Run(db, ops), d) && Revoking(Run(db, ops).rows, d)
    decreases |ops|
  {
    hide Slots, SettledSpend, OwnSpend, Revoking, Under, Step;
    if ops != [] {
      FreezeStep(db, ops[0], d);
      Freeze(Step(db, ops[0]).0, ops[1..], d);
    }
  }
}
