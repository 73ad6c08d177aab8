/**
  What every step of the ledger keeps. The accounting is exact: a delegation's `child_reserved`
  is the sum of its children's slots, and its `consumed` is its own recorded spend plus that of
  its settled children.
 */
module LedgerInvariant {
  import opened Common
  import opened Ledger

  // ---- Weights that are summed over the whole table ----

  function SlotIn(rows: map<Id, Row>, p: Id, x: Id): int {
    if ChildOf(rows, x, p) then rows[x].Slot() else 0
  }

  function SettledIn(rows: map<Id, Row>, p: Id, x: Id): int {
    if ChildOf(rows, x, p) && !rows[x].active then rows[x].consumed else 0
  }

  ghost function Slots(db: Db, p: Id): int {
    Sum(db.order, x => SlotIn(db.rows, p, x))
  }

  ghost function SettledSpend(db: Db, p: Id): int {
    Sum(db.order, x => SettledIn(db.rows, p, x))
  }

  function KnownCost(entry: Entry, d: Id): int {
    if entry.delegation == d && entry.fact.Consumption? && entry.fact.cost.Some?
    then entry.fact.cost.value else 0
  }

  /** The known amounts of the accepted `consume` events of `d` itself. */
  ghost function OwnSpend(log: seq<Entry>, d: Id): int {
    Sum(log, entry => KnownCost(entry, d))
  }

  // ---- The invariant ----

  /** Every quantity is non-negative, and a delegation never promises more than it holds. An active
      one has released nothing. A settled one has released all that is unused, or nothing at all
      if it recorded an unknown cost. */
  predicate Solvent(row: Row) {
    && 0 <= row.consumed && 0 <= row.childReserved && 0 <= row.released
    && row.consumed + row.childReserved + row.released <= row.authority
    && (row.active ==> row.released == 0)
    && (!row.active ==> row.released == ReleasedBySettling(row.(released := 0)))
  }

  ghost predicate AllSolvent(rows: map<Id, Row>) {
    forall x :: x in rows ==> Solvent(rows[x])
  }

  ghost predicate ActiveUpward(rows: map<Id, Row>) {
    forall x, p :: ChildOf(rows, x, p) && rows[x].active ==> p in rows && rows[p].active
  }

  ghost predicate ReservedExactly(db: Db) {
    forall p :: p in db.rows ==> db.rows[p].childReserved == Slots(db, p)
  }

  ghost predicate ConsumedExactly(db: Db) {
    forall p :: p in db.rows ==> db.rows[p].consumed == OwnSpend(db.log, p) + SettledSpend(db, p)
  }

  ghost predicate LogSound(db: Db) {
    && (forall i :: 0 <= i < |db.log| ==> db.log[i].delegation in db.rows)
    && (forall i, j :: 0 <= i < j < |db.log| ==>
          db.log[i].delegation != db.log[j].delegation || db.log[i].event != db.log[j].event)
    && (forall i :: 0 <= i < |db.log| && db.log[i].fact.Settlement? ==> !db.rows[db.log[i].delegation].active)
    && (forall i, d :: 0 <= i < |db.log| ==> KnownCost(db.log[i], d) >= 0)
  }

  ghost predicate Inv(db: Db) {
    && Shaped(db)
    && AllSolvent(db.rows)
    && ActiveUpward(db.rows)
    && ReservedExactly(db)
    && ConsumedExactly(db)
    && LogSound(db)
  }

  // ---- Lineages only ever grow at the bottom ----

  /** Old rows keep their parent and their place. */
  ghost predicate Extends(rows: map<Id, Row>, rows': map<Id, Row>) {
    forall x :: x in rows ==> x in rows' && rows'[x].parent == rows[x].parent && rows'[x].rowid == rows[x].rowid
  }

  lemma {:induction false} LineageKept(rows: map<Id, Row>, rows': map<Id, Row>, x: Id)
    requires Forest(rows) && Forest(rows') && Extends(rows, rows') && x in rows
    ensures Lineage(rows', x) == Lineage(rows, x)
    decreases rows[x].rowid
  {
    if rows[x].parent.Some? {
      LineageKept(rows, rows', Parent(rows, x));
    }
  }

  // ---- How the sums move ----

  /** Only `d`'s own contribution changed. */
  ghost predicate OnlyWeightOf(db: Db, db': Db, d: Id) {
    && db'.order == db.order && d in db.rows
    && (forall x :: x in db.rows ==> x in db'.rows && db'.rows[x].parent == db.rows[x].parent)
    && (forall x :: x in db.rows && x != d ==>
          db'.rows[x].Slot() == db.rows[x].Slot() && db'.rows[x].active == db.rows[x].active
          && (!db.rows[x].active ==> db'.rows[x].consumed == db.rows[x].consumed))
  }

  lemma SumsAfterChange(db: Db, db': Db, d: Id, p: Id)
    requires Listed(db) && OnlyWeightOf(db, db', d)
    ensures Slots(db', p) == Slots(db, p) + SlotIn(db'.rows, p, d) - SlotIn(db.rows, p, d)
    ensures SettledSpend(db', p) == SettledSpend(db, p) + SettledIn(db'.rows, p, d) - SettledIn(db.rows, p, d)
  {
    var k := db.rows[d].rowid;
    SumChange(db.order, k, x => SlotIn(db.rows, p, x), x => SlotIn(db'.rows, p, x));
    SumChange(db.order, k, x => SettledIn(db.rows, p, x), x => SettledIn(db'.rows, p, x));
  }

  /** `d` is a new last row, and no other contribution changed. */
  ghost predicate OnlyNew(db: Db, db': Db, d: Id) {
    && d !in db.rows && db'.order == db.order + [d]
    && (forall x :: x in db.rows ==> x in db'.rows)
    && (forall x :: x in db.rows ==>
          db'.rows[x].parent == db.rows[x].parent && db'.rows[x].Slot() == db.rows[x].Slot()
          && db'.rows[x].active == db.rows[x].active
          && (!db.rows[x].active ==> db'.rows[x].consumed == db.rows[x].consumed))
  }

  lemma SumsAfterInsert(db: Db, db': Db, d: Id, p: Id)
    requires Listed(db) && OnlyNew(db, db', d)
    ensures Slots(db', p) == Slots(db, p) + SlotIn(db'.rows, p, d)
    ensures SettledSpend(db', p) == SettledSpend(db, p) + SettledIn(db'.rows, p, d)
  {
    SumSnoc(db.order, d, x => SlotIn(db'.rows, p, x));
    SumAgree(db.order, x => SlotIn(db.rows, p, x), x => SlotIn(db'.rows, p, x));
    SumSnoc(db.order, d, x => SettledIn(db'.rows, p, x));
    SumAgree(db.order, x => SettledIn(db.rows, p, x), x => SettledIn(db'.rows, p, x));
  }

  lemma NoChildYet(db: Db, d: Id)
    requires Shaped(db) && d !in db.rows
    ensures Slots(db, d) == 0 && SettledSpend(db, d) == 0
  {
    SumAgree(db.order, x => SlotIn(db.rows, d, x), (x: Id) => 0);
    SumAgree(db.order, x => SettledIn(db.rows, d, x), (x: Id) => 0);
    SumOfZeros(db.order);
  }

  lemma {:induction false} SumOfZeros<T(!new)>(s: seq<T>)
    ensures Sum(s, (x: T) => 0) == 0
  {
    if s != [] {
      SumOfZeros(s[..|s| - 1]);
    }
  }

  lemma SpendAfter(log: seq<Entry>, entry: Entry, d: Id)
    ensures OwnSpend(log + [entry], d) == OwnSpend(log, d) + KnownCost(entry, d)
  {
  }

  lemma NoSpendYet(db: Db, d: Id)
    requires LogSound(db) && d !in db.rows
    ensures OwnSpend(db.log, d) == 0
  {
    SumAgree(db.log, e => KnownCost(e, d), (e: Entry) => 0);
    SumOfZeros(db.log);
  }

  lemma SpendNonNegative(db: Db, d: Id)
    requires LogSound(db)
    ensures OwnSpend(db.log, d) >= 0
  {
    SumZeroOrMore(db.log, e => KnownCost(e, d));
  }

  // ---- Every accepted event keeps the invariant ----

  /** Each row's counters moved by exactly what `d`'s weight and a known cost of `d` say. */
  ghost predicate CountersFollow(rows: map<Id, Row>, rows': map<Id, Row>, d: Id, cost: int) {
    forall p :: p in rows && p in rows' ==>
      && rows'[p].childReserved == rows[p].childReserved + SlotIn(rows', p, d) - SlotIn(rows, p, d)
      && rows'[p].consumed == rows[p].consumed + SettledIn(rows', p, d) - SettledIn(rows, p, d)
                              + (if p == d then cost else 0)
  }

  ghost predicate SpendFollows(log: seq<Entry>, log': seq<Entry>, d: Id, cost: int) {
    forall p :: OwnSpend(log', p) == OwnSpend(log, p) + (if p == d then cost else 0)
  }

  lemma SpendOfEntry(log: seq<Entry>, entry: Entry)
    ensures SpendFollows(log, log + [entry], entry.delegation, KnownCost(entry, entry.delegation))
  {
  }

  lemma ChangeKeepsSums(db: Db, db': Db, d: Id, cost: int)
    requires Listed(db) && OnlyWeightOf(db, db', d) && db'.rows.Keys == db.rows.Keys
    requires CountersFollow(db.rows, db'.rows, d, cost) && SpendFollows(db.log, db'.log, d, cost)
    requires ReservedExactly(db) && ConsumedExactly(db)
    ensures ReservedExactly(db') && ConsumedExactly(db')
  {
    forall p | p in db'.rows
      ensures db'.rows[p].childReserved == Slots(db', p)
      ensures db'.rows[p].consumed == OwnSpend(db'.log, p) + SettledSpend(db', p)
    {
      SumsAfterChange(db, db', d, p);
    }
  }

  lemma InsertKeepsSums(db: Db, db': Db, d: Id)
    requires Shaped(db) && LogSound(db) && OnlyNew(db, db', d) && db'.rows.Keys == db.rows.Keys + {d}
    requires CountersFollow(db.rows, db'.rows, d, 0) && SpendFollows(db.log, db'.log, d, 0)
    requires ReservedExactly(db) && ConsumedExactly(db)
    requires db'.rows[d].childReserved == db'.rows[d].consumed == 0 && db'.rows[d].parent != Some(d)
    ensures ReservedExactly(db') && ConsumedExactly(db')
  {
    forall p | p in db'.rows
      ensures db'.rows[p].childReserved == Slots(db', p)
      ensures db'.rows[p].consumed == OwnSpend(db'.log, p) + SettledSpend(db', p)
    {
      SumsAfterInsert(db, db', d, p);
      if p == d {
        NoChildYet(db, d);
        NoSpendYet(db, d);
      }
    }
  }

  /** Rows keep their place. */
  ghost predicate SameForest(db: Db, db': Db) {
    && db'.order == db.order && db'.rows.Keys == db.rows.Keys
    && (forall x :: x in db.rows ==>
          db'.rows[x].parent == db.rows[x].parent && db'.rows[x].rowid == db.rows[x].rowid)
  }

  lemma SameForestKeepsShape(db: Db, db': Db)
    requires Shaped(db) && SameForest(db, db')
    ensures Shaped(db')
  {
    forall x, p | ChildOf(db'.rows, x, p)
      ensures p in db'.rows && db'.rows[p].rowid < db'.rows[x].rowid
    {
      assert ChildOf(db.rows, x, p);
    }
  }

  lemma SameActivityStaysUpward(db: Db, db': Db)
    requires ActiveUpward(db.rows) && SameForest(db, db')
    requires forall x :: x in db.rows ==> db'.rows[x].active == db.rows[x].active
    ensures ActiveUpward(db'.rows)
  {
    forall x, p | ChildOf(db'.rows, x, p) && db'.rows[x].active
      ensures p in db'.rows && db'.rows[p].active
    {
      assert ChildOf(db.rows, x, p);
    }
  }

  /** Closing `d` is safe for its parent's sake only when `d` has no active child. */
  lemma ClosingStaysUpward(db: Db, db': Db, d: Id)
    requires ActiveUpward(db.rows) && SameForest(db, db')
    requires forall x :: x in db.rows && x != d ==> db'.rows[x].active == db.rows[x].active
    requires d in db.rows && !db'.rows[d].active
    requires forall x :: ChildOf(db.rows, x, d) ==> !db.rows[x].active
    ensures ActiveUpward(db'.rows)
  {
    forall x, p | ChildOf(db'.rows, x, p) && db'.rows[x].active
      ensures p in db'.rows && db'.rows[p].active
    {
      assert ChildOf(db.rows, x, p);
    }
  }

  /** What an accepted event must do to the tables for the invariant to survive it. */
  ghost predicate Grows(db: Db, db': Db, entry: Entry) {
    && db'.log == db.log + [entry]
    && entry.delegation in db'.rows
    && (forall x :: x in db.rows ==> x in db'.rows && (!db.rows[x].active ==> !db'.rows[x].active))
    && (forall i :: 0 <= i < |db.log| ==>
          db.log[i].delegation != entry.delegation || db.log[i].event != entry.event)
    && (entry.fact.Settlement? ==> !db'.rows[entry.delegation].active)
    && (entry.fact.Consumption? && entry.fact.cost.Some? ==> entry.fact.cost.value >= 0)
  }

  lemma LogGrows(db: Db, db': Db, entry: Entry)
    requires LogSound(db) && Grows(db, db', entry)
    ensures LogSound(db')
  {
  }

  ghost predicate Moves(db: Db, db': Db, d: Id, cost: int) {
    SameForest(db, db') && OnlyWeightOf(db, db', d) && CountersFollow(db.rows, db'.rows, d, cost)
  }

  lemma ChangeKeepsInv(db: Db, db': Db, entry: Entry)
    requires Inv(db) && Moves(db, db', entry.delegation, KnownCost(entry, entry.delegation))
    requires AllSolvent(db'.rows) && ActiveUpward(db'.rows) && Grows(db, db', entry)
    ensures Inv(db')
  {
    SameForestKeepsShape(db, db');
    SpendOfEntry(db.log, entry);
    ChangeKeepsSums(db, db', entry.delegation, KnownCost(entry, entry.delegation));
    LogGrows(db, db', entry);
  }

  lemma InsertionKeepsInv(db: Db, db': Db, entry: Entry)
    requires Inv(db) && OnlyNew(db, db', entry.delegation)
    requires db'.rows.Keys == db.rows.Keys + {entry.delegation}
    requires CountersFollow(db.rows, db'.rows, entry.delegation, 0) && KnownCost(entry, entry.delegation) == 0
    requires db'.rows[entry.delegation].childReserved == db'.rows[entry.delegation].consumed == 0
    requires db'.rows[entry.delegation].parent != Some(entry.delegation)
    requires Shaped(db') && AllSolvent(db'.rows) && ActiveUpward(db'.rows) && Grows(db, db', entry)
    ensures Inv(db')
  {
    SpendOfEntry(db.log, entry);
    InsertKeepsSums(db, db', entry.delegation);
    LogGrows(db, db', entry);
  }

  // -- creation --

  lemma InsertMoves(db: Db, entry: Entry)
    requires entry.fact.Root? || entry.fact.Reservation?
    requires entry.delegation !in db.rows
    requires entry.fact.Reservation? ==> entry.fact.parent in db.rows && db.rows[entry.fact.parent].active
    ensures OnlyNew(db, Record(db, entry), entry.delegation)
    ensures CountersFollow(db.rows, Record(db, entry).rows, entry.delegation, 0)
    ensures Record(db, entry).rows.Keys == db.rows.Keys + {entry.delegation}
  {
  }

  lemma InsertKeepsShape(db: Db, entry: Entry)
    requires Shaped(db) && ActiveUpward(db.rows) && (entry.fact.Root? || entry.fact.Reservation?)
    requires entry.delegation !in db.rows
    requires entry.fact.Reservation? ==> entry.fact.parent in db.rows && db.rows[entry.fact.parent].active
    ensures Shaped(Record(db, entry)) && ActiveUpward(Record(db, entry).rows)
  {
    var db' := Record(db, entry);
    forall x, p | ChildOf(db'.rows, x, p)
      ensures p in db'.rows && db'.rows[p].rowid < db'.rows[x].rowid
      ensures db'.rows[x].active ==> db'.rows[p].active
    {
      assert x != entry.delegation ==> ChildOf(db.rows, x, p);
    }
  }

  lemma InsertKeepsSolvent(db: Db, entry: Entry)
    requires AllSolvent(db.rows) && entry.delegation !in db.rows
    requires entry.fact.Root? || entry.fact.Reservation?
    requires entry.fact.Root? ==> entry.fact.envelope >= 0
    requires entry.fact.Reservation? ==>
               entry.fact.parent in db.rows && db.rows[entry.fact.parent].active
               && 0 <= entry.fact.maximum <= db.rows[entry.fact.parent].Headroom()
    ensures AllSolvent(Record(db, entry).rows)
  {
  }

  lemma InsertKeepsInv(db: Db, entry: Entry)
    requires Inv(db) && entry.delegation !in db.rows
    requires entry.fact.Root? || entry.fact.Reservation?
    requires entry.fact.Root? ==> entry.fact.envelope >= 0
    requires entry.fact.Reservation? ==>
               entry.fact.parent in db.rows && db.rows[entry.fact.parent].active
               && 0 <= entry.fact.maximum <= db.rows[entry.fact.parent].Headroom()
    ensures Inv(Record(db, entry))
  {
    InsertKeepsShape(db, entry);
    InsertKeepsSolvent(db, entry);
    InsertMoves(db, entry);
    InsertionKeepsInv(db, Record(db, entry), entry);
  }

  // -- grant and consume --

  lemma UpdateCounters(db: Db, entry: Entry)
    requires Forest(db.rows) && ActiveUpward(db.rows) && (entry.fact.Grant? || entry.fact.Consumption?)
    requires entry.delegation in db.rows && db.rows[entry.delegation].active
    ensures CountersFollow(db.rows, Record(db, entry).rows, entry.delegation, KnownCost(entry, entry.delegation))
  {
  }

  lemma UpdateMoves(db: Db, entry: Entry)
    requires Forest(db.rows) && ActiveUpward(db.rows) && (entry.fact.Grant? || entry.fact.Consumption?)
    requires entry.delegation in db.rows && db.rows[entry.delegation].active
    ensures Moves(db, Record(db, entry), entry.delegation, KnownCost(entry, entry.delegation))
  {
    hide CountersFollow;
    UpdateCounters(db, entry);
    if db.rows[entry.delegation].parent.Some? {
      assert ChildOf(db.rows, entry.delegation, Parent(db.rows, entry.delegation));
    }
  }

  lemma UpdateKeepsSolvent(db: Db, op: Op)
    requires Forest(db.rows) && AllSolvent(db.rows) && (op.DoGrant? || op.Consume?)
    requires Decide(db, op).Accept?
    ensures AllSolvent(Record(db, Decide(db, op).entry).rows)
  {
  }

  lemma UpdateKeepsInv(db: Db, entry: Entry)
    requires Inv(db) && (entry.fact.Grant? || entry.fact.Consumption?)
    requires entry.delegation in db.rows && db.rows[entry.delegation].active
    requires !Recorded(db.log, entry.delegation, entry.event)
    requires entry.fact.Consumption? && entry.fact.cost.Some? ==> entry.fact.cost.value >= 0
    requires AllSolvent(Record(db, entry).rows)
    ensures Inv(Record(db, entry))
  {
    UpdateMoves(db, entry);
    SameActivityStaysUpward(db, Record(db, entry));
    ChangeKeepsInv(db, Record(db, entry), entry);
  }

  // -- settle --

  /** A delegation's slot is counted by its parent, so it fits in the parent's reservation. */
  lemma SlotFits(db: Db, d: Id)
    requires Shaped(db) && AllSolvent(db.rows) && ReservedExactly(db)
    requires d in db.rows && db.rows[d].parent.Some?
    ensures db.rows[d].Slot() <= db.rows[Parent(db.rows, d)].childReserved
  {
    var p := Parent(db.rows, d);
    SumCovers(db.order, db.rows[d].rowid, x => SlotIn(db.rows, p, x));
  }

  lemma SettleMoves(db: Db, entry: Entry)
    requires Forest(db.rows) && ActiveUpward(db.rows) && entry.fact.Settlement?
    requires entry.delegation in db.rows && db.rows[entry.delegation].active
    ensures Moves(db, Record(db, entry), entry.delegation, 0)
  {
    if db.rows[entry.delegation].parent.Some? {
      assert ChildOf(db.rows, entry.delegation, Parent(db.rows, entry.delegation));
    }
  }

  lemma SettleKeepsSolvent(db: Db, entry: Entry)
    requires Shaped(db) && AllSolvent(db.rows) && ReservedExactly(db) && ActiveUpward(db.rows)
    requires entry.fact.Settlement? && entry.delegation in db.rows && db.rows[entry.delegation].active
    ensures AllSolvent(Record(db, entry).rows)
  {
    if db.rows[entry.delegation].parent.Some? {
      SlotFits(db, entry.delegation);
      assert ChildOf(db.rows, entry.delegation, Parent(db.rows, entry.delegation));
    }
  }

  lemma NoActiveChild(rows: map<Id, Row>, d: Id)
    requires Forest(rows) && !ActiveBelow(rows, d)
    ensures forall x :: ChildOf(rows, x, d) ==> !rows[x].active
  {
  }

  lemma SettleKeepsInv(db: Db, entry: Entry)
    requires Inv(db) && entry.fact.Settlement? && entry.delegation in db.rows
    requires db.rows[entry.delegation].active && !ActiveBelow(db.rows, entry.delegation)
    requires !Recorded(db.log, entry.delegation, entry.event)
    ensures Inv(Record(db, entry))
  {
    var db' := Record(db, entry);
    SettleMoves(db, entry);
    SettleKeepsSolvent(db, entry);
    NoActiveChild(db.rows, entry.delegation);
    ClosingStaysUpward(db, db', entry.delegation);
    ChangeKeepsInv(db, db', entry);
  }

  // -- mark --

  lemma MarkMoves(db: Db, d: Id)
    requires d in db.rows
    ensures Moves(db, SetMark(db, d), d, 0)
  {
  }

  lemma MarkKeepsRows(db: Db, d: Id)
    requires d in db.rows && AllSolvent(db.rows) && LogSound(db)
    ensures AllSolvent(SetMark(db, d).rows) && LogSound(SetMark(db, d))
  {
  }

  lemma MarkKeepsInv(db: Db, d: Id)
    requires Inv(db) && d in db.rows
    ensures Inv(SetMark(db, d))
  {
    var db' := SetMark(db, d);
    MarkMoves(db, d);
    MarkKeepsRows(db, d);
    SameForestKeepsShape(db, db');
    SameActivityStaysUpward(db, db');
    ChangeKeepsSums(db, db', d, 0);
  }

  lemma EmptyInv()
    ensures Inv(EMPTY)
  {
  }

  lemma StepKeepsInv(db: Db, op: Op)
    requires Inv(db)
    ensures Inv(Step(db, op).0)
  {
    hide Slots, SettledSpend, OwnSpend, Revoking, Record, Forest;
    if op.Mark? {
      if op.id in db.rows {
        MarkKeepsInv(db, op.id);
      }
    } else if Decide(db, op).Accept? {
      match op
      case CreateRoot(_, _, _, _) => InsertKeepsInv(db, Decide(db, op).entry);
      case Reserve(_, _, _, _, _) => InsertKeepsInv(db, Decide(db, op).entry);
      case DoGrant(_, _, _) => UpdateKeepsSolvent(db, op); UpdateKeepsInv(db, Decide(db, op).entry);
      case Consume(_, _, _) => UpdateKeepsSolvent(db, op); UpdateKeepsInv(db, Decide(db, op).entry);
      case Settle(_, _, _) => SettleKeepsInv(db, Decide(db, op).entry);
    }
  }

  lemma InvIsShaped(db: Db)
    requires Inv(db)
    ensures Shaped(db)
  {
  }

  // ---- Runs ----

  /** The store after a sequence of requests. */
  ghost function Run(db: Db, ops: seq<Op>): (db': Db)
    requires Inv(db)
    ensures Inv(db')
    decreases |ops|
  {
    if ops == [] then db
    else
      StepKeepsInv(db, ops[0]);
      Run(Step(db, ops[0]).0, ops[1..])
  }
}
