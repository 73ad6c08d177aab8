/**
  What the ledger promises over whole trees and whole runs: exact conservation, no overspend,
  quarantine of unknown cost, inert replays, state as a fold of the event log, and the freeze
  that a revocation mark puts on a subtree.
 */
module LedgerTheorems {
  import opened Common
  import opened Ledger
  import opened LedgerInvariant

  // ---- Conservation over a subtree ----

  /** What `row` still withholds from its parent: all of it while active, and whatever it did not
      release once settled. */
  function Hold(row: Row): int {
    if row.active then row.authority else row.authority - row.released
  }

  /** Neither spent, reserved nor released: spendable while active, locked once settled. */
  function Free(row: Row): int {
    row.Headroom() - row.released
  }

  ghost function Weight(db: Db, x: Id): int {
    if x in db.rows then OwnSpend(db.log, x) + Free(db.rows[x]) else 0
  }

  function HoldIn(rows: map<Id, Row>, p: Id, x: Id): int {
    if ChildOf(rows, x, p) then Hold(rows[x]) else 0
  }

  /** Known spend and free authority of every row at or below `d`. */
  ghost function SubtreeTotal(db: Db, d: Id): int
    requires Forest(db.rows)
  {
    Sum(db.order, x => if Under(db.rows, x, d) then Weight(db, x) else 0)
  }

  lemma HoldSplits(db: Db, p: Id)
    requires Inv(db) && p in db.rows
    ensures Hold(db.rows[p]) == Weight(db, p) + Sum(db.order, x => HoldIn(db.rows, p, x))
  {
    SumPlus(db.order, x => HoldIn(db.rows, p, x), x => SlotIn(db.rows, p, x), x => SettledIn(db.rows, p, x));
  }

  lemma UnderStep(rows: map<Id, Row>, x: Id, d: Id)
    requires Forest(rows) && x in rows
    ensures Under(rows, x, d) <==> x == d || (rows[x].parent.Some? && Under(rows, Parent(rows, x), d))
  {
  }

  lemma {:induction false} UnderIsLater(rows: map<Id, Row>, x: Id, d: Id)
    requires Forest(rows) && x in rows && Under(rows, x, d)
    ensures d in rows && rows[d].rowid <= rows[x].rowid && (x != d ==> rows[d].rowid < rows[x].rowid)
    decreases rows[x].rowid
  {
    UnderStep(rows, x, d);
    if x != d {
      UnderIsLater(rows, Parent(rows, x), d);
    }
  }

  /** Subtree rows inserted at or after position `k`. */
  ghost function LateWeight(db: Db, d: Id, k: nat, x: Id): int
    requires Forest(db.rows)
  {
    if x in db.rows && Under(db.rows, x, d) && db.rows[x].rowid >= k then Weight(db, x) else 0
  }

  /** Among those, the ones whose parent is earlier: the tops of what is left. */
  ghost function TopHold(db: Db, d: Id, k: nat, x: Id): int
    requires Forest(db.rows)
  {
    if x in db.rows && Under(db.rows, x, d) && db.rows[x].rowid >= k
       && (x == d || db.rows[Parent(db.rows, x)].rowid < k)
    then Hold(db.rows[x]) else 0
  }

  /** Moving the cut past row `k` replaces that row's hold by its children's. */
  lemma TopHoldStep(db: Db, d: Id, k: nat, x: Id)
    requires Shaped(db) && d in db.rows && k < |db.order| && x in db.rows
    ensures var y := db.order[k];
            TopHold(db, d, k, x) - TopHold(db, d, k + 1, x)
              == if !Under(db.rows, y, d) then 0
                 else if x == y then Hold(db.rows[y]) else -HoldIn(db.rows, y, x)
  {
    hide Under;
    var y := db.order[k];
    UnderStep(db.rows, x, d);
    if Under(db.rows, y, d) {
      UnderIsLater(db.rows, y, d);
    }
  }

  ghost predicate HoldsSplit(db: Db) {
    forall p :: p in db.rows ==>
      Hold(db.rows[p]) == Weight(db, p) + Sum(db.order, x => HoldIn(db.rows, p, x))
  }

  lemma {:induction false} CutBelow(db: Db, d: Id, k: nat)
    requires Shaped(db) && HoldsSplit(db) && d in db.rows && k <= |db.order|
    ensures Sum(db.order, x => LateWeight(db, d, k, x)) == Sum(db.order, x => TopHold(db, d, k, x))
    decreases |db.order| - k
  {
    hide Under;
    if k == |db.order| {
      SumAgree(db.order, x => LateWeight(db, d, k, x), x => TopHold(db, d, k, x));
    } else {
      CutBelow(db, d, k + 1);
      SumChange(db.order, k, x => LateWeight(db, d, k + 1, x), x => LateWeight(db, d, k, x));
      if Under(db.rows, db.order[k], d) {
        CutMoves(db, d, k);
      } else {
        CutStays(db, d, k);
      }
    }
  }

  lemma CutStays(db: Db, d: Id, k: nat)
    requires Shaped(db) && d in db.rows && k < |db.order| && !Under(db.rows, db.order[k], d)
    ensures Sum(db.order, x => TopHold(db, d, k + 1, x)) == Sum(db.order, x => TopHold(db, d, k, x))
  {
    forall i | 0 <= i < |db.order|
      ensures TopHold(db, d, k + 1, db.order[i]) == TopHold(db, d, k, db.order[i])
    {
      TopHoldStep(db, d, k, db.order[i]);
    }
    SumAgree(db.order, x => TopHold(db, d, k + 1, x), x => TopHold(db, d, k, x));
  }

  lemma CutMoves(db: Db, d: Id, k: nat)
    requires Shaped(db) && d in db.rows && k < |db.order| && Under(db.rows, db.order[k], d)
    ensures Sum(db.order, x => TopHold(db, d, k + 1, x)) + Hold(db.rows[db.order[k]])
         == Sum(db.order, x => TopHold(db, d, k, x)) + Sum(db.order, x => HoldIn(db.rows, db.order[k], x))
  {
    var y := db.order[k];
    var h := Hold(db.rows[y]);
    var both := (x: Id) => TopHold(db, d, k + 1, x) + (if x == y then h else 0);
    SumChange(db.order, k, x => TopHold(db, d, k + 1, x), both);
    forall i | 0 <= i < |db.order|
      ensures both(db.order[i]) == TopHold(db, d, k, db.order[i]) + HoldIn(db.rows, y, db.order[i])
    {
      TopHoldStep(db, d, k, db.order[i]);
      assert !ChildOf(db.rows, y, y);
    }
    SumPlus(db.order, both, x => TopHold(db, d, k, x), x => HoldIn(db.rows, y, x));
  }

  /** Conservation: whatever happened below `d`, what it withholds from its parent is exactly the
      known spend recorded in its subtree plus the authority there that is free or locked. */
  lemma SubtreeConservation(db: Db, d: Id)
    requires Inv(db) && d in db.rows
    ensures SubtreeTotal(db, d) == Hold(db.rows[d])
  {
    forall p | p in db.rows {
      HoldSplits(db, p);
    }
    WholeSubtree(db, d);
  }

  lemma WholeSubtree(db: Db, d: Id)
    requires Shaped(db) && HoldsSplit(db) && d in db.rows
    ensures SubtreeTotal(db, d) == Hold(db.rows[d])
  {
    hide Under;
    CutBelow(db, d, 0);
    SumAgree(db.order, x => LateWeight(db, d, 0, x), x => if Under(db.rows, x, d) then Weight(db, x) else 0);
    SumOfZeros(db.order);
    UnderStep(db.rows, d, d);
    SumChange(db.order, db.rows[d].rowid, (x: Id) => 0, x => TopHold(db, d, 0, x));
  }

  // ---- No overspend ----

  ghost function CostUnder(rows: map<Id, Row>, d: Id, e: Entry): int
    requires Forest(rows)
  {
    if Under(rows, e.delegation, d) then KnownCost(e, e.delegation) else 0
  }

  ghost function FreeUnder(rows: map<Id, Row>, d: Id, active: bool, x: Id): int
    requires Forest(rows)
  {
    if x in rows && Under(rows, x, d) && rows[x].active == active then Free(rows[x]) else 0
  }

  /** The known amounts of the accepted `consume` events of `d` and all its descendants. */
  ghost function TreeSpend(db: Db, d: Id): int
    requires Forest(db.rows)
  {
    Sum(db.log, e => CostUnder(db.rows, d, e))
  }

  /** What the active delegations at or below `d` can still spend or delegate. */
  ghost function Spendable(db: Db, d: Id): int
    requires Forest(db.rows)
  {
    Sum(db.order, x => FreeUnder(db.rows, d, true, x))
  }

  /** What the settled ones kept back because of unknown cost. */
  ghost function Locked(db: Db, d: Id): int
    requires Forest(db.rows)
  {
    Sum(db.order, x => FreeUnder(db.rows, d, false, x))
  }

  ghost function SpendUnder(db: Db, log: seq<Entry>, d: Id): int
    requires Forest(db.rows)
  {
    Sum(db.order, x => if Under(db.rows, x, d) then OwnSpend(log, x) else 0)
  }

  /** Summing by row or by event gives the same spend. */
  lemma {:induction false} SpendByEvent(db: Db, log: seq<Entry>, d: Id)
    requires Shaped(db) && forall i :: 0 <= i < |log| ==> log[i].delegation in db.rows
    ensures SpendUnder(db, log, d)
         == Sum(log, e => CostUnder(db.rows, d, e))
  {
    hide Under;
    if log == [] {
      SumAgree(db.order, x => if Under(db.rows, x, d) then OwnSpend(log, x) else 0, (x: Id) => 0);
      SumOfZeros(db.order);
    } else {
      var rest, e := log[..|log| - 1], log[|log| - 1];
      SpendByEvent(db, rest, d);
      assert log == rest + [e];
      forall x {
        SpendAfter(rest, e, x);
      }
      SumChange(db.order, db.rows[e.delegation].rowid,
                x => if Under(db.rows, x, d) then OwnSpend(rest, x) else 0,
                x => if Under(db.rows, x, d) then OwnSpend(log, x) else 0);
      SumSnoc(rest, e, e => CostUnder(db.rows, d, e));
    }
  }

  /** Where every micro-dollar of `d` is: spent somewhere in its tree, still spendable there, locked
      there by an unknown cost, or released back to `d`'s parent. */
  lemma WhereItWent(db: Db, d: Id)
    requires Inv(db) && d in db.rows
    ensures db.rows[d].authority
         == TreeSpend(db, d) + Spendable(db, d) + Locked(db, d) + db.rows[d].released
    ensures TreeSpend(db, d) >= 0 && Spendable(db, d) >= 0 && Locked(db, d) >= 0
  {
    SubtreeConservation(db, d);
    SplitTotal(db, d);
    SpendByEvent(db, db.log, d);
    PartsNonNegative(db, d);
  }

  lemma SplitTotal(db: Db, d: Id)
    requires Shaped(db)
    ensures SubtreeTotal(db, d) == SpendUnder(db, db.log, d) + Spendable(db, d) + Locked(db, d)
  {
    hide Under;
    var spend := x => if Under(db.rows, x, d) then OwnSpend(db.log, x) else 0;
    var free := x => if x in db.rows && Under(db.rows, x, d) then Free(db.rows[x]) else 0;
    SumPlus(db.order, x => if Under(db.rows, x, d) then Weight(db, x) else 0, spend, free);
    SumPlus(db.order, free,
            x => FreeUnder(db.rows, d, true, x),
            x => FreeUnder(db.rows, d, false, x));
  }

  lemma PartsNonNegative(db: Db, d: Id)
    requires Shaped(db) && AllSolvent(db.rows) && LogSound(db)
    ensures TreeSpend(db, d) >= 0 && Spendable(db, d) >= 0 && Locked(db, d) >= 0
  {
    hide Under;
    SumZeroOrMore(db.log, e => CostUnder(db.rows, d, e));
    SumZeroOrMore(db.order,
      x => FreeUnder(db.rows, d, true, x));
    SumZeroOrMore(db.order,
      x => FreeUnder(db.rows, d, false, x));
  }

  // ---- The event log determines the balances ----

  function Issue(e: Entry, d: Id): int {
    if e.delegation != d then 0
    else match e.fact
      case Root(_, envelope) => envelope
      case Reservation(_, _, maximum) => maximum
      case Grant(amount) => amount
      case _ => 0
  }

  /** What `d` was opened with plus every grant accepted for it. */
  ghost function Issued(log: seq<Entry>, d: Id): int {
    Sum(log, e => Issue(e, d))
  }

  ghost predicate AuthorityIsIssued(db: Db) {
    forall d :: Issued(db.log, d) == if d in db.rows then db.rows[d].authority else 0
  }

  /** Creating events name a new delegation, all others an existing one. */
  predicate Applies(rows: map<Id, Row>, entry: Entry) {
    if entry.fact.Root? || entry.fact.Reservation? then entry.delegation !in rows else entry.delegation in rows
  }

  lemma AcceptedApplies(db: Db, op: Op)
    requires Forest(db.rows) && !op.Mark? && Decide(db, op).Accept?
    ensures Applies(db.rows, Decide(db, op).entry)
  {
  }

  lemma AuthorityAfter(db: Db, entry: Entry, d: Id)
    requires Applies(db.rows, entry)
    ensures d in Record(db, entry).rows <==> d in db.rows || d == entry.delegation
    ensures d in Record(db, entry).rows ==>
              Record(db, entry).rows[d].authority
              == (if d in db.rows then db.rows[d].authority else 0) + Issue(entry, d)
    ensures Record(db, entry).log == db.log + [entry]
  {
  }

  lemma RecordKeepsIssued(db: Db, entry: Entry)
    requires AuthorityIsIssued(db) && Applies(db.rows, entry)
    ensures AuthorityIsIssued(Record(db, entry))
  {
    hide Record;
    forall d
      ensures Issued(Record(db, entry).log, d)
           == if d in Record(db, entry).rows then Record(db, entry).rows[d].authority else 0
    {
      AuthorityAfter(db, entry, d);
      SumSnoc(db.log, entry, e => Issue(e, d));
    }
  }

  lemma StepKeepsIssued(db: Db, op: Op)
    requires Inv(db) && AuthorityIsIssued(db)
    ensures AuthorityIsIssued(Step(db, op).0)
  {
    hide Record, Decide;
    if !op.Mark? && Decide(db, op).Accept? {
      AcceptedApplies(db, op);
      RecordKeepsIssued(db, Decide(db, op).entry);
    }
  }

  /** The table that replaying the log from nothing rebuilds. */
  function Rebuild(log: seq<Entry>): Db {
    if log == [] then EMPTY else Record(Rebuild(log[..|log| - 1]), log[|log| - 1])
  }

  /** The one column no event records. */
  function UnmarkRows(rows: map<Id, Row>): map<Id, Row> {
    map x | x in rows :: rows[x].(revoking := false)
  }

  function Unmarked(db: Db): Db {
    db.(rows := UnmarkRows(db.rows))
  }

  ghost predicate FoldsFromLog(db: Db) {
    Unmarked(db) == Rebuild(db.log)
  }

  lemma UnmarkLookup(rows: map<Id, Row>, d: Id)
    ensures d in UnmarkRows(rows) <==> d in rows
    ensures d in rows ==> UnmarkRows(rows)[d] == rows[d].(revoking := false)
  {
  }

  lemma UnmarkUpdate(rows: map<Id, Row>, d: Id, row: Row)
    ensures UnmarkRows(rows[d := row]) == UnmarkRows(rows)[d := row.(revoking := false)]
  {
  }

  lemma UnmarkCharge(rows: map<Id, Row>, parent: Option<Id>, reserved: int, spent: int)
    ensures UnmarkRows(Charge(rows, parent, reserved, spent)) == Charge(UnmarkRows(rows), parent, reserved, spent)
  {
  }

  lemma RecordIgnoresMarks(db: Db, entry: Entry)
    requires Applies(db.rows, entry)
    ensures Unmarked(Record(db, entry)) == Record(Unmarked(db), entry)
    ensures Record(db, entry).log == db.log + [entry]
  {
    hide UnmarkRows, Charge;
    var d, rows := entry.delegation, db.rows;
    var row := Record(db, entry).rows[d];
    UnmarkLookup(rows, d);
    match entry.fact
    case Root(_, _) =>
      UnmarkUpdate(rows, d, row);
    case Reservation(p, _, maximum) =>
      UnmarkCharge(rows, Some(p), maximum, 0);
      UnmarkUpdate(Charge(rows, Some(p), maximum, 0), d, row);
    case Grant(amount) =>
      UnmarkCharge(rows, rows[d].parent, amount, 0);
      UnmarkUpdate(Charge(rows, rows[d].parent, amount, 0), d, row);
    case Consumption(_) =>
      UnmarkUpdate(rows, d, row);
    case Settlement(_) =>
      var back := -(rows[d].consumed + ReleasedBySettling(rows[d]));
      UnmarkCharge(rows, rows[d].parent, back, rows[d].consumed);
      UnmarkUpdate(Charge(rows, rows[d].parent, back, rows[d].consumed), d, row);
  }

  lemma MarkIsUnrecorded(db: Db, d: Id)
    ensures d in db.rows ==> Unmarked(SetMark(db, d)) == Unmarked(db) && SetMark(db, d).log == db.log
  {
    if d in db.rows {
      assert Unmarked(SetMark(db, d)).rows == Unmarked(db).rows;
    }
  }

  lemma StepKeepsFold(db: Db, op: Op)
    requires Inv(db) && FoldsFromLog(db)
    ensures FoldsFromLog(Step(db, op).0)
  {
    hide Record, Decide, Inv, Unmarked, UnmarkRows;
    InvIsShaped(db);
    if op.Mark? {
      MarkIsUnrecorded(db, op.id);
    } else if Decide(db, op).Accept? {
      var entry := Decide(db, op).entry;
      AcceptedApplies(db, op);
      RecordIgnoresMarks(db, entry);
      assert (db.log + [entry])[..|db.log|] == db.log;
    }
  }
}
