/**
  The delegated-spending ledger of hosted/a2a_economic_authority/core.py as data: the
  `delegations` and `economic_events` tables, what each request is answered, and what an
  accepted request changes. Amounts are whole micro-dollars.
 */
module Ledger {
  import opened Common

  /** validate_amount's sanity ceiling: a trillion dollars. */
  const MAX_AMOUNT: int := 1_000_000_000_000 * 1_000_000

  /** One row of `delegations`. `rowid` is SQLite's insertion counter. */
  datatype Row = Row(
    parent: Option<Id>, agent: Name, authority: int, consumed: int, childReserved: int,
    released: int, unknownCount: nat, active: bool, outcome: Option<string>, revoking: bool,
    rowid: nat)
  {
    /** `active_reservation_usd`: what is neither spent nor set aside for a child. */
    function Headroom(): int {
      authority - consumed - childReserved
    }

    /** What this delegation still occupies of its parent's reservation. */
    function Slot(): int {
      if active then authority else authority - consumed - released
    }
  }

  /** Idempotency keys. The revoke loop writes in a namespace no caller may use, and the
      runtime of examples/agent_economy derives its keys from the step it performs. */
  datatype EventId = Caller(name: Name) | RevokeSettle | Own(stage: Stage)

  datatype Stage = Open | Delegate | Finish | LeafReserve | LeafConsume | LeafSettle

  /** The canonical payload recorded with an event. */
  datatype Fact =
    | Root(agent: Name, envelope: int)
    | Reservation(parent: Id, agent: Name, maximum: int)
    | Grant(amount: int)
    | Consumption(cost: Option<int>)
    | Settlement(outcome: string)

  /** One row of `economic_events`. */
  datatype Entry = Entry(delegation: Id, event: EventId, fact: Fact)

  datatype Db = Db(rows: map<Id, Row>, order: seq<Id>, log: seq<Entry>)

  const EMPTY: Db := Db(map[], [], [])

  /** A request to the store. */
  datatype Op =
    | CreateRoot(event: EventId, id: Id, agent: Name, envelope: int)
    | Reserve(event: EventId, parent: Id, id: Id, agent: Name, maximum: int)
    | DoGrant(event: EventId, id: Id, amount: int)
    | Consume(event: EventId, id: Id, cost: Option<int>)
    | Settle(event: EventId, id: Id, outcome: string)
    | Mark(id: Id)

  /** `Done`: the request took effect now. `Known`: it had taken effect before ("already_exists",
      or True for a replay). `Refused`: "rejected" or False. `Conflict`: EventConflict was raised.
      `Invalid`: ValueError was raised. */
  datatype Reply = Done | Known | Refused | Conflict | Invalid

  // ---- The shape of the forest ----

  predicate ChildOf(rows: map<Id, Row>, x: Id, p: Id) {
    x in rows && rows[x].parent == Some(p)
  }

  /** Parents exist and were inserted before their children. */
  ghost predicate Forest(rows: map<Id, Row>) {
    forall x, p :: ChildOf(rows, x, p) ==> p in rows && rows[p].rowid < rows[x].rowid
  }

  function Parent(rows: map<Id, Row>, d: Id): (p: Id)
    requires Forest(rows) && d in rows && rows[d].parent.Some?
    ensures ChildOf(rows, d, p) && p in rows && rows[p].rowid < rows[d].rowid
  {
    assert ChildOf(rows, d, rows[d].parent.value);
    rows[d].parent.value
  }

  /** `order` lists every row once, by rowid. */
  ghost predicate Listed(db: Db) {
    && (forall x :: x in db.rows ==> db.rows[x].rowid < |db.order| && db.order[db.rows[x].rowid] == x)
    && (forall i :: 0 <= i < |db.order| ==> db.order[i] in db.rows && db.rows[db.order[i]].rowid == i)
  }

  ghost predicate Shaped(db: Db) {
    Forest(db.rows) && Listed(db)
  }

  /** The chain from the root down to `d`. */
  ghost function Lineage(rows: map<Id, Row>, d: Id): (chain: seq<Id>)
    requires Forest(rows)
    ensures forall a :: a in chain ==> a in rows
    ensures d in rows ==> d in chain
    decreases if d in rows then rows[d].rowid + 1 else 0
  {
    if d !in rows then []
    else if rows[d].parent.None? then [d]
    else Lineage(rows, Parent(rows, d)) + [d]
  }

  /** `x` is `d` or a descendant of `d`. */
  ghost predicate Under(rows: map<Id, Row>, x: Id, d: Id)
    requires Forest(rows)
  {
    d in Lineage(rows, x)
  }

  /** `d` or one of its ancestors carries a revocation mark. */
  ghost predicate Revoking(rows: map<Id, Row>, d: Id)
    requires Forest(rows)
  {
    exists a :: a in Lineage(rows, d) && rows[a].revoking
  }

  ghost predicate ActiveBelow(rows: map<Id, Row>, d: Id)
    requires Forest(rows)
  {
    exists x :: x in rows && x != d && rows[x].active && Under(rows, x, d)
  }

  // ---- The event log ----

  predicate Recorded(log: seq<Entry>, d: Id, e: EventId) {
    exists i :: 0 <= i < |log| && log[i].delegation == d && log[i].event == e
  }

  predicate Mismatched(log: seq<Entry>, entry: Entry) {
    Recorded(log, entry.delegation, entry.event) && entry !in log
  }

  /** The event a grant, consume or settle request asks to record. */
  function Requested(op: Op): Entry
    requires op.DoGrant? || op.Consume? || op.Settle?
  {
    match op
    case DoGrant(e, d, amount) => Entry(d, e, Grant(amount))
    case Consume(e, d, cost) => Entry(d, e, Consumption(cost))
    case Settle(e, d, outcome) => Entry(d, e, Settlement(outcome))
  }

  // ---- Requests: what is answered ----

  datatype Verdict = Accept(entry: Entry) | Answer(reply: Reply)

  predicate AmountOk(amount: int) {
    -MAX_AMOUNT <= amount <= MAX_AMOUNT
  }

  /** The checks of each operation, in the order the code makes them. `Accept` carries the event
      that will be recorded. A mark records no event and is handled by `Step`. */
  ghost function Decide(db: Db, op: Op): Verdict
    requires Forest(db.rows) && !op.Mark?
  {
    var rows := db.rows;
    match op
    case CreateRoot(e, d, agent, envelope) =>
      if !AmountOk(envelope) then Answer(Invalid)
      else if d in rows then
        Answer(if rows[d].agent == agent && rows[d].authority == envelope then Known else Conflict)
      else if envelope < 0 then Answer(Invalid)
      else Accept(Entry(d, e, Root(agent, envelope)))
    case Reserve(e, p, d, agent, maximum) =>
      if !AmountOk(maximum) then Answer(Invalid)
      else if d in rows then
        Answer(if rows[d].parent == Some(p) && rows[d].agent == agent && rows[d].authority == maximum
               then Known else Conflict)
      else if maximum < 0 || p !in rows || !rows[p].active || rows[p].unknownCount > 0
              || Revoking(rows, p) || rows[p].Headroom() < maximum then Answer(Refused)
      else Accept(Entry(d, e, Reservation(p, agent, maximum)))
    case DoGrant(e, d, amount) =>
      var entry := Entry(d, e, Grant(amount));
      if !AmountOk(amount) then Answer(Invalid)
      else if d !in rows then Answer(Refused)
      else if Mismatched(db.log, entry) then Answer(Conflict)
      else if entry in db.log then Answer(Known)
      else if amount < 0 || !rows[d].active || Revoking(rows, d) then Answer(Refused)
      else if rows[d].parent.Some? && !CanFund(rows[Parent(rows, d)], amount) then Answer(Refused)
      else Accept(entry)
    case Consume(e, d, cost) =>
      var entry := Entry(d, e, Consumption(cost));
      if cost.Some? && !AmountOk(cost.value) then Answer(Invalid)
      else if d !in rows then Answer(Refused)
      else if Mismatched(db.log, entry) then Answer(Conflict)
      else if entry in db.log then Answer(Known)
      else if !rows[d].active || Revoking(rows, d) then Answer(Refused)
      else if cost.Some? && (cost.value < 0 ||
              rows[d].consumed + cost.value > rows[d].authority - rows[d].childReserved) then Answer(Refused)
      else Accept(entry)
    case Settle(e, d, outcome) =>
      var entry := Entry(d, e, Settlement(outcome));
      if d !in rows then Answer(Refused)
      else if Mismatched(db.log, entry) then Answer(Conflict)
      else if entry in db.log then Answer(Known)
      else if !rows[d].active || ActiveBelow(rows, d) then Answer(Refused)
      else Accept(entry)
  }

  predicate CanFund(row: Row, amount: int) {
    row.active && row.unknownCount == 0 && row.Headroom() >= amount
  }

  // ---- Accepted requests: what changes ----

  function NewRow(parent: Option<Id>, agent: Name, authority: int, rowid: nat): Row {
    Row(parent, agent, authority, 0, 0, 0, 0, true, None, false, rowid)
  }

  /** Moves `reserved` and `spent` into the parent's counters, if there is a parent. */
  function Charge(rows: map<Id, Row>, parent: Option<Id>, reserved: int, spent: int): map<Id, Row> {
    if parent.Some? && parent.value in rows then
      rows[parent.value := rows[parent.value].(
        childReserved := rows[parent.value].childReserved + reserved,
        consumed := rows[parent.value].consumed + spent)]
    else rows
  }

  function ReleasedBySettling(row: Row): int {
    if row.unknownCount > 0 then 0 else row.Headroom()
  }

  /** The table update an accepted event performs. */
  function Record(db: Db, entry: Entry): Db {
    var d := entry.delegation;
    var rows := db.rows;
    var log := db.log + [entry];
    match entry.fact
    case Root(agent, envelope) =>
      Db(rows[d := NewRow(None, agent, envelope, |db.order|)], db.order + [d], log)
    case Reservation(p, agent, maximum) =>
      Db(Charge(rows, Some(p), maximum, 0)[d := NewRow(Some(p), agent, maximum, |db.order|)], db.order + [d], log)
    case Grant(amount) =>
      if d !in rows then db
      else Db(Charge(rows, rows[d].parent, amount, 0)[d := rows[d].(authority := rows[d].authority + amount)],
              db.order, log)
    case Consumption(cost) =>
      if d !in rows then db
      else if cost.None? then Db(rows[d := rows[d].(unknownCount := rows[d].unknownCount + 1)], db.order, log)
      else Db(rows[d := rows[d].(consumed := rows[d].consumed + cost.value)], db.order, log)
    case Settlement(outcome) =>
      if d !in rows then db
      else
        var row := rows[d];
        var released := ReleasedBySettling(row);
        Db(Charge(rows, row.parent, -(row.consumed + released), row.consumed)
             [d := row.(released := released, active := false, outcome := Some(outcome))],
           db.order, log)
  }

  function SetMark(db: Db, d: Id): Db
    requires d in db.rows
  {
    db.(rows := db.rows[d := db.rows[d].(revoking := true)])
  }

  // ---- Steps and runs ----

  ghost function Step(db: Db, op: Op): (Db, Reply)
    requires Forest(db.rows)
  {
    if op.Mark? then
      if op.id !in db.rows then (db, Refused)
      else if db.rows[op.id].revoking then (db, Known)
      else (SetMark(db, op.id), Done)
    else
      match Decide(db, op)
      case Answer(reply) => (db, reply)
      case Accept(entry) => (Record(db, entry), Done)
  }
}
