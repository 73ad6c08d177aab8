/**
  `EconomicAuthorityStore`: the methods of hosted/a2a_economic_authority/core.py, each one atomic
  transaction over the tables. Every method is tied to `Ledger.Step` or to the definition of what
  its walk looks for.
 */
module LedgerStore {
  import opened Common
  import opened Ledger
  import opened LedgerInvariant
  import opened LedgerTheorems
  import opened Walks

  /** What `_check_event` finds under a key: nothing, this payload, or another one (it raises). */
  datatype Found = Unseen | SamePayload | OtherPayload

  datatype Label = Satisfied | NotViolatedPartial | Violated | Missing

  class EconomicAuthorityStore {
    var rows: map<Id, Row>
    var order: seq<Id>
    var log: seq<Entry>

    ghost function Tables(): Db
      reads this
    {
      Db(rows, order, log)
    }

    ghost predicate Valid()
      reads this
    {
      Inv(Tables())
    }

    constructor ()
      ensures Valid() && Tables() == EMPTY
    {
      rows, order, log := map[], [], [];
      new;
      EmptyInv();
    }

    // ---- Walks ----

    /** Follows parent links upward until a mark or the root. */
    method RevocationInLineage(d: Id) returns (marked: bool)
      requires Forest(rows)
      ensures marked <==> Revoking(rows, d)
    {
      var current := Some(d);
      while current.Some?
        invariant current.None? ==> !Revoking(rows, d)
        invariant current.Some? ==> (Revoking(rows, d) <==> Revoking(rows, current.value))
        decreases if current.Some? then (if current.value in rows then rows[current.value].rowid + 2 else 1) else 0
      {
        if current.value !in rows {
          return false;
        }
        if rows[current.value].revoking {
          assert current.value in Lineage(rows, current.value);
          return true;
        }
        ghost var here := current.value;
        if rows[here].parent.Some? {
          LineageOfChild(rows, here);
        }
        current := rows[current.value].parent;
      }
      return false;
    }

    /** Root-to-leaf ancestor chain. */
    method LineageOf(d: Id) returns (chain: seq<Id>)
      requires Forest(rows)
      ensures chain == Lineage(rows, d)
    {
      var current := Some(d);
      var up: seq<Id> := [];
      while current.Some? && current.value in rows
        invariant current.Some? ==> Lineage(rows, d) == Lineage(rows, current.value) + Reversed(up)
        invariant current.None? ==> Lineage(rows, d) == Reversed(up)
        decreases if current.Some? && current.value in rows then rows[current.value].rowid + 1 else 0
      {
        ghost var here := current.value;
        up := up + [current.value];
        assert Reversed(up) == [here] + Reversed(up[..|up| - 1]);
        if rows[here].parent.Some? {
          ghost var p := Parent(rows, here);
        }
        current := rows[current.value].parent;
      }
      chain := Reversed(up);
    }

    /** Depth-first search of the descendants for an active one. */
    method HasActiveDescendant(d: Id) returns (found: bool)
      requires Shaped(Tables())
      ensures found <==> ActiveBelow(rows, d)
    {
      hide Under, Walking, Inv, Children, Lineage, Listed;
      var stack := [d];
      ghost var visited: set<Id> := {};
      WalkStarts(rows, d);
      while stack != []
        invariant Walking(rows, d, visited, stack)
        invariant Quiet(rows, d, visited, stack)
        decreases rows.Keys + {d} - visited
      {
        var current := stack[|stack| - 1];
        ghost var rest := stack[..|stack| - 1];
        var kids := Children(rows, order, current);
        assert stack == rest + [current];
        assert forall j :: 0 <= j < |kids| ==> kids[j] in kids && ChildOf(rows, kids[j], current);
        WalkStep(Tables(), d, visited, stack);
        TopIsNew(rows, d, visited, stack);
        stack := stack[..|stack| - 1];
        for i := 0 to |kids|
          invariant stack == rest + kids[..i]
          invariant forall j :: 0 <= j < i ==> !rows[kids[j]].active
        {
          if rows[kids[i]].active {
            assert kids[i] in kids;
            NewKid(rows, d, visited, rest + [current], current, kids[i]);
            return true;
          }
          stack := stack + [kids[i]];
        }
        assert kids[..|kids|] == kids;
        visited := visited + {current};
      }
      forall x | x in rows && x != d && Under(rows, x, d)
        ensures !rows[x].active
      {
        WalkEnds(rows, d, visited, x);
      }
      return false;
    }

    /** Whether `d` or any descendant recorded an unknown cost. */
    method HasUnknownCost(d: Id) returns (found: bool)
      requires Shaped(Tables())
      ensures found <==> TaintBelow(rows, d)
    {
      hide Under, Walking, Inv, Children, Lineage, Listed;
      var stack := [d];
      ghost var visited: set<Id> := {};
      WalkStarts(rows, d);
      while stack != []
        invariant Walking(rows, d, visited, stack)
        invariant forall x :: x in visited && x in rows ==> rows[x].unknownCount == 0
        decreases rows.Keys + {d} - visited
      {
        var current := stack[|stack| - 1];
        TopIsNew(rows, d, visited, stack);
        if current in rows && rows[current].unknownCount > 0 {
          UnderSelf(rows, current);
          return true;
        }
        WalkStep(Tables(), d, visited, stack);
        stack := stack[..|stack| - 1] + Children(rows, order, current);
        visited := visited + {current};
      }
      forall x | x in rows && Under(rows, x, d)
        ensures rows[x].unknownCount == 0
      {
        WalkEnds(rows, d, visited, x);
      }
      return false;
    }

    /** The conservation check the service reports for one delegation. */
    method Invariant(d: Id) returns (verdict: Label)
      requires Valid()
      ensures verdict == if d !in rows then Missing
                       else if TaintBelow(rows, d) then NotViolatedPartial
                       else Satisfied
    {
      hide Slots, SettledSpend, OwnSpend;
      if d !in rows {
        return Missing;
      }
      var row := rows[d];
      var nonNegative := row.consumed >= 0 && row.released >= 0 && row.childReserved >= 0 && row.Headroom() >= 0;
      var conserved := row.consumed + row.childReserved <= row.authority;
      var unknown := HasUnknownCost(d);
      return if !(nonNegative && conserved) then Violated else if unknown then NotViolatedPartial else Satisfied;
    }

    // ---- Idempotency ----

    method CheckEvent(entry: Entry) returns (found: Found)
      ensures found.OtherPayload? <==> Mismatched(log, entry)
      ensures found.SamePayload? ==> entry in log
      ensures found.Unseen? ==> !Recorded(log, entry.delegation, entry.event)
    {
      if !Recorded(log, entry.delegation, entry.event) {
        return Unseen;
      }
      return if entry in log then SamePayload else OtherPayload;
    }

    // ---- Transactions ----

    method CreateRoot(event: EventId, d: Id, agent: Name, envelope: int) returns (reply: Reply)
      requires Valid()
      modifies this
      ensures Valid() && (Tables(), reply) == Step(old(Tables()), Op.CreateRoot(event, d, agent, envelope))
    {
      StepKeepsInv(Tables(), Op.CreateRoot(event, d, agent, envelope));
      hide Inv;
      if !AmountOk(envelope) {
        return Invalid;
      }
      if d in rows {
        return if rows[d].agent != agent || rows[d].authority != envelope then Conflict else Known;
      }
      if envelope < 0 {
        return Invalid;
      }
      rows := rows[d := NewRow(None, agent, envelope, |order|)];
      order := order + [d];
      log := log + [Entry(d, event, Root(agent, envelope))];
      return Done;
    }

    /** The checks `reserve` makes before it writes. */
    method ScreenReserve(event: EventId, parent: Id, d: Id, agent: Name, maximum: int) returns (verdict: Verdict)
      requires Forest(rows)
      ensures verdict == Decide(Tables(), Op.Reserve(event, parent, d, agent, maximum))
    {
      hide Revoking;
      if !AmountOk(maximum) {
        return Answer(Invalid);
      }
      if d in rows {
        return Answer(if rows[d].parent != Some(parent) || rows[d].agent != agent || rows[d].authority != maximum
                      then Conflict else Known);
      }
      if maximum < 0 || parent !in rows || !rows[parent].active || rows[parent].unknownCount > 0 {
        return Answer(Refused);
      }
      var marked := RevocationInLineage(parent);
      if marked || rows[parent].Headroom() < maximum {
        return Answer(Refused);
      }
      return Accept(Entry(d, event, Reservation(parent, agent, maximum)));
    }

    method Reserve(event: EventId, parent: Id, d: Id, agent: Name, maximum: int) returns (reply: Reply)
      requires Valid()
      modifies this
      ensures Valid() && (Tables(), reply) == Step(old(Tables()), Op.Reserve(event, parent, d, agent, maximum))
    {
      hide Inv, Decide, Listed;
      InvIsShaped(Tables());
      StepKeepsInv(Tables(), Op.Reserve(event, parent, d, agent, maximum));
      ReserveAccepts(Tables(), Op.Reserve(event, parent, d, agent, maximum));
      var verdict := ScreenReserve(event, parent, d, agent, maximum);
      if verdict.Answer? {
        return verdict.reply;
      }
      rows := rows[parent := rows[parent].(childReserved := rows[parent].childReserved + maximum)];
      rows := rows[d := NewRow(Some(parent), agent, maximum, |order|)];
      order := order + [d];
      log := log + [verdict.entry];
      return Done;
    }

    /** The checks `grant` makes before it writes. */
    method ScreenGrant(event: EventId, d: Id, amount: int) returns (verdict: Verdict)
      requires Forest(rows)
      ensures verdict == Decide(Tables(), DoGrant(event, d, amount))
    {
      hide Revoking;
      if !AmountOk(amount) {
        return Answer(Invalid);
      }
      if d !in rows {
        return Answer(Refused);
      }
      var entry := Entry(d, event, Fact.Grant(amount));
      var found := CheckEvent(entry);
      if !found.Unseen? {
        return Answer(if found.OtherPayload? then Conflict else Known);
      }
      if amount < 0 || !rows[d].active {
        return Answer(Refused);
      }
      var marked := RevocationInLineage(d);
      if marked {
        return Answer(Refused);
      }
      if rows[d].parent.Some? {
        var parentRow := rows[Parent(rows, d)];
        if !parentRow.active || parentRow.unknownCount > 0 || parentRow.Headroom() < amount {
          return Answer(Refused);
        }
      }
      return Accept(entry);
    }

    method Grant(event: EventId, d: Id, amount: int) returns (reply: Reply)
      requires Valid()
      modifies this
      ensures Valid() && (Tables(), reply) == Step(old(Tables()), DoGrant(event, d, amount))
    {
      hide Inv, Decide, Listed;
      InvIsShaped(Tables());
      StepKeepsInv(Tables(), DoGrant(event, d, amount));
      UpdateAccepts(Tables(), DoGrant(event, d, amount));
      var verdict := ScreenGrant(event, d, amount);
      if verdict.Answer? {
        return verdict.reply;
      }
      var row := rows[d];
      if row.parent.Some? {
        var p := Parent(rows, d);
        rows := rows[p := rows[p].(childReserved := rows[p].childReserved + amount)];
      }
      rows := rows[d := row.(authority := row.authority + amount)];
      log := log + [verdict.entry];
      return Done;
    }

    /** The checks `consume` makes before it writes. */
    method ScreenConsume(event: EventId, d: Id, cost: Option<int>) returns (verdict: Verdict)
      requires Forest(rows)
      ensures verdict == Decide(Tables(), Op.Consume(event, d, cost))
    {
      hide Revoking;
      if cost.Some? && !AmountOk(cost.value) {
        return Answer(Invalid);
      }
      if d !in rows {
        return Answer(Refused);
      }
      var entry := Entry(d, event, Consumption(cost));
      var found := CheckEvent(entry);
      if !found.Unseen? {
        return Answer(if found.OtherPayload? then Conflict else Known);
      }
      if !rows[d].active {
        return Answer(Refused);
      }
      var marked := RevocationInLineage(d);
      if marked {
        return Answer(Refused);
      }
      if cost.Some? {
        var available := rows[d].authority - rows[d].childReserved;
        if cost.value < 0 || rows[d].consumed + cost.value > available {
          return Answer(Refused);
        }
      }
      return Accept(entry);
    }

    method Consume(event: EventId, d: Id, cost: Option<int>) returns (reply: Reply)
      requires Valid()
      modifies this
      ensures Valid() && (Tables(), reply) == Step(old(Tables()), Op.Consume(event, d, cost))
    {
      hide Inv, Decide, Listed;
      InvIsShaped(Tables());
      StepKeepsInv(Tables(), Op.Consume(event, d, cost));
      UpdateAccepts(Tables(), Op.Consume(event, d, cost));
      var verdict := ScreenConsume(event, d, cost);
      if verdict.Answer? {
        return verdict.reply;
      }
      var row := rows[d];
      if cost.None? {
        rows := rows[d := row.(unknownCount := row.unknownCount + 1)];
      } else {
        rows := rows[d := row.(consumed := row.consumed + cost.value)];
      }
      log := log + [verdict.entry];
      return Done;
    }

    /** The checks `settle` makes before it writes. */
    method ScreenSettle(event: EventId, d: Id, outcome: string) returns (verdict: Verdict)
      requires Shaped(Tables())
      ensures verdict == Decide(Tables(), Op.Settle(event, d, outcome))
    {
      hide ActiveBelow;
      if d !in rows {
        return Answer(Refused);
      }
      var entry := Entry(d, event, Settlement(outcome));
      var found := CheckEvent(entry);
      if !found.Unseen? {
        return Answer(if found.OtherPayload? then Conflict else Known);
      }
      if !rows[d].active {
        return Answer(Refused);
      }
      var busy := HasActiveDescendant(d);
      return if busy then Answer(Refused) else Accept(entry);
    }

    method Settle(event: EventId, d: Id, outcome: string) returns (reply: Reply)
      requires Valid()
      modifies this
      ensures Valid() && (Tables(), reply) == Step(old(Tables()), Op.Settle(event, d, outcome))
    {
      hide Inv, Decide, Listed;
      InvIsShaped(Tables());
      StepKeepsInv(Tables(), Op.Settle(event, d, outcome));
      UpdateAccepts(Tables(), Op.Settle(event, d, outcome));
      var verdict := ScreenSettle(event, d, outcome);
      if verdict.Answer? {
        return verdict.reply;
      }
      var row := rows[d];
      var released := if row.unknownCount > 0 then 0 else row.Headroom();
      if row.parent.Some? {
        var p := Parent(rows, d);
        var release := row.consumed + released;
        rows := rows[p := rows[p].(childReserved := rows[p].childReserved - release,
                                   consumed := rows[p].consumed + row.consumed)];
      }
      rows := rows[d := row.(released := released, active := false, outcome := Some(outcome))];
      log := log + [verdict.entry];
      return Done;
    }

    method MarkRevocationStarted(d: Id) returns (reply: Reply)
      requires Valid()
      modifies this
      ensures Valid() && (Tables(), reply) == Step(old(Tables()), Mark(d))
    {
      StepKeepsInv(Tables(), Mark(d));
      hide Inv;
      if d !in rows {
        return Refused;
      }
      if rows[d].revoking {
        return Known;
      }
      rows := rows[d := rows[d].(revoking := true)];
      return Done;
    }

    /** One request of any kind. */
    method Perform(op: Op) returns (reply: Reply)
      requires Valid()
      modifies this
      ensures Valid() && (Tables(), reply) == Step(old(Tables()), op)
    {
      match op
      case CreateRoot(e, d, agent, envelope) => reply := CreateRoot(e, d, agent, envelope);
      case Reserve(e, p, d, agent, maximum) => reply := Reserve(e, p, d, agent, maximum);
      case DoGrant(e, d, amount) => reply := Grant(e, d, amount);
      case Consume(e, d, cost) => reply := Consume(e, d, cost);
      case Settle(e, d, outcome) => reply := Settle(e, d, outcome);
      case Mark(d) => reply := MarkRevocationStarted(d);
    }

    /** The requests of other processes, in the order the database serialised them. */
    method PerformAll(ops: seq<Op>)
      requires Valid()
      modifies this
      ensures Valid() && Tables() == Run(old(Tables()), ops)
    {
      for i := 0 to |ops|
        invariant Valid() && Run(Tables(), ops[i..]) == Run(old(Tables()), ops)
      {
        assert ops[i..][0] == ops[i] && ops[i..][1..] == ops[i + 1..];
        var _ := Perform(ops[i]);
      }
    }
  }

  lemma ReserveAccepts(db: Db, op: Op)
    requires Forest(db.rows) && op.Reserve?
    ensures var verdict := Decide(db, op);
            verdict.Accept? ==>
              && verdict.entry == Entry(op.id, op.event, Reservation(op.parent, op.agent, op.maximum))
              && op.parent in db.rows && op.id !in db.rows
  {
  }

  lemma UpdateAccepts(db: Db, op: Op)
    requires Forest(db.rows) && (op.DoGrant? || op.Consume? || op.Settle?)
    ensures var verdict := Decide(db, op);
            verdict.Accept? ==> verdict.entry == Requested(op) && op.id in db.rows
  {
  }

  ghost predicate TaintBelow(rows: map<Id, Row>, d: Id)
    requires Forest(rows)
  {
    exists x :: x in rows && Under(rows, x, d) && rows[x].unknownCount > 0
  }

  /** The deep search for an active descendant agrees with looking at direct children only. */
  lemma DeepSearchIsShallow(db: Db, d: Id)
    requires Inv(db)
    ensures ActiveBelow(db.rows, d) <==> exists x :: ChildOf(db.rows, x, d) && db.rows[x].active
  {
    hide Slots, SettledSpend, OwnSpend, Under;
    if ActiveBelow(db.rows, d) {
      var x :| x in db.rows && x != d && db.rows[x].active && Under(db.rows, x, d);
      ActiveChildOnPath(db, x, d);
    }
    forall x | ChildOf(db.rows, x, d) && db.rows[x].active
      ensures ActiveBelow(db.rows, d)
    {
      UnderStep(db.rows, x, d);
      UnderSelf(db.rows, d);
    }
  }

  lemma {:induction false} ActiveChildOnPath(db: Db, x: Id, d: Id)
    requires Inv(db) && x in db.rows && x != d && db.rows[x].active && Under(db.rows, x, d)
    ensures exists c :: ChildOf(db.rows, c, d) && db.rows[c].active
    decreases db.rows[x].rowid
  {
    hide Slots, SettledSpend, OwnSpend, Under;
    UnderStep(db.rows, x, d);
    var p := Parent(db.rows, x);
    if p == d {
      assert ChildOf(db.rows, x, d);
    } else {
      ActiveChildOnPath(db, p, d);
    }
  }

  /** Nothing seen so far, other than the starting point, is active. */
  ghost predicate Quiet(rows: map<Id, Row>, d: Id, visited: set<Id>, stack: seq<Id>) {
    forall x :: (x in visited || x in stack) && x in rows && x != d ==> !rows[x].active
  }

  lemma LineageOfChild(rows: map<Id, Row>, x: Id)
    requires Forest(rows) && x in rows && rows[x].parent.Some? && !rows[x].revoking
    ensures Revoking(rows, x) <==> Revoking(rows, rows[x].parent.value)
  {
  }

  function Reversed<T>(s: seq<T>): seq<T> {
    if s == [] then [] else [s[|s| - 1]] + Reversed(s[..|s| - 1])
  }
}
