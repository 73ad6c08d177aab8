/**
  What each request is answered, said without the checks that decide it: exactly which requests are
  accepted, and what the log alone tells about every delegation.
 */
module LedgerAnswers {
  import opened Common
  import opened Ledger
  import opened LedgerInvariant
  import opened LedgerTheorems
  import opened LedgerRuns

  /** What `p` was given, less what it spent itself and what its children hold. */
  ghost function Uncommitted(db: Db, p: Id): int
    requires p in db.rows
  {
    db.rows[p].authority - OwnSpend(db.log, p) - Sum(db.order, x => HoldIn(db.rows, p, x))
  }

  lemma HeadroomIsUncommitted(db: Db, p: Id)
    requires Inv(db) && p in db.rows && db.rows[p].active
    ensures db.rows[p].Headroom() == Uncommitted(db, p)
  {
    HoldSplits(db, p);
  }

  /** `p` can give `amount` away: it is active, recorded no unknown cost, and has that much left. */
  ghost predicate Funds(db: Db, p: Id, amount: int) {
    p in db.rows && db.rows[p].active && db.rows[p].unknownCount == 0 && amount <= Uncommitted(db, p)
  }

  // ---- Which requests are accepted ----

  lemma CreateRootExactly(db: Db, e: EventId, d: Id, agent: Name, envelope: int)
    requires Inv(db)
    ensures var (db', reply) := Step(db, CreateRoot(e, d, agent, envelope));
            && (reply.Done? <==> AmountOk(envelope) && envelope >= 0 && d !in db.rows)
            && (reply.Known? <==> AmountOk(envelope) && d in db.rows && db.rows[d].agent == agent
                                  && db.rows[d].authority == envelope)
            && (reply.Conflict? <==> AmountOk(envelope) && d in db.rows
                                     && (db.rows[d].agent != agent || db.rows[d].authority != envelope))
            && !reply.Refused? && (!reply.Done? ==> db' == db)
            && (reply.Done? ==> d in db'.rows && db'.rows[d] == NewRow(None, agent, envelope, |db.order|))
  {
  }

  /** A reservation is made exactly when it is new and its parent can fund it outside any teardown. */
  lemma ReserveExactly(db: Db, e: EventId, p: Id, d: Id, agent: Name, maximum: int)
    requires Inv(db) && Forest(db.rows)
    ensures var (db', reply) := Step(db, Op.Reserve(e, p, d, agent, maximum));
            && (reply.Done? <==> AmountOk(maximum) && maximum >= 0 && d !in db.rows && Funds(db, p, maximum)
                                 && !Revoking(db.rows, p))
            && (reply.Known? <==> AmountOk(maximum) && d in db.rows && db.rows[d].parent == Some(p)
                                  && db.rows[d].agent == agent && db.rows[d].authority == maximum)
            && (reply.Invalid? <==> !AmountOk(maximum)) && (reply.Conflict? ==> d in db.rows)
            && (!reply.Done? ==> db' == db)
            && (reply.Done? ==> d in db'.rows && db'.rows[d] == NewRow(Some(p), agent, maximum, |db.order|))
  {
    hide Slots, SettledSpend, OwnSpend, Revoking, Uncommitted, Solvent;
    if p in db.rows && db.rows[p].active {
      HeadroomIsUncommitted(db, p);
    }
  }

  /** A new grant is accepted exactly when the delegation is active outside any teardown, and its parent,
      if it has one, can fund it. */
  lemma GrantExactly(db: Db, e: EventId, d: Id, amount: int)
    requires Inv(db) && Forest(db.rows)
    ensures var (db', reply) := Step(db, DoGrant(e, d, amount));
            && (reply.Done? <==> AmountOk(amount) && amount >= 0 && d in db.rows && !Recorded(db.log, d, e)
                                 && db.rows[d].active && !Revoking(db.rows, d)
                                 && (db.rows[d].parent.None? || Funds(db, db.rows[d].parent.value, amount)))
            && (reply.Known? <==> AmountOk(amount) && d in db.rows && Entry(d, e, Grant(amount)) in db.log)
            && (reply.Conflict? <==> AmountOk(amount) && d in db.rows && Recorded(db.log, d, e)
                                     && Entry(d, e, Grant(amount)) !in db.log)
            && (reply.Invalid? <==> !AmountOk(amount)) && (!reply.Done? ==> db' == db)
            && (reply.Done? ==> d in db'.rows && db'.rows[d] == db.rows[d].(authority := db.rows[d].authority + amount))
  {
    hide Slots, SettledSpend, OwnSpend, Revoking, Uncommitted, Solvent;
    RecordedIs(db, d, e, Grant(amount));
    if d in db.rows && db.rows[d].parent.Some? {
      var p := Parent(db.rows, d);
      if db.rows[p].active {
        HeadroomIsUncommitted(db, p);
      }
    }
  }

  /** A cost is recorded exactly when the delegation is active outside any teardown and, if it is known,
      has that much left. */
  lemma ConsumeExactly(db: Db, e: EventId, d: Id, cost: Option<int>)
    requires Inv(db) && Forest(db.rows)
    ensures var (db', reply) := Step(db, Op.Consume(e, d, cost));
            && (reply.Done? <==> (cost.Some? ==> AmountOk(cost.value) && cost.value >= 0) && d in db.rows
                                 && !Recorded(db.log, d, e) && db.rows[d].active && !Revoking(db.rows, d)
                                 && (cost.Some? ==> cost.value <= Uncommitted(db, d)))
            && (reply.Known? <==> (cost.Some? ==> AmountOk(cost.value)) && d in db.rows
                                  && Entry(d, e, Consumption(cost)) in db.log)
            && (reply.Conflict? <==> (cost.Some? ==> AmountOk(cost.value)) && d in db.rows && Recorded(db.log, d, e)
                                     && Entry(d, e, Consumption(cost)) !in db.log)
            && (reply.Invalid? <==> cost.Some? && !AmountOk(cost.value)) && (!reply.Done? ==> db' == db)
            && (reply.Done? ==>
                  && d in db'.rows
                  && db'.rows[d] == if cost.Some? then db.rows[d].(consumed := db.rows[d].consumed + cost.value)
                                    else db.rows[d].(unknownCount := db.rows[d].unknownCount + 1))
  {
    hide Slots, SettledSpend, OwnSpend, Revoking, Uncommitted, Solvent;
    RecordedIs(db, d, e, Consumption(cost));
    if d in db.rows && db.rows[d].active {
      HeadroomIsUncommitted(db, d);
    }
  }

  /** A delegation is settled exactly when it is active and nothing below it is. What it did not spend is
      released, unless a cost is unknown. */
  lemma SettleExactly(db: Db, e: EventId, d: Id, outcome: string)
    requires Inv(db) && Forest(db.rows)
    ensures var (db', reply) := Step(db, Op.Settle(e, d, outcome));
            && (reply.Done? <==> d in db.rows && !Recorded(db.log, d, e) && db.rows[d].active
                                 && !ActiveBelow(db.rows, d))
            && (reply.Known? <==> d in db.rows && Entry(d, e, Settlement(outcome)) in db.log)
            && (reply.Conflict? <==> d in db.rows && Recorded(db.log, d, e)
                                     && Entry(d, e, Settlement(outcome)) !in db.log)
            && !reply.Invalid? && (!reply.Done? ==> db' == db)
            && (reply.Done? ==>
                  && d in db'.rows && !db'.rows[d].active && db'.rows[d].outcome == Some(outcome)
                  && db'.rows[d].released == if db.rows[d].unknownCount == 0 then Uncommitted(db, d) else 0)
  {
    hide Slots, SettledSpend, OwnSpend, ActiveBelow, Uncommitted, Solvent;
    RecordedIs(db, d, e, Settlement(outcome));
    if d in db.rows && db.rows[d].active {
      HeadroomIsUncommitted(db, d);
    }
  }

  /** A mark is set exactly on an existing delegation that lacks it, and is all that changes. */
  lemma MarkExactly(db: Db, d: Id)
    requires Inv(db)
    ensures var (db', reply) := Step(db, Mark(d));
            && (reply.Done? <==> d in db.rows && !db.rows[d].revoking)
            && (reply.Refused? <==> d !in db.rows) && (!reply.Done? ==> db' == db)
            && (reply.Done? ==> db' == db.(rows := db.rows[d := db.rows[d].(revoking := true)]))
  {
  }

  lemma RecordedIs(db: Db, d: Id, e: EventId, fact: Fact)
    ensures Entry(d, e, fact) in db.log ==> Recorded(db.log, d, e)
  {
  }

  // ---- What the log tells about a delegation ----

  function Unknown(entry: Entry, d: Id): int {
    if entry.delegation == d && entry.fact.Consumption? && entry.fact.cost.None? then 1 else 0
  }

  ghost function UnknownEvents(log: seq<Entry>, d: Id): int {
    Sum(log, entry => Unknown(entry, d))
  }

  /** The row of a delegation agrees with an event recorded for it. */
  predicate Agrees(row: Row, fact: Fact) {
    match fact
    case Root(agent, _) => row.parent == None && row.agent == agent
    case Reservation(p, agent, _) => row.parent == Some(p) && row.agent == agent
    case Settlement(outcome) => !row.active && row.outcome == Some(outcome)
    case _ => true
  }

  predicate Opens(fact: Fact) {
    fact.Root? || fact.Reservation?
  }

  ghost predicate HasFact(log: seq<Entry>, d: Id, settling: bool) {
    exists i :: 0 <= i < |log| && log[i].delegation == d
                && (if settling then log[i].fact.Settlement? else Opens(log[i].fact))
  }

  ghost predicate RowTold(db: Db, d: Id)
    requires d in db.rows
  {
    && HasFact(db.log, d, false)
    && (db.rows[d].active <==> !HasFact(db.log, d, true))
    && (db.rows[d].active ==> db.rows[d].outcome.None?)
    && db.rows[d].unknownCount == UnknownEvents(db.log, d)
  }

  /** Parent, agent, outcome, activity and taint of every delegation are those its events say. */
  ghost predicate LogTells(db: Db) {
    && (forall i :: 0 <= i < |db.log| ==> db.log[i].delegation in db.rows
                                          && Agrees(db.rows[db.log[i].delegation], db.log[i].fact))
    && (forall d :: d in db.rows ==> RowTold(db, d))
  }

  lemma UnknownAfter(log: seq<Entry>, entry: Entry, d: Id)
    ensures UnknownEvents(log + [entry], d) == UnknownEvents(log, d) + Unknown(entry, d)
  {
    SumSnoc(log, entry, e => Unknown(e, d));
  }

  lemma NoUnknownYet(db: Db, d: Id)
    requires LogTells(db) && d !in db.rows
    ensures UnknownEvents(db.log, d) == 0
  {
    SumAgree(db.log, e => Unknown(e, d), (e: Entry) => 0);
    SumOfZeros(db.log);
  }

  lemma HasFactAfter(log: seq<Entry>, entry: Entry, d: Id, settling: bool)
    ensures HasFact(log + [entry], d, settling)
       <==> HasFact(log, d, settling)
            || (entry.delegation == d && (if settling then entry.fact.Settlement? else Opens(entry.fact)))
  {
    assert (log + [entry])[|log|] == entry;
    if HasFact(log, d, settling) {
      var i :| 0 <= i < |log| && log[i].delegation == d
               && (if settling then log[i].fact.Settlement? else Opens(log[i].fact));
      assert (log + [entry])[i] == log[i];
    }
  }

  lemma RecordTells(db: Db, entry: Entry)
    requires LogTells(db) && Applies(db.rows, entry) && Forest(db.rows)
    requires entry.fact.Reservation? ==> entry.fact.parent in db.rows
    requires !Opens(entry.fact) ==> db.rows[entry.delegation].active
    ensures LogTells(Record(db, entry))
  {
    hide UnknownEvents, HasFact;
    var db', d := Record(db, entry), entry.delegation;
    AuthorityAfter(db, entry, d);
    if Opens(entry.fact) {
      NoUnknownYet(db, d);
      NoFactYet(db, d);
    }
    forall x | x in db'.rows
      ensures RowTold(db', x)
    {
      UnknownAfter(db.log, entry, x);
      HasFactAfter(db.log, entry, x, true);
      HasFactAfter(db.log, entry, x, false);
      RecordedRow(db, entry, x);
    }
    forall i | 0 <= i < |db'.log|
      ensures db'.log[i].delegation in db'.rows && Agrees(db'.rows[db'.log[i].delegation], db'.log[i].fact)
    {
      RecordedRow(db, entry, db'.log[i].delegation);
      if i < |db.log| && !Opens(entry.fact) && db.log[i].fact.Settlement? {
        assert db.log[i].delegation != d by { SettledIsInactive(db, i); }
      }
    }
  }

  lemma SettledIsInactive(db: Db, i: nat)
    requires LogTells(db) && i < |db.log| && db.log[i].fact.Settlement?
    ensures !db.rows[db.log[i].delegation].active
  {
  }

  lemma NoFactYet(db: Db, d: Id)
    requires LogTells(db) && d !in db.rows
    ensures !HasFact(db.log, d, true) && !HasFact(db.log, d, false)
  {
  }

  /** What recording an event does to the columns the log tells. */
  lemma RecordedRow(db: Db, entry: Entry, x: Id)
    requires Applies(db.rows, entry) && Forest(db.rows)
    requires entry.fact.Reservation? ==> entry.fact.parent in db.rows
    ensures var db', d := Record(db, entry), entry.delegation;
            && (x in db'.rows <==> x in db.rows || x == d)
            && (x in db.rows ==> db'.rows[x].parent == db.rows[x].parent && db'.rows[x].agent == db.rows[x].agent)
            && (x in db.rows && x != d ==>
                  db'.rows[x].active == db.rows[x].active && db'.rows[x].outcome == db.rows[x].outcome
                  && db'.rows[x].unknownCount == db.rows[x].unknownCount)
            && (match entry.fact
                case Root(agent, _) => db'.rows[d].parent == None && db'.rows[d].agent == agent
                                       && db'.rows[d].active && db'.rows[d].outcome == None
                                       && db'.rows[d].unknownCount == 0
                case Reservation(p, agent, _) => db'.rows[d].parent == Some(p) && db'.rows[d].agent == agent
                                       && db'.rows[d].active && db'.rows[d].outcome == None
                                       && db'.rows[d].unknownCount == 0
                case Settlement(outcome) => !db'.rows[d].active && db'.rows[d].outcome == Some(outcome)
                                       && db'.rows[d].unknownCount == db.rows[d].unknownCount
                case _ => db'.rows[d].active == db.rows[d].active && db'.rows[d].outcome == db.rows[d].outcome
                          && db'.rows[d].unknownCount == db.rows[d].unknownCount + Unknown(entry, d))
  {
    if entry.delegation in db.rows && db.rows[entry.delegation].parent.Some? {
      assert ChildOf(db.rows, entry.delegation, Parent(db.rows, entry.delegation));
    }
  }

  lemma AcceptedIsActive(db: Db, op: Op)
    requires Forest(db.rows) && !op.Mark? && Decide(db, op).Accept?
    ensures var entry := Decide(db, op).entry;
            && (entry.fact.Reservation? ==> entry.fact.parent in db.rows)
            && (!Opens(entry.fact) ==> entry.delegation in db.rows && db.rows[entry.delegation].active)
  {
    hide Revoking, ActiveBelow;
  }

  lemma MarkTells(db: Db, d: Id)
    requires LogTells(db) && d in db.rows
    ensures LogTells(SetMark(db, d))
  {
    forall x | x in db.rows
      ensures RowTold(SetMark(db, d), x)
    {
      assert RowTold(db, x);
    }
  }

  lemma StepTells(db: Db, op: Op)
    requires Inv(db) && LogTells(db)
    ensures LogTells(Step(db, op).0)
  {
    hide Inv, LogTells, Record, Decide;
    InvIsShaped(db);
    if op.Mark? {
      if op.id in db.rows {
        MarkTells(db, op.id);
      }
    } else if Decide(db, op).Accept? {
      AcceptedApplies(db, op);
      AcceptedIsActive(db, op);
      RecordTells(db, Decide(db, op).entry);
    }
  }

  lemma {:induction false} RunTells(db: Db, ops: seq<Op>)
    requires Inv(db) && LogTells(db)
    ensures LogTells(Run(db, ops))
    decreases |ops|
  {
    hide Inv, LogTells, Step;
    if ops != [] {
      InvIsShaped(db);
      StepKeepsInv(db, ops[0]);
      StepTells(db, ops[0]);
      RunTells(Step(db, ops[0]).0, ops[1..]);
    }
  }

  /** In every reachable state the log alone tells who holds each delegation under whom, whether it is
      settled and how, and how many unknown costs it has. */
  lemma HistoryTells(ops: seq<Op>)
    ensures LogTells(History(ops))
  {
    hide Inv, Run;
    EmptyInv();
    NothingTold();
    RunTells(EMPTY, ops);
  }

  lemma NothingTold()
    ensures LogTells(EMPTY)
  {
  }
}
