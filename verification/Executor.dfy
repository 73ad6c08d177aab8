/**
  Tearing down a subtree (hosted/a2a_economic_authority/executor.py). Every database access is its
  own transaction, so other processes' requests land between any two of them: `env(n)` is what
  they commit before the n-th access.
 */
module Executor {
  import opened Common
  import opened Ledger
  import opened LedgerInvariant
  import opened LedgerTheorems
  import opened LedgerRuns
  import opened LedgerStore
  import opened Walks

  /** How a revoke ended. `Stopped` is an EventConflict raised while settling `at`. */
  datatype RevokeResult = NotFound | Completed(subtree: seq<Id>, settled: seq<Id>) | Stopped(at: Id)

  /** `db` is a later state of `db0`, in which the marked subtree of `d` is still the same. */
  ghost predicate Frozen(db0: Db, db: Db, d: Id) {
    && Inv(db0) && Inv(db) && Later(db0, db)
    && d in db0.rows && Revoking(db.rows, d) && SameSubtree(db0, db, d)
  }

  lemma StaysFrozen(db0: Db, db: Db, d: Id, ops: seq<Op>)
    requires Frozen(db0, db, d)
    ensures Frozen(db0, Run(db, ops), d) && Later(db, Run(db, ops))
  {
    hide Slots, SettledSpend, OwnSpend, Revoking, Under, Run, Solvent;
    Freeze(db, ops, d);
    RunIsLater(db, ops);
    LaterTransitive(db0, db, Run(db, ops));
  }

  lemma StaysFrozenStep(db0: Db, db: Db, d: Id, op: Op)
    requires Frozen(db0, db, d)
    ensures Frozen(db0, Step(db, op).0, d) && Later(db, Step(db, op).0)
  {
    hide Slots, SettledSpend, OwnSpend, Revoking, Under, Step, Solvent;
    FreezeStep(db, op, d);
    LaterTransitive(db0, db, Step(db, op).0);
  }

  /** The children of a delegation of the frozen subtree are what they were. */
  lemma SameKids(db0: Db, db: Db, d: Id, p: Id, x: Id)
    requires Frozen(db0, db, d) && p in db0.rows && Under(db0.rows, p, d)
    ensures ChildOf(db.rows, x, p) <==> ChildOf(db0.rows, x, p)
  {
    hide Slots, SettledSpend, OwnSpend, Revoking, Under, Solvent;
    if ChildOf(db.rows, x, p) {
      UnderStep(db.rows, x, d);
    }
  }

  /** `ids` lists every delegation after its parent, starting from `d`. */
  ghost predicate ParentsFirst(rows: map<Id, Row>, d: Id, ids: seq<Id>) {
    forall i, p :: 0 <= i < |ids| && ids[i] != d && ChildOf(rows, ids[i], p) ==> p in ids[..i]
  }

  lemma AppendKid(rows: map<Id, Row>, d: Id, ids: seq<Id>, kid: Id, p: Id)
    requires ParentsFirst(rows, d, ids) && p in ids && ChildOf(rows, kid, p)
    ensures ParentsFirst(rows, d, ids + [kid])
  {
    forall i, q | 0 <= i < |ids + [kid]| && (ids + [kid])[i] != d && ChildOf(rows, (ids + [kid])[i], q)
      ensures q in (ids + [kid])[..i]
    {
      assert (ids + [kid])[..i] == ids[..i];
      assert ids[..|ids|] == ids;
    }
  }

  /** The snapshot: `d` and all its descendants, each once. */
  ghost predicate ListsSubtree(rows: map<Id, Row>, d: Id, ids: seq<Id>)
    requires Forest(rows)
  {
    && (forall x :: x in ids <==> x in rows && Under(rows, x, d))
    && (forall i, j :: 0 <= i < j < |ids| ==> ids[i] != ids[j])
    && ParentsFirst(rows, d, ids)
  }

  /** In the snapshot every ancestor comes before its descendants. */
  lemma {:induction false} AncestorsFirst(rows: map<Id, Row>, d: Id, ids: seq<Id>, i: nat, a: Id)
    requires Forest(rows) && ListsSubtree(rows, d, ids) && i < |ids|
    requires a in ids && a != ids[i] && Under(rows, ids[i], a)
    ensures a in ids[..i]
    decreases i
  {
    hide Under;
    var x := ids[i];
    UnderStep(rows, x, a);
    UnderIsLater(rows, x, a);
    UnderIsLater(rows, a, d);
    var p := Parent(rows, x);
    assert ChildOf(rows, x, p);
    var j :| 0 <= j < i && ids[j] == p;
    if p != a {
      AncestorsFirst(rows, d, ids, j, a);
      assert ids[..j] <= ids[..i];
    }
  }

  lemma {:induction false} AppendKids(rows: map<Id, Row>, d: Id, ids: seq<Id>, kids: seq<Id>, p: Id)
    requires ParentsFirst(rows, d, ids) && p in ids && forall x :: x in kids ==> ChildOf(rows, x, p)
    ensures ParentsFirst(rows, d, ids + kids)
  {
    if kids == [] {
      assert ids + kids == ids;
    } else {
      var first, last := kids[..|kids| - 1], kids[|kids| - 1];
      AppendKids(rows, d, ids, first, p);
      AppendKid(rows, d, ids + first, last, p);
      assert ids + kids == ids + first + [last];
    }
  }

  /** What the walk has collected: everything it has seen, each once, parents first. */
  ghost predicate Collected(rows: map<Id, Row>, d: Id, visited: set<Id>, frontier: seq<Id>, ids: seq<Id>)
    requires Forest(rows)
  {
    && Walking(rows, d, visited, frontier)
    && (forall x :: x in ids <==> x in visited || x in frontier)
    && (forall i, j :: 0 <= i < j < |ids| ==> ids[i] != ids[j])
    && ParentsFirst(rows, d, ids)
  }

  lemma CollectStep(db0: Db, db: Db, d: Id, visited: set<Id>, rest: seq<Id>, top: Id, ids: seq<Id>)
    requires Frozen(db0, db, d) && Collected(db0.rows, d, visited, rest + [top], ids)
    ensures var kids := Children(db.rows, db.order, top);
            Collected(db0.rows, d, visited + {top}, rest + kids, ids + kids)
  {
    hide Slots, SettledSpend, OwnSpend, Revoking, Under, Solvent, Later, SameSubtree;
    var kids := Children(db.rows, db.order, top);
    var stack := rest + [top];
    assert stack[|rest|] == top;
    UnderSelf(db0.rows, d);
    forall x
      ensures x in kids <==> ChildOf(db0.rows, x, top)
      ensures x in kids ==> x != d && x !in visited && x !in stack && Under(db0.rows, x, d)
    {
      SameKids(db0, db, d, top, x);
      if ChildOf(db.rows, x, top) {
        assert db.order[db.rows[x].rowid] == x;
        NewKid(db0.rows, d, visited, stack, top, x);
      }
    }
    CollectKids(db0.rows, d, visited, rest, top, kids, ids);
  }

  lemma CollectKids(rows: map<Id, Row>, d: Id, visited: set<Id>, rest: seq<Id>, top: Id, kids: seq<Id>,
                    ids: seq<Id>)
    requires Forest(rows) && Collected(rows, d, visited, rest + [top], ids)
    requires forall i, j :: 0 <= i < j < |kids| ==> kids[i] != kids[j]
    requires forall x :: x in kids <==> ChildOf(rows, x, top)
    requires forall x :: x in kids ==> x != d && x !in visited && x !in rest + [top] && Under(rows, x, d)
    ensures Collected(rows, d, visited + {top}, rest + kids, ids + kids)
  {
    hide Under, Walking, ParentsFirst;
    Expand(rows, d, visited, rest, top, kids);
    assert top in rest + [top];
    AppendKids(rows, d, ids, kids, top);
    forall i, j | 0 <= i < j < |ids + kids|
      ensures (ids + kids)[i] != (ids + kids)[j]
    {
      if i < |ids| <= j {
        assert ids[i] in ids && kids[j - |ids|] in kids;
      }
    }
  }

  lemma RunNothing(db: Db)
    requires Inv(db)
    ensures Run(db, []) == db
  {
  }

  lemma FrozenNow(db: Db, d: Id)
    requires Inv(db) && d in db.rows && Revoking(db.rows, d)
    ensures Frozen(db, db, d)
  {
    hide Slots, SettledSpend, OwnSpend, Revoking, Under, Solvent;
  }

  lemma SingletonIsParentsFirst(rows: map<Id, Row>, d: Id)
    ensures ParentsFirst(rows, d, [d])
  {
  }

  lemma CollectedAll(rows: map<Id, Row>, d: Id, visited: set<Id>, ids: seq<Id>)
    requires Forest(rows) && d in rows && Collected(rows, d, visited, [], ids)
    ensures ListsSubtree(rows, d, ids)
  {
    hide Under;
    UnderSelf(rows, d);
    forall x | x in rows && Under(rows, x, d)
      ensures x in ids
    {
      WalkEnds(rows, d, visited, x);
    }
  }

  /** The delegations of the subtree of `d` that are still active. */
  ghost function StillActive(db: Db, d: Id): set<Id>
    requires Forest(db.rows)
  {
    set x | x in db.rows && Under(db.rows, x, d) && db.rows[x].active
  }

  // ---- The reserved event namespace ----

  /** No request but a settlement uses the revoke loop's own event ids: `execute` rejects them. */
  predicate Polite(op: Op) {
    !op.Mark? && op.event == RevokeSettle ==> op.Settle?
  }

  ghost predicate AllPolite(ops: seq<Op>) {
    forall i :: 0 <= i < |ops| ==> Polite(ops[i])
  }

  ghost predicate NamespaceKept(log: seq<Entry>) {
    forall i :: 0 <= i < |log| && log[i].event == RevokeSettle ==> log[i].fact.Settlement?
  }

  lemma StepKeepsNamespace(db: Db, op: Op)
    requires Forest(db.rows) && NamespaceKept(db.log) && Polite(op)
    ensures NamespaceKept(Step(db, op).0.log)
  {
    hide Revoking, ActiveBelow;
  }

  lemma {:induction false} RunKeepsNamespace(db: Db, ops: seq<Op>)
    requires Inv(db) && NamespaceKept(db.log) && AllPolite(ops)
    ensures NamespaceKept(Run(db, ops).log)
    decreases |ops|
  {
    hide Slots, SettledSpend, OwnSpend, Step, NamespaceKept;
    if ops != [] {
      StepKeepsInv(db, ops[0]);
      StepKeepsNamespace(db, ops[0]);
      RunKeepsNamespace(Step(db, ops[0]).0, ops[1..]);
    }
  }

  // ---- The snapshot ----

  /** Lists `d` and its descendants, reading the children of one delegation at a time. */
  method SubtreeIds(store: EconomicAuthorityStore, d: Id, env: nat -> seq<Op>) returns (ids: seq<Id>, accesses: nat)
    requires store.Valid() && d in store.rows && Revoking(store.rows, d)
    requires NamespaceKept(store.log) && forall n :: AllPolite(env(n))
    modifies store
    ensures Frozen(old(store.Tables()), store.Tables(), d) && NamespaceKept(store.log)
    ensures ListsSubtree(old(store.rows), d, ids)
    ensures (forall n :: env(n) == []) ==> store.Tables() == old(store.Tables())
  {
    hide Inv, Revoking, Under, NamespaceKept, AllPolite, Walking, ParentsFirst, Children, Later, SameSubtree,
         Lineage, Listed;
    ghost var db0 := store.Tables();
    InvIsShaped(db0);
    FrozenNow(db0, d);
    ids, accesses := [d], 0;
    var frontier := [d];
    ghost var visited: set<Id> := {};
    WalkStarts(store.rows, d);
    SingletonIsParentsFirst(store.rows, d);
    while frontier != []
      invariant Frozen(db0, store.Tables(), d) && Collected(db0.rows, d, visited, frontier, ids)
      invariant NamespaceKept(store.log)
      invariant (forall n :: env(n) == []) ==> store.Tables() == db0
      decreases db0.rows.Keys - visited
    {
      var current := frontier[|frontier| - 1];
      ghost var rest := frontier[..|frontier| - 1];
      assert frontier == rest + [current];
      TopIsNew(db0.rows, d, visited, frontier);
      frontier := frontier[..|frontier| - 1];
      StaysFrozen(db0, store.Tables(), d, env(accesses));
      RunKeepsNamespace(store.Tables(), env(accesses));
      RunNothing(store.Tables());
      store.PerformAll(env(accesses));
      accesses := accesses + 1;
      CollectStep(db0, store.Tables(), d, visited, rest, current, ids);
      var kids := Children(store.rows, store.order, current);
      ghost var before := ids;
      for i := 0 to |kids|
        invariant ids == before + kids[..i] && frontier == rest + kids[..i]
      {
        ids := ids + [kids[i]];
        frontier := frontier + [kids[i]];
      }
      assert kids[..|kids|] == kids;
      visited := visited + {current};
    }
    CollectedAll(db0.rows, d, visited, ids);
  }

  // ---- The revoke loop ----

  /** Once everything below `dep` is settled, the loop's own settlement of `dep` leaves it settled.
      It conflicts only with a rival revoke that settled `dep` first. */
  lemma SettleCloses(db: Db, dep: Id, outcome: string)
    requires Inv(db) && NamespaceKept(db.log) && dep in db.rows && !ActiveBelow(db.rows, dep)
    ensures var (db', reply) := Step(db, Op.Settle(RevokeSettle, dep, outcome));
            && dep in db'.rows && !db'.rows[dep].active
            && (reply.Conflict? ==> db' == db && Recorded(db.log, dep, RevokeSettle) && !db.rows[dep].active)
  {
    hide Slots, SettledSpend, OwnSpend, ActiveBelow, Solvent;
  }

  /** Everything from position `i` of the snapshot on is settled. */
  ghost predicate SettledFrom(rows: map<Id, Row>, ids: seq<Id>, i: nat) {
    forall j :: i <= j < |ids| && ids[j] in rows ==> !rows[ids[j]].active
  }

  lemma LeafwardQuiet(db0: Db, db: Db, d: Id, ids: seq<Id>, i: nat)
    requires Frozen(db0, db, d) && ListsSubtree(db0.rows, d, ids) && i < |ids|
    requires SettledFrom(db.rows, ids, i + 1)
    ensures ids[i] in db.rows && !ActiveBelow(db.rows, ids[i])
  {
    hide Slots, SettledSpend, OwnSpend, Revoking, Under, Solvent;
    var dep := ids[i];
    assert dep in ids;
    forall x | x in db.rows && x != dep && Under(db.rows, x, dep)
      ensures !db.rows[x].active
    {
      UnderTransitive(db.rows, x, dep, d);
      assert x in ids;
      var j :| 0 <= j < |ids| && ids[j] == x;
      LineageKept(db0.rows, db.rows, x);
      UnderSame(db0.rows, db.rows, x, dep);
      AncestorsFirst(db0.rows, d, ids, j, dep);
      var k :| 0 <= k < j && ids[k] == dep;
    }
  }

  lemma UnderSame(rows: map<Id, Row>, rows': map<Id, Row>, x: Id, a: Id)
    requires Forest(rows) && Forest(rows') && x in rows && Lineage(rows', x) == Lineage(rows, x)
    ensures Under(rows', x, a) <==> Under(rows, x, a)
  {
  }

  lemma {:induction false} UnderTransitive(rows: map<Id, Row>, x: Id, y: Id, d: Id)
    requires Forest(rows) && x in rows && y in rows && Under(rows, x, y) && Under(rows, y, d)
    ensures Under(rows, x, d)
    decreases rows[x].rowid
  {
    UnderStep(rows, x, y);
    UnderStep(rows, x, d);
    if x != y {
      UnderTransitive(rows, Parent(rows, x), y, d);
    }
  }

  lemma StaysSettled(db: Db, db': Db, ids: seq<Id>, i: nat)
    requires Later(db, db') && SettledFrom(db.rows, ids, i)
    requires forall j :: 0 <= j < |ids| ==> ids[j] in db.rows
    ensures SettledFrom(db'.rows, ids, i)
  {
  }

  /** Other processes' requests between two accesses of the loop undo nothing it has done. */
  lemma Interleave(db0: Db, db: Db, d: Id, ops: seq<Op>, ids: seq<Id>, i: nat)
    requires Frozen(db0, db, d) && NamespaceKept(db.log) && AllPolite(ops)
    requires ListsSubtree(db0.rows, d, ids) && SettledFrom(db.rows, ids, i)
    ensures var db' := Run(db, ops);
            && Frozen(db0, db', d) && NamespaceKept(db'.log) && SettledFrom(db'.rows, ids, i)
            && Later(db, db') && (ops == [] ==> db' == db)
  {
    hide Slots, SettledSpend, OwnSpend, Revoking, Under, Solvent, Run, NamespaceKept, AllPolite, LaterRow;
    StaysFrozen(db0, db, d, ops);
    RunKeepsNamespace(db, ops);
    RunNothing(db);
    SnapshotStays(db0, db, d, ids);
    StaysSettled(db, Run(db, ops), ids, i);
  }

  lemma SnapshotStays(db0: Db, db: Db, d: Id, ids: seq<Id>)
    requires Forest(db0.rows) && Later(db0, db) && ListsSubtree(db0.rows, d, ids)
    ensures forall j :: 0 <= j < |ids| ==> ids[j] in db.rows
  {
  }

  lemma SettledOneMore(db0: Db, db: Db, db': Db, d: Id, ids: seq<Id>, i: nat)
    requires Frozen(db0, db, d) && Later(db, db') && ListsSubtree(db0.rows, d, ids)
    requires 0 < i <= |ids| && SettledFrom(db.rows, ids, i)
    requires ids[i - 1] in db'.rows && !db'.rows[ids[i - 1]].active
    ensures SettledFrom(db'.rows, ids, i - 1)
  {
    hide Slots, SettledSpend, OwnSpend, Revoking, Under, Solvent, LaterRow;
    SnapshotStays(db0, db, d, ids);
    StaysSettled(db, db', ids, i);
  }

  /** A rival that settled `dep` after the loop saw it active left strictly less to do. */
  lemma OneFewer(db0: Db, seen: Db, db: Db, d: Id, dep: Id)
    requires Frozen(db0, seen, d) && Frozen(db0, db, d) && Later(seen, db)
    requires dep in db0.rows && Under(db0.rows, dep, d)
    requires dep in seen.rows && seen.rows[dep].active && dep in db.rows && !db.rows[dep].active
    ensures StillActive(db, d) < StillActive(db0, d)
  {
    hide Slots, SettledSpend, OwnSpend, Revoking, Under, Solvent;
    forall x | x in StillActive(db, d)
      ensures x in StillActive(db0, d)
    {
      assert LaterRow(db0.rows[x], db.rows[x]);
    }
    assert LaterRow(db0.rows[dep], seen.rows[dep]);
    assert dep in StillActive(db0, d) && dep !in StillActive(db, d);
  }

  lemma NothingLeft(db0: Db, db: Db, d: Id, ids: seq<Id>)
    requires Frozen(db0, db, d) && ListsSubtree(db0.rows, d, ids) && SettledFrom(db.rows, ids, 0)
    ensures StillActive(db, d) == {}
  {
    hide Slots, SettledSpend, OwnSpend, Revoking, Under, Solvent;
    forall x | x in db.rows && Under(db.rows, x, d)
      ensures !db.rows[x].active
    {
      assert x in ids;
    }
  }

  lemma MarkReply(db: Db, d: Id)
    requires Forest(db.rows)
    ensures Step(db, Mark(d)).1.Refused? <==> d !in db.rows
    ensures d !in db.rows ==> Step(db, Mark(d)).0 == db
    ensures Step(db, Mark(d)).0.log == db.log
    ensures SameForest(db, Step(db, Mark(d)).0)
    ensures forall x :: x in db.rows ==> Step(db, Mark(d)).0.rows[x].active == db.rows[x].active
    ensures d in db.rows ==> Step(db, Mark(d)).0.rows[d].revoking
  {
  }

  lemma NothingYet(rows: map<Id, Row>, ids: seq<Id>)
    ensures SettledFrom(rows, ids, |ids|)
  {
  }

  lemma MarkPreparesRevoke(db: Db, d: Id)
    requires Inv(db) && NamespaceKept(db.log) && d in db.rows
    ensures var db' := Step(db, Mark(d)).0;
            && Inv(db') && d in db'.rows && Revoking(db'.rows, d) && Frozen(db', db', d)
            && NamespaceKept(db'.log)
            && StillActive(db', d) == StillActive(db, d)
            && (forall ids :: ListsSubtree(db'.rows, d, ids) ==> ListsSubtree(db.rows, d, ids))
  {
    hide Slots, SettledSpend, OwnSpend, Under, Solvent, Step;
    var db' := Step(db, Mark(d)).0;
    MarkReply(db, d);
    StepKeepsInv(db, Mark(d));
    UnderSelf(db'.rows, d);
    UnderIsInLineage(db'.rows, d, d);
    FrozenNow(db', d);
    forall x | x in db.rows {
      OldUnder(db.rows, db'.rows, x, d);
    }
    SameSnapshots(db, db', d);
  }

  lemma SameSnapshots(db: Db, db': Db, d: Id)
    requires Forest(db.rows) && Forest(db'.rows) && SameForest(db, db')
    requires forall x :: x in db.rows ==> (Under(db'.rows, x, d) <==> Under(db.rows, x, d))
    ensures forall ids :: ListsSubtree(db'.rows, d, ids) ==> ListsSubtree(db.rows, d, ids)
  {
    hide Under;
    forall ids | ListsSubtree(db'.rows, d, ids)
      ensures ListsSubtree(db.rows, d, ids)
    {
      SameParentsFirst(db'.rows, db.rows, d, ids);
    }
  }

  lemma UnderIsInLineage(rows: map<Id, Row>, x: Id, d: Id)
    requires Forest(rows) && Under(rows, x, d)
    ensures d in Lineage(rows, x)
  {
  }

  lemma SameParentsFirst(rows: map<Id, Row>, rows': map<Id, Row>, d: Id, ids: seq<Id>)
    requires ParentsFirst(rows, d, ids) && rows'.Keys == rows.Keys
    requires forall x :: x in rows ==> rows'[x].parent == rows[x].parent
    ensures ParentsFirst(rows', d, ids)
  {
  }

  lemma FrozenFacts(db0: Db, db: Db, d: Id, ids: seq<Id>)
    requires Frozen(db0, db, d) && ListsSubtree(db0.rows, d, ids)
    ensures Shaped(db) && d in db.rows && Later(db, db)
    ensures forall j :: 0 <= j < |ids| ==> ids[j] in db.rows && ids[j] in db0.rows && Under(db0.rows, ids[j], d)
  {
    hide Slots, SettledSpend, OwnSpend, Revoking, Under, Solvent;
    RunNothing(db);
    RunIsLater(db, []);
    SnapshotStays(db0, db, d, ids);
    assert forall j :: 0 <= j < |ids| ==> ids[j] in ids;
  }

  /** The loop's settlement of the next delegation, seen active at `seen` and settled at `db`. */
  lemma OwnSettlement(db0: Db, seen: Db, db: Db, d: Id, ids: seq<Id>, i: nat, outcome: string)
    requires Frozen(db0, seen, d) && Frozen(db0, db, d) && Later(seen, db) && NamespaceKept(db.log)
    requires ListsSubtree(db0.rows, d, ids) && 0 < i <= |ids| && SettledFrom(db.rows, ids, i)
    requires ids[i - 1] in seen.rows && seen.rows[ids[i - 1]].active
    ensures var (db', reply) := Step(db, Op.Settle(RevokeSettle, ids[i - 1], outcome));
            && Frozen(db0, db', d) && NamespaceKept(db'.log) && SettledFrom(db'.rows, ids, i - 1)
            && (reply.Conflict? ==>
                  && db != seen
                  && Recorded(db'.log, ids[i - 1], RevokeSettle)
                  && StillActive(db', d) < StillActive(db0, d))
  {
    hide Inv, Revoking, Under, Step, NamespaceKept, LaterRow, Later, ListsSubtree, SameSubtree;
    var dep := ids[i - 1];
    var op := Op.Settle(RevokeSettle, dep, outcome);
    FrozenFacts(db0, db, d, ids);
    LeafwardQuiet(db0, db, d, ids, i - 1);
    SettleCloses(db, dep, outcome);
    StaysFrozenStep(db0, db, d, op);
    StepKeepsNamespace(db, op);
    LaterTransitive(seen, db, Step(db, op).0);
    SettledOneMore(db0, db, Step(db, op).0, d, ids, i);
    OneFewer(db0, seen, Step(db, op).0, d, dep);
  }

  /** The active ones from position `i` on, the last one first. */
  function ActiveBackwards(rows: map<Id, Row>, ids: seq<Id>, i: nat): (active: seq<Id>)
    requires i <= |ids|
    ensures forall x :: x in active <==> exists j :: i <= j < |ids| && ids[j] == x && x in rows && rows[x].active
    decreases |ids| - i
  {
    if i == |ids| then []
    else
      ActiveBackwards(rows, ids, i + 1)
      + if ids[i] in rows && rows[ids[i]].active then [ids[i]] else []
  }

  lemma NoneFromTheEnd(rows: map<Id, Row>, ids: seq<Id>)
    ensures ActiveBackwards(rows, ids, |ids|) == []
  {
  }

  /** The first `i` are as active as they were. */
  ghost predicate ActiveAsBefore(rows: map<Id, Row>, rows': map<Id, Row>, ids: seq<Id>, i: nat)
    requires i <= |ids|
  {
    forall j :: 0 <= j < i && ids[j] in rows && ids[j] in rows' ==> rows'[ids[j]].active == rows[ids[j]].active
  }

  /** Settling one delegation closes no other. */
  lemma SettlesOnlyOne(db: Db, dep: Id, outcome: string)
    requires Inv(db) && Forest(db.rows)
    ensures var db' := Step(db, Op.Settle(RevokeSettle, dep, outcome)).0;
            forall x :: x in db.rows && x != dep ==> x in db'.rows && db'.rows[x].active == db.rows[x].active
  {
    hide Slots, SettledSpend, OwnSpend, Solvent, Revoking, ActiveBelow;
  }

  /** One more of them was looked at, by a revoke that nobody disturbs. */
  lemma OneMoreClosed(rows: map<Id, Row>, db: Db, ids: seq<Id>, i: nat, outcome: string)
    requires Inv(db) && Forest(db.rows) && 0 < i <= |ids| && ActiveAsBefore(rows, db.rows, ids, i)
    requires forall j, k :: 0 <= j < k < |ids| ==> ids[j] != ids[k]
    requires forall j :: 0 <= j < |ids| ==> ids[j] in rows && ids[j] in db.rows
    ensures ActiveBackwards(rows, ids, i - 1)
         == ActiveBackwards(rows, ids, i) + if db.rows[ids[i - 1]].active then [ids[i - 1]] else []
    ensures ActiveAsBefore(rows, db.rows, ids, i - 1)
    ensures ActiveAsBefore(rows, Step(db, Op.Settle(RevokeSettle, ids[i - 1], outcome)).0.rows, ids, i - 1)
  {
    hide Inv, Step;
    SettlesOnlyOne(db, ids[i - 1], outcome);
  }

  /** The mark itself closes nothing. */
  lemma ActiveAsMarked(db: Db, d: Id, ids: seq<Id>)
    requires Inv(db) && d in db.rows
    ensures Forest(db.rows)
    ensures var db' := Step(db, Mark(d)).0;
            db'.rows.Keys == db.rows.Keys && ActiveAsBefore(db.rows, db'.rows, ids, |ids|)
  {
    hide Slots, SettledSpend, OwnSpend, Solvent;
  }

  lemma ListedOnce(rows: map<Id, Row>, d: Id, ids: seq<Id>)
    requires Forest(rows) && ListsSubtree(rows, d, ids)
    ensures forall j, k :: 0 <= j < k < |ids| ==> ids[j] != ids[k]
  {
  }

  /** Marks `d`, lists its subtree and settles it leaves first. */
  method DoRevoke(store: EconomicAuthorityStore, d: Id, outcome: string, env: nat -> seq<Op>)
    returns (result: RevokeResult)
    requires store.Valid() && NamespaceKept(store.log) && forall n :: AllPolite(env(n))
    modifies store
    ensures store.Valid() && NamespaceKept(store.log)
    ensures result.NotFound? <==> d !in old(store.rows)
    ensures !result.NotFound? ==> d in store.rows && Revoking(store.rows, d)
    // a revoke that ends has settled the whole subtree
    ensures result.Completed? ==>
              ListsSubtree(old(store.rows), d, result.subtree) && StillActive(store.Tables(), d) == {}
    // one that is stopped was overtaken by a rival revoke, and less is left to do
    ensures result.Stopped? ==>
              && Recorded(store.log, result.at, RevokeSettle)
              && StillActive(store.Tables(), d) < StillActive(old(store.Tables()), d)
    // undisturbed, it always ends, and it settles every active delegation, leaves first
    ensures (forall n :: env(n) == []) ==>
              && !result.Stopped?
              && (result.Completed? ==> result.settled == ActiveBackwards(old(store.rows), result.subtree, 0))
  {
    hide Inv, Revoking, Under, NamespaceKept, AllPolite, Later, SameSubtree, Lineage, Listed, Step, ParentsFirst,
         SettledFrom, ListsSubtree, StillActive, ActiveAsBefore, ActiveBackwards, Recorded;
    ghost var calm := forall n :: env(n) == [];
    ghost var dbBefore := store.Tables();
    InvIsShaped(dbBefore);
    MarkReply(dbBefore, d);
    var marked := store.MarkRevocationStarted(d);
    if marked.Refused? {
      return NotFound;
    }
    ghost var db0 := store.Tables();
    MarkPreparesRevoke(dbBefore, d);
    var subtree, n := SubtreeIds(store, d, env);
    var settled: seq<Id> := [];
    var i := |subtree|;
    NothingYet(store.rows, subtree);
    ActiveAsMarked(dbBefore, d, subtree);
    NoneFromTheEnd(dbBefore.rows, subtree);
    ListedOnce(db0.rows, d, subtree);
    while i > 0
      invariant 0 <= i <= |subtree|
      invariant calm ==> ActiveAsBefore(dbBefore.rows, store.rows, subtree, i)
      invariant calm ==> settled == ActiveBackwards(dbBefore.rows, subtree, i)
      invariant Frozen(db0, store.Tables(), d) && NamespaceKept(store.log)
      invariant SettledFrom(store.rows, subtree, i)
    {
      var dep := subtree[i - 1];
      Interleave(db0, store.Tables(), d, env(n), subtree, i);
      store.PerformAll(env(n));
      n := n + 1;
      FrozenFacts(db0, store.Tables(), d, subtree);
      RunNothing(store.Tables());
      if calm {
        OneMoreClosed(dbBefore.rows, store.Tables(), subtree, i, outcome);
      }
      if store.rows[dep].active {
        ghost var seen := store.Tables();
        Interleave(db0, seen, d, env(n), subtree, i);
        store.PerformAll(env(n));
        OwnSettlement(db0, seen, store.Tables(), d, subtree, i, outcome);
        n := n + 1;
        var reply := store.Settle(RevokeSettle, dep, outcome);
        if reply.Conflict? {
          FrozenFacts(db0, store.Tables(), d, subtree);
          return Stopped(dep);
        }
        settled := settled + [dep];
      } else {
        SettledOneMore(db0, store.Tables(), store.Tables(), d, subtree, i);
      }
      i := i - 1;
    }
    FrozenFacts(db0, store.Tables(), d, subtree);
    NothingLeft(db0, store.Tables(), d, subtree);
    return Completed(subtree, settled);
  }

  /** A revoke that is run again after every conflict ends, with the whole subtree settled, after at most
      one attempt for each delegation that was active. */
  method RevokeAgain(store: EconomicAuthorityStore, d: Id, outcome: string, env: nat -> nat -> seq<Op>)
    returns (attempts: nat)
    requires store.Valid() && NamespaceKept(store.log) && d in store.rows
    requires forall k, n :: AllPolite(env(k)(n))
    modifies store
    ensures store.Valid() && d in store.rows && StillActive(store.Tables(), d) == {}
    ensures attempts <= |old(StillActive(store.Tables(), d))| + 1
  {
    hide Inv, Revoking, Under, NamespaceKept, AllPolite, ListsSubtree, StillActive, Recorded;
    InvIsShaped(store.Tables());
    attempts := 0;
    while true
      invariant store.Valid() && NamespaceKept(store.log) && d in store.rows && Forest(store.rows)
      invariant attempts + |StillActive(store.Tables(), d)| <= |old(StillActive(store.Tables(), d))|
      decreases |StillActive(store.Tables(), d)|
    {
      ghost var before := StillActive(store.Tables(), d);
      var result := DoRevoke(store, d, outcome, env(attempts));
      InvIsShaped(store.Tables());
      attempts := attempts + 1;
      if result.Completed? {
        return;
      }
      FewerMembers(StillActive(store.Tables(), d), before);
    }
  }

  lemma FewerMembers(a: set<Id>, b: set<Id>)
    requires a < b
    ensures |a| < |b|
  {
    SubsetCount(a, b);
    if |a| == |b| {
      var x :| x in b && x !in a;
      SubsetCount(a + {x}, b);
    }
  }
}
