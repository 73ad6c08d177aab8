/** The descendant walks: a stack of delegations still to be expanded. */
module Walks {
  import opened Common
  import opened Ledger
  import opened LedgerTheorems

  /** The rows of `order` whose parent is `p`, oldest first: one SELECT. */
  function Children(rows: map<Id, Row>, order: seq<Id>, p: Id): (kids: seq<Id>)
    ensures forall x :: x in kids ==> x in order && ChildOf(rows, x, p)
    ensures forall x :: x in order && ChildOf(rows, x, p) ==> x in kids
    ensures (forall i, j :: 0 <= i < j < |order| ==> order[i] != order[j]) ==>
              forall i, j :: 0 <= i < j < |kids| ==> kids[i] != kids[j]
  {
    if order == [] then []
    else
      var rest := Children(rows, order[..|order| - 1], p);
      var x := order[|order| - 1];
      if ChildOf(rows, x, p) then rest + [x] else rest
  }

  /** Invariant of a walk from `d`: `visited` has been expanded, `stack` is still to be. */
  ghost predicate Walking(rows: map<Id, Row>, d: Id, visited: set<Id>, stack: seq<Id>)
    requires Forest(rows)
  {
    && (d in visited || d in stack)
    && (forall x :: x in visited || x in stack ==> x == d || (x in rows && Under(rows, x, d)))
    && (forall x :: x in stack ==> x !in visited)
    && (forall i, j :: 0 <= i < j < |stack| ==> stack[i] != stack[j])
    && (forall x, p :: ChildOf(rows, x, p) && p in visited ==> x in visited || x in stack)
    && (forall x, p :: ChildOf(rows, x, p) && (x in visited || x in stack) && x != d ==> p in visited)
  }

  lemma WalkStarts(rows: map<Id, Row>, d: Id)
    requires Forest(rows)
    ensures Walking(rows, d, {}, [d])
  {
  }

  /** A child of the element being expanded has not been seen before. */
  lemma NewKid(rows: map<Id, Row>, d: Id, visited: set<Id>, stack: seq<Id>, top: Id, x: Id)
    requires Forest(rows) && Walking(rows, d, visited, stack) && top in stack && ChildOf(rows, x, top)
    ensures x != d && x !in visited && x !in stack && Under(rows, x, d)
  {
    hide Under;
    UnderSelf(rows, top);
    UnderStep(rows, x, d);
    UnderIsLater(rows, top, d);
  }

  lemma Expand(rows: map<Id, Row>, d: Id, visited: set<Id>, rest: seq<Id>, top: Id, kids: seq<Id>)
    requires Forest(rows) && Walking(rows, d, visited, rest + [top])
    requires forall i, j :: 0 <= i < j < |kids| ==> kids[i] != kids[j]
    requires forall x :: x in kids <==> ChildOf(rows, x, top)
    requires forall x :: x in kids ==> x != d && x !in visited && x !in rest + [top] && Under(rows, x, d)
    ensures Walking(rows, d, visited + {top}, rest + kids)
  {
    hide Under;
    var stack := rest + [top];
    assert stack[|rest|] == top && forall i :: 0 <= i < |rest| ==> stack[i] == rest[i];
    forall x, p | ChildOf(rows, x, p) && p in visited + {top}
      ensures x in visited + {top} || x in rest + kids
    {
      assert p in visited ==> x in visited || x in rest + [top];
    }
    forall x, p | ChildOf(rows, x, p) && (x in visited + {top} || x in rest + kids) && x != d
      ensures p in visited + {top}
    {
      assert x in kids ==> p == top;
    }
    assert forall x :: x in rest + kids ==> x !in visited + {top};
    forall i, j | 0 <= i < j < |rest + kids|
      ensures (rest + kids)[i] != (rest + kids)[j]
    {
      if j < |rest| {
        assert stack[i] != stack[j];
      } else if i < |rest| {
        assert rest[i] in rest + [top] && kids[j - |rest|] in kids;
      }
    }
  }

  /** Expanding the last element of the stack keeps the walk going. */
  lemma WalkStep(db: Db, d: Id, visited: set<Id>, stack: seq<Id>)
    requires Shaped(db) && stack != [] && Walking(db.rows, d, visited, stack)
    ensures var top := stack[|stack| - 1];
            Walking(db.rows, d, visited + {top},
                    stack[..|stack| - 1] + Children(db.rows, db.order, top))
  {
    hide Under, Walking;
    var rest, top := stack[..|stack| - 1], stack[|stack| - 1];
    var kids := Children(db.rows, db.order, top);
    assert stack == rest + [top];
    forall x | ChildOf(db.rows, x, top)
      ensures x in kids && x != d && x !in visited && x !in stack && Under(db.rows, x, d)
    {
      NewKid(db.rows, d, visited, stack, top, x);
      assert db.order[db.rows[x].rowid] == x;
    }
    Expand(db.rows, d, visited, rest, top, kids);
  }

  lemma TopIsNew(rows: map<Id, Row>, d: Id, visited: set<Id>, stack: seq<Id>)
    requires Forest(rows) && stack != [] && Walking(rows, d, visited, stack)
    ensures var top := stack[|stack| - 1];
            top !in visited && (top == d || (top in rows && Under(rows, top, d)))
  {
  }

  lemma UnderSelf(rows: map<Id, Row>, d: Id)
    requires Forest(rows) && d in rows
    ensures Under(rows, d, d)
  {
  }

  /** When the stack is empty, exactly the subtree has been visited. */
  lemma {:induction false} WalkEnds(rows: map<Id, Row>, d: Id, visited: set<Id>, x: Id)
    requires Forest(rows) && Walking(rows, d, visited, []) && x in rows && Under(rows, x, d)
    ensures x in visited
    decreases rows[x].rowid
  {
    UnderStep(rows, x, d);
    if x != d {
      WalkEnds(rows, d, visited, Parent(rows, x));
      assert ChildOf(rows, x, Parent(rows, x));
    }
  }
}
