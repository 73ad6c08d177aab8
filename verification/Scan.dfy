/**
  `ChainEvidence.find_transaction` of hosted/job_safe_search/payments.py: a bounded scan of the chain
  for the event that spent a nonce, resumed from a cursor. Every request sees the chain as it is then:
  it grows, and blocks past the finalized head may have been replaced since the last look.
 */
module Scan {
  import opened Common

  type Address(==,!new,0)
  type EventNonce(==,!new,0)
  type TxHash(==,!new,0)

  datatype Log = Log(tx: TxHash, payer: Address, nonce: EventNonce, removed: bool)

  datatype Chain = Chain(blocks: seq<seq<Log>>, finalized: nat)

  /** What a cursor is kept for: whose authorization, and from which block the search began. */
  datatype Key = Key(payer: Address, nonce: EventNonce, from: nat)

  /** The cursors, with their keys in the order they were inserted. */
  datatype Cursors = Cursors(at: map<Key, nat>, order: seq<Key>)

  datatype Outcome = Found(tx: TxHash) | NotFound | Unavailable | WrongChain | InconsistentHeads

  /** One pass's view: the chain, and whether the node fails, at each request of the pass. */
  datatype View = View(chain: nat -> Chain, fails: nat -> bool, rightChain: bool)

  const SPAN: nat := 200
  const REQUESTS: nat := 16
  const CAPACITY: nat := 4096

  ghost predicate ChainOk(c: Chain) {
    c.finalized < |c.blocks|
  }

  /** Finalized blocks stay what they are; the rest may change. */
  ghost predicate Evolves(c: Chain, c': Chain) {
    && c.finalized <= c'.finalized < |c'.blocks| && c.finalized < |c.blocks|
    && c'.blocks[..c.finalized + 1] == c.blocks[..c.finalized + 1]
  }

  ghost predicate Unfolds(view: View) {
    (forall k :: ChainOk(view.chain(k))) && (forall j, k :: j <= k ==> Evolves(view.chain(j), view.chain(k)))
  }

  // ---- What a request returns ----

  function OfPayer(logs: seq<Log>, payer: Address): seq<Log> {
    if logs == [] then []
    else OfPayer(logs[..|logs| - 1], payer)
         + (if logs[|logs| - 1].payer == payer then [logs[|logs| - 1]] else [])
  }

  /** `eth_getLogs` over blocks `first..last`, filtered by payer. */
  function GetLogs(c: Chain, first: nat, last: int, payer: Address): seq<Log>
    decreases last - first
  {
    if first > last || first >= |c.blocks| then []
    else OfPayer(c.blocks[first], payer) + GetLogs(c, first + 1, last, payer)
  }

  predicate Spends(log: Log, nonce: EventNonce) {
    log.nonce == nonce && !log.removed
  }

  function FirstMatch(logs: seq<Log>, nonce: EventNonce): Option<TxHash> {
    if logs == [] then None
    else if Spends(logs[0], nonce) then Some(logs[0].tx)
    else FirstMatch(logs[1..], nonce)
  }

  /** Block `b` holds an event by which `key`'s payer spent its nonce. */
  ghost predicate Matches(c: Chain, key: Key, b: nat) {
    b < |c.blocks| && exists log :: log in c.blocks[b] && log.payer == key.payer && Spends(log, key.nonce)
  }

  lemma {:induction false} OfPayerFinds(logs: seq<Log>, payer: Address, log: Log)
    ensures log in OfPayer(logs, payer) <==> log in logs && log.payer == payer
  {
    if logs != [] {
      OfPayerFinds(logs[..|logs| - 1], payer, log);
      assert logs == logs[..|logs| - 1] + [logs[|logs| - 1]];
    }
  }

  lemma {:induction false} GetLogsFinds(c: Chain, first: nat, last: int, payer: Address, log: Log)
    ensures log in GetLogs(c, first, last, payer)
       <==> log.payer == payer && exists b :: first <= b <= last && b < |c.blocks| && log in c.blocks[b]
    decreases last - first
  {
    if first <= last && first < |c.blocks| {
      OfPayerFinds(c.blocks[first], payer, log);
      GetLogsFinds(c, first + 1, last, payer, log);
    }
  }

  lemma {:induction false} FirstMatchFinds(logs: seq<Log>, nonce: EventNonce)
    ensures FirstMatch(logs, nonce).None? <==> forall log :: log in logs ==> !Spends(log, nonce)
    ensures FirstMatch(logs, nonce).Some? ==>
              exists log :: log in logs && Spends(log, nonce) && log.tx == FirstMatch(logs, nonce).value
  {
    if logs != [] {
      FirstMatchFinds(logs[1..], nonce);
      assert logs == [logs[0]] + logs[1..];
    }
  }

  /** A request over a range finds nothing exactly when no block of the range matches. */
  lemma RequestFinds(c: Chain, key: Key, first: nat, last: int)
    ensures FirstMatch(GetLogs(c, first, last, key.payer), key.nonce).None?
       <==> forall b :: first <= b <= last ==> !Matches(c, key, b)
  {
    var logs := GetLogs(c, first, last, key.payer);
    FirstMatchFinds(logs, key.nonce);
    forall log {
      GetLogsFinds(c, first, last, key.payer, log);
    }
    if b :| first <= b <= last && Matches(c, key, b) {
      var log :| log in c.blocks[b] && log.payer == key.payer && Spends(log, key.nonce);
      assert log in logs;
    }
    if FirstMatch(logs, key.nonce).Some? {
      var log :| log in logs && Spends(log, key.nonce);
      var b :| first <= b <= last && b < |c.blocks| && log in c.blocks[b];
      assert Matches(c, key, b);
    }
  }

  // ---- One pass ----

  /** Stores a cursor, evicting the oldest when the table is full. */
  function Put(cursors: Cursors, key: Key, next: nat): Cursors {
    if key in cursors.at then cursors.(at := cursors.at[key := next])
    else
      var kept := if |cursors.at| >= CAPACITY && cursors.order != []
                  then Cursors(cursors.at - {cursors.order[0]}, cursors.order[1..]) else cursors;
      Cursors(kept.at[key := next], kept.order + [key])
  }

  function Resume(cursors: Cursors, key: Key): nat {
    Max(key.from, if key in cursors.at then cursors.at[key] else 0)
  }

  function Advance(cursors: Cursors, key: Key, start: nat, last: nat, finalized: nat): Cursors {
    var safeNext := Min(last, finalized) + 1;
    if safeNext > start then Put(cursors, key, safeNext) else cursors
  }

  /** The scanning loop: request number `k` of the pass is next, and `left` more may be made. */
  function Requests(view: View, k: nat, key: Key, start: nat, latest: nat, finalized: nat, cursors: Cursors, left: nat)
    : (Outcome, Cursors)
    decreases left
  {
    if left == 0 || start > latest then (NotFound, cursors)
    else if view.fails(k) then (Unavailable, cursors)
    else
      var last := Min(start + SPAN - 1, latest);
      match FirstMatch(GetLogs(view.chain(k), start, last, key.payer), key.nonce)
      case Some(tx) => (Found(tx), cursors)
      case None =>
        Requests(view, k + 1, key, last + 1, latest, finalized, Advance(cursors, key, start, last, finalized), left - 1)
  }

  function Pass(view: View, key: Key, cursors: Cursors): (Outcome, Cursors) {
    if view.fails(0) then (Unavailable, cursors)
    else if !view.rightChain then (WrongChain, cursors)
    else if view.fails(1) || view.fails(2) then (Unavailable, cursors)
    else
      var finalized := view.chain(1).finalized;
      var latest := |view.chain(2).blocks| - 1;
      if latest < finalized then (InconsistentHeads, cursors)
      else Requests(view, 3, key, Resume(cursors, key), latest, finalized, cursors, REQUESTS)
  }

  // ---- Cursors never pass a match ----

  ghost predicate NoMatch(c: Chain, key: Key, first: nat, next: nat) {
    forall b :: first <= b < next ==> !Matches(c, key, b)
  }

  /** No cursor is past the finalized head plus one, nor past a matching block. */
  ghost predicate Sound(c: Chain, cursors: Cursors) {
    forall key :: key in cursors.at ==>
      cursors.at[key] <= c.finalized + 1 && NoMatch(c, key, key.from, cursors.at[key])
  }

  lemma SettledMatches(c: Chain, c': Chain, key: Key, b: nat)
    requires Evolves(c, c') && b <= c.finalized
    ensures Matches(c', key, b) <==> Matches(c, key, b)
  {
  }

  /** Whatever the chain does, a sound table stays sound. */
  lemma SoundStays(c: Chain, c': Chain, cursors: Cursors)
    requires Sound(c, cursors) && Evolves(c, c')
    ensures Sound(c', cursors)
  {
    forall key, b: nat | key in cursors.at && key.from <= b < cursors.at[key]
      ensures !Matches(c', key, b)
    {
      SettledMatches(c, c', key, b);
    }
  }

  /** Eviction only forgets. */
  lemma PutKeeps(cursors: Cursors, key: Key, next: nat)
    ensures var cursors' := Put(cursors, key, next);
            && key in cursors'.at && cursors'.at[key] == next
            && (forall x :: x in cursors'.at && x != key ==> x in cursors.at && cursors'.at[x] == cursors.at[x])
  {
  }

  /** Moving the cursor over a range without a match, as far as it is final. */
  lemma AdvanceKeepsSound(c: Chain, key: Key, start: nat, last: nat, finalized: nat, cursors: Cursors)
    requires finalized <= c.finalized && Sound(c, cursors)
    requires NoMatch(c, key, key.from, Min(last, finalized) + 1)
    ensures Sound(c, Advance(cursors, key, start, last, finalized))
  {
  }

  lemma NoMatchStays(c: Chain, c': Chain, key: Key, first: nat, next: nat)
    requires Evolves(c, c') && next <= c.finalized + 1 && NoMatch(c, key, first, next)
    ensures NoMatch(c', key, first, next)
  {
    forall b | first <= b < next
      ensures !Matches(c', key, b)
    {
      SettledMatches(c, c', key, b);
    }
  }

  /** The rest of a pass keeps the table sound, whatever it finds and wherever it fails. */
  lemma {:induction false} RequestsKeepSound(view: View, k: nat, key: Key, start: nat, latest: nat, finalized: nat,
                                             cursors: Cursors, left: nat, m: nat)
    requires Unfolds(view) && finalized <= view.chain(k).finalized && finalized <= latest
    requires Sound(view.chain(k), cursors) && key.from <= start
    requires NoMatch(view.chain(k), key, key.from, Min(start, finalized + 1))
    requires m >= k + left
    ensures Sound(view.chain(m), Requests(view, k, key, start, latest, finalized, cursors, left).1)
    decreases left
  {
    hide Sound, GetLogs, FirstMatch, Matches, Advance;
    assert Evolves(view.chain(k), view.chain(m)) && Evolves(view.chain(k), view.chain(k + 1));
    SoundStays(view.chain(k), view.chain(m), cursors);
    if left > 0 && start <= latest && !view.fails(k) {
      var last := Min(start + SPAN - 1, latest);
      RequestFinds(view.chain(k), key, start, last);
      if FirstMatch(GetLogs(view.chain(k), start, last, key.payer), key.nonce).None? {
        AdvanceKeepsSound(view.chain(k), key, start, last, finalized, cursors);
        SoundStays(view.chain(k), view.chain(k + 1), Advance(cursors, key, start, last, finalized));
        NoMatchStays(view.chain(k), view.chain(k + 1), key, key.from, Min(last, finalized) + 1);
        RequestsKeepSound(view, k + 1, key, last + 1, latest, finalized,
                          Advance(cursors, key, start, last, finalized), left - 1, m);
      }
    }
  }

  /** One pass keeps the table sound for the chain it leaves behind. */
  lemma PassKeepsSound(view: View, key: Key, cursors: Cursors)
    requires Unfolds(view) && Sound(view.chain(0), cursors)
    ensures Sound(view.chain(3 + REQUESTS), Pass(view, key, cursors).1)
  {
    hide Matches, GetLogs, FirstMatch, Advance, Requests;
    assert Evolves(view.chain(0), view.chain(3)) && Evolves(view.chain(0), view.chain(3 + REQUESTS));
    assert Evolves(view.chain(1), view.chain(3));
    SoundStays(view.chain(0), view.chain(3), cursors);
    SoundStays(view.chain(0), view.chain(3 + REQUESTS), cursors);
    var latest := |view.chain(2).blocks| - 1;
    if latest >= view.chain(1).finalized {
      RequestsKeepSound(view, 3, key, Resume(cursors, key), latest, view.chain(1).finalized, cursors, REQUESTS,
                        3 + REQUESTS);
    }
  }

  // ---- Progress ----

  /** A pass that ends without an error and without a match has moved the cursor over everything
      finalized within its reach, and there was no match there. */
  lemma {:induction false} RequestsProgress(view: View, k: nat, key: Key, start: nat, latest: nat, finalized: nat,
                                            cursors: Cursors, left: nat, c: Chain)
    requires Unfolds(view) && finalized <= c.finalized && Evolves(c, view.chain(k)) && finalized <= latest
    requires Requests(view, k, key, start, latest, finalized, cursors, left).0.NotFound?
    ensures var reach := Min(finalized + 1, start + SPAN * left);
            var cursors' := Requests(view, k, key, start, latest, finalized, cursors, left).1;
            && (left > 0 && start <= finalized ==> key in cursors'.at && cursors'.at[key] == reach)
            && (left == 0 || start > finalized ==> cursors' == cursors)
            && NoMatch(c, key, start, reach)
    decreases left
  {
    hide Matches, GetLogs, FirstMatch, Evolves;
    if left > 0 && start <= latest {
      var last := Min(start + SPAN - 1, latest);
      RequestFinds(view.chain(k), key, start, last);
      var cursors' := Advance(cursors, key, start, last, finalized);
      PutKeeps(cursors, key, Min(last, finalized) + 1);
      EvolvesOn(c, view, k);
      RequestsProgress(view, k + 1, key, last + 1, latest, finalized, cursors', left - 1, c);
      forall b: nat | start <= b < Min(finalized + 1, start + SPAN * left)
        ensures !Matches(c, key, b)
      {
        SettledMatches(c, view.chain(k), key, b);
      }
    }
  }

  lemma EvolvesOn(c: Chain, view: View, k: nat)
    requires Unfolds(view) && Evolves(c, view.chain(k))
    ensures Evolves(c, view.chain(k + 1))
  {
  }

  /** What an error-free pass without a match has done. */
  lemma PassProgress(view: View, key: Key, cursors: Cursors)
    requires Unfolds(view) && Pass(view, key, cursors).0.NotFound?
    ensures var start := Resume(cursors, key);
            var reach := Min(view.chain(1).finalized + 1, start + SPAN * REQUESTS);
            && Resume(Pass(view, key, cursors).1, key) == Max(start, reach)
            && NoMatch(view.chain(1), key, start, reach)
  {
    assert Evolves(view.chain(1), view.chain(3));
    var latest := |view.chain(2).blocks| - 1;
    RequestsProgress(view, 3, key, Resume(cursors, key), latest, view.chain(1).finalized, cursors, REQUESTS,
                     view.chain(1));
  }

  /** Looking at one chain throughout, the requests find a match exactly when one is within their reach, up
      to the latest block, final or not. */
  lemma {:induction false} RequestsExactly(c: Chain, view: View, k: nat, key: Key, start: nat, latest: nat,
                                           finalized: nat, cursors: Cursors, left: nat)
    requires forall i :: view.chain(i) == c && !view.fails(i)
    requires latest == |c.blocks| - 1
    ensures var outcome := Requests(view, k, key, start, latest, finalized, cursors, left).0;
            && (outcome.Found? || outcome.NotFound?)
            && (outcome.Found? <==> exists b: nat :: start <= b < start + SPAN * left && Matches(c, key, b))
    decreases left
  {
    hide Matches, GetLogs, FirstMatch, Advance;
    if left > 0 && start <= latest {
      var last := Min(start + SPAN - 1, latest);
      RequestFinds(c, key, start, last);
      RequestsExactly(c, view, k + 1, key, last + 1, latest, finalized, Advance(cursors, key, start, last, finalized),
                      left - 1);
    }
    forall b: nat | Matches(c, key, b)
      ensures b <= latest
    {
      MatchIsOnChain(c, key, b);
    }
  }

  lemma MatchIsOnChain(c: Chain, key: Key, b: nat)
    requires Matches(c, key, b)
    ensures b < |c.blocks|
  {
  }

  /** A pass with no failure, on the right chain, while the chain stands still. */
  lemma PassExactly(c: Chain, view: View, key: Key, cursors: Cursors)
    requires ChainOk(c) && view.rightChain && forall i :: view.chain(i) == c && !view.fails(i)
    ensures var (outcome, start) := (Pass(view, key, cursors).0, Resume(cursors, key));
            && (outcome.Found? || outcome.NotFound?)
            && (outcome.Found? <==> exists b: nat :: start <= b < start + SPAN * REQUESTS && Matches(c, key, b))
  {
    hide Matches, Requests;
    RequestsExactly(c, view, 3, key, Resume(cursors, key), |c.blocks| - 1, c.finalized, cursors, REQUESTS);
  }

  /** Each error has its cause. */
  lemma {:induction false} RequestsFail(view: View, k: nat, key: Key, start: nat, latest: nat, finalized: nat,
                                        cursors: Cursors, left: nat)
    ensures var outcome := Requests(view, k, key, start, latest, finalized, cursors, left).0;
            && !outcome.WrongChain? && !outcome.InconsistentHeads?
            && (outcome.Unavailable? ==> exists i :: k <= i < k + left && view.fails(i))
    decreases left
  {
    hide GetLogs, FirstMatch, Advance;
    if left > 0 && start <= latest && !view.fails(k) {
      var last := Min(start + SPAN - 1, latest);
      RequestsFail(view, k + 1, key, last + 1, latest, finalized, Advance(cursors, key, start, last, finalized),
                   left - 1);
    }
  }

  lemma PassFails(view: View, key: Key, cursors: Cursors)
    ensures var outcome := Pass(view, key, cursors).0;
            && (outcome.Unavailable? ==> exists i :: 0 <= i < 3 + REQUESTS && view.fails(i))
            && (outcome.WrongChain? <==> !view.rightChain && !view.fails(0))
            && (outcome.InconsistentHeads? <==>
                  && view.rightChain && !view.fails(0) && !view.fails(1) && !view.fails(2)
                  && |view.chain(2).blocks| <= view.chain(1).finalized)
  {
    hide Requests;
    var latest := |view.chain(2).blocks| - 1;
    if latest >= view.chain(1).finalized {
      RequestsFail(view, 3, key, Resume(cursors, key), latest, view.chain(1).finalized, cursors, REQUESTS);
    }
  }

  /** A transaction that is returned did carry an event that spent the nonce. */
  lemma {:induction false} FoundIsReal(view: View, k: nat, key: Key, start: nat, latest: nat, finalized: nat,
                                       cursors: Cursors, left: nat)
    requires Requests(view, k, key, start, latest, finalized, cursors, left).0.Found?
    ensures exists m: nat, b: nat, log :: Holds(view.chain(m), b, log) && start <= b <= latest
              && log.payer == key.payer && Spends(log, key.nonce)
              && Requests(view, k, key, start, latest, finalized, cursors, left).0 == Found(log.tx)
    decreases left
  {
    var last := Min(start + SPAN - 1, latest);
    var logs := GetLogs(view.chain(k), start, last, key.payer);
    FirstMatchFinds(logs, key.nonce);
    if FirstMatch(logs, key.nonce).Some? {
      var log :| log in logs && Spends(log, key.nonce) && log.tx == FirstMatch(logs, key.nonce).value;
      GetLogsFinds(view.chain(k), start, last, key.payer, log);
      var b :| start <= b <= last && b < |view.chain(k).blocks| && log in view.chain(k).blocks[b];
      assert Holds(view.chain(k), b, log);
    } else {
      FoundIsReal(view, k + 1, key, last + 1, latest, finalized,
                  Advance(cursors, key, start, last, finalized), left - 1);
    }
  }

  predicate Holds(c: Chain, b: nat, log: Log) {
    b < |c.blocks| && log in c.blocks[b]
  }

  /** The table's order lists its keys, each once, and it never outgrows its capacity. */
  ghost predicate Tidy(cursors: Cursors) {
    && (forall key :: key in cursors.at <==> key in cursors.order)
    && Distinct(cursors.order)
    && |cursors.at| <= CAPACITY
  }

  ghost predicate Distinct(order: seq<Key>) {
    forall i, j :: 0 <= i < j < |order| ==> order[i] != order[j]
  }

  lemma PutKeepsTidy(cursors: Cursors, key: Key, next: nat)
    requires Tidy(cursors)
    ensures Tidy(Put(cursors, key, next))
  {
    if key in cursors.at {
      assert cursors.at[key := next].Keys == cursors.at.Keys;
    } else if |cursors.at| >= CAPACITY {
      EvictKeepsTidy(cursors);
      AppendKeepsTidy(Cursors(cursors.at - {cursors.order[0]}, cursors.order[1..]), key, next);
    } else {
      AppendKeepsTidy(cursors, key, next);
    }
  }

  lemma EvictKeepsTidy(cursors: Cursors)
    requires Tidy(cursors) && |cursors.at| > 0
    ensures cursors.order != []
    ensures var kept := Cursors(cursors.at - {cursors.order[0]}, cursors.order[1..]);
            Tidy(kept) && |kept.at| < |cursors.at|
  {
  }

  lemma AppendKeepsTidy(cursors: Cursors, key: Key, next: nat)
    requires Tidy(cursors) && key !in cursors.at && |cursors.at| < CAPACITY
    ensures Tidy(Cursors(cursors.at[key := next], cursors.order + [key]))
  {
  }

  lemma {:induction false} RequestsKeepTidy(view: View, k: nat, key: Key, start: nat, latest: nat, finalized: nat,
                                            cursors: Cursors, left: nat)
    requires Tidy(cursors)
    ensures Tidy(Requests(view, k, key, start, latest, finalized, cursors, left).1)
    decreases left
  {
    hide Tidy, GetLogs, FirstMatch;
    if left > 0 && start <= latest {
      var last := Min(start + SPAN - 1, latest);
      PutKeepsTidy(cursors, key, Min(last, finalized) + 1);
      RequestsKeepTidy(view, k + 1, key, last + 1, latest, finalized,
                       Advance(cursors, key, start, last, finalized), left - 1);
    }
  }

  // ---- Over repeated calls ----

  /** A view that begins where the chain had got to. */
  ghost predicate Follows(c: Chain, view: View) {
    Unfolds(view) && Evolves(c, view.chain(0))
  }

  lemma FollowsAll(c: Chain, view: View, k: nat)
    requires Follows(c, view)
    ensures Evolves(c, view.chain(k))
    decreases k
  {
  }

  datatype Visit = Visit(view: View, key: Key)

  /** The cursors after calls for any keys, in turn. */
  function Visits(visits: seq<Visit>, cursors: Cursors): Cursors {
    if visits == [] then cursors
    else Visits(visits[1..], Pass(visits[0].view, visits[0].key, cursors).1)
  }

  /** Each call begins with the chain the one before it left. */
  ghost predicate InTurn(c: Chain, visits: seq<Visit>)
    decreases |visits|
  {
    visits != [] ==> Follows(c, visits[0].view) && InTurn(visits[0].view.chain(3 + REQUESTS), visits[1..])
  }

  ghost function Final(c: Chain, visits: seq<Visit>): Chain
    decreases |visits|
  {
    if visits == [] then c else Final(visits[0].view.chain(3 + REQUESTS), visits[1..])
  }

  /** Over any calls for any keys, failing wherever they fail, with the chain growing and its unfinished
      end replaced, no cursor ever passes the finalized head plus one nor a matching block. */
  lemma {:induction false} NeverSkips(c: Chain, visits: seq<Visit>, cursors: Cursors)
    requires InTurn(c, visits) && Sound(c, cursors)
    ensures Sound(Final(c, visits), Visits(visits, cursors))
    decreases |visits|
  {
    hide Sound, Pass;
    if visits != [] {
      var view := visits[0].view;
      SoundStays(c, view.chain(0), cursors);
      PassKeepsSound(view, visits[0].key, cursors);
      NeverSkips(view.chain(3 + REQUESTS), visits[1..], Pass(view, visits[0].key, cursors).1);
    }
  }

  lemma PassKeepsTidy(view: View, key: Key, cursors: Cursors)
    requires Tidy(cursors)
    ensures Tidy(Pass(view, key, cursors).1)
  {
    hide Tidy, Requests;
    if |view.chain(2).blocks| > view.chain(1).finalized {
      RequestsKeepTidy(view, 3, key, Resume(cursors, key), |view.chain(2).blocks| - 1, view.chain(1).finalized, cursors,
                       REQUESTS);
    }
  }

  /** Over any calls for any keys the table lists each key once and never outgrows its capacity. */
  lemma {:induction false} AlwaysTidy(visits: seq<Visit>, cursors: Cursors)
    requires Tidy(cursors)
    ensures Tidy(Visits(visits, cursors))
    decreases |visits|
  {
    hide Tidy, Pass;
    if visits != [] {
      PassKeepsTidy(visits[0].view, visits[0].key, cursors);
      AlwaysTidy(visits[1..], Pass(visits[0].view, visits[0].key, cursors).1);
    }
  }

  /** How the calls end, in turn. */
  function Outcomes(visits: seq<Visit>, cursors: Cursors): (outcomes: seq<Outcome>)
    ensures |outcomes| == |visits|
  {
    if visits == [] then []
    else
      var (outcome, cursors') := Pass(visits[0].view, visits[0].key, cursors);
      [outcome] + Outcomes(visits[1..], cursors')
  }

  predicate ErrorFree(outcomes: seq<Outcome>) {
    forall i :: 0 <= i < |outcomes| ==> outcomes[i].Found? || outcomes[i].NotFound?
  }

  /** The transaction that is returned carries an event, in a final block no later than `b`, by which the
      key's payer spent its nonce. */
  ghost predicate FoundFinal(c: Chain, key: Key, b: nat, outcome: Outcome) {
    outcome.Found? && exists b': nat, log ::
      b' <= b && b' <= c.finalized && Holds(c, b', log) && log.payer == key.payer && Spends(log, key.nonce)
      && outcome.tx == log.tx
  }

  /** Repeated calls for one key cover, between them, everything that was final when they began within
      span times requests blocks each. If none of them fails, one of them returns the transaction of a
      final match, at the latest of this one. */
  lemma {:induction false} FoundInTime(c: Chain, visits: seq<Visit>, cursors: Cursors, key: Key, b: nat)
    requires InTurn(c, visits) && Sound(c, cursors)
    requires forall i :: 0 <= i < |visits| ==> visits[i].key == key
    requires Matches(c, key, b) && b <= c.finalized && key.from <= b
    requires b < Resume(cursors, key) + SPAN * REQUESTS * |visits|
    requires ErrorFree(Outcomes(visits, cursors))
    ensures exists i :: 0 <= i < |visits| && FoundFinal(c, key, b, Outcomes(visits, cursors)[i])
    decreases |visits|
  {
    hide Pass, Matches, FoundFinal;
    StopsAtMatch(c, cursors, key, b);
    assert visits != [];
    var view, rest := visits[0].view, visits[1..];
    var (outcome, cursors') := Pass(view, key, cursors);
    var all := Outcomes(visits, cursors);
    assert all[0] == outcome && all[1..] == Outcomes(rest, cursors');
    if outcome.NotFound? {
      FoundInPass(c, view, key, cursors, b);
      SoundStays(c, view.chain(0), cursors);
      PassKeepsSound(view, key, cursors);
      FollowsAll(c, view, 3 + REQUESTS);
      var later := view.chain(3 + REQUESTS);
      SettledMatches(c, later, key, b);
      FoundInTime(later, rest, cursors', key, b);
      var i :| 0 <= i < |rest| && FoundFinal(later, key, b, Outcomes(rest, cursors')[i]);
      FoundEarlier(c, later, key, b, all[i + 1]);
    } else {
      FoundBefore(c, view, key, cursors, b);
    }
  }

  /** A quiet pass resumes span times requests blocks further on, short of a final match. */
  lemma FoundInPass(c: Chain, view: View, key: Key, cursors: Cursors, b: nat)
    requires Follows(c, view) && Sound(c, cursors) && Matches(c, key, b) && b <= c.finalized && key.from <= b
    requires Pass(view, key, cursors).0.NotFound?
    ensures Resume(Pass(view, key, cursors).1, key) >= Resume(cursors, key) + SPAN * REQUESTS
  {
    hide Pass, Matches;
    PassProgress(view, key, cursors);
    FollowsAll(c, view, 1);
    SettledMatches(c, view.chain(1), key, b);
    StopsAtMatch(c, cursors, key, b);
  }

  /** What is final later, up to a block final now, was final now. */
  lemma FoundEarlier(c: Chain, later: Chain, key: Key, b: nat, outcome: Outcome)
    requires Evolves(c, later) && b <= c.finalized && FoundFinal(later, key, b, outcome)
    ensures FoundFinal(c, key, b, outcome)
  {
    var b': nat, log :| b' <= b && b' <= later.finalized && Holds(later, b', log) && log.payer == key.payer
                        && Spends(log, key.nonce) && outcome.tx == log.tx;
    assert later.blocks[..c.finalized + 1][b'] == c.blocks[..c.finalized + 1][b'];
    assert Holds(c, b', log);
  }

  lemma {:induction false} FirstMatchOf(first: seq<Log>, second: seq<Log>, nonce: EventNonce)
    ensures FirstMatch(first + second, nonce)
         == if FirstMatch(first, nonce).Some? then FirstMatch(first, nonce) else FirstMatch(second, nonce)
  {
    if first == [] {
      assert first + second == second;
    } else {
      assert (first + second)[1..] == first[1..] + second;
      FirstMatchOf(first[1..], second, nonce);
    }
  }

  /** The first match of a request over a range that holds a matching block is in no later block. */
  lemma {:induction false} FirstIsEarliest(c: Chain, key: Key, first: nat, last: int, b: nat)
    requires first <= b <= last && Matches(c, key, b)
    ensures var tx := FirstMatch(GetLogs(c, first, last, key.payer), key.nonce);
            tx.Some? && exists b': nat, log :: first <= b' <= b && Holds(c, b', log) && log.payer == key.payer
                                               && Spends(log, key.nonce) && tx.value == log.tx
    decreases b - first
  {
    var here, rest := OfPayer(c.blocks[first], key.payer), GetLogs(c, first + 1, last, key.payer);
    FirstMatchOf(here, rest, key.nonce);
    FirstMatchFinds(here, key.nonce);
    if first == b {
      var log :| log in c.blocks[b] && log.payer == key.payer && Spends(log, key.nonce);
      OfPayerFinds(c.blocks[b], key.payer, log);
      assert log in here;
    }
    if FirstMatch(here, key.nonce).Some? {
      var log :| log in here && Spends(log, key.nonce) && log.tx == FirstMatch(here, key.nonce).value;
      OfPayerFinds(c.blocks[first], key.payer, log);
      assert Holds(c, first, log);
    } else {
      FirstIsEarliest(c, key, first + 1, last, b);
    }
  }

  /** A transaction found by requests that begin at or before a final match is that of a final match. */
  lemma {:induction false} RequestsFindFinal(c: Chain, view: View, k: nat, key: Key, start: nat, latest: nat,
                                             finalized: nat, cursors: Cursors, left: nat, b: nat)
    requires Unfolds(view) && Evolves(c, view.chain(k)) && b <= c.finalized && b <= latest
    requires Matches(c, key, b) && start <= b
    requires Requests(view, k, key, start, latest, finalized, cursors, left).0.Found?
    ensures FoundFinal(c, key, b, Requests(view, k, key, start, latest, finalized, cursors, left).0)
    decreases left
  {
    hide Matches, GetLogs, FirstMatch;
    var last := Min(start + SPAN - 1, latest);
    var now := view.chain(k);
    SettledMatches(c, now, key, b);
    RequestFinds(now, key, start, last);
    if FirstMatch(GetLogs(now, start, last, key.payer), key.nonce).None? {
      EvolvesOn(c, view, k);
      RequestsFindFinal(c, view, k + 1, key, last + 1, latest, finalized,
                        Advance(cursors, key, start, last, finalized), left - 1, b);
    } else {
      var earliest: nat :| start <= earliest <= last && Matches(now, key, earliest);
      var e := if b <= last then b else earliest;
      FirstIsEarliest(now, key, start, last, e);
      FoundEarlier(c, now, key, b, Found(FirstMatch(GetLogs(now, start, last, key.payer), key.nonce).value));
    }
  }

  lemma FoundBefore(c: Chain, view: View, key: Key, cursors: Cursors, b: nat)
    requires Follows(c, view) && Sound(c, cursors) && Matches(c, key, b) && b <= c.finalized && key.from <= b
    requires Pass(view, key, cursors).0.Found?
    ensures FoundFinal(c, key, b, Pass(view, key, cursors).0)
  {
    hide Matches, Requests;
    StopsAtMatch(c, cursors, key, b);
    FollowsAll(c, view, 1);
    FollowsAll(c, view, 3);
    RequestsFindFinal(c, view, 3, key, Resume(cursors, key), |view.chain(2).blocks| - 1, view.chain(1).finalized,
                      cursors, REQUESTS, b);
  }

  lemma StopsAtMatch(c: Chain, cursors: Cursors, key: Key, b: nat)
    requires Sound(c, cursors) && Matches(c, key, b) && key.from <= b
    ensures Resume(cursors, key) <= b
  {
  }

  // ---- The scanner ----

  class ChainEvidence {
    var at: map<Key, nat>
    var order: seq<Key>

    ghost function State(): Cursors
      reads this
    {
      Cursors(at, order)
    }

    constructor ()
      ensures State() == Cursors(map[], [])
    {
      at, order := map[], [];
    }

    method SetCursor(key: Key, next: nat)
      modifies this
      ensures State() == Put(old(State()), key, next)
    {
      if key !in at {
        if |at| >= CAPACITY && order != [] {
          at := at - {order[0]};
          order := order[1..];
        }
        order := order + [key];
      }
      at := at[key := next];
    }

    /** Looks for the transaction that spent the key's nonce, a bounded number of blocks at a time. */
    method FindTransaction(key: Key, view: View) returns (outcome: Outcome)
      modifies this
      ensures (outcome, State()) == Pass(view, key, old(State()))
    {
      hide GetLogs, FirstMatch, Put;
      if view.fails(0) {
        return Unavailable;
      }
      if !view.rightChain {
        return WrongChain;
      }
      if view.fails(1) || view.fails(2) {
        return Unavailable;
      }
      var finalized := view.chain(1).finalized;
      var latest := |view.chain(2).blocks| - 1;
      if latest < finalized {
        return InconsistentHeads;
      }
      var start := Max(key.from, if key in at then at[key] else 0);
      for k := 0 to REQUESTS
        invariant start >= 0
        invariant Pass(view, key, old(State()))
               == Requests(view, 3 + k, key, start, latest, finalized, State(), REQUESTS - k)
      {
        if start > latest {
          break;
        }
        if view.fails(3 + k) {
          return Unavailable;
        }
        var last := Min(start + SPAN - 1, latest);
        var spent := FirstMatch(GetLogs(view.chain(3 + k), start, last, key.payer), key.nonce);
        if spent.Some? {
          return Found(spent.value);
        }
        var safeNext := Min(last, finalized) + 1;
        if safeNext > start {
          SetCursor(key, safeNext);
        }
        start := last + 1;
      }
      return NotFound;
    }
  }
}
