/**
  Prepaid credits of hosted/budget_gateway/workspaces.py: grants, proportional refunds and what the
  books say about each workspace. Amounts are whole cents.
 */
module Credits {
  import opened Common

  type Workspace(==,!new,0)
  type Source(==,!new,0)
  type Ref(==,!new,0)
  type Tx(==,!new,0)

  datatype Key = Key(source: Source, ref: Ref)

  /** One row of `credit_grants`. Its CHECK keeps `runs` positive. */
  datatype Grant = Grant(key: Key, ws: Workspace, runs: nat, cents: nat, external: Option<Ref>)

  /** One row of `credit_reversals`. */
  datatype Reversal = Reversal(ws: Workspace, runs: int, cents: int)

  /** One row of `refund_proofs`. */
  datatype Proof = Proof(tx: Tx, key: Key, cents: int)

  datatype Books = Books(grants: seq<Grant>, reversals: map<Key, Reversal>, proofs: seq<Proof>)

  // ---- Lookups ----

  /** By payment reference if one is given, else by the external one. */
  predicate Matches(g: Grant, source: Source, ref: Option<Ref>, external: Option<Ref>) {
    && g.key.source == source
    && if ref.Some? then g.key.ref == ref.value else external.Some? && g.external == external
  }

  /** The first grant that matches, as `fetchone` returns it. */
  function Find(grants: seq<Grant>, source: Source, ref: Option<Ref>, external: Option<Ref>): (g: Option<Grant>)
    ensures g.None? <==> forall i :: 0 <= i < |grants| ==> !Matches(grants[i], source, ref, external)
    ensures g.Some? ==>
              exists i :: 0 <= i < |grants| && grants[i] == g.value && Matches(g.value, source, ref, external)
                          && forall j :: 0 <= j < i ==> !Matches(grants[j], source, ref, external)
    ensures g.None? && ref.Some? ==> !Granted(grants, Key(source, ref.value))
  {
    if grants == [] then None
    else if Matches(grants[0], source, ref, external) then Some(grants[0])
    else Find(grants[1..], source, ref, external)
  }

  predicate Granted(grants: seq<Grant>, key: Key) {
    exists i :: 0 <= i < |grants| && grants[i].key == key
  }

  function RunsFor(g: Grant, ws: Workspace): int {
    if g.ws == ws then g.runs else 0
  }

  function GrantedRuns(grants: seq<Grant>, ws: Workspace): int {
    Sum(grants, g => RunsFor(g, ws))
  }

  // ---- Refunds ----

  function Clamp(cents: int, amount: nat): nat {
    Min(Max(cents, 0), amount)
  }

  /** Runs reversed when `refunded` of the grant's price has come back. */
  function Target(runs: nat, amount: nat, refunded: nat): int {
    if refunded >= amount then runs else (runs * refunded) / Max(amount, 1)
  }

  /** The row a refund of `cents` leaves: the upsert takes the larger of old and new, column by column. */
  function Refunded(g: Grant, before: Option<Reversal>, cents: int): Reversal {
    var refunded := Clamp(cents, g.cents);
    var target := Target(g.runs, g.cents, refunded);
    match before
    case None => Reversal(g.ws, target, refunded)
    case Some(r) => Reversal(r.ws, Max(r.runs, target), Max(r.cents, refunded))
  }

  function ApplyTo(books: Books, g: Grant, cents: int): Books {
    var before := if g.key in books.reversals then Some(books.reversals[g.key]) else None;
    books.(reversals := books.reversals[g.key := Refunded(g, before, cents)])
  }

  lemma TargetMonotone(runs: nat, amount: nat, a: nat, b: nat)
    requires a <= b <= amount
    ensures 0 <= Target(runs, amount, a) <= Target(runs, amount, b) <= runs
  {
    MulMonotone(runs, a, b);
    MulMonotone(runs, b, amount);
    if amount > 0 {
      DivMonotone(runs * a, runs * b, amount);
      DivMonotone(runs * b, runs * amount, amount);
      MulDiv(runs, amount);
    }
  }

  lemma MulMonotone(x: nat, a: nat, b: nat)
    requires a <= b
    ensures 0 <= x * a <= x * b
  {
  }

  lemma MulDiv(x: nat, d: nat)
    requires d > 0
    ensures x * d / d == x
  {
    QuotientUnique(x * d, x, d);
  }

  lemma QuotientUnique(a: nat, q: nat, d: nat)
    requires d > 0 && q * d <= a < (q + 1) * d
    ensures a / d == q
  {
    var p := a / d;
    assert a == p * d + a % d;
    NextMultiple(p, q, d);
    NextMultiple(q, p, d);
  }

  lemma NextMultiple(p: nat, q: nat, d: nat)
    ensures p < q ==> (p + 1) * d <= q * d
  {
    if p < q {
      MulMonotone(d, p + 1, q);
    }
  }

  lemma DivMonotone(a: nat, b: nat, d: nat)
    requires a <= b && d > 0
    ensures 0 <= a / d <= b / d
  {
    var p, q := a / d, b / d;
    assert a == p * d + a % d && b == q * d + b % d;
    NextMultiple(q, p, d);
  }

  /** A reversal made by refunds is determined by how much was refunded. */
  predicate Proportional(g: Grant, r: Reversal) {
    r.ws == g.ws && 0 <= r.cents <= g.cents && r.runs == Target(g.runs, g.cents, r.cents)
  }

  lemma RefundKeepsProportion(g: Grant, before: Option<Reversal>, cents: int)
    requires before.Some? ==> Proportional(g, before.value)
    ensures var r := Refunded(g, before, cents);
            && Proportional(g, r) && 0 <= r.runs <= g.runs
            && r.cents == Max(if before.Some? then before.value.cents else 0, Clamp(cents, g.cents))
            && (before.Some? ==> r.runs >= before.value.runs && r.cents >= before.value.cents)
            && (Clamp(cents, g.cents) == g.cents ==> r.runs == g.runs)
  {
    var refunded := Clamp(cents, g.cents);
    var old' := if before.Some? then before.value.cents else 0;
    TargetMonotone(g.runs, g.cents, Min(old', refunded), Max(old', refunded));
  }

  // ---- Refunds commute ----

  /** The row after a series of refund notices, in the order they arrive. */
  function AfterAll(g: Grant, notices: seq<int>): Option<Reversal> {
    if notices == [] then None
    else Some(Refunded(g, AfterAll(g, notices[..|notices| - 1]), notices[|notices| - 1]))
  }

  function Largest(notices: seq<int>): (most: int)
    requires notices != []
    ensures most in notices && forall c :: c in notices ==> c <= most
  {
    assert notices == notices[..|notices| - 1] + [notices[|notices| - 1]];
    if |notices| == 1 then notices[0] else Max(Largest(notices[..|notices| - 1]), notices[|notices| - 1])
  }

  /** Whatever the order and repetition of the notices, only the largest counts: the grant's floored
      proportional share, or all its runs at a full refund. */
  lemma {:induction false} OnlyLargestCounts(g: Grant, notices: seq<int>)
    requires notices != []
    ensures var most := Clamp(Largest(notices), g.cents);
            AfterAll(g, notices) == Some(Reversal(g.ws, Target(g.runs, g.cents, most), most))
  {
    if |notices| > 1 {
      OnlyLargestCounts(g, notices[..|notices| - 1]);
    } else {
      assert notices[..0] == [];
    }
    var before := AfterAll(g, notices[..|notices| - 1]);
    RefundKeepsProportion(g, before, notices[|notices| - 1]);
  }

  /** Two deliveries with the same largest notice leave the same row, whatever their order and repeats. */
  lemma RefundsCommute(g: Grant, first: seq<int>, second: seq<int>)
    requires first == [] <==> second == []
    requires first != [] ==> Largest(first) == Largest(second)
    ensures AfterAll(g, first) == AfterAll(g, second)
  {
    if first != [] {
      OnlyLargestCounts(g, first);
      OnlyLargestCounts(g, second);
    }
  }

  // ---- Refund proofs ----

  function ProvenCents(proofs: seq<Proof>, key: Key): int {
    Sum(proofs, (p: Proof) => if p.key == key then p.cents else 0)
  }

  predicate KnownTx(proofs: seq<Proof>, tx: Tx) {
    exists i :: 0 <= i < |proofs| && proofs[i].tx == tx
  }

  /** First transaction of `record_refund_proof`: the proof, unless its tx is already on file. */
  function WithProof(books: Books, tx: Tx, key: Key, cents: int): Books {
    if KnownTx(books.proofs, tx) then books
    else books.(proofs := books.proofs + [Proof(tx, key, cents)])
  }

  /** Both transactions. */
  ghost function AfterProof(books: Books, g: Grant, tx: Tx, cents: int): Books {
    var filed := WithProof(books, tx, g.key, cents);
    ApplyTo(filed, g, ProvenCents(filed.proofs, g.key))
  }

  /** Running the call again, after it completed or after a crash between its two transactions,
      leaves exactly what one undisturbed call leaves. */
  lemma ProofRerun(books: Books, g: Grant, tx: Tx, cents: int)
    requires g.key in books.reversals ==> Proportional(g, books.reversals[g.key])
    ensures AfterProof(WithProof(books, tx, g.key, cents), g, tx, cents) == AfterProof(books, g, tx, cents)
    ensures AfterProof(AfterProof(books, g, tx, cents), g, tx, cents) == AfterProof(books, g, tx, cents)
  {
    var filed := WithProof(books, tx, g.key, cents);
    if !KnownTx(books.proofs, tx) {
      assert filed.proofs[|books.proofs|].tx == tx;
    }
    assert WithProof(filed, tx, g.key, cents) == filed;
    var total := ProvenCents(filed.proofs, g.key);
    var before := if g.key in books.reversals then Some(books.reversals[g.key]) else None;
    RefundKeepsProportion(g, before, total);
    RefundKeepsProportion(g, Some(Refunded(g, before, total)), total);
    assert filed.reversals[g.key := Refunded(g, before, total)][g.key := Refunded(g, before, total)]
        == filed.reversals[g.key := Refunded(g, before, total)];
  }

  // ---- Runs of refund calls ----

  /** A call of `record_refund_proof` for a grant, where `crash` is a crash between its two transactions,
      or a notice to `apply_refund` for it. */
  datatype RefundCall = ProofCall(tx: Tx, cents: int, crash: bool) | Notice(refunded: int)

  function ProofOf(g: Grant, c: RefundCall): Proof
    requires c.ProofCall?
  {
    Proof(c.tx, g.key, c.cents)
  }

  ghost function AfterCall(books: Books, g: Grant, c: RefundCall): Books {
    match c
    case ProofCall(tx, cents, crash) =>
      if crash then WithProof(books, tx, g.key, cents) else AfterProof(books, g, tx, cents)
    case Notice(refunded) => ApplyTo(books, g, refunded)
  }

  ghost function AfterCalls(books: Books, g: Grant, calls: seq<RefundCall>): Books {
    if calls == [] then books
    else AfterCall(AfterCalls(books, g, calls[..|calls| - 1]), g, calls[|calls| - 1])
  }

  predicate DistinctTxs(proofs: seq<Proof>) {
    forall i, j :: 0 <= i < j < |proofs| ==> proofs[i].tx != proofs[j].tx
  }

  predicate Positive(proofs: seq<Proof>) {
    forall i :: 0 <= i < |proofs| ==> proofs[i].cents > 0
  }

  /** The proof calls are about verified transfers: each has one positive amount, and backs this grant alone. */
  ghost predicate Genuine(books: Books, g: Grant, calls: seq<RefundCall>) {
    && DistinctTxs(books.proofs) && Positive(books.proofs)
    && (forall i :: 0 <= i < |calls| && calls[i].ProofCall? ==> calls[i].cents > 0)
    && (forall i, j :: (0 <= i < |calls| && 0 <= j < |calls| && calls[i].ProofCall? && calls[j].ProofCall?
                        && calls[i].tx == calls[j].tx) ==> calls[i].cents == calls[j].cents)
    && (forall i, p :: 0 <= i < |calls| && calls[i].ProofCall? && p in books.proofs && p.tx == calls[i].tx ==>
          p == ProofOf(g, calls[i]))
  }

  predicate Proves(g: Grant, calls: seq<RefundCall>, p: Proof) {
    exists i :: 0 <= i < |calls| && calls[i].ProofCall? && p == ProofOf(g, calls[i])
  }

  /** The proofs on file afterwards: those before, and one for each transfer of the calls. */
  lemma {:induction false} FiledProofs(books: Books, g: Grant, calls: seq<RefundCall>)
    requires Genuine(books, g, calls)
    ensures FiledWell(books, g, calls, AfterCalls(books, g, calls))
  {
    hide Genuine, DistinctTxs, Positive, Proves;
    if calls == [] {
      NothingFiled(books, g);
    } else {
      var rest, c := calls[..|calls| - 1], calls[|calls| - 1];
      assert calls == rest + [c] && calls[..|rest|] == rest;
      GenuineStart(books, g, calls, |rest|);
      FiledProofs(books, g, rest);
      forall p {
        ProvesOneMore(g, rest, c, p);
      }
      if c.ProofCall? {
        OneAmountEach(books, g, rest, c);
        FiledOne(AfterCalls(books, g, rest), g, c);
      }
    }
  }

  ghost predicate FiledWell(books: Books, g: Grant, calls: seq<RefundCall>, after: Books) {
    && DistinctTxs(after.proofs) && Positive(after.proofs) && after.grants == books.grants
    && (forall p :: p in after.proofs <==> p in books.proofs || Proves(g, calls, p))
  }

  lemma NothingFiled(books: Books, g: Grant)
    requires Genuine(books, g, [])
    ensures FiledWell(books, g, [], books)
  {
  }

  lemma GenuineStart(books: Books, g: Grant, calls: seq<RefundCall>, k: nat)
    requires Genuine(books, g, calls) && k <= |calls|
    ensures Genuine(books, g, calls[..k])
  {
  }

  lemma ProvesOneMore(g: Grant, rest: seq<RefundCall>, c: RefundCall, p: Proof)
    ensures Proves(g, rest + [c], p) <==> Proves(g, rest, p) || (c.ProofCall? && p == ProofOf(g, c))
  {
    assert (rest + [c])[|rest|] == c;
    if Proves(g, rest, p) {
      var i :| 0 <= i < |rest| && rest[i].ProofCall? && p == ProofOf(g, rest[i]);
      assert (rest + [c])[i] == rest[i];
    }
  }

  lemma OneAmountEach(books: Books, g: Grant, rest: seq<RefundCall>, c: RefundCall)
    requires c.ProofCall?
    requires Genuine(books, g, rest + [c]) && FiledWell(books, g, rest, AfterCalls(books, g, rest))
    ensures c.cents > 0
    ensures forall p :: p in AfterCalls(books, g, rest).proofs && p.tx == c.tx ==> p == ProofOf(g, c)
  {
    assert (rest + [c])[|rest|] == c;
    forall p | p in AfterCalls(books, g, rest).proofs && p.tx == c.tx
      ensures p == ProofOf(g, c)
    {
      if Proves(g, rest, p) {
        var i :| 0 <= i < |rest| && rest[i].ProofCall? && p == ProofOf(g, rest[i]);
        assert (rest + [c])[i] == rest[i];
      }
    }
  }

  lemma FiledOne(books: Books, g: Grant, c: RefundCall)
    requires c.ProofCall? && DistinctTxs(books.proofs) && Positive(books.proofs) && c.cents > 0
    requires forall p :: p in books.proofs && p.tx == c.tx ==> p == ProofOf(g, c)
    ensures var after := AfterCall(books, g, c);
            && DistinctTxs(after.proofs) && Positive(after.proofs) && after.grants == books.grants
            && (forall p :: p in after.proofs <==> p in books.proofs || p == ProofOf(g, c))
  {
    if k :| 0 <= k < |books.proofs| && books.proofs[k].tx == c.tx {
      assert books.proofs[k] in books.proofs;
    }
  }

  /** Proofs on file that are the same set prove the same amount, in whatever order they were filed. */
  lemma SameProofsSameCents(first: seq<Proof>, second: seq<Proof>, key: Key)
    requires DistinctTxs(first) && DistinctTxs(second) && Positive(first) && Positive(second)
    requires forall p :: p in first <==> p in second
    ensures ProvenCents(first, key) == ProvenCents(second, key)
  {
    FewerProofs(first, second, key);
    FewerProofs(second, first, key);
  }

  lemma FewerProofs(first: seq<Proof>, second: seq<Proof>, key: Key)
    requires DistinctTxs(first) && DistinctTxs(second) && Positive(first) && Positive(second)
    requires forall p :: p in first ==> p in second
    ensures ProvenCents(first, key) <= ProvenCents(second, key)
  {
    var worth := (p: Proof) => if p.key == key then p.cents else 0;
    SumInjected(first, second, (p: Proof) => p, worth, worth);
  }

  ghost function ProvenAfter(books: Books, g: Grant, calls: seq<RefundCall>): int {
    ProvenCents(AfterCalls(books, g, calls).proofs, g.key)
  }

  lemma ProvenGrows(books: Books, g: Grant, calls: seq<RefundCall>, k: nat)
    requires Genuine(books, g, calls) && k <= |calls|
    ensures ProvenAfter(books, g, calls[..k]) <= ProvenAfter(books, g, calls)
  {
    GenuineStart(books, g, calls, k);
    FiledProofs(books, g, calls);
    FiledProofs(books, g, calls[..k]);
    hide Genuine;
    forall p | Proves(g, calls[..k], p)
      ensures Proves(g, calls, p)
    {
      var i :| 0 <= i < k && calls[..k][i].ProofCall? && p == ProofOf(g, calls[..k][i]);
      assert calls[..k][i] == calls[i];
    }
    FewerProofs(AfterCalls(books, g, calls[..k]).proofs, AfterCalls(books, g, calls).proofs, g.key);
  }

  // ---- What the calls apply ----

  function RowOf(books: Books, g: Grant): Option<Reversal> {
    if g.key in books.reversals then Some(books.reversals[g.key]) else None
  }

  function Larger(most: Option<int>, cents: int): int {
    if most.None? then cents else Max(most.value, cents)
  }

  /** The largest amount any of the calls applied: a notice's own, or all that was proven when a proof call
      completed. */
  ghost function Applied(books: Books, g: Grant, calls: seq<RefundCall>): Option<int> {
    if calls == [] then None
    else
      var before, c := Applied(books, g, calls[..|calls| - 1]), calls[|calls| - 1];
      if c.Notice? then Some(Larger(before, c.refunded))
      else if c.crash then before
      else Some(Larger(before, ProvenAfter(books, g, calls)))
  }

  function Reversed(books: Books, g: Grant, most: Option<int>): map<Key, Reversal> {
    if most.Some? then books.reversals[g.key := Refunded(g, RowOf(books, g), most.value)] else books.reversals
  }

  /** One amount after another leaves what the larger alone would have left. */
  lemma RefundedAgain(g: Grant, before: Option<Reversal>, first: int, second: int)
    requires before.Some? ==> Proportional(g, before.value)
    ensures Refunded(g, Some(Refunded(g, before, first)), second) == Refunded(g, before, Max(first, second))
  {
    RefundKeepsProportion(g, before, first);
    RefundKeepsProportion(g, before, Max(first, second));
    RefundKeepsProportion(g, Some(Refunded(g, before, first)), second);
  }

  lemma ReversedAgain(books: Books, after: Books, g: Grant, most: Option<int>, cents: int)
    requires g.key in books.reversals ==> Proportional(g, books.reversals[g.key])
    requires after.reversals == Reversed(books, g, most)
    ensures after.reversals[g.key := Refunded(g, RowOf(after, g), cents)]
         == Reversed(books, g, Some(Larger(most, cents)))
  {
    if most.Some? {
      RefundedAgain(g, RowOf(books, g), most.value, cents);
    }
  }

  /** What a call does to the reversals. */
  lemma CallReverses(books: Books, g: Grant, c: RefundCall)
    ensures var after := AfterCall(books, g, c);
            var cents := if c.Notice? then c.refunded else ProvenCents(after.proofs, g.key);
            after.reversals == if c.ProofCall? && c.crash then books.reversals
                               else books.reversals[g.key := Refunded(g, RowOf(books, g), cents)]
  {
  }

  /** The reversal is the one for the largest amount applied. */
  lemma {:induction false} LargestApplied(books: Books, g: Grant, calls: seq<RefundCall>)
    requires g.key in books.reversals ==> Proportional(g, books.reversals[g.key])
    ensures AfterCalls(books, g, calls).reversals == Reversed(books, g, Applied(books, g, calls))
  {
    hide Refunded, Proportional, AfterCall, Reversed, Larger;
    if calls == [] {
      NothingApplied(books, g);
    } else {
      var rest, c := calls[..|calls| - 1], calls[|calls| - 1];
      LargestApplied(books, g, rest);
      CallReverses(AfterCalls(books, g, rest), g, c);
      var cents := if c.Notice? then c.refunded else ProvenAfter(books, g, calls);
      ReversedAgain(books, AfterCalls(books, g, rest), g, Applied(books, g, rest), cents);
    }
  }

  lemma NothingApplied(books: Books, g: Grant)
    ensures Reversed(books, g, None) == books.reversals
  {
  }

  // ---- Once every transfer has a completed call ----

  predicate Done(c: RefundCall) {
    c.ProofCall? && !c.crash
  }

  predicate Completed(calls: seq<RefundCall>, tx: Tx) {
    exists j :: 0 <= j < |calls| && Done(calls[j]) && calls[j].tx == tx
  }

  /** Some proof call completed, and every transfer has one that did. */
  ghost predicate AllCompleted(calls: seq<RefundCall>) {
    && (exists j :: 0 <= j < |calls| && Done(calls[j]))
    && (forall i :: 0 <= i < |calls| && calls[i].ProofCall? ==> Completed(calls, calls[i].tx))
  }

  /** How many calls there are up to and including the last proof call that completed. */
  function LastDone(calls: seq<RefundCall>): (k: nat)
    ensures k <= |calls| && (k > 0 ==> Done(calls[k - 1]))
    ensures forall i :: k <= i < |calls| ==> !Done(calls[i])
  {
    if calls == [] then 0
    else if Done(calls[|calls| - 1]) then |calls|
    else LastDone(calls[..|calls| - 1])
  }

  /** `total`, or the largest notice if one is larger. */
  function MostOf(calls: seq<RefundCall>, total: int): (most: int)
    ensures most >= total
  {
    if calls == [] then total
    else
      var most := MostOf(calls[..|calls| - 1], total);
      if calls[|calls| - 1].Notice? then Max(most, calls[|calls| - 1].refunded) else most
  }

  /** No call applied more than a notice, or than what is proven in the end. */
  lemma {:induction false} AppliedAtMost(books: Books, g: Grant, calls: seq<RefundCall>, total: int)
    requires Genuine(books, g, calls) && ProvenAfter(books, g, calls) <= total
    ensures var most := Applied(books, g, calls);
            most.Some? ==> most.value <= MostOf(calls, total)
  {
    hide Genuine, ProvenAfter;
    if calls != [] {
      var n := |calls| - 1;
      GenuineStart(books, g, calls, n);
      ProvenGrows(books, g, calls, n);
      AppliedAtMost(books, g, calls[..n], total);
    }
  }

  /** Every notice was applied, and so was what was proven when a proof call last completed. */
  lemma {:induction false} AppliedAtLeast(books: Books, g: Grant, calls: seq<RefundCall>, total: int)
    ensures MostOf(calls, total) <= Larger(Applied(books, g, calls), total)
    ensures var k := LastDone(calls);
            var most := Applied(books, g, calls);
            k > 0 ==> most.Some? && most.value >= ProvenAfter(books, g, calls[..k])
  {
    hide ProvenAfter;
    if calls != [] {
      var n := |calls| - 1;
      AppliedAtLeast(books, g, calls[..n], total);
      var k := LastDone(calls);
      assert calls[..|calls|] == calls;
      if k <= n {
        assert calls[..k] == calls[..n][..k];
      }
    }
  }

  /** When the last proof call to complete did so, every transfer was on file. */
  lemma CompletedByLast(books: Books, g: Grant, calls: seq<RefundCall>)
    requires Genuine(books, g, calls) && AllCompleted(calls)
    ensures LastDone(calls) > 0
    ensures ProvenAfter(books, g, calls[..LastDone(calls)]) == ProvenAfter(books, g, calls)
  {
    var k := LastDone(calls);
    GenuineStart(books, g, calls, k);
    FiledProofs(books, g, calls);
    FiledProofs(books, g, calls[..k]);
    ProvenGrows(books, g, calls, k);
    DoneProvesAll(books, g, calls);
    hide Genuine, Proves, AllCompleted, DistinctTxs, Positive, AfterCalls, LastDone;
    FewerProofs(AfterCalls(books, g, calls).proofs, AfterCalls(books, g, calls[..k]).proofs, g.key);
  }

  lemma DoneProvesAll(books: Books, g: Grant, calls: seq<RefundCall>)
    requires Genuine(books, g, calls) && AllCompleted(calls)
    ensures LastDone(calls) > 0
    ensures forall p :: Proves(g, calls, p) ==> Proves(g, calls[..LastDone(calls)], p)
  {
    hide Genuine, Completed, LastDone;
    forall p | Proves(g, calls, p)
      ensures Proves(g, calls[..LastDone(calls)], p)
    {
      var i :| 0 <= i < |calls| && calls[i].ProofCall? && p == ProofOf(g, calls[i]);
      DoneProves(books, g, calls, i);
    }
  }

  lemma DoneProves(books: Books, g: Grant, calls: seq<RefundCall>, i: nat)
    requires Genuine(books, g, calls) && i < |calls| && calls[i].ProofCall? && Completed(calls, calls[i].tx)
    ensures LastDone(calls) > 0 && Proves(g, calls[..LastDone(calls)], ProofOf(g, calls[i]))
  {
    var done :| 0 <= done < |calls| && Done(calls[done]) && calls[done].tx == calls[i].tx;
    assert calls[..LastDone(calls)][done] == calls[done];
  }

  /** Whatever the order of the proof calls, their crashes and their reruns, and with notices in between: once
      every transfer has a completed call, the file holds each transfer once, and the reversal is the one for
      the sum of all of them, or for the largest notice if that is more. */
  lemma ProofRuns(books: Books, g: Grant, calls: seq<RefundCall>)
    requires Genuine(books, g, calls) && (g.key in books.reversals ==> Proportional(g, books.reversals[g.key]))
    requires AllCompleted(calls)
    ensures var after := AfterCalls(books, g, calls);
            && FiledWell(books, g, calls, after)
            && after.reversals == books.reversals[
                 g.key := Refunded(g, RowOf(books, g), MostOf(calls, ProvenCents(after.proofs, g.key)))]
  {
    hide Genuine, AllCompleted, FiledWell, AfterCalls, Applied, MostOf, LastDone, Refunded, Proportional;
    FiledProofs(books, g, calls);
    LargestApplied(books, g, calls);
    CompletedByLast(books, g, calls);
    AppliedAtMost(books, g, calls, ProvenAfter(books, g, calls));
    AppliedAtLeast(books, g, calls, ProvenAfter(books, g, calls));
  }

  predicate Notifies(calls: seq<RefundCall>, cents: int) {
    exists i :: 0 <= i < |calls| && calls[i] == Notice(cents)
  }

  lemma {:induction false} MostIsLargest(calls: seq<RefundCall>, total: int)
    ensures MostOf(calls, total) == total || Notifies(calls, MostOf(calls, total))
    ensures forall cents :: Notifies(calls, cents) ==> cents <= MostOf(calls, total)
  {
    if calls != [] {
      var n := |calls| - 1;
      MostIsLargest(calls[..n], total);
      forall cents
        ensures Notifies(calls, cents) <==> Notifies(calls[..n], cents) || calls[n] == Notice(cents)
      {
        if Notifies(calls[..n], cents) {
          var i :| 0 <= i < n && calls[..n][i] == Notice(cents);
          assert calls[i] == Notice(cents);
        }
      }
    }
  }

  /** So two such runs over the same transfers and notices, in whatever order, leave the same reversals. */
  lemma ProofRunsAgree(books: Books, g: Grant, first: seq<RefundCall>, second: seq<RefundCall>)
    requires Genuine(books, g, first) && AllCompleted(first)
    requires Genuine(books, g, second) && AllCompleted(second)
    requires g.key in books.reversals ==> Proportional(g, books.reversals[g.key])
    requires forall p :: Proves(g, first, p) <==> Proves(g, second, p)
    requires forall cents :: Notifies(first, cents) <==> Notifies(second, cents)
    ensures AfterCalls(books, g, first).reversals == AfterCalls(books, g, second).reversals
  {
    hide Genuine, AllCompleted, Refunded, Proportional, AfterCalls, Notifies;
    ProofRuns(books, g, first);
    ProofRuns(books, g, second);
    SameProofsSameCents(AfterCalls(books, g, first).proofs, AfterCalls(books, g, second).proofs, g.key);
    var total := ProvenCents(AfterCalls(books, g, first).proofs, g.key);
    MostIsLargest(first, total);
    MostIsLargest(second, total);
  }
}
