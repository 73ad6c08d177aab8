/**
  Paid sessions (hosted/a2a_economic_authority/sessions.py): a purchase is recorded, its root is
  created and its token is minted, in three separately durable steps. Any number of purchase and
  recovery calls interleave, each may die after any step, and the rest of the service goes on
  between them. Random session ids are taken to be fresh and unknown until their root exists.
 */
module Sessions {
  import opened Common
  import opened Ledger
  import opened LedgerInvariant
  import opened LedgerTheorems
  import opened LedgerRuns
  import opened Capabilities

  type CallId(==,!new,0)

  /** The next durable step of a call. */
  datatype Progress = AtRoot | AtToken

  datatype Call = Call(recovering: bool, nonce: PaymentNonce, purchase: Purchase, at: Progress)

  /** A root token's plaintext that was returned to a caller. */
  datatype Gift = Gift(nonce: PaymentNonce, secret: Secret, recovered: bool)

  /** `given` is history. */
  datatype Site = Site(db: Db, caps: Caps, calls: map<CallId, Call>, given: seq<Gift>)

  datatype Move =
    | Buy(c: CallId, nonce: PaymentNonce, agent: Name, ceiling: int, fee: int, commitment: RecoverySecret, session: Id)
    | Recover(c: CallId, nonce: PaymentNonce, secret: RecoverySecret)
    | MakeRoot(c: CallId, event: EventId)
    | TakeToken(c: CallId, draw: Draw)
    | Crash
    // anything else done to the ledger, or to tokens
    | Elsewhere(op: Op)
    | Credentials(tokens: map<Secret, Token>)

  predicate Priced(ceiling: int, fee: int) {
    AmountOk(ceiling) && AmountOk(fee) && ceiling > 0 && fee > 0
  }

  ghost predicate FreshSession(site: Site, session: Id) {
    && session !in site.db.rows
    && (forall n :: n in site.caps.purchases ==> site.caps.purchases[n].session != session)
    && (forall s :: s in site.caps.tokens ==> site.caps.tokens[s].delegation != session)
  }

  ghost predicate IsSession(caps: Caps, d: Id) {
    exists n :: n in caps.purchases && caps.purchases[n].session == d
  }

  ghost predicate Legal(site: Site, move: Move) {
    match move
    case Buy(c, _, _, _, _, _, session) => c !in site.calls && FreshSession(site, session)
    case Recover(c, _, _) => c !in site.calls
    case MakeRoot(c, _) => c in site.calls && site.calls[c].at.AtRoot?
    case TakeToken(c, draw) => c in site.calls && site.calls[c].at.AtToken? && IsFresh(site.caps.tokens, draw)
    case Crash => true
    case Elsewhere(op) => op.CreateRoot? || op.Reserve? ==> !IsSession(site.caps, op.id)
    case Credentials(tokens) =>
      && TokensLater(site.caps.tokens, tokens) && DistinctIds(tokens)
      && forall s, d :: LiveFor(tokens, s, d) && IsSession(site.caps, d) ==> LiveFor(site.caps.tokens, s, d)
  }

  // ---- The three durable steps ----

  function Buying(site: Site, c: CallId, nonce: PaymentNonce, agent: Name, ceiling: int, fee: int,
                  commitment: RecoverySecret, session: Id): Site
  {
    if !Priced(ceiling, fee) then site
    else
      var purchases := Recording(site.caps.purchases, nonce, agent, ceiling, fee, commitment, session);
      var purchase := Matching(purchases, nonce, agent, ceiling, fee);
      site.(caps := site.caps.(purchases := purchases),
            calls := if purchase.Some? then site.calls[c := Call(false, nonce, purchase.value, AtRoot)] else site.calls)
  }

  function Recovering(site: Site, c: CallId, nonce: PaymentNonce, secret: RecoverySecret): Site {
    if nonce in site.caps.purchases && site.caps.purchases[nonce].commitment == Some(secret)
    then site.(calls := site.calls[c := Call(true, nonce, site.caps.purchases[nonce], AtRoot)])
    else site
  }

  function RootOp(event: EventId, purchase: Purchase): Op {
    Op.CreateRoot(event, purchase.session, purchase.agent, purchase.ceiling)
  }

  /** A call whose `create_root` raises is over. */
  ghost function Rooting(site: Site, c: CallId, event: EventId): Site
    requires Forest(site.db.rows) && c in site.calls
  {
    var (db', reply) := Step(site.db, RootOp(event, site.calls[c].purchase));
    site.(db := db', calls := if reply.Done? || reply.Known?
                              then site.calls[c := site.calls[c].(at := AtToken)] else site.calls - {c})
  }

  /** The ordinary path mints only for an unclaimed purchase. Recovery always mints. */
  function Taking(site: Site, c: CallId, draw: Draw): Site
    requires c in site.calls
  {
    var call := site.calls[c];
    var rest := site.(calls := site.calls - {c});
    if call.nonce in site.caps.purchases && (call.recovering || !site.caps.purchases[call.nonce].claimed)
    then rest.(caps := Claimed(site.caps, call.nonce, call.purchase.session, draw),
               given := site.given + [Gift(call.nonce, draw.secret, call.recovering)])
    else rest
  }

  ghost function Apply(site: Site, move: Move): Site
    requires Forest(site.db.rows) && Legal(site, move)
  {
    match move
    case Buy(c, nonce, agent, ceiling, fee, commitment, session) =>
      Buying(site, c, nonce, agent, ceiling, fee, commitment, session)
    case Recover(c, nonce, secret) => Recovering(site, c, nonce, secret)
    case MakeRoot(c, event) => Rooting(site, c, event)
    case TakeToken(c, draw) => Taking(site, c, draw)
    case Crash => site.(calls := map[])
    case Elsewhere(op) => site.(db := Step(site.db, op).0)
    case Credentials(tokens) => site.(caps := site.caps.(tokens := tokens))
  }

  // ---- What every step keeps ----

  function GrantPart(e: Entry, d: Id): int {
    if e.delegation == d && e.fact.Grant? then e.fact.amount else 0
  }

  /** The grants accepted for `d`. */
  ghost function GrantedTo(log: seq<Entry>, d: Id): int {
    Sum(log, e => GrantPart(e, d))
  }

  /** The session's root exists, belongs to the buyer and was opened with the recorded ceiling. */
  ghost predicate RootStands(db: Db, purchase: Purchase) {
    && purchase.session in db.rows
    && db.rows[purchase.session].parent.None?
    && db.rows[purchase.session].agent == purchase.agent
    && db.rows[purchase.session].authority == purchase.ceiling + GrantedTo(db.log, purchase.session)
  }

  /** The same purchase, however far its credential has got. */
  predicate SamePurchase(p: Purchase, q: Purchase) {
    && q.session == p.session && q.agent == p.agent && q.ceiling == p.ceiling && q.fee == p.fee
    && q.commitment == p.commitment
  }

  ghost predicate PurchasesSound(db: Db, caps: Caps) {
    && (forall n, m :: (n in caps.purchases && m in caps.purchases
                        && caps.purchases[n].session == caps.purchases[m].session) ==> n == m)
    && (forall n :: n in caps.purchases ==> PurchaseSound(db, caps.purchases[n]))
  }

  ghost predicate PurchaseSound(db: Db, p: Purchase) {
    && Priced(p.ceiling, p.fee)
    && (p.session in db.rows ==> RootStands(db, p))
    && (p.claimed ==> p.session in db.rows)
  }

  ghost predicate OneLiveRoot(caps: Caps) {
    forall s, t, n :: (n in caps.purchases && LiveFor(caps.tokens, s, caps.purchases[n].session)
                       && LiveFor(caps.tokens, t, caps.purchases[n].session)) ==> s == t
  }

  ghost predicate CallsSound(site: Site) {
    forall c :: c in site.calls ==> CallSound(site.db, site.caps.purchases, site.calls[c])
  }

  ghost predicate CallSound(db: Db, purchases: map<PaymentNonce, Purchase>, call: Call) {
    && call.nonce in purchases && SamePurchase(call.purchase, purchases[call.nonce])
    && (call.at.AtToken? ==> call.purchase.session in db.rows)
  }

  /** Only the first plaintext given for a nonce can have come from the ordinary path. */
  ghost predicate GivenSound(caps: Caps, given: seq<Gift>) {
    && (forall i, j :: 0 <= i < j < |given| ==>
          given[i].secret != given[j].secret
          && (given[i].nonce == given[j].nonce ==> given[j].recovered))
    && (forall i :: 0 <= i < |given| ==> GiftSound(caps, given[i]))
  }

  ghost predicate GiftSound(caps: Caps, gift: Gift) {
    && gift.secret in caps.tokens
    && gift.nonce in caps.purchases && caps.purchases[gift.nonce].claimed
    && caps.tokens[gift.secret].delegation == caps.purchases[gift.nonce].session
  }

  ghost predicate SiteOk(site: Site) {
    && Inv(site.db)
    && DistinctIds(site.caps.tokens)
    && PurchasesSound(site.db, site.caps)
    && OneLiveRoot(site.caps)
    && CallsSound(site)
    && GivenSound(site.caps, site.given)
  }

  // ---- The ledger moves ----

  /** Only opening a root or a reservation adds a delegation. */
  lemma OnlyCreationAdds(db: Db, op: Op, x: Id)
    requires Forest(db.rows) && x !in db.rows && x in Step(db, op).0.rows
    ensures (op.CreateRoot? || op.Reserve?) && op.id == x
  {
  }

  lemma NoGrantYet(db: Db, d: Id)
    requires LogSound(db) && d !in db.rows
    ensures GrantedTo(db.log, d) == 0
  {
    SumAgree(db.log, e => GrantPart(e, d), (e: Entry) => 0);
    SumOfZeros(db.log);
  }

  /** A session's root goes on carrying its recorded ceiling and whatever was granted on top. */
  lemma RootKept(db: Db, op: Op, p: Purchase)
    requires Inv(db) && RootStands(db, p)
    ensures RootStands(Step(db, op).0, p)
  {
    hide Slots, SettledSpend, OwnSpend, Decide, Record, GrantedTo;
    StepIsLater(db, op);
    if !op.Mark? && Decide(db, op).Accept? {
      var entry := Decide(db, op).entry;
      AcceptedApplies(db, op);
      AuthorityAfter(db, entry, p.session);
      GrantedAfter(db.log, entry, p.session);
    }
  }

  lemma GrantedAfter(log: seq<Entry>, entry: Entry, d: Id)
    ensures GrantedTo(log + [entry], d) == GrantedTo(log, d) + GrantPart(entry, d)
  {
  }

  lemma RootOpened(db: Db, event: EventId, p: Purchase)
    requires Inv(db) && p.session !in db.rows && AmountOk(p.ceiling) && p.ceiling >= 0
    ensures Step(db, RootOp(event, p)).1.Done? && RootStands(Step(db, RootOp(event, p)).0, p)
  {
    NoGrantYet(db, p.session);
    GrantedAfter(db.log, Entry(p.session, event, Root(p.agent, p.ceiling)), p.session);
  }

  /** On an existing root, `create_root` is a no-op when nothing was granted to it, and otherwise raises
      and changes nothing. */
  lemma RootAgain(db: Db, event: EventId, p: Purchase)
    requires Inv(db) && RootStands(db, p) && AmountOk(p.ceiling)
    ensures Step(db, RootOp(event, p)) == (db, if GrantedTo(db.log, p.session) == 0 then Known else Conflict)
  {
    hide Slots, SettledSpend, OwnSpend, GrantedTo;
  }

  lemma LedgerKeepsSite(site: Site, op: Op, db': Db)
    requires SiteOk(site) && Forest(site.db.rows) && db' == Step(site.db, op).0
    requires forall n :: (n in site.caps.purchases && site.caps.purchases[n].session in db'.rows
                          && site.caps.purchases[n].session !in site.db.rows) ==>
                         RootStands(db', site.caps.purchases[n])
    ensures SiteOk(site.(db := db'))
  {
    hide Step, RootStands, LiveFor, DistinctIds, Slots, SettledSpend, OwnSpend, OneLiveRoot, GivenSound;
    StepKeepsInv(site.db, op);
    StepIsLater(site.db, op);
    forall n | n in site.caps.purchases
      ensures PurchaseSound(db', site.caps.purchases[n])
    {
      if site.caps.purchases[n].session in site.db.rows {
        RootKept(site.db, op, site.caps.purchases[n]);
      }
    }
  }

  lemma ElsewhereKeepsSite(site: Site, op: Op)
    requires SiteOk(site) && Forest(site.db.rows) && Legal(site, Elsewhere(op))
    ensures SiteOk(site.(db := Step(site.db, op).0))
  {
    hide Step, RootStands, DistinctIds, Inv, OneLiveRoot, GivenSound;
    var db' := Step(site.db, op).0;
    forall n | n in site.caps.purchases && site.caps.purchases[n].session in db'.rows
      ensures site.caps.purchases[n].session in site.db.rows
    {
      if site.caps.purchases[n].session !in site.db.rows {
        OnlyCreationAdds(site.db, op, site.caps.purchases[n].session);
      }
    }
    LedgerKeepsSite(site, op, db');
  }

  /** After a call's `create_root` returns, its root stands. */
  lemma RootingStands(site: Site, c: CallId, event: EventId)
    requires SiteOk(site) && Forest(site.db.rows) && c in site.calls
    ensures var p := site.calls[c].purchase;
            var (db', reply) := Step(site.db, RootOp(event, p));
            && (reply.Done? || reply.Known? ==> RootStands(db', p))
            && (reply.Done? || reply.Known? <==>
                  p.session !in site.db.rows || GrantedTo(site.db.log, p.session) == 0)
            && (!reply.Done? ==> db' == site.db)
            && (reply.Known? ==> db'.rows[p.session].authority == p.ceiling)
  {
    hide Step, Slots, SettledSpend, OwnSpend, OneLiveRoot, GivenSound, GrantedTo;
    var p := site.calls[c].purchase;
    var row := site.caps.purchases[site.calls[c].nonce];
    assert CallSound(site.db, site.caps.purchases, site.calls[c]) && PurchaseSound(site.db, row);
    if p.session in site.db.rows {
      assert RootStands(site.db, p);
      RootAgain(site.db, event, p);
    } else {
      RootOpened(site.db, event, p);
    }
  }

  lemma RootingKeepsSite(site: Site, c: CallId, event: EventId)
    requires SiteOk(site) && Forest(site.db.rows) && c in site.calls
    ensures SiteOk(Rooting(site, c, event))
  {
    hide Step, LiveFor, DistinctIds, Inv, OneLiveRoot, GivenSound, GrantedTo;
    var call := site.calls[c];
    var (db', reply) := Step(site.db, RootOp(event, call.purchase));
    RootingStands(site, c, event);
    assert CallSound(site.db, site.caps.purchases, call);
    forall n | n in site.caps.purchases && site.caps.purchases[n].session in db'.rows
               && site.caps.purchases[n].session !in site.db.rows
      ensures RootStands(db', site.caps.purchases[n])
    {
      OnlyCreationAdds(site.db, RootOp(event, call.purchase), site.caps.purchases[n].session);
      assert n == call.nonce;
    }
    LedgerKeepsSite(site, RootOp(event, call.purchase), db');
    CallsMoved(site.(db := db'), Rooting(site, c, event).calls);
  }

  /** Calls that are dropped, or that advance soundly, disturb nothing. */
  lemma CallsMoved(site: Site, calls: map<CallId, Call>)
    requires SiteOk(site)
    requires forall c :: c in calls ==> CallSound(site.db, site.caps.purchases, calls[c])
    ensures SiteOk(site.(calls := calls))
  {
    hide Inv, PurchaseSound, CallSound, LiveFor, GiftSound, DistinctIds, OneLiveRoot;
  }

  // ---- The credentials move ----

  /** New tables under which every purchase and every gift still means the same. */
  ghost predicate Carries(site: Site, caps: Caps) {
    && TokensLater(site.caps.tokens, caps.tokens) && DistinctIds(caps.tokens)
    && (forall n :: n in site.caps.purchases ==>
          n in caps.purchases && SamePurchase(site.caps.purchases[n], caps.purchases[n])
          && (site.caps.purchases[n].claimed ==> caps.purchases[n].claimed))
  }

  lemma CapsMoved(site: Site, caps: Caps)
    requires SiteOk(site) && Carries(site, caps) && PurchasesSound(site.db, caps) && OneLiveRoot(caps)
    ensures SiteOk(site.(caps := caps))
  {
    hide Inv, DistinctIds, OneLiveRoot, PurchaseSound;
    forall i | 0 <= i < |site.given|
      ensures GiftSound(caps, site.given[i])
    {
      assert GiftSound(site.caps, site.given[i]);
    }
    forall c | c in site.calls
      ensures CallSound(site.db, caps.purchases, site.calls[c])
    {
      assert CallSound(site.db, site.caps.purchases, site.calls[c]);
    }
  }

  lemma CredentialsKeepSite(site: Site, tokens: map<Secret, Token>)
    requires SiteOk(site) && Legal(site, Credentials(tokens))
    ensures SiteOk(site.(caps := site.caps.(tokens := tokens)))
  {
    hide Inv, DistinctIds, PurchaseSound, LiveFor, TokensLater, CallsSound, GivenSound;
    var caps := site.caps.(tokens := tokens);
    forall n | n in caps.purchases
      ensures IsSession(site.caps, caps.purchases[n].session)
    {
    }
    assert OneLiveRoot(caps);
    CapsMoved(site, caps);
  }

  lemma BuyingKeepsSite(site: Site, c: CallId, nonce: PaymentNonce, agent: Name, ceiling: int, fee: int,
                        commitment: RecoverySecret, session: Id)
    requires SiteOk(site) && FreshSession(site, session)
    ensures SiteOk(Buying(site, c, nonce, agent, ceiling, fee, commitment, session))
  {
    hide Inv, DistinctIds, RootStands, CallsSound, GivenSound;
    if Priced(ceiling, fee) {
      var caps := site.caps.(
        purchases := Recording(site.caps.purchases, nonce, agent, ceiling, fee, commitment, session));
      forall n | n in caps.purchases
        ensures PurchaseSound(site.db, caps.purchases[n])
      {
        if n in site.caps.purchases {
          assert PurchaseSound(site.db, site.caps.purchases[n]);
        }
      }
      CapsMoved(site, caps);
      BuyerCalls(site.(caps := caps), Buying(site, c, nonce, agent, ceiling, fee, commitment, session).calls, c, nonce);
    }
  }

  lemma BuyerCalls(site: Site, calls: map<CallId, Call>, c: CallId, nonce: PaymentNonce)
    requires SiteOk(site)
    requires calls == site.calls || (nonce in site.caps.purchases && exists recovering ::
               calls == site.calls[c := Call(recovering, nonce, site.caps.purchases[nonce], AtRoot)])
    ensures SiteOk(site.(calls := calls))
  {
    hide Inv, DistinctIds, PurchaseSound, GivenSound, OneLiveRoot;
    forall e | e in calls
      ensures CallSound(site.db, site.caps.purchases, calls[e])
    {
      if e in site.calls {
        assert CallSound(site.db, site.caps.purchases, site.calls[e]);
      }
    }
    CallsMoved(site, calls);
  }

  lemma ClaimedKeeps(site: Site, call: Call, draw: Draw)
    requires SiteOk(site) && CallSound(site.db, site.caps.purchases, call) && call.at.AtToken?
    requires IsFresh(site.caps.tokens, draw)
    ensures var caps := Claimed(site.caps, call.nonce, call.purchase.session, draw);
            Carries(site, caps) && PurchasesSound(site.db, caps) && OneLiveRoot(caps)
  {
    hide Inv, Rotate, RootStands, CallsSound, GivenSound, LiveFor;
    var session := call.purchase.session;
    var caps := Claimed(site.caps, call.nonce, session, draw);
    RotateLeavesOne(site.caps.tokens, session, SCOPES, draw);
    forall n | n in caps.purchases
      ensures PurchaseSound(site.db, caps.purchases[n])
    {
      assert PurchaseSound(site.db, site.caps.purchases[n]);
      RootStandsFor(site.db, site.caps.purchases[n], caps.purchases[n]);
    }
  }

  lemma RootStandsFor(db: Db, p: Purchase, q: Purchase)
    requires SamePurchase(p, q)
    ensures RootStands(db, p) == RootStands(db, q)
  {
  }

  lemma TakingKeepsSite(site: Site, c: CallId, draw: Draw)
    requires SiteOk(site) && c in site.calls && site.calls[c].at.AtToken? && IsFresh(site.caps.tokens, draw)
    ensures SiteOk(Taking(site, c, draw))
  {
    hide Inv, Claimed, DistinctIds, PurchasesSound, OneLiveRoot;
    var call := site.calls[c];
    assert CallSound(site.db, site.caps.purchases, call);
    CallsMoved(site, site.calls - {c});
    if call.recovering || !site.caps.purchases[call.nonce].claimed {
      var rest := site.(calls := site.calls - {c});
      var caps := Claimed(site.caps, call.nonce, call.purchase.session, draw);
      ClaimedKeeps(rest, call, draw);
      CapsMoved(rest, caps);
      GiftMade(rest, call, draw);
    }
  }

  lemma GiftMade(site: Site, call: Call, draw: Draw)
    requires GivenSound(site.caps, site.given) && CallSound(site.db, site.caps.purchases, call)
    requires IsFresh(site.caps.tokens, draw)
    requires call.recovering || !site.caps.purchases[call.nonce].claimed
    requires GivenSound(Claimed(site.caps, call.nonce, call.purchase.session, draw), site.given)
    ensures GivenSound(Claimed(site.caps, call.nonce, call.purchase.session, draw),
                       site.given + [Gift(call.nonce, draw.secret, call.recovering)])
  {
  }

  /** Every step of every call, with anything else in between, keeps all of it. */
  lemma MoveKeepsSite(site: Site, move: Move)
    requires SiteOk(site) && Forest(site.db.rows) && Legal(site, move)
    ensures SiteOk(Apply(site, move))
  {
    hide SiteOk, Inv, Step, Buying, Rooting, Taking, IsFresh, FreshSession;
    match move {
      case Buy(c, nonce, agent, ceiling, fee, commitment, session) =>
        BuyingKeepsSite(site, c, nonce, agent, ceiling, fee, commitment, session);
      case Recover(c, nonce, secret) =>
        BuyerCalls(site, Recovering(site, c, nonce, secret).calls, c, nonce);
      case MakeRoot(c, event) => RootingKeepsSite(site, c, event);
      case TakeToken(c, draw) => TakingKeepsSite(site, c, draw);
      case Crash => CallsMoved(site, map[]);
      case Elsewhere(op) => ElsewhereKeepsSite(site, op);
      case Credentials(tokens) => CredentialsKeepSite(site, tokens);
    }
  }

  // ---- Whole runs ----

  lemma SiteForest(site: Site)
    requires SiteOk(site)
    ensures Forest(site.db.rows) && Inv(site.db)
  {
  }

  ghost predicate AllLegal(site: Site, moves: seq<Move>)
    requires SiteOk(site)
    decreases |moves|
  {
    hide SiteOk, Legal, Apply;
    SiteForest(site);
    moves == []
    || (Legal(site, moves[0]) && (MoveKeepsSite(site, moves[0]); AllLegal(Apply(site, moves[0]), moves[1..])))
  }

  ghost function Serve(site: Site, moves: seq<Move>): (site': Site)
    requires SiteOk(site) && AllLegal(site, moves)
    ensures SiteOk(site')
    decreases |moves|
  {
    hide SiteOk, Legal, Apply;
    SiteForest(site);
    if moves == [] then site
    else
      MoveKeepsSite(site, moves[0]);
      Serve(Apply(site, moves[0]), moves[1..])
  }

  lemma EmptySite()
    ensures SiteOk(EMPTY_SITE)
  {
  }

  /** What is never undone: a nonce keeps its purchase, and with it its one session, and a claim. */
  ghost predicate PurchasesLater(caps: Caps, caps': Caps) {
    forall n :: n in caps.purchases ==>
      && n in caps'.purchases && SamePurchase(caps.purchases[n], caps'.purchases[n])
      && (caps.purchases[n].claimed ==> caps'.purchases[n].claimed)
  }

  lemma MovePurchasesLater(site: Site, move: Move)
    requires SiteOk(site) && Forest(site.db.rows) && Legal(site, move)
    ensures PurchasesLater(site.caps, Apply(site, move).caps) && site.given <= Apply(site, move).given
  {
    hide Inv, Step, PurchaseSound, OneLiveRoot, GivenSound, Rotate, DistinctIds, TokensLater;
    if move.TakeToken? {
      assert CallSound(site.db, site.caps.purchases, site.calls[move.c]);
    }
  }

  /** A nonce keeps one session id for ever, with its buyer, its ceiling and its fee. */
  lemma {:induction false} NonceKeepsSession(site: Site, moves: seq<Move>)
    requires SiteOk(site) && AllLegal(site, moves)
    ensures PurchasesLater(site.caps, Serve(site, moves).caps) && site.given <= Serve(site, moves).given
    decreases |moves|
  {
    hide SiteOk, Legal, Apply;
    SiteForest(site);
    if moves != [] {
      MoveKeepsSite(site, moves[0]);
      MovePurchasesLater(site, moves[0]);
      NonceKeepsSession(Apply(site, moves[0]), moves[1..]);
    }
  }

  const EMPTY_SITE: Site := Site(EMPTY, Caps(map[], map[], map[]), map[], [])

  ghost predicate Possible(moves: seq<Move>) {
    EmptySite();
    AllLegal(EMPTY_SITE, moves)
  }

  /** The site after a run that starts with nothing. */
  ghost function Reached(moves: seq<Move>): (site: Site)
    requires Possible(moves)
    ensures SiteOk(site)
  {
    hide SiteOk;
    EmptySite();
    Serve(EMPTY_SITE, moves)
  }

  /** Over every run: a session has at most one live root token; every secret was given once; after the
      first for a nonce, only recovery gave another; and a purchase that was claimed has its own root,
      opened with the recorded ceiling. */
  lemma OnePaymentOneSession(moves: seq<Move>)
    requires Possible(moves)
    ensures var site := Reached(moves);
            && OneLiveRoot(site.caps)
            && (forall i, j :: 0 <= i < j < |site.given| ==>
                  site.given[i].secret != site.given[j].secret
                  && (site.given[i].nonce == site.given[j].nonce ==> site.given[j].recovered))
            && (forall n, m :: n in site.caps.purchases && m in site.caps.purchases && n != m ==>
                  site.caps.purchases[n].session != site.caps.purchases[m].session)
            && (forall n :: n in site.caps.purchases && site.caps.purchases[n].claimed ==>
                  RootStands(site.db, site.caps.purchases[n]))
  {
    hide Inv, Reached, RootStands, CallsSound, OneLiveRoot;
    var site := Reached(moves);
    forall n | n in site.caps.purchases && site.caps.purchases[n].claimed
      ensures RootStands(site.db, site.caps.purchases[n])
    {
      assert PurchaseSound(site.db, site.caps.purchases[n]);
    }
  }

  // ---- When a call gets through ----

  /** One recovery call that nothing interrupts. */
  ghost function RecoverNow(site: Site, c: CallId, nonce: PaymentNonce, secret: RecoverySecret, event: EventId,
                            draw: Draw): Site
    requires Forest(site.db.rows)
  {
    var found := Recovering(site, c, nonce, secret);
    if c !in found.calls then found
    else
      var rooted := Rooting(found, c, event);
      if c !in rooted.calls then rooted else Taking(rooted, c, draw)
  }

  /** One purchase call that nothing interrupts. */
  ghost function BuyNow(site: Site, c: CallId, nonce: PaymentNonce, agent: Name, ceiling: int, fee: int,
                        commitment: RecoverySecret, session: Id, event: EventId, draw: Draw): Site
    requires Forest(site.db.rows)
  {
    var recorded := Buying(site, c, nonce, agent, ceiling, fee, commitment, session);
    if c !in recorded.calls then recorded
    else
      var rooted := Rooting(recorded, c, event);
      if c !in rooted.calls then rooted else Taking(rooted, c, draw)
  }

  /** Whether `create_root` would go through: the root is missing, or nothing was granted to it. */
  ghost predicate RootFree(db: Db, session: Id) {
    session !in db.rows || GrantedTo(db.log, session) == 0
  }

  /** The rest of a call, once it is at its root: it gets through exactly when the root is free. */
  lemma CallFinishes(site: Site, c: CallId, event: EventId, draw: Draw)
    requires SiteOk(site) && Forest(site.db.rows) && c in site.calls && site.calls[c].at.AtRoot?
    requires IsFresh(site.caps.tokens, draw)
    ensures var call := site.calls[c];
            var rooted := Rooting(site, c, event);
            && call.nonce in site.caps.purchases
            && (c in rooted.calls <==> RootFree(site.db, call.purchase.session))
            && (c !in rooted.calls ==> rooted == site.(calls := site.calls - {c}))
            && (c in rooted.calls ==>
                  var done := Taking(rooted, c, draw);
                  && RootStands(done.db, call.purchase)
                  && done.db.rows[call.purchase.session].authority == call.purchase.ceiling
                  && done.calls == site.calls - {c}
                  && done.given == (if call.recovering || !site.caps.purchases[call.nonce].claimed
                                    then site.given + [Gift(call.nonce, draw.secret, call.recovering)] else site.given))
  {
    hide Step, RootStands, Inv, GrantedTo, Claimed, OneLiveRoot, GivenSound, PurchasesSound, DistinctIds;
    RootingStands(site, c, event);
    FreshRoot(site, c, event);
    assert CallSound(site.db, site.caps.purchases, site.calls[c]);
  }

  lemma FreshRoot(site: Site, c: CallId, event: EventId)
    requires SiteOk(site) && Forest(site.db.rows) && c in site.calls
    ensures var p := site.calls[c].purchase;
            var (db', reply) := Step(site.db, RootOp(event, p));
            reply.Done? ==> p.session in db'.rows && db'.rows[p.session].authority == p.ceiling
  {
    hide Inv, SiteOk;
  }

  /** A recovery call gets a fresh token, the only one left alive, exactly when it knows the secret and
      nothing was granted to the root. Otherwise it changes nothing. */
  lemma RecoveryExactly(site: Site, c: CallId, nonce: PaymentNonce, secret: RecoverySecret, event: EventId, draw: Draw)
    requires SiteOk(site) && Forest(site.db.rows) && c !in site.calls && IsFresh(site.caps.tokens, draw)
    ensures var site' := RecoverNow(site, c, nonce, secret, event, draw);
            var granted := nonce in site.caps.purchases && site.caps.purchases[nonce].commitment == Some(secret)
                           && RootFree(site.db, site.caps.purchases[nonce].session);
            && site'.calls == site.calls
            && (granted ==>
                  && site'.given == site.given + [Gift(nonce, draw.secret, true)]
                  && RootStands(site'.db, site.caps.purchases[nonce])
                  && site'.db.rows[site.caps.purchases[nonce].session].authority == site.caps.purchases[nonce].ceiling)
            && (!granted ==> site' == site)
  {
    hide SiteOk, Rooting, Taking, RootStands, RootFree, IsFresh;
    var found := Recovering(site, c, nonce, secret);
    if c in found.calls {
      BuyerCalls(site, found.calls, c, nonce);
      CallFinishes(found, c, event, draw);
      assert found.calls - {c} == site.calls;
    }
  }

  /** An accepted grant only adds. */
  lemma GrantsOnlyAdd(db: Db, op: Op, d: Id)
    requires Forest(db.rows)
    ensures GrantedTo(Step(db, op).0.log, d) >= GrantedTo(db.log, d)
  {
    hide Revoking, ActiveBelow, GrantedTo;
    if !op.Mark? && Decide(db, op).Accept? {
      GrantedAfter(db.log, Decide(db, op).entry, d);
    }
  }

  /** Once anything was granted to a session's root, no later purchase retry or recovery gets past
      `create_root` again. */
  lemma {:induction false} GrantBlocksRecovery(site: Site, moves: seq<Move>, nonce: PaymentNonce)
    requires SiteOk(site) && AllLegal(site, moves) && nonce in site.caps.purchases
    requires HasGrants(site.db, site.caps.purchases[nonce].session)
    ensures var later := Serve(site, moves);
            && nonce in later.caps.purchases
            && later.caps.purchases[nonce].session == site.caps.purchases[nonce].session
            && !RootFree(later.db, later.caps.purchases[nonce].session)
    decreases |moves|
  {
    hide SiteOk, Legal, Apply, GrantedTo;
    SiteForest(site);
    if moves != [] {
      MoveKeepsSite(site, moves[0]);
      MovePurchasesLater(site, moves[0]);
      MoveStaysBlocked(site, moves[0], nonce);
      GrantBlocksRecovery(Apply(site, moves[0]), moves[1..], nonce);
    }
  }

  ghost predicate HasGrants(db: Db, d: Id) {
    d in db.rows && GrantedTo(db.log, d) > 0
  }

  lemma StepKeepsGrants(db: Db, op: Op, d: Id)
    requires Inv(db) && HasGrants(db, d)
    ensures HasGrants(Step(db, op).0, d)
  {
    hide Step, GrantedTo, Slots, SettledSpend, OwnSpend;
    GrantsOnlyAdd(db, op, d);
    StepIsLater(db, op);
  }

  lemma MoveStaysBlocked(site: Site, move: Move, nonce: PaymentNonce)
    requires SiteOk(site) && Forest(site.db.rows) && Legal(site, move) && nonce in site.caps.purchases
    requires HasGrants(site.db, site.caps.purchases[nonce].session)
    ensures HasGrants(Apply(site, move).db, site.caps.purchases[nonce].session)
  {
    hide Step, Buying, Taking, HasGrants, DistinctIds, Inv, FreshSession, IsFresh;
    var session := site.caps.purchases[nonce].session;
    SiteForest(site);
    if move.MakeRoot? {
      StepKeepsGrants(site.db, RootOp(move.event, site.calls[move.c].purchase), session);
    } else if move.Elsewhere? {
      StepKeepsGrants(site.db, move.op, session);
    } else {
      OtherMovesKeepLedger(site, move);
    }
  }

  lemma OtherMovesKeepLedger(site: Site, move: Move)
    requires Forest(site.db.rows) && Legal(site, move) && !move.MakeRoot? && !move.Elsewhere?
    ensures Apply(site, move).db == site.db
  {
    hide Step, Claimed, Recording, Matching, FreshSession, IsFresh;
  }

  // ---- A recovery that is lost ----

  lemma ServeMore(site: Site, m: Move, next: Site, rest: seq<Move>, last: Site)
    requires SiteOk(site) && Forest(site.db.rows) && Legal(site, m) && Apply(site, m) == next
    requires SiteOk(next) && AllLegal(next, rest) && Serve(next, rest) == last
    ensures AllLegal(site, [m] + rest) && Serve(site, [m] + rest) == last
  {
    hide SiteOk, Legal, Apply;
    assert ([m] + rest)[0] == m && ([m] + rest)[1..] == rest;
    MoveKeepsSite(site, m);
  }

  datatype Sale = Sale(
    c: CallId, nonce: PaymentNonce, agent: Name, secret: RecoverySecret, session: Id, opening: EventId,
    granting: EventId, draw: Draw)
  {
    function Purchased(claimed: bool): Purchase {
      Purchase(session, agent, 10, 1, if claimed then Some(draw.id) else None, claimed, Some(secret))
    }

    function RootDb(extra: int): Db {
      Db(map[session := NewRow(None, agent, 10 + extra, 0)], [session],
         [Entry(session, opening, Root(agent, 10))]
         + if extra == 0 then [] else [Entry(session, granting, Fact.Grant(extra))])
    }

    function Bought(): Site {
      EMPTY_SITE.(caps := Caps(map[], map[], map[nonce := Purchased(false)]),
                  calls := map[c := Call(false, nonce, Purchased(false), AtRoot)])
    }

    function Rooted(): Site {
      Bought().(db := RootDb(0), calls := map[c := Call(false, nonce, Purchased(false), AtToken)])
    }

    function Served(extra: int): Site {
      Site(RootDb(extra),
           Caps(map[draw.secret := Token(draw.id, session, SCOPES, draw.expiresAt, false)], map[],
                map[nonce := Purchased(true)]),
           map[], [Gift(nonce, draw.secret, false)])
    }

    function Moves(): seq<Move> {
      [Buy(c, nonce, agent, 10, 1, secret, session)]
      + ([MakeRoot(c, opening)] + ([TakeToken(c, draw)] + ([Elsewhere(DoGrant(granting, session, 1))] + [])))
    }
  }

  lemma SaleBought(sale: Sale)
    ensures SiteOk(EMPTY_SITE)
    ensures var m := Buy(sale.c, sale.nonce, sale.agent, 10, 1, sale.secret, sale.session);
            Forest(EMPTY_SITE.db.rows) && Legal(EMPTY_SITE, m) && Apply(EMPTY_SITE, m) == sale.Bought()
    ensures SiteOk(sale.Bought())
  {
    EmptySite();
    hide SiteOk, Inv, Step;
    MoveKeepsSite(EMPTY_SITE, Buy(sale.c, sale.nonce, sale.agent, 10, 1, sale.secret, sale.session));
  }

  lemma RootLands(sale: Sale)
    ensures Forest(EMPTY.rows)
    ensures Step(EMPTY, RootOp(sale.opening, sale.Purchased(false))) == (sale.RootDb(0), Done)
  {
    var entry := Entry(sale.session, sale.opening, Root(sale.agent, 10));
    assert Record(EMPTY, entry) == sale.RootDb(0);
    Accepted(EMPTY, RootOp(sale.opening, sale.Purchased(false)), entry, sale.RootDb(0));
  }

  lemma SaleRooted(sale: Sale)
    requires SiteOk(sale.Bought())
    ensures Forest(sale.Bought().db.rows) && Legal(sale.Bought(), MakeRoot(sale.c, sale.opening))
    ensures Apply(sale.Bought(), MakeRoot(sale.c, sale.opening)) == sale.Rooted()
    ensures SiteOk(sale.Rooted())
  {
    hide SiteOk, Step, Inv, Forest;
    SiteForest(sale.Bought());
    RootLands(sale);
    MoveKeepsSite(sale.Bought(), MakeRoot(sale.c, sale.opening));
  }

  lemma SaleServed(sale: Sale)
    requires SiteOk(sale.Rooted())
    ensures Forest(sale.Rooted().db.rows) && Legal(sale.Rooted(), TakeToken(sale.c, sale.draw))
    ensures Apply(sale.Rooted(), TakeToken(sale.c, sale.draw)) == sale.Served(0)
    ensures SiteOk(sale.Served(0))
  {
    hide SiteOk, Inv, Step, Forest;
    SiteForest(sale.Rooted());
    MoveKeepsSite(sale.Rooted(), TakeToken(sale.c, sale.draw));
  }

  lemma GrantLands(sale: Sale)
    requires sale.opening != sale.granting && Inv(sale.RootDb(0)) && Forest(sale.RootDb(0).rows)
    ensures Step(sale.RootDb(0), DoGrant(sale.granting, sale.session, 1)) == (sale.RootDb(1), Done)
  {
    hide Inv;
    assert !Revoking(sale.RootDb(0).rows, sale.session);
    var first, second := Entry(sale.session, sale.opening, Root(sale.agent, 10)),
                         Entry(sale.session, sale.granting, Fact.Grant(1));
    assert sale.RootDb(0).log == [first] && sale.RootDb(1).log == [first] + [second];
    Accepted(sale.RootDb(0), DoGrant(sale.granting, sale.session, 1), second, sale.RootDb(1));
  }

  lemma SaleGranted(sale: Sale)
    requires sale.opening != sale.granting && SiteOk(sale.Served(0))
    ensures Forest(sale.Served(0).db.rows)
    ensures Legal(sale.Served(0), Elsewhere(DoGrant(sale.granting, sale.session, 1)))
    ensures Apply(sale.Served(0), Elsewhere(DoGrant(sale.granting, sale.session, 1))) == sale.Served(1)
    ensures SiteOk(sale.Served(1))
  {
    hide SiteOk, Step;
    SiteForest(sale.Served(0));
    GrantLands(sale);
    MoveKeepsSite(sale.Served(0), Elsewhere(DoGrant(sale.granting, sale.session, 1)));
  }

  /** A buyer pays, receives the root token, and anyone grants 1 to the root. From then on the recovery
      that the buyer's secret entitles it to changes nothing. */
  lemma RecoveryLost(sale: Sale)
    requires sale.opening != sale.granting
    ensures Possible(sale.Moves()) && Reached(sale.Moves()) == sale.Served(1)
    ensures Forest(sale.Served(1).db.rows)
    ensures forall c, event, draw :: c !in sale.Served(1).calls && IsFresh(sale.Served(1).caps.tokens, draw) ==>
              RecoverNow(sale.Served(1), c, sale.nonce, sale.secret, event, draw) == sale.Served(1)
  {
    hide SiteOk, Legal, Apply, Rooting, Taking, RecoverNow, AllLegal, Serve, IsFresh;
    SaleBought(sale);
    SaleRooted(sale);
    SaleServed(sale);
    SaleGranted(sale);
    ServeNothing(sale.Served(1));
    ServeMore(sale.Served(0), Elsewhere(DoGrant(sale.granting, sale.session, 1)), sale.Served(1), [], sale.Served(1));
    var last := [Elsewhere(DoGrant(sale.granting, sale.session, 1))] + [];
    ServeMore(sale.Rooted(), TakeToken(sale.c, sale.draw), sale.Served(0), last, sale.Served(1));
    var late := [TakeToken(sale.c, sale.draw)] + last;
    ServeMore(sale.Bought(), MakeRoot(sale.c, sale.opening), sale.Rooted(), late, sale.Served(1));
    ServeMore(EMPTY_SITE, Buy(sale.c, sale.nonce, sale.agent, 10, 1, sale.secret, sale.session), sale.Bought(),
              [MakeRoot(sale.c, sale.opening)] + late, sale.Served(1));
    SiteForest(sale.Served(1));
    SaleHasGrant(sale);
    forall c, event, draw | c !in sale.Served(1).calls && IsFresh(sale.Served(1).caps.tokens, draw)
      ensures RecoverNow(sale.Served(1), c, sale.nonce, sale.secret, event, draw) == sale.Served(1)
    {
      RecoveryExactly(sale.Served(1), c, sale.nonce, sale.secret, event, draw);
    }
  }

  lemma ServeNothing(site: Site)
    requires SiteOk(site)
    ensures AllLegal(site, []) && Serve(site, []) == site
  {
  }

  lemma SaleHasGrant(sale: Sale)
    ensures !RootFree(sale.Served(1).db, sale.session)
  {
    var first, second := Entry(sale.session, sale.opening, Root(sale.agent, 10)),
                         Entry(sale.session, sale.granting, Fact.Grant(1));
    GrantedAfter([first], second, sale.session);
    GrantedAfter([], first, sale.session);
    assert [] + [first] == [first];
  }
}
