/**
  Handing a child credential over (the reserve path of hosted/a2a_economic_authority/executor.py with
  `InMemoryCredentialHandoff` of capabilities.py). The server is one process and none of these
  operations yields in its middle, so each is one step. The ledger's tables are shared with others.
 */
module Handoff {
  import opened Common
  import opened Ledger
  import opened LedgerInvariant
  import opened LedgerAnswers
  import opened LedgerRuns
  import opened Capabilities

  type ClaimId(==,!new,0)

  datatype Claim = Claim(
    tokenId: TokenId, plaintext: Secret, issuer: Id, scope: string, authorizer: TokenId, child: Id, expiresAt: int)

  type Claims = map<ClaimId, Claim>

  // ---- The claim buffer ----

  /** Drops every claim issued by, or granting access to, one of the delegations. */
  function Purged(pending: Claims, ds: set<Id>): Claims {
    map c | c in pending && pending[c].issuer !in ds && pending[c].child !in ds :: pending[c]
  }

  datatype Redemption = Redeemed(plaintext: Secret, to: TokenId) | Denied(reason: Denial)

  /** The checks of `redeem`, in order, and whether the claim is gone afterwards. */
  function Redeem(pending: Claims, tokens: map<Secret, Token>, id: ClaimId, presented: Option<Secret>,
                  targetRevoked: Id -> bool, monotonic: int, now: int): (r: (Redemption, bool))
    ensures r.1 ==> id in pending
  {
    if id !in pending then (Denied(InvalidCredential), false)
    else
      var claim := pending[id];
      if monotonic > claim.expiresAt then (Denied(ExpiredCredential), true)
      else
        var theAuthorizer := presented.Some? && presented.value in tokens
                             && tokens[presented.value].id == claim.authorizer;
        match Authorize(tokens, presented, claim.issuer, claim.scope, now)
        case Err(reason) =>
          (Denied(reason), (reason.RevokedCredential? || reason.ExpiredCredential?) && theAuthorizer)
        case Ok(token) =>
          if token.id != claim.authorizer then (Denied(WrongAuthorizer), false)
          else if targetRevoked(claim.child) then (Denied(RevokedCredential), true)
          else (Redeemed(claim.plaintext, token.id), true)
  }

  function AfterRedeem(pending: Claims, id: ClaimId, gone: bool): Claims {
    if gone then pending - {id} else pending
  }

  /** Exactly the live, unexpired, reserve-scoped authorizing token redeems an unexpired claim whose
      target is not being torn down. */
  lemma RedeemedExactly(pending: Claims, tokens: map<Secret, Token>, id: ClaimId, presented: Option<Secret>,
                        targetRevoked: Id -> bool, monotonic: int, now: int)
    ensures var outcome := Redeem(pending, tokens, id, presented, targetRevoked, monotonic, now).0;
            outcome.Redeemed? <==>
              && id in pending && monotonic <= pending[id].expiresAt
              && presented.Some? && presented.value in tokens
              && (var token := tokens[presented.value];
                  && token.id == pending[id].authorizer && !token.revoked && now < token.expiresAt
                  && token.delegation == pending[id].issuer && pending[id].scope in token.scopes)
              && !targetRevoked(pending[id].child)
    ensures var outcome := Redeem(pending, tokens, id, presented, targetRevoked, monotonic, now).0;
            outcome.Redeemed? ==> id in pending && outcome == Redeemed(pending[id].plaintext, pending[id].authorizer)
  {
  }

  /** Whatever any other credential presents, an unexpired claim survives it. */
  lemma OthersCannotSpoil(pending: Claims, tokens: map<Secret, Token>, id: ClaimId, presented: Option<Secret>,
                          targetRevoked: Id -> bool, monotonic: int, now: int)
    requires id in pending && monotonic <= pending[id].expiresAt
    requires presented.Some? && presented.value in tokens ==> tokens[presented.value].id != pending[id].authorizer
    ensures var (outcome, gone) := Redeem(pending, tokens, id, presented, targetRevoked, monotonic, now);
            outcome.Denied? && AfterRedeem(pending, id, gone) == pending
  {
  }

  // ---- The state of the server ----

  /** A completed redemption: which claim, whose child, what was handed over and to which token. */
  datatype Handover = Handover(claim: ClaimId, child: Id, plaintext: Secret, to: TokenId)

  /** `handed` is history. */
  datatype Desk = Desk(db: Db, caps: Caps, pending: Claims, handed: seq<Handover>)

  /** A reserve request, as authorised and as it is kept while it is parked. */
  datatype Request = Request(
    event: EventId, parent: Id, child: Id, agent: Name, maximum: int, asked: Asked, recover: bool,
    authorizer: TokenId, issuerScopes: set<string>)

  datatype Outcome =
    | Failed
    | Parked(shortfall: int)
    | AlreadyReserved
    | Minted(claim: ClaimId)
    | Rejected(reason: Denial)
    | BoundElsewhere
    | EventConflicts

  /** The random and clock values one request may use. */
  datatype Supply = Supply(draw: Draw, claim: ClaimId, claimExpiresAt: int)

  ghost predicate Supplies(desk: Desk, supply: Supply) {
    && IsFresh(desk.caps.tokens, supply.draw)
    && supply.claim !in desk.pending
    && forall i :: 0 <= i < |desk.handed| ==> desk.handed[i].claim != supply.claim
  }

  function MintedCaps(caps: Caps, child: Id, scopes: set<string>, draw: Draw): Caps
    requires child in caps.bindings
  {
    caps.(tokens := Rotate(caps.tokens, child, scopes, draw),
          bindings := caps.bindings[child := caps.bindings[child].(current := Some(draw.id))])
  }

  function NewClaim(req: Request, supply: Supply): Claim {
    Claim(supply.draw.id, supply.draw.secret, req.parent, "reserve", req.authorizer, req.child, supply.claimExpiresAt)
  }

  /** Purges the child's claims, rotates its token and parks the new plaintext. */
  ghost function Mint(desk: Desk, req: Request, scopes: set<string>, supply: Supply): Desk
    requires req.child in desk.caps.bindings
  {
    desk.(caps := MintedCaps(desk.caps, req.child, scopes, supply.draw),
          pending := Purged(desk.pending, {req.child})[supply.claim := NewClaim(req, supply)])
  }

  function ReserveOp(req: Request): Op {
    Op.Reserve(req.event, req.parent, req.child, req.agent, req.maximum)
  }

  /** The retry of a reservation whose child exists. `legacy` is the scope set first issued to a
      delegation that has no binding. */
  ghost function Retried(desk: Desk, req: Request, scopes: set<string>, legacy: Option<set<string>>, supply: Supply)
    : (Desk, Outcome)
    requires Forest(desk.db.rows) && req.child in desk.db.rows
  {
    var caps := desk.caps;
    var bound := req.child in caps.bindings;
    if !Step(desk.db, ReserveOp(req)).1.Known? then (desk, EventConflicts)
    else if req.recover && bound && req.authorizer != caps.bindings[req.child].authorizer then
      (desk, Rejected(WrongAuthorizer))
    else
      var expected := if bound then Some(caps.bindings[req.child].scopes) else legacy;
      if expected.Some? && scopes != expected.value then (desk, Failed)
      else if !req.recover || !bound then (desk, AlreadyReserved)
      else if !desk.db.rows[req.child].active || Revoking(desk.db.rows, req.child) then (desk, Failed)
      else (Mint(desk, req, scopes, supply), Minted(supply.claim))
  }

  /** Binds the child to its authoriser before anything economic happens. */
  function Bound(caps: Caps, req: Request, scopes: set<string>): Caps {
    if req.child in caps.bindings then caps
    else caps.(bindings := caps.bindings[req.child := Binding(req.authorizer, scopes, None)])
  }

  predicate BoundOtherwise(caps: Caps, req: Request, scopes: set<string>) {
    req.child in caps.bindings
    && (caps.bindings[req.child].authorizer != req.authorizer || caps.bindings[req.child].scopes != scopes)
  }

  ghost function FirstTime(desk: Desk, req: Request, scopes: set<string>, retry: bool, supply: Supply)
    : (Desk, Outcome)
    requires Forest(desk.db.rows) && req.child !in desk.db.rows && req.parent in desk.db.rows
  {
    if BoundOtherwise(desk.caps, req, scopes) then (desk, BoundElsewhere)
    else
      var noted := desk.(caps := Bound(desk.caps, req, scopes));
      var shortfall := req.maximum - desk.db.rows[req.parent].Headroom();
      if shortfall > 0 then (noted, if retry then Failed else Parked(shortfall))
      else
        var (db', reply) := Step(desk.db, ReserveOp(req));
        if !reply.Done? then (noted, Failed)
        else (Mint(noted.(db := db'), req, scopes, supply), Minted(supply.claim))
  }

  ghost function Finished(desk: Desk, req: Request, retry: bool, legacy: Option<set<string>>, supply: Supply)
    : (Desk, Outcome)
    requires Forest(desk.db.rows)
  {
    var rows := desk.db.rows;
    if req.parent !in rows || !rows[req.parent].active || rows[req.parent].unknownCount > 0 then (desk, Failed)
    else
      match ValidateChildScopes(req.asked, req.issuerScopes)
      case Err(_) => (desk, Failed)
      case Ok(scopes) =>
        if req.child in rows then Retried(desk, req, scopes, legacy, supply)
        else FirstTime(desk, req, scopes, retry, supply)
  }

  // ---- What every step keeps ----

  ghost predicate TokensSound(rows: map<Id, Row>, tokens: map<Secret, Token>) {
    && DistinctIds(tokens)
    && (forall s :: s in tokens ==>
          tokens[s].delegation in rows && tokens[s].scopes != {} && tokens[s].scopes <= SCOPES)
  }

  /** A delegation that has a parent has at most one live token. */
  ghost predicate OneLiveEach(rows: map<Id, Row>, tokens: map<Secret, Token>) {
    forall s, t, d :: LiveFor(tokens, s, d) && LiveFor(tokens, t, d) && d in rows && rows[d].parent.Some? ==> s == t
  }

  /** What a pending claim holds is the unrevoked current token of its child, within the scopes bound
      for it, and the claim is for the token bound to the child. */
  ghost predicate ClaimSound(desk: Desk, claim: Claim) {
    && claim.scope == "reserve"
    && ChildOf(desk.db.rows, claim.child, claim.issuer)
    && claim.child in desk.caps.bindings
    && (var binding := desk.caps.bindings[claim.child];
        && binding.authorizer == claim.authorizer
        && binding.current == Some(claim.tokenId)
        && LiveFor(desk.caps.tokens, claim.plaintext, claim.child)
        && desk.caps.tokens[claim.plaintext].id == claim.tokenId
        && desk.caps.tokens[claim.plaintext].scopes == binding.scopes)
  }

  ghost predicate ClaimsSound(desk: Desk) {
    && (forall c :: c in desk.pending ==> ClaimSound(desk, desk.pending[c]))
    && (forall c, e :: (c in desk.pending && e in desk.pending
                        && desk.pending[c].child == desk.pending[e].child) ==> c == e)
  }

  ghost predicate Backed(tokens: map<Secret, Token>, id: TokenId, scopes: set<string>) {
    exists s :: s in tokens && tokens[s].id == id && scopes <= tokens[s].scopes
  }

  /** Every binding names a token that was issued, and no scope the token lacks. */
  ghost predicate BindingsSound(desk: Desk) {
    forall d :: d in desk.caps.bindings ==>
      Backed(desk.caps.tokens, desk.caps.bindings[d].authorizer, desk.caps.bindings[d].scopes)
  }

  ghost predicate HandedSound(desk: Desk) {
    && (forall i, j :: 0 <= i < j < |desk.handed| ==>
          desk.handed[i].claim != desk.handed[j].claim && desk.handed[i].plaintext != desk.handed[j].plaintext)
    && (forall i :: 0 <= i < |desk.handed| ==> HandoverSound(desk, desk.handed[i]))
  }

  ghost predicate HandoverSound(desk: Desk, h: Handover) {
    && h.plaintext in desk.caps.tokens && desk.caps.tokens[h.plaintext].delegation == h.child
    && h.child in desk.caps.bindings && desk.caps.bindings[h.child].authorizer == h.to
    && desk.caps.tokens[h.plaintext].scopes == desk.caps.bindings[h.child].scopes
    && h.claim !in desk.pending
    && (forall c :: c in desk.pending ==> desk.pending[c].plaintext != h.plaintext)
  }

  ghost predicate DeskOk(desk: Desk) {
    && Inv(desk.db)
    && TokensSound(desk.db.rows, desk.caps.tokens)
    && OneLiveEach(desk.db.rows, desk.caps.tokens)
    && ClaimsSound(desk)
    && BindingsSound(desk)
    && HandedSound(desk)
  }

  /** A request that `authorize` let through: its authoriser is a token of the parent, and the scopes
      it may pass on are that token's. */
  ghost predicate Authorised(tokens: map<Secret, Token>, req: Request) {
    exists s :: s in tokens && tokens[s].id == req.authorizer && tokens[s].delegation == req.parent
                && tokens[s].scopes == req.issuerScopes
  }

  // ---- The pieces of a step ----

  lemma LedgerMoved(desk: Desk, db': Db)
    requires DeskOk(desk) && Inv(db') && Extends(desk.db.rows, db'.rows)
    ensures DeskOk(desk.(db := db'))
  {
    hide Inv, DistinctIds, Backed;
    assert TokensSound(db'.rows, desk.caps.tokens);
    assert OneLiveEach(db'.rows, desk.caps.tokens);
    forall c | c in desk.pending
      ensures ClaimSound(desk.(db := db'), desk.pending[c])
    {
      assert ClaimSound(desk, desk.pending[c]);
    }
    forall i | 0 <= i < |desk.handed|
      ensures HandoverSound(desk.(db := db'), desk.handed[i])
    {
      assert HandoverSound(desk, desk.handed[i]);
    }
  }

  lemma FewerClaims(desk: Desk, pending: Claims)
    requires DeskOk(desk) && pending.Keys <= desk.pending.Keys
    requires forall c :: c in pending ==> pending[c] == desk.pending[c]
    ensures DeskOk(desk.(pending := pending))
  {
    hide Inv, DistinctIds, Backed, TokensSound, OneLiveEach;
    forall c | c in pending
      ensures ClaimSound(desk.(pending := pending), pending[c])
    {
      assert ClaimSound(desk, desk.pending[c]);
    }
    forall i | 0 <= i < |desk.handed|
      ensures HandoverSound(desk.(pending := pending), desk.handed[i])
    {
      assert HandoverSound(desk, desk.handed[i]);
    }
  }

  /** New token and binding tables under which every claim and every handover still means the same. */
  ghost predicate Carries(desk: Desk, caps: Caps) {
    && TokensLater(desk.caps.tokens, caps.tokens)
    && (forall d :: d in desk.caps.bindings ==>
          d in caps.bindings && caps.bindings[d].authorizer == desk.caps.bindings[d].authorizer
          && caps.bindings[d].scopes == desk.caps.bindings[d].scopes)
    && (forall c :: c in desk.pending ==> CarriesClaim(desk, caps, desk.pending[c]))
    && (forall d :: d in caps.bindings && d !in desk.caps.bindings ==>
          Backed(caps.tokens, caps.bindings[d].authorizer, caps.bindings[d].scopes))
  }

  ghost predicate CarriesClaim(desk: Desk, caps: Caps, claim: Claim) {
    && (LiveFor(desk.caps.tokens, claim.plaintext, claim.child) ==> LiveFor(caps.tokens, claim.plaintext, claim.child))
    && (claim.child in desk.caps.bindings && claim.child in caps.bindings ==>
          caps.bindings[claim.child].current == desk.caps.bindings[claim.child].current)
  }

  lemma CapsMoved(desk: Desk, caps: Caps)
    requires DeskOk(desk) && Carries(desk, caps)
    requires TokensSound(desk.db.rows, caps.tokens) && OneLiveEach(desk.db.rows, caps.tokens)
    ensures DeskOk(desk.(caps := caps))
  {
    hide Inv, DistinctIds, TokensSound, OneLiveEach;
    var desk' := desk.(caps := caps);
    forall c | c in desk.pending
      ensures ClaimSound(desk', desk'.pending[c])
    {
      assert ClaimSound(desk, desk.pending[c]) && CarriesClaim(desk, caps, desk.pending[c]);
    }
    forall i | 0 <= i < |desk.handed|
      ensures HandoverSound(desk', desk.handed[i])
    {
      assert HandoverSound(desk, desk.handed[i]);
    }
    forall d | d in caps.bindings
      ensures Backed(caps.tokens, caps.bindings[d].authorizer, caps.bindings[d].scopes)
    {
      if d in desk.caps.bindings {
        BackedStays(desk.caps.tokens, caps.tokens, caps.bindings[d].authorizer, caps.bindings[d].scopes);
      }
    }
  }

  lemma BackedStays(tokens: map<Secret, Token>, tokens': map<Secret, Token>, id: TokenId, scopes: set<string>)
    requires TokensLater(tokens, tokens') && Backed(tokens, id, scopes)
    ensures Backed(tokens', id, scopes)
  {
  }

  ghost predicate NoClaimFor(pending: Claims, ds: set<Id>) {
    forall c :: c in pending ==> pending[c].child !in ds
  }

  lemma RotationKept(rows: map<Id, Row>, tokens: map<Secret, Token>, d: Id, scopes: set<string>, draw: Draw)
    requires TokensSound(rows, tokens) && OneLiveEach(rows, tokens) && IsFresh(tokens, draw)
    requires d in rows && scopes != {} && scopes <= SCOPES
    ensures TokensSound(rows, Rotate(tokens, d, scopes, draw)) && OneLiveEach(rows, Rotate(tokens, d, scopes, draw))
  {
    hide Rotate, LiveFor;
    RotateLeavesOne(tokens, d, scopes, draw);
  }

  /** Rotating the token of a delegation no claim is for. */
  lemma RotationMoved(desk: Desk, d: Id, scopes: set<string>, draw: Draw, caps: Caps)
    requires DeskOk(desk) && NoClaimFor(desk.pending, {d}) && IsFresh(desk.caps.tokens, draw)
    requires d in desk.db.rows && scopes != {} && scopes <= SCOPES
    requires caps.tokens == Rotate(desk.caps.tokens, d, scopes, draw)
    requires caps.bindings == desk.caps.bindings
          || (d in desk.caps.bindings
              && exists id :: caps.bindings == desk.caps.bindings[d := desk.caps.bindings[d].(current := id)])
    ensures DeskOk(desk.(caps := caps))
  {
    hide Inv, Rotate, LiveFor;
    RotationKept(desk.db.rows, desk.caps.tokens, d, scopes, draw);
    RotateLeavesOne(desk.caps.tokens, d, scopes, draw);
    CapsMoved(desk, caps);
  }

  lemma RevocationMoved(desk: Desk, ds: set<Id>)
    requires DeskOk(desk) && NoClaimFor(desk.pending, ds)
    ensures DeskOk(desk.(caps := desk.caps.(tokens := RevokeTokens(desk.caps.tokens, ds))))
  {
    hide Inv, LiveFor;
    RevokeLeavesNone(desk.caps.tokens, ds);
    CapsMoved(desk, desk.caps.(tokens := RevokeTokens(desk.caps.tokens, ds)));
  }

  /** Parking the plaintext of the token just minted. */
  lemma ClaimParked(desk: Desk, claim: Claim, id: ClaimId)
    requires DeskOk(desk) && NoClaimFor(desk.pending, {claim.child}) && ClaimSound(desk, claim)
    requires id !in desk.pending
    requires forall i :: 0 <= i < |desk.handed| ==>
               desk.handed[i].claim != id && desk.handed[i].plaintext != claim.plaintext
    ensures DeskOk(desk.(pending := desk.pending[id := claim]))
  {
    hide Inv, DistinctIds, Backed, TokensSound, OneLiveEach, LiveFor;
    var desk' := desk.(pending := desk.pending[id := claim]);
    forall c | c in desk'.pending
      ensures ClaimSound(desk', desk'.pending[c])
    {
      if c != id {
        assert ClaimSound(desk, desk.pending[c]);
      }
    }
    forall i | 0 <= i < |desk.handed|
      ensures HandoverSound(desk', desk.handed[i])
    {
      assert HandoverSound(desk, desk.handed[i]);
    }
  }

  lemma MintKeepsDesk(desk: Desk, req: Request, scopes: set<string>, supply: Supply)
    requires DeskOk(desk) && Supplies(desk, supply) && scopes != {} && scopes <= SCOPES
    requires ChildOf(desk.db.rows, req.child, req.parent) && req.child in desk.caps.bindings
    requires desk.caps.bindings[req.child].authorizer == req.authorizer
    requires desk.caps.bindings[req.child].scopes == scopes
    ensures DeskOk(Mint(desk, req, scopes, supply))
  {
    hide Inv, Rotate, OneLiveEach, TokensSound, Backed, IsFresh;
    var cleared := desk.(pending := Purged(desk.pending, {req.child}));
    FewerClaims(desk, cleared.pending);
    var caps := MintedCaps(desk.caps, req.child, scopes, supply.draw);
    RotationMoved(cleared, req.child, scopes, supply.draw, caps);
    TokensAreDistinct(desk.db.rows, desk.caps.tokens);
    RotateLeavesOne(desk.caps.tokens, req.child, scopes, supply.draw);
    HandedIsOld(desk, supply.draw);
    assert LiveFor(caps.tokens, supply.draw.secret, req.child);
    ClaimParked(cleared.(caps := caps), NewClaim(req, supply), supply.claim);
  }

  lemma TokensAreDistinct(rows: map<Id, Row>, tokens: map<Secret, Token>)
    requires TokensSound(rows, tokens)
    ensures DistinctIds(tokens)
  {
  }

  lemma HandedIsOld(desk: Desk, draw: Draw)
    requires HandedSound(desk) && IsFresh(desk.caps.tokens, draw)
    ensures forall i :: 0 <= i < |desk.handed| ==> desk.handed[i].plaintext != draw.secret
  {
  }

  // ---- Reserve requests ----

  /** What authorisation and validation together leave to be passed on. */
  lemma ScopesAreBacked(rows: map<Id, Row>, tokens: map<Secret, Token>, req: Request, scopes: set<string>)
    requires TokensSound(rows, tokens) && Authorised(tokens, req)
    requires ValidateChildScopes(req.asked, req.issuerScopes) == Ok(scopes)
    ensures Backed(tokens, req.authorizer, scopes) && scopes != {} && scopes <= SCOPES
  {
  }

  lemma BindingNoted(desk: Desk, req: Request, scopes: set<string>)
    requires DeskOk(desk) && Backed(desk.caps.tokens, req.authorizer, scopes)
    ensures DeskOk(desk.(caps := Bound(desk.caps, req, scopes)))
  {
    hide Inv, DistinctIds, TokensSound, OneLiveEach, Backed, HandedSound, BindingsSound;
    forall c | c in desk.pending
      ensures CarriesClaim(desk, Bound(desk.caps, req, scopes), desk.pending[c])
    {
      assert ClaimSound(desk, desk.pending[c]);
    }
    CapsMoved(desk, Bound(desk.caps, req, scopes));
  }

  lemma KnownIsChild(db: Db, req: Request)
    requires Forest(db.rows) && req.child in db.rows && Step(db, ReserveOp(req)).1.Known?
    ensures ChildOf(db.rows, req.child, req.parent)
  {
  }

  lemma LedgerStepKept(desk: Desk, op: Op)
    requires DeskOk(desk)
    ensures Inv(desk.db) && Inv(Step(desk.db, op).0) && Later(desk.db, Step(desk.db, op).0)
    ensures DeskOk(desk.(db := Step(desk.db, op).0))
  {
    hide Step, ClaimsSound, TokensSound, OneLiveEach, BindingsSound, HandedSound, Slots, SettledSpend, OwnSpend;
    StepKeepsInv(desk.db, op);
    StepIsLater(desk.db, op);
    LedgerMoved(desk, Step(desk.db, op).0);
  }

  lemma RetryKeepsDesk(desk: Desk, req: Request, scopes: set<string>, legacy: Option<set<string>>, supply: Supply)
    requires DeskOk(desk) && Supplies(desk, supply) && scopes != {} && scopes <= SCOPES
    requires Forest(desk.db.rows) && req.child in desk.db.rows
    ensures DeskOk(Retried(desk, req, scopes, legacy, supply).0)
  {
    hide DeskOk, Step, Mint, Revoking, Supplies;
    if Retried(desk, req, scopes, legacy, supply).1.Minted? {
      KnownIsChild(desk.db, req);
      MintKeepsDesk(desk, req, scopes, supply);
    }
  }

  lemma FirstKeepsDesk(desk: Desk, req: Request, scopes: set<string>, retry: bool, supply: Supply)
    requires DeskOk(desk) && Supplies(desk, supply) && scopes != {} && scopes <= SCOPES
    requires Backed(desk.caps.tokens, req.authorizer, scopes)
    requires Forest(desk.db.rows) && req.child !in desk.db.rows && req.parent in desk.db.rows
    ensures DeskOk(FirstTime(desk, req, scopes, retry, supply).0)
  {
    hide DeskOk, Step, Mint, IsFresh, Backed, Inv;
    BindingNoted(desk, req, scopes);
    if FirstTime(desk, req, scopes, retry, supply).1.Minted? {
      var noted := desk.(caps := Bound(desk.caps, req, scopes));
      CreatedRow(desk.db, ReserveOp(req));
      LedgerStepKept(noted, ReserveOp(req));
      MintKeepsDesk(noted.(db := Step(desk.db, ReserveOp(req)).0), req, scopes, supply);
    }
  }

  lemma FinishKeepsDesk(desk: Desk, req: Request, retry: bool, legacy: Option<set<string>>, supply: Supply)
    requires DeskOk(desk) && Supplies(desk, supply) && Authorised(desk.caps.tokens, req) && Forest(desk.db.rows)
    ensures DeskOk(Finished(desk, req, retry, legacy, supply).0)
  {
    hide Supplies, Authorised, Retried, FirstTime, ValidateChildScopes, Inv, ClaimsSound, TokensSound, OneLiveEach,
         BindingsSound, HandedSound;
    var checked := ValidateChildScopes(req.asked, req.issuerScopes);
    if checked.Ok? {
      ScopesAreBacked(desk.db.rows, desk.caps.tokens, req, checked.value);
      if req.child in desk.db.rows {
        RetryKeepsDesk(desk, req, checked.value, legacy, supply);
      } else if req.parent in desk.db.rows {
        FirstKeepsDesk(desk, req, checked.value, retry, supply);
      }
    }
  }

  // ---- The server's moves ----

  datatype Move =
    // a reserve request under a presented credential
    | AskReserve(presented: Option<Secret>, now: int, req: Request, legacy: Option<set<string>>, supply: Supply)
    // a grant that resumes a parked reserve request
    | Continue(req: Request, presented: Option<Secret>, now: int, event: EventId, amount: int,
               legacy: Option<set<string>>, supply: Supply)
    // any other request to the ledger, from any process
    | Ledger(op: Op)
    // the end of a revoke: tokens and claims of the subtree go
    | DropAccess(d: Id)
    | Claiming(id: ClaimId, presented: Option<Secret>, monotonic: int, now: int)
    // a root's token, from bootstrap (beside what is live) or from session recovery (superseding it)
    | RootToken(d: Id, scopes: set<string>, draw: Draw, superseding: bool)
    // the process restarts; the buffer is lost
    | Restart

  ghost function Subtree(rows: map<Id, Row>, d: Id): set<Id>
    requires Forest(rows)
  {
    set x | x in rows && Under(rows, x, d)
  }

  /** What limits each move. A parked request carries what `authorize` established when it was made. */
  ghost predicate Legal(desk: Desk, move: Move)
    requires Forest(desk.db.rows)
  {
    match move
    case AskReserve(_, _, _, _, supply) => Supplies(desk, supply)
    case Continue(req, _, _, _, _, _, supply) => Supplies(desk, supply) && Authorised(desk.caps.tokens, req)
    case DropAccess(d) => d in desk.db.rows && Revoking(desk.db.rows, d)
    case RootToken(d, scopes, draw, _) =>
      && d in desk.db.rows && desk.db.rows[d].parent.None?
      && scopes != {} && scopes <= SCOPES && IsFresh(desk.caps.tokens, draw)
    case _ => true
  }

  ghost function Granted(desk: Desk, event: EventId, d: Id, amount: int): (desk': Desk)
    requires Inv(desk.db)
    ensures Inv(desk'.db)
  {
    hide Step, Inv;
    InvIsShaped(desk.db);
    StepKeepsInv(desk.db, DoGrant(event, d, amount));
    desk.(db := Step(desk.db, DoGrant(event, d, amount)).0)
  }

  /** What `is_revocation_in_progress` answers. */
  ghost function TornDown(rows: map<Id, Row>): Id -> bool
    requires Forest(rows)
  {
    x => Forest(rows) && Revoking(rows, x)
  }

  ghost function RedeemMove(desk: Desk, id: ClaimId, presented: Option<Secret>, monotonic: int, now: int): Desk
    requires Forest(desk.db.rows)
  {
    var (outcome, gone) := Redeem(desk.pending, desk.caps.tokens, id, presented,
                                  TornDown(desk.db.rows), monotonic, now);
    desk.(pending := AfterRedeem(desk.pending, id, gone),
          handed := if outcome.Redeemed? && id in desk.pending
                    then desk.handed + [Handover(id, desk.pending[id].child, outcome.plaintext, outcome.to)]
                    else desk.handed)
  }

  function RootTokens(tokens: map<Secret, Token>, d: Id, scopes: set<string>, draw: Draw, superseding: bool)
    : map<Secret, Token>
  {
    if superseding then Rotate(tokens, d, scopes, draw)
    else tokens[draw.secret := Token(draw.id, d, scopes, draw.expiresAt, false)]
  }

  function AskedBy(req: Request, token: Token): Request {
    req.(authorizer := token.id, issuerScopes := token.scopes)
  }

  /** A reserve request, from the check of the presented credential on. */
  ghost function Reserving(desk: Desk, presented: Option<Secret>, now: int, req: Request, legacy: Option<set<string>>,
                           supply: Supply): (Desk, Outcome)
    requires Inv(desk.db)
  {
    hide Inv, Step, Finished;
    InvIsShaped(desk.db);
    match Authorize(desk.caps.tokens, presented, req.parent, "reserve", now)
    case Err(reason) => (desk, Rejected(reason))
    case Ok(token) => Finished(desk, AskedBy(req, token), false, legacy, supply)
  }

  /** A grant to the parent of a parked request, which then goes on. */
  ghost function Continuing(desk: Desk, req: Request, presented: Option<Secret>, now: int, event: EventId, amount: int,
                            legacy: Option<set<string>>, supply: Supply): (Desk, Outcome)
    requires Inv(desk.db)
  {
    hide Inv, Step, Finished;
    InvIsShaped(desk.db);
    match Authorize(desk.caps.tokens, presented, req.parent, "grant", now)
    case Err(reason) => (desk, Rejected(reason))
    case Ok(_) =>
      var reply := Step(desk.db, DoGrant(event, req.parent, amount)).1;
      if reply.Done? || reply.Known?
      then
        var granted := Granted(desk, event, req.parent, amount);
        InvIsShaped(granted.db);
        Finished(granted, req, true, legacy, supply)
      else (desk, if reply.Conflict? then EventConflicts else Failed)
  }

  ghost function Apply(desk: Desk, move: Move): Desk
    requires Inv(desk.db)
  {
    hide Inv, Step, Finished;
    InvIsShaped(desk.db);
    match move
    case AskReserve(presented, now, req, legacy, supply) => Reserving(desk, presented, now, req, legacy, supply).0
    case Continue(req, presented, now, event, amount, legacy, supply) =>
      Continuing(desk, req, presented, now, event, amount, legacy, supply).0
    case Ledger(op) => desk.(db := Step(desk.db, op).0)
    case DropAccess(d) =>
      var ds := Subtree(desk.db.rows, d);
      desk.(caps := desk.caps.(tokens := RevokeTokens(desk.caps.tokens, ds)), pending := Purged(desk.pending, ds))
    case Claiming(id, presented, monotonic, now) => RedeemMove(desk, id, presented, monotonic, now)
    case RootToken(d, scopes, draw, superseding) =>
      desk.(caps := desk.caps.(tokens := RootTokens(desk.caps.tokens, d, scopes, draw, superseding)))
    case Restart => desk.(pending := map[])
  }

  // ---- Every move keeps the desk in order ----

  lemma AuthorizedIsToken(tokens: map<Secret, Token>, presented: Option<Secret>, req: Request, scope: string, now: int)
    requires Authorize(tokens, presented, req.parent, scope, now).Ok?
    ensures Authorised(tokens, AskedBy(req, Authorize(tokens, presented, req.parent, scope, now).value))
  {
  }

  lemma PurgeClears(pending: Claims, ds: set<Id>)
    ensures NoClaimFor(Purged(pending, ds), ds)
    ensures Purged(pending, ds).Keys <= pending.Keys
    ensures forall c :: c in Purged(pending, ds) ==> Purged(pending, ds)[c] == pending[c]
  {
  }

  lemma DropKeepsDesk(desk: Desk, ds: set<Id>)
    requires DeskOk(desk)
    ensures DeskOk(desk.(caps := desk.caps.(tokens := RevokeTokens(desk.caps.tokens, ds)),
                         pending := Purged(desk.pending, ds)))
  {
    hide DeskOk, RevokeTokens, Purged, NoClaimFor;
    PurgeClears(desk.pending, ds);
    FewerClaims(desk, Purged(desk.pending, ds));
    RevocationMoved(desk.(pending := Purged(desk.pending, ds)), ds);
  }

  lemma RootHasNoClaim(desk: Desk, d: Id)
    requires ClaimsSound(desk) && d in desk.db.rows && desk.db.rows[d].parent.None?
    ensures NoClaimFor(desk.pending, {d})
  {
  }

  lemma RootIssueKept(desk: Desk, d: Id, scopes: set<string>, draw: Draw)
    requires DeskOk(desk) && d in desk.db.rows && desk.db.rows[d].parent.None?
    requires scopes != {} && scopes <= SCOPES && IsFresh(desk.caps.tokens, draw)
    ensures DeskOk(desk.(caps := desk.caps.(tokens := RootTokens(desk.caps.tokens, d, scopes, draw, false))))
  {
    hide Inv, Backed, BindingsSound, HandedSound, ClaimsSound;
    var tokens := RootTokens(desk.caps.tokens, d, scopes, draw, false);
    forall s, e | e != d
      ensures LiveFor(tokens, s, e) <==> LiveFor(desk.caps.tokens, s, e)
    {
    }
    CapsMoved(desk, desk.caps.(tokens := RootTokens(desk.caps.tokens, d, scopes, draw, false)));
  }

  lemma RootTokenKept(desk: Desk, d: Id, scopes: set<string>, draw: Draw, superseding: bool)
    requires DeskOk(desk) && d in desk.db.rows && desk.db.rows[d].parent.None?
    requires scopes != {} && scopes <= SCOPES && IsFresh(desk.caps.tokens, draw)
    ensures DeskOk(desk.(caps := desk.caps.(tokens := RootTokens(desk.caps.tokens, d, scopes, draw, superseding))))
  {
    hide Inv, Rotate, Backed, BindingsSound, HandedSound, TokensSound, OneLiveEach, IsFresh, NoClaimFor;
    if superseding {
      RootHasNoClaim(desk, d);
      RotationMoved(desk, d, scopes, draw, desk.caps.(tokens := Rotate(desk.caps.tokens, d, scopes, draw)));
    } else {
      RootIssueKept(desk, d, scopes, draw);
    }
  }

  lemma HandedOver(desk: Desk, id: ClaimId, h: Handover)
    requires DeskOk(desk) && id in desk.pending
    requires h == Handover(id, desk.pending[id].child, desk.pending[id].plaintext, desk.pending[id].authorizer)
    ensures DeskOk(desk.(pending := desk.pending - {id}, handed := desk.handed + [h]))
  {
    hide Inv, DistinctIds, Backed, TokensSound, OneLiveEach;
    var desk' := desk.(pending := desk.pending - {id}, handed := desk.handed + [h]);
    assert ClaimSound(desk, desk.pending[id]);
    forall c | c in desk'.pending
      ensures ClaimSound(desk', desk'.pending[c]) && desk'.pending[c].plaintext != h.plaintext
    {
      assert ClaimSound(desk, desk.pending[c]);
    }
    forall i | 0 <= i < |desk'.handed|
      ensures HandoverSound(desk', desk'.handed[i])
      ensures i < |desk.handed| ==> desk'.handed[i].claim != id && desk'.handed[i].plaintext != h.plaintext
    {
      if i < |desk.handed| {
        assert HandoverSound(desk, desk.handed[i]);
      }
    }
  }

  lemma RedeemKeepsDesk(desk: Desk, id: ClaimId, presented: Option<Secret>, monotonic: int, now: int)
    requires DeskOk(desk) && Forest(desk.db.rows)
    ensures DeskOk(RedeemMove(desk, id, presented, monotonic, now))
  {
    hide DeskOk, Authorize, Revoking;
    var (outcome, gone) := Redeem(desk.pending, desk.caps.tokens, id, presented,
                                  TornDown(desk.db.rows), monotonic, now);
    if outcome.Redeemed? {
      HandedOver(desk, id, Handover(id, desk.pending[id].child, outcome.plaintext, outcome.to));
    } else {
      FewerClaims(desk, AfterRedeem(desk.pending, id, gone));
    }
  }

  lemma DeskIsInv(desk: Desk)
    requires DeskOk(desk)
    ensures Inv(desk.db)
  {
  }

  /** Every move of the server, and every request of the other processes, keeps the credential tables,
      the claim buffer and the record of what was handed over in order. */
  lemma MoveKeepsDesk(desk: Desk, move: Move)
    requires DeskOk(desk) && Inv(desk.db) && Forest(desk.db.rows) && Legal(desk, move)
    ensures DeskOk(Apply(desk, move)) && Inv(Apply(desk, move).db)
  {
    hide DeskOk, Inv, Supplies, Authorised, Authorize, Finished, Step, RedeemMove, Revoking, Under, Rotate, IsFresh,
         RevokeTokens, Purged, RootTokens;
    match move {
      case AskReserve(presented, now, req, legacy, supply) =>
        var checked := Authorize(desk.caps.tokens, presented, req.parent, "reserve", now);
        if checked.Ok? {
          AuthorizedIsToken(desk.caps.tokens, presented, req, "reserve", now);
          FinishKeepsDesk(desk, AskedBy(req, checked.value), false, legacy, supply);
        }
      case Continue(req, presented, now, event, amount, legacy, supply) =>
        LedgerStepKept(desk, DoGrant(event, req.parent, amount));
        var granted := Granted(desk, event, req.parent, amount);
        InvIsShaped(granted.db);
        SuppliesStay(desk, granted, supply);
        FinishKeepsDesk(granted, req, true, legacy, supply);
      case Ledger(op) => LedgerStepKept(desk, op);
      case DropAccess(d) => DropKeepsDesk(desk, Subtree(desk.db.rows, d));
      case Claiming(id, presented, monotonic, now) => RedeemKeepsDesk(desk, id, presented, monotonic, now);
      case RootToken(d, scopes, draw, superseding) => RootTokenKept(desk, d, scopes, draw, superseding);
      case Restart => FewerClaims(desk, map[]);
    }
    DeskIsInv(Apply(desk, move));
  }

  lemma SuppliesStay(desk: Desk, desk': Desk, supply: Supply)
    requires Supplies(desk, supply)
    requires desk'.caps.tokens == desk.caps.tokens && desk'.pending == desk.pending && desk'.handed == desk.handed
    ensures Supplies(desk', supply)
  {
  }

  // ---- Whole runs ----

  ghost predicate AllLegal(desk: Desk, moves: seq<Move>)
    requires DeskOk(desk)
    decreases |moves|
  {
    DeskIsInv(desk);
    InvIsShaped(desk.db);
    moves == []
    || (Legal(desk, moves[0]) && (MoveKeepsDesk(desk, moves[0]); AllLegal(Apply(desk, moves[0]), moves[1..])))
  }

  ghost function Serve(desk: Desk, moves: seq<Move>): (desk': Desk)
    requires DeskOk(desk) && AllLegal(desk, moves)
    ensures DeskOk(desk')
    decreases |moves|
  {
    if moves == [] then desk
    else
      DeskIsInv(desk);
      InvIsShaped(desk.db);
      MoveKeepsDesk(desk, moves[0]);
      Serve(Apply(desk, moves[0]), moves[1..])
  }

  const EMPTY_DESK: Desk := Desk(EMPTY, Caps(map[], map[], map[]), map[], [])

  lemma EmptyDesk()
    ensures DeskOk(EMPTY_DESK)
  {
  }

  ghost predicate Possible(moves: seq<Move>) {
    EmptyDesk();
    AllLegal(EMPTY_DESK, moves)
  }

  /** The desk after a run that starts with nothing. */
  ghost function Reached(moves: seq<Move>): (desk: Desk)
    requires Possible(moves)
    ensures DeskOk(desk)
  {
    EmptyDesk();
    Serve(EMPTY_DESK, moves)
  }

  /** Over every run of the server: a child has at most one live token and at most one pending claim;
      each pending claim holds the live current token of its child; and each claim, and each token,
      was handed over at most once, to the token that authorised the reservation. */
  lemma OneWorkingCredential(moves: seq<Move>)
    requires Possible(moves)
    ensures OneLiveEach(Reached(moves).db.rows, Reached(moves).caps.tokens)
    ensures ClaimsSound(Reached(moves))
    ensures HandedSound(Reached(moves))
  {
  }

  /** No credential that was handed over, or waits to be, carries a scope its authoriser lacks. */
  lemma ScopesNeverWiden(moves: seq<Move>)
    requires Possible(moves)
    ensures var desk := Reached(moves);
            && (forall i :: 0 <= i < |desk.handed| ==>
                  desk.handed[i].plaintext in desk.caps.tokens
                  && Backed(desk.caps.tokens, desk.handed[i].to, desk.caps.tokens[desk.handed[i].plaintext].scopes))
            && (forall c :: c in desk.pending ==>
                  desk.pending[c].plaintext in desk.caps.tokens
                  && Backed(desk.caps.tokens, desk.pending[c].authorizer,
                            desk.caps.tokens[desk.pending[c].plaintext].scopes))
  {
    hide Inv, TokensSound, OneLiveEach, Reached, Possible, Backed;
    var desk := Reached(moves);
    forall i | 0 <= i < |desk.handed|
      ensures HandoverSound(desk, desk.handed[i])
    {
    }
    forall c | c in desk.pending
      ensures ClaimSound(desk, desk.pending[c])
    {
    }
  }

  /** A redemption hands over the live current token of the child, to a live token of the child's parent:
      the one that authorised the reservation, while nothing above the child is being torn down. */
  lemma RedemptionHandsOverLive(desk: Desk, id: ClaimId, presented: Option<Secret>, monotonic: int, now: int)
    requires DeskOk(desk) && Forest(desk.db.rows)
    ensures var outcome := Redeem(desk.pending, desk.caps.tokens, id, presented, TornDown(desk.db.rows), monotonic,
                                  now).0;
            outcome.Redeemed? ==>
              && id in desk.pending && presented.Some?
              && var (child, issuer, tokens) := (desk.pending[id].child, desk.pending[id].issuer, desk.caps.tokens);
              && ChildOf(desk.db.rows, child, issuer) && !Revoking(desk.db.rows, child)
              && LiveFor(tokens, outcome.plaintext, child) && LiveFor(tokens, presented.value, issuer)
              && child in desk.caps.bindings
              && desk.caps.bindings[child].current == Some(tokens[outcome.plaintext].id)
              && desk.caps.bindings[child].authorizer == tokens[presented.value].id == outcome.to
  {
    hide Redeem, Inv, TokensSound, OneLiveEach, BindingsSound, HandedSound, Revoking;
    RedeemedExactly(desk.pending, desk.caps.tokens, id, presented, TornDown(desk.db.rows), monotonic, now);
    if id in desk.pending {
      assert ClaimSound(desk, desk.pending[id]);
    }
  }

  // ---- Recovery and retries ----

  /** Whatever is minted for a child supersedes all that came before: no older token of it is live and
      no older claim for it is pending. */
  lemma MintSupersedes(desk: Desk, req: Request, scopes: set<string>, supply: Supply)
    requires DeskOk(desk) && Supplies(desk, supply) && req.child in desk.caps.bindings
    ensures var desk' := Mint(desk, req, scopes, supply);
            && (forall s :: LiveFor(desk'.caps.tokens, s, req.child) <==> s == supply.draw.secret)
            && (forall c :: c in desk'.pending && desk'.pending[c].child == req.child <==> c == supply.claim)
            && desk'.db == desk.db && desk'.handed == desk.handed
  {
    hide Inv, Rotate, ClaimsSound, OneLiveEach, BindingsSound, HandedSound, LiveFor;
    RotateLeavesOne(desk.caps.tokens, req.child, scopes, supply.draw);
  }

  /** A request for a delegation that exists never touches the ledger, and touches a credential only to
      recover it: for the exact authoriser, with the scopes first bound, while the delegation is active
      and nothing above it is being torn down. */
  lemma OnlyRecoveryMints(desk: Desk, req: Request, retry: bool, legacy: Option<set<string>>, supply: Supply)
    requires DeskOk(desk) && Forest(desk.db.rows) && req.child in desk.db.rows
    ensures var (desk', outcome) := Finished(desk, req, retry, legacy, supply);
            && desk'.db == desk.db
            && (desk' != desk ==> outcome.Minted?)
            && (outcome.Minted? ==>
                  && req.recover && req.child in desk.caps.bindings
                  && desk.caps.bindings[req.child].authorizer == req.authorizer
                  && ValidateChildScopes(req.asked, req.issuerScopes) == Ok(desk.caps.bindings[req.child].scopes)
                  && desk.db.rows[req.child].active && !Revoking(desk.db.rows, req.child))
  {
    hide DeskOk, Step, Revoking, Rotate, Purged, ValidateChildScopes;
  }

  /** What a new reservation leaves behind when it is turned away: nothing if its scopes are refused or
      its child is bound to another credential, and otherwise only the binding. */
  lemma RefusalLeavesOnlyBinding(desk: Desk, req: Request, retry: bool, legacy: Option<set<string>>, supply: Supply)
    requires DeskOk(desk) && Forest(desk.db.rows) && req.child !in desk.db.rows
    ensures var (desk', outcome) := Finished(desk, req, retry, legacy, supply);
            !outcome.Minted? ==>
              && desk'.db == desk.db && desk'.pending == desk.pending && desk'.caps.tokens == desk.caps.tokens
              && (ValidateChildScopes(req.asked, req.issuerScopes).Err? || outcome.BoundElsewhere? ==> desk' == desk)
              && (forall d :: d in desk'.caps.bindings && d != req.child ==>
                    d in desk.caps.bindings && desk'.caps.bindings[d] == desk.caps.bindings[d])
  {
    hide DeskOk, Step, Revoking, Mint, ValidateChildScopes;
  }

  /** The parent can take requests, and the scopes asked for may be passed on. */
  ghost predicate Acceptable(desk: Desk, req: Request) {
    && req.parent in desk.db.rows && desk.db.rows[req.parent].active && desk.db.rows[req.parent].unknownCount == 0
    && ValidateChildScopes(req.asked, req.issuerScopes).Ok?
  }

  /** A new reservation that nothing binds to another credential or to other scopes. */
  ghost predicate NewFor(desk: Desk, req: Request) {
    && req.child !in desk.db.rows && ValidateChildScopes(req.asked, req.issuerScopes).Ok?
    && !BoundOtherwise(desk.caps, req, ValidateChildScopes(req.asked, req.issuerScopes).value)
  }

  /** The same reservation again. */
  ghost predicate Repeats(desk: Desk, req: Request) {
    && req.child in desk.db.rows && AmountOk(req.maximum)
    && desk.db.rows[req.child].parent == Some(req.parent) && desk.db.rows[req.child].agent == req.agent
    && desk.db.rows[req.child].authority == req.maximum
  }

  /** With the scopes first issued, as far as they are known. */
  ghost predicate SameScopes(desk: Desk, req: Request, legacy: Option<set<string>>) {
    var first := if req.child in desk.caps.bindings then Some(desk.caps.bindings[req.child].scopes) else legacy;
    first.Some? ==> ValidateChildScopes(req.asked, req.issuerScopes) == Ok(first.value)
  }

  /** Asks for the credential again, of a child whose binding is known. */
  predicate AsksBack(desk: Desk, req: Request) {
    req.recover && req.child in desk.caps.bindings
  }

  /** By its authoriser, while the child is active outside any teardown. */
  ghost predicate Recovers(desk: Desk, req: Request)
    requires Forest(desk.db.rows)
  {
    && Repeats(desk, req) && AsksBack(desk, req) && desk.caps.bindings[req.child].authorizer == req.authorizer
    && ValidateChildScopes(req.asked, req.issuerScopes) == Ok(desk.caps.bindings[req.child].scopes)
    && desk.db.rows[req.child].active && !Revoking(desk.db.rows, req.child)
  }

  /** A credential is minted exactly for a new reservation its parent can fund outside any teardown, and for
      a recovery. A new one is parked exactly when the parent's headroom is short. Each way of turning a
      request away has its own condition, and whatever is left fails. */
  lemma AnsweredExactly(desk: Desk, req: Request, retry: bool, legacy: Option<set<string>>, supply: Supply)
    requires Inv(desk.db) && Forest(desk.db.rows)
    ensures var outcome := Finished(desk, req, retry, legacy, supply).1;
            && (outcome.Minted? <==>
                  && Acceptable(desk, req)
                  && ((NewFor(desk, req) && AmountOk(req.maximum) && req.maximum >= 0
                       && Funds(desk.db, req.parent, req.maximum) && !Revoking(desk.db.rows, req.parent))
                      || Recovers(desk, req)))
            && (outcome.Parked? <==>
                  && Acceptable(desk, req) && NewFor(desk, req) && !retry
                  && req.maximum > Uncommitted(desk.db, req.parent))
            && (outcome.Parked? ==> outcome.shortfall == req.maximum - Uncommitted(desk.db, req.parent))
            && (outcome.AlreadyReserved? <==>
                  Acceptable(desk, req) && Repeats(desk, req) && SameScopes(desk, req, legacy) && !AsksBack(desk, req))
            && (outcome.Rejected? <==>
                  && Acceptable(desk, req) && Repeats(desk, req) && AsksBack(desk, req)
                  && desk.caps.bindings[req.child].authorizer != req.authorizer)
            && (outcome.EventConflicts? <==>
                  Acceptable(desk, req) && req.child in desk.db.rows && !Repeats(desk, req))
            && (outcome.BoundElsewhere? <==> Acceptable(desk, req) && req.child !in desk.db.rows && !NewFor(desk, req))
  {
    hide Inv, Step, Revoking, ValidateChildScopes, Mint, Uncommitted;
    ReserveExactly(desk.db, req.event, req.parent, req.child, req.agent, req.maximum);
    if req.parent in desk.db.rows && desk.db.rows[req.parent].active {
      HeadroomIsUncommitted(desk.db, req.parent);
    }
  }

  // ---- A revoked subtree stays dark ----

  /** No delegation of the subtree, other than a root, has a live token, and no claim is pending for
      one or issued by one. */
  ghost predicate Dark(desk: Desk, d: Id)
    requires Forest(desk.db.rows)
  {
    && (forall s, x :: LiveFor(desk.caps.tokens, s, x) && x in desk.db.rows && Under(desk.db.rows, x, d) ==>
          desk.db.rows[x].parent.None?)
    && (forall c :: c in desk.pending && desk.pending[c].child in desk.db.rows ==>
          !Under(desk.db.rows, desk.pending[c].child, d))
  }

  lemma DropDarkens(desk: Desk, d: Id)
    requires DeskOk(desk) && Inv(desk.db) && Forest(desk.db.rows)
    ensures Dark(Apply(desk, DropAccess(d)), d)
  {
    hide DeskOk, Under, Inv;
  }

  /** Between the two desks nothing became live or claimable but for `child`. */
  ghost predicate OnlyFor(desk: Desk, desk': Desk, child: Id) {
    && (forall s, x :: LiveFor(desk'.caps.tokens, s, x) && x != child ==> LiveFor(desk.caps.tokens, s, x))
    && (forall c :: c in desk'.pending && desk'.pending[c].child != child ==>
          c in desk.pending && desk.pending[c].child == desk'.pending[c].child)
  }

  ghost predicate SameCredentials(desk: Desk, desk': Desk) {
    desk'.caps.tokens == desk.caps.tokens && desk'.pending == desk.pending
  }

  lemma MintIsOnlyFor(desk: Desk, req: Request, scopes: set<string>, supply: Supply)
    requires req.child in desk.caps.bindings
    ensures OnlyFor(desk, Mint(desk, req, scopes, supply), req.child)
  {
  }

  lemma RetryIsOnlyFor(desk: Desk, req: Request, scopes: set<string>, legacy: Option<set<string>>, supply: Supply)
    requires Forest(desk.db.rows) && req.child in desk.db.rows
    ensures var desk' := Retried(desk, req, scopes, legacy, supply).0;
            && OnlyFor(desk, desk', req.child) && desk'.db == desk.db
            && (!SameCredentials(desk, desk') ==>
                  !Revoking(desk.db.rows, req.child) && desk.db.rows[req.child].parent.Some?)
  {
    hide Step, Revoking, Mint;
    if Step(desk.db, ReserveOp(req)).1.Known? {
      KnownIsChild(desk.db, req);
    }
    if req.child in desk.caps.bindings {
      MintIsOnlyFor(desk, req, scopes, supply);
      assert Mint(desk, req, scopes, supply).db == desk.db by { MintKeepsLedger(desk, req, scopes, supply); }
    }
  }

  lemma MintKeepsLedger(desk: Desk, req: Request, scopes: set<string>, supply: Supply)
    requires req.child in desk.caps.bindings
    ensures Mint(desk, req, scopes, supply).db == desk.db
  {
  }

  lemma FirstIsOnlyFor(desk: Desk, req: Request, scopes: set<string>, retry: bool, supply: Supply)
    requires Forest(desk.db.rows) && req.child !in desk.db.rows && req.parent in desk.db.rows
    ensures var desk' := FirstTime(desk, req, scopes, retry, supply).0;
            && OnlyFor(desk, desk', req.child)
            && (desk'.db == desk.db || desk'.db == Step(desk.db, ReserveOp(req)).0)
  {
    hide Step, Mint;
    var noted := desk.(caps := Bound(desk.caps, req, scopes), db := Step(desk.db, ReserveOp(req)).0);
    MintIsOnlyFor(noted, req, scopes, supply);
    MintKeepsLedger(noted, req, scopes, supply);
  }

  /** A request that mints does so for a child that is new, or that nothing above is tearing down. */
  lemma FinishIsOnlyFor(desk: Desk, req: Request, retry: bool, legacy: Option<set<string>>, supply: Supply)
    requires Forest(desk.db.rows)
    ensures var desk' := Finished(desk, req, retry, legacy, supply).0;
            && OnlyFor(desk, desk', req.child)
            && (!SameCredentials(desk, desk') && req.child in desk.db.rows ==>
                  !Revoking(desk.db.rows, req.child) && desk.db.rows[req.child].parent.Some?)
            && (desk'.db == desk.db || desk'.db == Step(desk.db, ReserveOp(req)).0)
  {
    hide Step, Revoking, ValidateChildScopes, Retried, FirstTime;
    var checked := ValidateChildScopes(req.asked, req.issuerScopes);
    if checked.Ok? && req.child in desk.db.rows {
      RetryIsOnlyFor(desk, req, checked.value, legacy, supply);
    } else if checked.Ok? && req.parent in desk.db.rows {
      FirstIsOnlyFor(desk, req, checked.value, retry, supply);
    }
  }

  lemma FinishStaysDark(desk: Desk, req: Request, retry: bool, legacy: Option<set<string>>, supply: Supply, d: Id)
    requires Inv(desk.db) && Forest(desk.db.rows) && Dark(desk, d) && d in desk.db.rows && Revoking(desk.db.rows, d)
    ensures var desk' := Finished(desk, req, retry, legacy, supply).0;
            Forest(desk'.db.rows) && Dark(desk', d) && d in desk'.db.rows && Revoking(desk'.db.rows, d)
  {
    hide Step, Revoking, Finished, Dark, Under, Inv, SameSubtree, OnlyFor, SameCredentials;
    var desk' := Finished(desk, req, retry, legacy, supply).0;
    FinishIsOnlyFor(desk, req, retry, legacy, supply);
    FreezeStep(desk.db, ReserveOp(req), d);
    InvIsShaped(Step(desk.db, ReserveOp(req)).0);
    SubtreeIsItself(desk.db, d);
    if req.child in desk.db.rows && Under(desk.db.rows, req.child, d) {
      RevokingDownward(desk.db.rows, req.child, d);
    }
    StaysDarkOrSame(desk, desk', d, req.child);
  }

  lemma SubtreeIsItself(db: Db, d: Id)
    requires Forest(db.rows)
    ensures SameSubtree(db, db, d)
  {
  }

  lemma StaysDarkOrSame(desk: Desk, desk': Desk, d: Id, child: Id)
    requires Forest(desk.db.rows) && Forest(desk'.db.rows) && Dark(desk, d)
    requires SameSubtree(desk.db, desk'.db, d) && Extends(desk.db.rows, desk'.db.rows)
    requires OnlyFor(desk, desk', child)
    requires SameCredentials(desk, desk') || child !in desk.db.rows || !Under(desk.db.rows, child, d)
    ensures Dark(desk', d)
  {
  }

  /** A superseding token for a root is no token of a child. */
  lemma RootStaysDark(desk: Desk, root: Id, scopes: set<string>, draw: Draw, superseding: bool, d: Id)
    requires Forest(desk.db.rows) && Dark(desk, d) && root in desk.db.rows && desk.db.rows[root].parent.None?
    requires DistinctIds(desk.caps.tokens) && IsFresh(desk.caps.tokens, draw)
    ensures Dark(desk.(caps := desk.caps.(tokens := RootTokens(desk.caps.tokens, root, scopes, draw, superseding))), d)
  {
    hide Under;
    var tokens := RootTokens(desk.caps.tokens, root, scopes, draw, superseding);
    forall s, x | LiveFor(tokens, s, x)
      ensures x == root || LiveFor(desk.caps.tokens, s, x)
    {
      assert s == draw.secret || s in desk.caps.tokens;
    }
  }

  lemma LessStaysDark(desk: Desk, desk': Desk, d: Id)
    requires Forest(desk.db.rows) && desk'.db == desk.db && Dark(desk, d)
    requires forall s, x :: LiveFor(desk'.caps.tokens, s, x) ==> LiveFor(desk.caps.tokens, s, x)
    requires forall c :: c in desk'.pending ==> c in desk.pending && desk'.pending[c] == desk.pending[c]
    ensures Dark(desk', d)
  {
  }

  lemma StepStaysDark(desk: Desk, op: Op, d: Id)
    requires Inv(desk.db) && Forest(desk.db.rows) && Dark(desk, d) && d in desk.db.rows && Revoking(desk.db.rows, d)
    ensures var db' := Step(desk.db, op).0;
            Inv(db') && Forest(db'.rows) && Dark(desk.(db := db'), d) && d in db'.rows && Revoking(db'.rows, d)
  {
    hide Step, Revoking, Dark, Under, Inv, SameSubtree;
    FreezeStep(desk.db, op, d);
    InvIsShaped(Step(desk.db, op).0);
    StaysDarkOrSame(desk, desk.(db := Step(desk.db, op).0), d, d);
  }

  lemma MoveStaysDark(desk: Desk, move: Move, d: Id)
    requires DeskOk(desk) && Inv(desk.db) && Forest(desk.db.rows) && Legal(desk, move)
    requires d in desk.db.rows && Revoking(desk.db.rows, d) && Dark(desk, d)
    ensures var desk' := Apply(desk, move);
            Forest(desk'.db.rows) && d in desk'.db.rows && Revoking(desk'.db.rows, d) && Dark(desk', d)
  {
    hide Inv, Supplies, Authorised, Authorize, Finished, Step, Redeem, Revoking, Under, IsFresh, Dark,
         ClaimsSound, OneLiveEach, BindingsSound, HandedSound, RootTokens;
    match move {
      case AskReserve(presented, now, req, legacy, supply) =>
        var checked := Authorize(desk.caps.tokens, presented, req.parent, "reserve", now);
        if checked.Ok? {
          FinishStaysDark(desk, AskedBy(req, checked.value), false, legacy, supply, d);
        }
      case Continue(req, presented, now, event, amount, legacy, supply) =>
        var granted := Granted(desk, event, req.parent, amount);
        StepStaysDark(desk, DoGrant(event, req.parent, amount), d);
        FinishStaysDark(granted, req, true, legacy, supply, d);
      case Ledger(op) => StepStaysDark(desk, op, d);
      case DropAccess(e) => LessStaysDark(desk, Apply(desk, move), d);
      case Claiming(id, presented, monotonic, now) => LessStaysDark(desk, Apply(desk, move), d);
      case RootToken(root, scopes, draw, superseding) => RootStaysDark(desk, root, scopes, draw, superseding, d);
      case Restart => LessStaysDark(desk, Apply(desk, move), d);
    }
  }

  /** Once a revoke has dropped a subtree's access, no run ever gives a live token of the subtree, or a
      claim for one, to anybody again; only the token of a root can be minted anew. */
  lemma {:induction false} DarkForGood(desk: Desk, moves: seq<Move>, d: Id)
    requires DeskOk(desk) && Inv(desk.db) && Forest(desk.db.rows) && AllLegal(desk, moves)
    requires d in desk.db.rows && Revoking(desk.db.rows, d) && Dark(desk, d)
    ensures Inv(Serve(desk, moves).db) && Forest(Serve(desk, moves).db.rows) && Dark(Serve(desk, moves), d)
    decreases |moves|
  {
    hide DeskOk, Inv, Apply, Legal, Revoking, Dark;
    if moves != [] {
      MoveKeepsDesk(desk, moves[0]);
      MoveStaysDark(desk, moves[0], d);
      DarkForGood(Apply(desk, moves[0]), moves[1..], d);
    }
  }
}
