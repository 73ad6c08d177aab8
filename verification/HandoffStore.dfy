/**
  `InMemoryCredentialHandoff` (hosted/a2a_economic_authority/capabilities.py) and the reserve path of
  `EconomicAuthorityExecutor` (executor.py), each method tied to the move of `Handoff` it performs.
 */
module HandoffStore {
  import opened Common
  import opened Ledger
  import opened LedgerInvariant
  import opened LedgerStore
  import opened Capabilities
  import opened Handoff

  class InMemoryCredentialHandoff {
    const ttl: int
    var pending: Claims
    ghost var handed: seq<Handover>

    constructor (ttl: int)
      ensures pending == map[] && handed == [] && this.ttl == ttl
    {
      this.ttl := ttl;
      pending, handed := map[], [];
    }

    method Create(id: ClaimId, draw: Draw, issuer: Id, scope: string, authorizer: TokenId, child: Id, monotonic: int)
      modifies this
      ensures pending
           == old(pending)[id := Claim(draw.id, draw.secret, issuer, scope, authorizer, child, monotonic + ttl)]
      ensures handed == old(handed)
    {
      pending := pending[id := Claim(draw.id, draw.secret, issuer, scope, authorizer, child, monotonic + ttl)];
    }

    /** Hands the plaintext over and forgets it, or says why not. */
    method RedeemClaim(caps: CapabilityStore, core: EconomicAuthorityStore, id: ClaimId, presented: Option<Secret>,
                       monotonic: int, now: int) returns (r: Redemption)
      requires core.Valid() && Forest(core.rows)
      modifies this
      ensures var (outcome, gone) :=
                Redeem(old(pending), caps.tokens, id, presented, TornDown(core.rows), monotonic, now);
              && r == outcome
              && pending == AfterRedeem(old(pending), id, gone)
              && handed == (if outcome.Redeemed? && id in old(pending)
                            then old(handed) + [Handover(id, old(pending)[id].child, outcome.plaintext, outcome.to)]
                            else old(handed))
    {
      hide Revoking, Inv;
      if id !in pending {
        return Denied(InvalidCredential);
      }
      var entry := pending[id];
      if monotonic > entry.expiresAt {
        pending := pending - {id};
        return Denied(ExpiredCredential);
      }
      var presentedId := caps.TokenIdFor(presented);
      var isTheAuthorizer := presentedId.Some? && presentedId.value == entry.authorizer;
      var info := Authorize(caps.tokens, presented, entry.issuer, entry.scope, now);
      if info.Err? {
        if (info.error.RevokedCredential? || info.error.ExpiredCredential?) && isTheAuthorizer {
          pending := pending - {id};
        }
        return Denied(info.error);
      }
      if info.value.id != entry.authorizer {
        return Denied(WrongAuthorizer);
      }
      var tornDown := core.RevocationInLineage(entry.child);
      pending := pending - {id};
      if tornDown {
        return Denied(RevokedCredential);
      }
      handed := handed + [Handover(id, entry.child, entry.plaintext, info.value.id)];
      return Redeemed(entry.plaintext, info.value.id);
    }

    /** Drops every claim issued by, or granting access to, any of the given delegations. */
    method PurgeForDelegations(ids: seq<Id>) returns (count: nat)
      modifies this
      ensures pending == Purged(old(pending), set d | d in ids) && handed == old(handed)
      ensures count == |old(pending)| - |pending|
    {
      var wanted := set d | d in ids;
      var purge := set c | c in pending && (pending[c].issuer in wanted || pending[c].child in wanted);
      ghost var all := purge;
      count := 0;
      while purge != {}
        invariant purge <= all
        invariant forall c :: c in pending <==> c in old(pending) && (c in all ==> c in purge)
        invariant forall c :: c in pending ==> pending[c] == old(pending)[c]
        invariant handed == old(handed) && count + |pending| == |old(pending)|
      {
        var c :| c in purge;
        assert pending.Keys == (pending - {c}).Keys + {c};
        pending := pending - {c};
        purge := purge - {c};
        count := count + 1;
      }
    }
  }

  class EconomicAuthorityExecutor {
    const core: EconomicAuthorityStore
    const capabilities: CapabilityStore
    const handoff: InMemoryCredentialHandoff

    constructor (core: EconomicAuthorityStore, capabilities: CapabilityStore, handoff: InMemoryCredentialHandoff)
      ensures this.core == core && this.capabilities == capabilities && this.handoff == handoff
    {
      this.core, this.capabilities, this.handoff := core, capabilities, handoff;
    }

    ghost function State(): Desk
      reads core, capabilities, handoff
    {
      Desk(core.Tables(), capabilities.Tables(), handoff.pending, handoff.handed)
    }

    /** The desk is in order and the request's supply is usable. */
    ghost predicate Ready(supply: Supply, monotonic: int)
      reads core, capabilities, handoff
    {
      && core.Valid() && Forest(core.rows)
      && Supplies(State(), supply) && supply.claimExpiresAt == monotonic + handoff.ttl
    }

    /** Purges the child's claims, rotates its credential and parks the new plaintext. */
    method MintReservationCredential(req: Request, scopes: set<string>, supply: Supply, monotonic: int)
      requires Ready(supply, monotonic)
      requires req.child in capabilities.bindings && scopes != {} && scopes <= SCOPES
      modifies capabilities, handoff
      ensures req.child in old(capabilities.bindings)
      ensures State() == Mint(old(State()), req, scopes, supply)
    {
      hide Inv, Forest, Supplies, Rotate, Purged;
      SupplyIsFresh(State(), supply);
      assert (set d | d in [req.child]) == {req.child};
      var _ := handoff.PurgeForDelegations([req.child]);
      var _ := capabilities.RotateReservationCredential(req.child, scopes, supply.draw);
      handoff.Create(supply.claim, supply.draw, req.parent, "reserve", req.authorizer, req.child, monotonic);
    }

    method RetryReserve(req: Request, scopes: set<string>, legacy: Option<set<string>>, supply: Supply, monotonic: int)
      returns (outcome: Outcome)
      requires Ready(supply, monotonic) && req.child in core.rows && scopes != {} && scopes <= SCOPES
      modifies core, capabilities, handoff
      ensures core.Valid()
      ensures Forest(old(core.rows)) && req.child in old(core.rows)
      ensures (State(), outcome) == Retried(old(State()), req, scopes, legacy, supply)
    {
      hide Inv, Forest, Step, Supplies, Revoking, Mint;
      KnownLeavesAll(core.Tables(), req);
      var reply := core.Reserve(req.event, req.parent, req.child, req.agent, req.maximum);
      if !reply.Known? {
        return EventConflicts;
      }
      var bound := req.child in capabilities.bindings;
      if req.recover && bound && req.authorizer != capabilities.bindings[req.child].authorizer {
        return Rejected(WrongAuthorizer);
      }
      var expected := if bound then Some(capabilities.bindings[req.child].scopes) else legacy;
      if expected.Some? && scopes != expected.value {
        return Failed;
      }
      if !req.recover || !bound {
        return AlreadyReserved;
      }
      var tornDown := core.RevocationInLineage(req.child);
      if !core.rows[req.child].active || tornDown {
        return Failed;
      }
      MintReservationCredential(req, scopes, supply, monotonic);
      return Minted(supply.claim);
    }

    method FirstReserve(req: Request, scopes: set<string>, retry: bool, supply: Supply, monotonic: int)
      returns (outcome: Outcome)
      requires Ready(supply, monotonic) && req.child !in core.rows && req.parent in core.rows
      requires scopes != {} && scopes <= SCOPES
      modifies core, capabilities, handoff
      ensures core.Valid()
      ensures Forest(old(core.rows)) && req.child !in old(core.rows) && req.parent in old(core.rows)
      ensures (State(), outcome) == FirstTime(old(State()), req, scopes, retry, supply)
    {
      hide Inv, Forest, Step, Supplies, IsFresh, Mint;
      var recorded := capabilities.RecordReservationAuthorization(req.child, req.authorizer, scopes);
      if recorded.AuthorizationConflict? {
        return BoundElsewhere;
      }
      var shortfall := req.maximum - core.rows[req.parent].Headroom();
      if shortfall > 0 {
        return if retry then Failed else Parked(shortfall);
      }
      NotDoneLeavesAll(core.Tables(), ReserveOp(req));
      var reply := core.Reserve(req.event, req.parent, req.child, req.agent, req.maximum);
      if !reply.Done? {
        return Failed;
      }
      InvIsShaped(core.Tables());
      SuppliesStay(old(State()), State(), supply);
      MintReservationCredential(req, scopes, supply, monotonic);
      return Minted(supply.claim);
    }

    method FinishReserve(req: Request, retry: bool, legacy: Option<set<string>>, supply: Supply, monotonic: int)
      returns (outcome: Outcome)
      requires Ready(supply, monotonic) && req.issuerScopes <= SCOPES
      modifies core, capabilities, handoff
      ensures core.Valid()
      ensures Forest(old(core.rows))
      ensures (State(), outcome) == Finished(old(State()), req, retry, legacy, supply)
    {
      hide Inv, Forest, Supplies, ValidateChildScopes, Retried, FirstTime;
      if req.parent !in core.rows || !core.rows[req.parent].active || core.rows[req.parent].unknownCount > 0 {
        return Failed;
      }
      var checked := ValidateChildScopes(req.asked, req.issuerScopes);
      if checked.Err? {
        return Failed;
      }
      if req.child in core.rows {
        outcome := RetryReserve(req, checked.value, legacy, supply, monotonic);
      } else {
        outcome := FirstReserve(req, checked.value, retry, supply, monotonic);
      }
    }

    /** Authorises a reserve request by the presented credential, then finishes it. */
    method DoReserve(presented: Option<Secret>, now: int, req: Request, legacy: Option<set<string>>, supply: Supply,
                     monotonic: int) returns (outcome: Outcome)
      requires Ready(supply, monotonic) && DeskOk(State())
      modifies core, capabilities, handoff
      ensures core.Valid() && Inv(old(State()).db)
      ensures State() == Apply(old(State()), AskReserve(presented, now, req, legacy, supply))
      ensures outcome == Reserving(old(State()), presented, now, req, legacy, supply).1
    {
      hide Inv, Supplies, Finished, ClaimsSound, OneLiveEach, BindingsSound, HandedSound;
      var info := Authorize(capabilities.tokens, presented, req.parent, "reserve", now);
      if info.Err? {
        return Rejected(info.error);
      }
      TokenScopes(State(), presented.value);
      outcome := FinishReserve(AskedBy(req, info.value), false, legacy, supply, monotonic);
    }

    /** Grants to the parent of a parked reservation, then finishes it on behalf of the credential that
        asked for it. */
    method ContinueAfterGrant(req: Request, presented: Option<Secret>, now: int, event: EventId, amount: int,
                              legacy: Option<set<string>>, supply: Supply, monotonic: int)
      returns (outcome: Outcome)
      requires Ready(supply, monotonic) && DeskOk(State()) && Authorised(capabilities.tokens, req)
      modifies core, capabilities, handoff
      ensures core.Valid() && Inv(old(State()).db)
      ensures State() == Apply(old(State()), Continue(req, presented, now, event, amount, legacy, supply))
      ensures outcome == Continuing(old(State()), req, presented, now, event, amount, legacy, supply).1
    {
      hide Inv, Supplies, Finished, Step, ClaimsSound, OneLiveEach, BindingsSound, HandedSound, Authorize;
      AuthorisedScopes(State(), req);
      var info := Authorize(capabilities.tokens, presented, req.parent, "grant", now);
      if info.Err? {
        return Rejected(info.error);
      }
      NotDoneLeavesAll(core.Tables(), DoGrant(event, req.parent, amount));
      var reply := core.Grant(event, req.parent, amount);
      if !reply.Done? && !reply.Known? {
        return if reply.Conflict? then EventConflicts else Failed;
      }
      InvIsShaped(core.Tables());
      SuppliesStay(old(State()), State(), supply);
      outcome := FinishReserve(req, true, legacy, supply, monotonic);
    }

    /** The end of a revoke. */
    method DropSubtreeAccess(d: Id, subtree: seq<Id>) returns (tokens: nat, claims: nat)
      requires core.Valid() && Inv(State().db) && Forest(core.rows)
      requires forall x :: x in subtree <==> x in core.rows && Under(core.rows, x, d)
      modifies capabilities, handoff
      ensures Inv(old(State()).db) && State() == Apply(old(State()), DropAccess(d))
    {
      hide Inv, Under, RevokeTokens, Purged;
      assert (set x | x in subtree) == Subtree(core.rows, d);
      tokens := capabilities.RevokeForDelegations(subtree);
      claims := handoff.PurgeForDelegations(subtree);
    }
  }

  lemma SupplyIsFresh(desk: Desk, supply: Supply)
    requires Supplies(desk, supply)
    ensures IsFresh(desk.caps.tokens, supply.draw)
  {
  }

  lemma KnownLeavesAll(db: Db, req: Request)
    requires Forest(db.rows) && req.child in db.rows
    ensures Step(db, ReserveOp(req)).0 == db
  {
  }

  lemma NotDoneLeavesAll(db: Db, op: Op)
    requires Forest(db.rows)
    ensures !Step(db, op).1.Done? ==> Step(db, op).0 == db
  {
  }

  lemma TokenScopes(desk: Desk, s: Secret)
    requires DeskOk(desk) && s in desk.caps.tokens
    ensures desk.caps.tokens[s].scopes <= SCOPES
  {
  }

  lemma AuthorisedScopes(desk: Desk, req: Request)
    requires DeskOk(desk) && Authorised(desk.caps.tokens, req)
    ensures req.issuerScopes <= SCOPES
  {
  }
}
