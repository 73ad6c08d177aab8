/**
  The credential tables of hosted/a2a_economic_authority/capabilities.py. A token's hash stands for
  its plaintext: hashing is taken to be injective, and a fresh draw to repeat nothing drawn before.
 */
module Capabilities {
  import opened Common

  type TokenId(==,!new,0)
  type Secret(==,!new,0)
  type PaymentNonce(==,!new,0)
  type RecoverySecret(==,!new,0)

  const SCOPES: set<string> := {"read", "reserve", "grant", "consume", "settle", "revoke"}

  datatype Token = Token(id: TokenId, delegation: Id, scopes: set<string>, expiresAt: int, revoked: bool)

  /** Who may have the child credential of a reservation minted, and with which scopes. */
  datatype Binding = Binding(authorizer: TokenId, scopes: set<string>, current: Option<TokenId>)

  /** A paid session. `commitment` is the recovery secret whose hash was recorded at purchase. */
  datatype Purchase = Purchase(
    session: Id, agent: Name, ceiling: int, fee: int, current: Option<TokenId>, claimed: bool,
    commitment: Option<RecoverySecret>)

  datatype Caps = Caps(
    tokens: map<Secret, Token>, bindings: map<Id, Binding>, purchases: map<PaymentNonce, Purchase>)

  datatype Denial =
    | MissingCredential | InvalidCredential | RevokedCredential | ExpiredCredential
    | WrongDelegation | InsufficientScope | WrongAuthorizer

  datatype Result<+T, +E> = Ok(value: T) | Err(error: E)

  /** What the random generator and the clock supply to one mint. */
  datatype Draw = Draw(id: TokenId, secret: Secret, expiresAt: int)

  ghost predicate IsFresh(tokens: map<Secret, Token>, draw: Draw) {
    && draw.secret !in tokens
    && forall s :: s in tokens ==> tokens[s].id != draw.id
  }

  predicate LiveFor(tokens: map<Secret, Token>, s: Secret, d: Id) {
    s in tokens && tokens[s].delegation == d && !tokens[s].revoked
  }

  ghost predicate DistinctIds(tokens: map<Secret, Token>) {
    forall s, t :: s in tokens && t in tokens && tokens[s].id == tokens[t].id ==> s == t
  }

  function RevokeTokens(tokens: map<Secret, Token>, ds: set<Id>): map<Secret, Token> {
    map s | s in tokens :: if tokens[s].delegation in ds then tokens[s].(revoked := true) else tokens[s]
  }

  /** Revokes whatever is live for `d` and issues one fresh token for it. */
  function Rotate(tokens: map<Secret, Token>, d: Id, scopes: set<string>, draw: Draw): map<Secret, Token> {
    RevokeTokens(tokens, {d})[draw.secret := Token(draw.id, d, scopes, draw.expiresAt, false)]
  }

  function Authorize(tokens: map<Secret, Token>, presented: Option<Secret>, d: Id, scope: string, now: int)
    : Result<Token, Denial>
  {
    if presented.None? then Err(MissingCredential)
    else if presented.value !in tokens then Err(InvalidCredential)
    else
      var token := tokens[presented.value];
      if token.revoked then Err(RevokedCredential)
      else if token.expiresAt <= now then Err(ExpiredCredential)
      else if token.delegation != d then Err(WrongDelegation)
      else if scope !in token.scopes then Err(InsufficientScope)
      else Ok(token)
  }

  /** The token table only grows, and a revocation is never undone. */
  ghost predicate TokensLater(tokens: map<Secret, Token>, tokens': map<Secret, Token>) {
    forall s :: s in tokens ==>
      s in tokens' && tokens'[s].(revoked := false) == tokens[s].(revoked := false)
      && (tokens[s].revoked ==> tokens'[s].revoked)
  }

  /** A rotation leaves the fresh token as the only live one of its delegation and touches no other. */
  lemma RotateLeavesOne(tokens: map<Secret, Token>, d: Id, scopes: set<string>, draw: Draw)
    requires IsFresh(tokens, draw) && DistinctIds(tokens)
    ensures var tokens' := Rotate(tokens, d, scopes, draw);
            && DistinctIds(tokens') && TokensLater(tokens, tokens')
            && (forall s :: LiveFor(tokens', s, d) <==> s == draw.secret)
            && (forall s, e :: e != d ==> (LiveFor(tokens', s, e) <==> LiveFor(tokens, s, e)))
            && (forall s :: s in tokens' <==> s in tokens || s == draw.secret)
            && draw.secret in tokens' && tokens'[draw.secret] == Token(draw.id, d, scopes, draw.expiresAt, false)
  {
  }

  lemma RevokeLeavesNone(tokens: map<Secret, Token>, ds: set<Id>)
    requires DistinctIds(tokens)
    ensures var tokens' := RevokeTokens(tokens, ds);
            && DistinctIds(tokens') && TokensLater(tokens, tokens')
            && (forall s, e :: LiveFor(tokens', s, e) <==> LiveFor(tokens, s, e) && e !in ds)
            && tokens'.Keys == tokens.Keys
  {
  }

  // ---- Which scopes a child may be given ----

  /** The `child_scopes` field of a request: absent, not a list of strings, or a list. */
  datatype Asked = Absent | Malformed | Listed(items: seq<string>)

  const DEFAULT_CHILD_SCOPES: set<string> := {"read", "consume", "settle"}

  /** With nothing asked for: the default as far as the issuer holds it, or else all the issuer holds. */
  function DefaultScopes(issuer: set<string>): (scopes: set<string>)
    ensures if exists x :: x in issuer && x in DEFAULT_CHILD_SCOPES
            then forall x :: x in scopes <==> x in issuer && x in DEFAULT_CHILD_SCOPES
            else scopes == if issuer == {} then {"read"} else issuer
  {
    var held := DEFAULT_CHILD_SCOPES * issuer;
    assert forall x :: x in held <==> x in issuer && x in DEFAULT_CHILD_SCOPES;
    assert held != {} <==> exists x :: x in held;
    if held != {} then held
    else if issuer != {} then issuer
    else {"read"}
  }

  function ValidateChildScopes(asked: Asked, issuer: set<string>): (r: Result<set<string>, string>)
    // never more than the issuer holds, unless the issuer holds nothing at all
    ensures r.Ok? && issuer != {} ==> r.value <= issuer
    ensures r.Ok? ==> r.value != {}
    ensures r.Ok? && issuer <= SCOPES ==> r.value <= SCOPES
    ensures r.Ok? && asked.Listed? ==> r.value == set x | x in asked.items
    ensures asked.Listed? ==>
              (r.Ok? <==> asked.items != [] && forall x :: x in asked.items ==> x in SCOPES && x in issuer)
    ensures asked.Absent? ==> r == Ok(DefaultScopes(issuer))
    ensures asked.Malformed? ==> r.Err?
  {
    match asked
    case Absent =>
      assert "read" in SCOPES;
      Ok(DefaultScopes(issuer))
    case Malformed => Err("child_scopes must be a list of scope strings")
    case Listed(items) =>
      var requested := set x | x in items;
      assert items != [] ==> items[0] in requested;
      if requested == {} then
        Err("child_scopes must not be empty")
      else
        assert items != [];
        if requested - SCOPES != {} then
          assert exists x :: x in requested && x !in SCOPES;
          Err("child_scopes contains unknown scopes")
        else if requested - issuer != {} then
          assert exists x :: x in requested && x !in issuer;
          Err("cannot grant scopes the caller does not hold")
        else
          assert forall x :: x in items ==> x in requested && x !in requested - SCOPES && x !in requested - issuer;
          Ok(requested)
  }

  // ---- The store ----

  datatype Recorded = Fine | AuthorizationConflict

  class CapabilityStore {
    var tokens: map<Secret, Token>
    var bindings: map<Id, Binding>
    var purchases: map<PaymentNonce, Purchase>

    ghost function Tables(): Caps
      reads this
    {
      Caps(tokens, bindings, purchases)
    }

    constructor ()
      ensures Tables() == Caps(map[], map[], map[])
    {
      tokens, bindings, purchases := map[], map[], map[];
    }

    /** Mints a token beside whatever is live. */
    method Issue(d: Id, scopes: set<string>, draw: Draw) returns (ok: bool)
      requires IsFresh(tokens, draw)
      modifies this
      ensures ok <==> scopes != {} && scopes <= SCOPES
      ensures Tables() == if ok
                then old(Tables()).(
                  tokens := old(tokens)[draw.secret := Token(draw.id, d, scopes, draw.expiresAt, false)])
                else old(Tables())
    {
      if scopes == {} || !(scopes <= SCOPES) {
        return false;
      }
      tokens := tokens[draw.secret := Token(draw.id, d, scopes, draw.expiresAt, false)];
      return true;
    }

    method RecordReservationAuthorization(child: Id, authorizer: TokenId, scopes: set<string>) returns (r: Recorded)
      modifies this
      ensures r.Fine? <==> child !in old(bindings)
                           || (old(bindings)[child].authorizer == authorizer && old(bindings)[child].scopes == scopes)
      ensures Tables() == if child in old(bindings) then old(Tables())
                else old(Tables()).(bindings := old(bindings)[child := Binding(authorizer, scopes, None)])
    {
      if child !in bindings {
        bindings := bindings[child := Binding(authorizer, scopes, None)];
        return Fine;
      }
      var row := bindings[child];
      return if row.authorizer != authorizer || row.scopes != scopes then AuthorizationConflict else Fine;
    }

    /** Fails, and rolls back, when the scopes are bad or nothing binds the child. */
    method RotateReservationCredential(child: Id, scopes: set<string>, draw: Draw) returns (ok: bool)
      requires IsFresh(tokens, draw)
      modifies this
      ensures ok <==> scopes != {} && scopes <= SCOPES && child in old(bindings)
      ensures ok ==> child in old(bindings)
                     && Tables() == old(Tables()).(
                       tokens := Rotate(old(tokens), child, scopes, draw),
                       bindings := old(bindings)[child := old(bindings)[child].(current := Some(draw.id))])
      ensures !ok ==> Tables() == old(Tables())
    {
      if scopes == {} || !(scopes <= SCOPES) || child !in bindings {
        return false;
      }
      tokens := RevokeTokens(tokens, {child});
      tokens := tokens[draw.secret := Token(draw.id, child, scopes, draw.expiresAt, false)];
      bindings := bindings[child := bindings[child].(current := Some(draw.id))];
      return true;
    }

    /** Revokes every live token of any of the given delegations, and says how many there were. */
    method RevokeForDelegations(ids: seq<Id>) returns (count: nat)
      modifies this
      ensures Tables() == old(Tables()).(tokens := RevokeTokens(old(tokens), set d | d in ids))
      ensures count == |set s | s in old(tokens) && old(tokens)[s].delegation in ids && !old(tokens)[s].revoked|
    {
      count := |set s | s in tokens && tokens[s].delegation in ids && !tokens[s].revoked|;
      if ids == [] {
        assert tokens == RevokeTokens(tokens, set d | d in ids);
        NoneToRevoke(tokens);
        return 0;
      }
      tokens := RevokeTokens(tokens, set d | d in ids);
    }

    /** The non-secret id of a presented token, whatever its state. */
    function TokenIdFor(presented: Option<Secret>): (id: Option<TokenId>)
      reads this
      ensures id.Some? <==> presented.Some? && presented.value in tokens
    {
      if presented.Some? && presented.value in tokens then Some(tokens[presented.value].id) else None
    }

    // ---- Paid sessions ----

    /** Records a purchase under its nonce, or returns the one recorded before if it is the same. */
    method RecordSessionPurchase(nonce: PaymentNonce, agent: Name, ceiling: int, fee: int,
                                 commitment: RecoverySecret, session: Id)
      returns (purchase: Option<Purchase>)
      modifies this
      ensures Tables() == old(Tables()).(
                purchases := Recording(old(purchases), nonce, agent, ceiling, fee, commitment, session))
      ensures purchase == Matching(purchases, nonce, agent, ceiling, fee)
    {
      if nonce !in purchases {
        purchases := purchases[nonce := Purchase(session, agent, ceiling, fee, None, false, Some(commitment))];
      } else if purchases[nonce].agent != agent || purchases[nonce].ceiling != ceiling || purchases[nonce].fee != fee {
        return None;
      }
      return Some(purchases[nonce]);
    }

    /** Mints the root token, once: nothing is minted for a purchase that was claimed before. */
    method IssueOrRotateSessionCredential(nonce: PaymentNonce, session: Id, draw: Draw) returns (minted: bool)
      requires nonce in purchases && IsFresh(tokens, draw)
      modifies this
      ensures nonce in old(purchases) && minted == !old(purchases)[nonce].claimed
      ensures Tables() == if minted then Claimed(old(Tables()), nonce, session, draw) else old(Tables())
    {
      if purchases[nonce].claimed {
        return false;
      }
      tokens := RevokeTokens(tokens, {session});
      tokens := tokens[draw.secret := Token(draw.id, session, SCOPES, draw.expiresAt, false)];
      purchases := purchases[nonce := purchases[nonce].(current := Some(draw.id), claimed := true)];
      return true;
    }

    /** Supersedes the root token of the purchase found by recovery. */
    method RotateSessionCredential(nonce: PaymentNonce, draw: Draw)
      requires nonce in purchases && IsFresh(tokens, draw)
      modifies this
      ensures nonce in old(purchases)
      ensures Tables() == Claimed(old(Tables()), nonce, old(purchases)[nonce].session, draw)
    {
      var session := purchases[nonce].session;
      tokens := RevokeTokens(tokens, {session});
      tokens := tokens[draw.secret := Token(draw.id, session, SCOPES, draw.expiresAt, false)];
      purchases := purchases[nonce := purchases[nonce].(current := Some(draw.id), claimed := true)];
    }

    /** Finds a purchase for whoever knows the committed secret; every other case is one denial. */
    function PurchaseForRecovery(nonce: PaymentNonce, secret: RecoverySecret): (purchase: Option<Purchase>)
      reads this
      ensures purchase.Some? <==> nonce in purchases && purchases[nonce].commitment == Some(secret)
      ensures purchase.Some? ==> purchase.value == purchases[nonce]
    {
      if nonce in purchases && purchases[nonce].commitment == Some(secret) then Some(purchases[nonce]) else None
    }
  }

  lemma NoneToRevoke(tokens: map<Secret, Token>)
    ensures (set s | s in tokens && tokens[s].delegation in [] && !tokens[s].revoked) == {}
  {
  }

  function Recording(purchases: map<PaymentNonce, Purchase>, nonce: PaymentNonce, agent: Name, ceiling: int, fee: int,
                     commitment: RecoverySecret, session: Id): map<PaymentNonce, Purchase>
  {
    if nonce in purchases then purchases
    else purchases[nonce := Purchase(session, agent, ceiling, fee, None, false, Some(commitment))]
  }

  function Matching(purchases: map<PaymentNonce, Purchase>, nonce: PaymentNonce, agent: Name, ceiling: int, fee: int)
    : Option<Purchase>
  {
    if nonce in purchases && purchases[nonce].agent == agent && purchases[nonce].ceiling == ceiling
       && purchases[nonce].fee == fee
    then Some(purchases[nonce]) else None
  }

  function Claimed(caps: Caps, nonce: PaymentNonce, session: Id, draw: Draw): Caps
    requires nonce in caps.purchases
  {
    caps.(tokens := Rotate(caps.tokens, session, SCOPES, draw),
          purchases := caps.purchases[nonce := caps.purchases[nonce].(current := Some(draw.id), claimed := true)])
  }
}
