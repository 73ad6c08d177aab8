/** The two functions of hosted/a2a_economic_authority/sessions.py, run without interruption. */
module SessionCalls {
  import opened Common
  import opened Ledger
  import opened LedgerInvariant
  import opened LedgerStore
  import opened Capabilities
  import opened Sessions

  datatype SessionResult =
    | BadAmounts
    | BoundElsewhere
    | RecoveryDenied
    | RootConflict
    | Opened(purchase: Purchase, plaintext: Option<Secret>)

  ghost function Gifts(nonce: PaymentNonce, result: SessionResult, recovered: bool): seq<Gift> {
    if result.Opened? && result.plaintext.Some? then [Gift(nonce, result.plaintext.value, recovered)] else []
  }

  ghost function SiteOf(core: EconomicAuthorityStore, caps: CapabilityStore, given: seq<Gift>): Site
    reads core, caps
  {
    Site(core.Tables(), caps.Tables(), map[], given)
  }

  /** What a buyer is told: the purchase on record for its nonce, whatever session id this call brought, and
      the root's secret only if nobody claimed it. */
  ghost function BuyAnswer(site: Site, nonce: PaymentNonce, agent: Name, ceiling: int, fee: int,
                           commitment: RecoverySecret, session: Id, draw: Draw): SessionResult
  {
    var known := Recording(site.caps.purchases, nonce, agent, ceiling, fee, commitment, session)[nonce];
    if !Priced(ceiling, fee) then BadAmounts
    else if known.agent != agent || known.ceiling != ceiling || known.fee != fee then BoundElsewhere
    else if !RootFree(site.db, known.session) then RootConflict
    else Opened(known, if known.claimed then None else Some(draw.secret))
  }

  ghost function RecoverAnswer(site: Site, nonce: PaymentNonce, secret: RecoverySecret, draw: Draw): SessionResult {
    if nonce !in site.caps.purchases || site.caps.purchases[nonce].commitment != Some(secret) then RecoveryDenied
    else if !RootFree(site.db, site.caps.purchases[nonce].session) then RootConflict
    else Opened(site.caps.purchases[nonce], Some(draw.secret))
  }

  /** The root step goes through exactly when the root is free. */
  lemma RootGoes(site: Site, c: CallId, event: EventId)
    requires Forest(site.db.rows) && c in site.calls && SiteOk(site)
    ensures var (db', reply) := Step(site.db, RootOp(event, site.calls[c].purchase));
            && (reply.Done? || reply.Known? <==> RootFree(site.db, site.calls[c].purchase.session))
            && (!reply.Done? ==> db' == site.db)
  {
    hide SiteOk, Step, RootStands, GrantedTo;
    RootingStands(site, c, event);
  }

  /** What the three steps of a purchase come to, step by step. */
  lemma BuySteps(site: Site, c: CallId, nonce: PaymentNonce, agent: Name, ceiling: int, fee: int,
                 commitment: RecoverySecret, session: Id, event: EventId, draw: Draw)
    requires SiteOk(site) && Forest(site.db.rows) && FreshSession(site, session) && site.calls == map[]
    ensures var caps := site.caps.(
                          purchases := Recording(site.caps.purchases, nonce, agent, ceiling, fee, commitment, session));
            var found := Matching(caps.purchases, nonce, agent, ceiling, fee);
            var after := BuyNow(site, c, nonce, agent, ceiling, fee, commitment, session, event, draw);
            var answer := BuyAnswer(site, nonce, agent, ceiling, fee, commitment, session, draw);
            if !Priced(ceiling, fee) then after == site && answer == BadAmounts
            else if found.None? then after == site.(caps := caps) && answer == BoundElsewhere
            else
              && nonce in caps.purchases
              && var (db', reply) := Step(site.db, RootOp(event, found.value));
              if !reply.Done? && !reply.Known? then
                db' == site.db && after == site.(caps := caps) && answer == RootConflict
              else if caps.purchases[nonce].claimed then
                after == site.(db := db', caps := caps) && answer == Opened(found.value, None)
              else
                && after == site.(db := db', caps := Claimed(caps, nonce, found.value.session, draw),
                                  given := site.given + [Gift(nonce, draw.secret, false)])
                && answer == Opened(found.value, Some(draw.secret))
  {
    hide SiteOk, Inv, Step, Claimed, Forest, FreshSession, RootFree;
    var recorded := Buying(site, c, nonce, agent, ceiling, fee, commitment, session);
    BuyingKeepsSite(site, c, nonce, agent, ceiling, fee, commitment, session);
    if c in recorded.calls {
      RootGoes(recorded, c, event);
      assert recorded.calls - {c} == map[];
      assert recorded.calls[c := recorded.calls[c].(at := AtToken)] - {c} == map[];
    }
  }

  /** And those of a recovery. */
  lemma RecoverSteps(site: Site, c: CallId, nonce: PaymentNonce, secret: RecoverySecret, event: EventId, draw: Draw)
    requires SiteOk(site) && Forest(site.db.rows) && site.calls == map[]
    ensures var after := RecoverNow(site, c, nonce, secret, event, draw);
            var answer := RecoverAnswer(site, nonce, secret, draw);
            if nonce !in site.caps.purchases || site.caps.purchases[nonce].commitment != Some(secret) then
              after == site && answer == RecoveryDenied
            else
              var found := site.caps.purchases[nonce];
              var (db', reply) := Step(site.db, RootOp(event, found));
              if !reply.Done? && !reply.Known? then db' == site.db && after == site && answer == RootConflict
              else
                && after == site.(db := db', caps := Claimed(site.caps, nonce, found.session, draw),
                                  given := site.given + [Gift(nonce, draw.secret, true)])
                && answer == Opened(found, Some(draw.secret))
  {
    hide SiteOk, Inv, Step, Claimed, Forest, RootFree;
    var found := Recovering(site, c, nonce, secret);
    if c in found.calls {
      BuyerCalls(site, found.calls, c, nonce);
      RootGoes(found, c, event);
      assert found.calls - {c} == map[];
      assert found.calls[c := found.calls[c].(at := AtToken)] - {c} == map[];
    }
  }

  method CreateOrRecoverSession(core: EconomicAuthorityStore, caps: CapabilityStore, nonce: PaymentNonce, agent: Name,
                                ceiling: int, fee: int, commitment: RecoverySecret, session: Id, event: EventId,
                                draw: Draw, ghost c: CallId, ghost given: seq<Gift>)
    returns (result: SessionResult)
    requires SiteOk(SiteOf(core, caps, given)) && Forest(core.rows)
    requires FreshSession(SiteOf(core, caps, given), session) && IsFresh(caps.tokens, draw)
    modifies core, caps
    ensures Forest(old(core.rows))
    ensures SiteOf(core, caps, given + Gifts(nonce, result, false))
         == BuyNow(old(SiteOf(core, caps, given)), c, nonce, agent, ceiling, fee, commitment, session, event, draw)
    ensures result == BuyAnswer(old(SiteOf(core, caps, given)), nonce, agent, ceiling, fee, commitment, session, draw)
  {
    hide SiteOk, Inv, Step, IsFresh, Claimed, Rotate, Forest, FreshSession, BuyNow, BuyAnswer;
    ghost var site := SiteOf(core, caps, given);
    SiteForest(site);
    BuySteps(site, c, nonce, agent, ceiling, fee, commitment, session, event, draw);
    if !AmountOk(ceiling) || !AmountOk(fee) || ceiling <= 0 || fee <= 0 {
      return BadAmounts;
    }
    var purchase := caps.RecordSessionPurchase(nonce, agent, ceiling, fee, commitment, session);
    if purchase.None? {
      return BoundElsewhere;
    }
    var reply := core.CreateRoot(event, purchase.value.session, purchase.value.agent, purchase.value.ceiling);
    if !reply.Done? && !reply.Known? {
      return RootConflict;
    }
    var minted := caps.IssueOrRotateSessionCredential(nonce, purchase.value.session, draw);
    result := Opened(purchase.value, if minted then Some(draw.secret) else None);
  }

  method RecoverSession(core: EconomicAuthorityStore, caps: CapabilityStore, nonce: PaymentNonce,
                        secret: RecoverySecret, event: EventId, draw: Draw, ghost c: CallId, ghost given: seq<Gift>)
    returns (result: SessionResult)
    requires SiteOk(SiteOf(core, caps, given)) && Forest(core.rows) && IsFresh(caps.tokens, draw)
    modifies core, caps
    ensures Forest(old(core.rows))
    ensures SiteOf(core, caps, given + Gifts(nonce, result, true))
         == RecoverNow(old(SiteOf(core, caps, given)), c, nonce, secret, event, draw)
    ensures result == RecoverAnswer(old(SiteOf(core, caps, given)), nonce, secret, draw)
  {
    hide SiteOk, Inv, Step, IsFresh, Claimed, Rotate, Forest, RecoverNow, RecoverAnswer;
    ghost var site := SiteOf(core, caps, given);
    SiteForest(site);
    RecoverSteps(site, c, nonce, secret, event, draw);
    var purchase := caps.PurchaseForRecovery(nonce, secret);
    if purchase.None? {
      return RecoveryDenied;
    }
    var reply := core.CreateRoot(event, purchase.value.session, purchase.value.agent, purchase.value.ceiling);
    if !reply.Done? && !reply.Known? {
      return RootConflict;
    }
    caps.RotateSessionCredential(nonce, draw);
    result := Opened(purchase.value, Some(draw.secret));
  }
}
