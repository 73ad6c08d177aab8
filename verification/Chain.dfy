/**
  examples/agent_economy/local_chain.py: USDC's `transferWithAuthorization`, with the rules of the
  Specification section of EIP-3009. A signature is a token that either is or is not the payer's.
 */
module UsdcChain {
  import opened Common

  type Account(==,!new,0)
  type Nonce(==,!new,0)

  datatype Authorization = Authorization(
    payer: Account, to: Account, value: int, validAfter: int, validBefore: int, nonce: Nonce)

  datatype Reason =
    | InvalidSignature | RecipientMismatch | AmountMismatch | NotCurrentlyValid | NonceUsed | InsufficientBalance

  /** `used` maps each spent (authorizer, nonce) to the value it moved. */
  datatype Chain = Chain(balances: map<Account, int>, used: map<(Account, Nonce), int>)

  function BalanceOf(c: Chain, who: Account): int {
    if who in c.balances then c.balances[who] else 0
  }

  predicate AuthorizationState(c: Chain, who: Account, nonce: Nonce) {
    (who, nonce) in c.used
  }

  /** Why this transfer would revert, in the order the checks are made. */
  function Check(c: Chain, auth: Authorization, signed: bool, payTo: Account, amount: int, now: int): Option<Reason> {
    if !signed then Some(InvalidSignature)
    else if auth.to != payTo then Some(RecipientMismatch)
    else if auth.value != amount then Some(AmountMismatch)
    else if !(auth.validAfter < now < auth.validBefore) then Some(NotCurrentlyValid)
    else if AuthorizationState(c, auth.payer, auth.nonce) then Some(NonceUsed)
    else if BalanceOf(c, auth.payer) < auth.value then Some(InsufficientBalance)
    else None
  }

  function Credit(balances: map<Account, int>, who: Account, amount: int): map<Account, int> {
    balances[who := (if who in balances then balances[who] else 0) + amount]
  }

  function Transferred(c: Chain, auth: Authorization): Chain {
    Chain(Credit(Credit(c.balances, auth.payer, -auth.value), auth.to, auth.value),
          c.used[(auth.payer, auth.nonce) := auth.value])
  }

  class LocalUsdcChain {
    var balances: map<Account, int>
    var used: map<(Account, Nonce), int>
    var events: seq<Authorization>

    ghost function State(): Chain
      reads this
    {
      Chain(balances, used)
    }

    constructor ()
      ensures State() == Chain(map[], map[]) && events == []
    {
      balances, used, events := map[], map[], [];
    }

    method Mint(who: Account, atomic: int)
      modifies this
      ensures State() == old(State()).(balances := Credit(old(balances), who, atomic)) && events == old(events)
    {
      balances := balances[who := (if who in balances then balances[who] else 0) + atomic];
    }

    /** Raises the reason, or moves the balance, spends the nonce and emits the event. */
    method TransferWithAuthorization(auth: Authorization, signed: bool, payTo: Account, amount: int, now: int)
      returns (reason: Option<Reason>)
      modifies this
      ensures reason == Check(old(State()), auth, signed, payTo, amount, now)
      ensures reason.Some? ==> State() == old(State()) && events == old(events)
      ensures reason.None? ==> State() == Transferred(old(State()), auth) && events == old(events) + [auth]
    {
      reason := Check(Chain(balances, used), auth, signed, payTo, amount, now);
      if reason.Some? {
        return;
      }
      balances := balances[auth.payer := (if auth.payer in balances then balances[auth.payer] else 0) - auth.value];
      balances := balances[auth.to := (if auth.to in balances then balances[auth.to] else 0) + auth.value];
      used := used[(auth.payer, auth.nonce) := auth.value];
      events := events + [auth];
    }
  }

  /** A transfer that goes through happens inside its validity window, spends a nonce no transfer ever
      spent before, and takes at most its value, which the payer held, from the payer. */
  lemma TransferRules(c: Chain, auth: Authorization, signed: bool, payTo: Account, amount: int, now: int)
    requires Check(c, auth, signed, payTo, amount, now).None?
    ensures signed && auth.validAfter < now < auth.validBefore
    ensures !AuthorizationState(c, auth.payer, auth.nonce)
    ensures AuthorizationState(Transferred(c, auth), auth.payer, auth.nonce)
    ensures BalanceOf(Transferred(c, auth), auth.payer) >= BalanceOf(c, auth.payer) - Max(amount, 0)
    ensures BalanceOf(Transferred(c, auth), auth.payer) >= Min(0, BalanceOf(c, auth.payer))
    ensures forall who :: who != auth.payer && who != auth.to ==>
              BalanceOf(Transferred(c, auth), who) == BalanceOf(c, who)
  {
  }

  /** A transfer goes through exactly when it is signed for this payee and amount, its window is open, its
      nonce unspent and its value held. It moves that value from payer to payee and spends that one nonce. */
  lemma TransferExactly(c: Chain, auth: Authorization, signed: bool, payTo: Account, amount: int, now: int)
    ensures Check(c, auth, signed, payTo, amount, now).None? <==>
              && signed && auth.to == payTo && auth.value == amount && auth.validAfter < now < auth.validBefore
              && !AuthorizationState(c, auth.payer, auth.nonce) && amount <= BalanceOf(c, auth.payer)
    ensures forall who ::
              BalanceOf(Transferred(c, auth), who)
              == BalanceOf(c, who) - (if who == auth.payer then auth.value else 0)
                 + (if who == auth.to then auth.value else 0)
    ensures forall who, nonce ::
              AuthorizationState(Transferred(c, auth), who, nonce)
              <==> AuthorizationState(c, who, nonce) || (who == auth.payer && nonce == auth.nonce)
  {
  }
}
