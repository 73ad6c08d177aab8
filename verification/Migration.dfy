/**
  Rebuilding the event table of an older database (hosted/a2a_economic_authority/core.py,
  `_migrate_economic_events_table`). A canonical payload is a set of named cells, amounts spelt
  canonically; its JSON text is taken to determine it.
 */
module Migration {
  import opened Common
  import opened Canonical
  import opened Ledger

  datatype Cell = Nil | Ident(id: Id) | Person(name: Name) | Key(event: EventId) | Text(text: string)

  type Payload = map<string, Cell>

  type Events = map<(Id, EventId), Payload>

  /** What a caller asks of the live methods, with the amount as it was sent. */
  datatype Request =
    | OpenRoot(agent: Name, envelope: Decimal)
    | OpenChild(parent: Id, agent: Name, maximum: Decimal)
    | Extend(amount: Decimal)
    | Spend(cost: Option<Decimal>)
    | Close(outcome: string)

  /** What the migration reads of a delegation's current row. */
  datatype Holder = Holder(agent: Name, parent: Option<Id>, authority: Decimal)

  /** A row of the older table, and which of its columns that database had. */
  datatype Legacy = Legacy(
    delegation: Option<Id>, event: EventId, kind: string, amount: Option<Decimal>, status: string)

  datatype Columns = Columns(delegation: bool, kind: bool, amount: bool, status: bool)

  const ALL_COLUMNS: Columns := Columns(true, true, true, true)

  function AmountCell(amount: Option<Decimal>): Cell {
    match amount
    case None => Nil
    case Some(d) => Text(CanonicalDecimalStr(d))
  }

  function ParentCell(parent: Option<Id>): Cell {
    match parent
    case None => Nil
    case Some(p) => Ident(p)
  }

  /** The payload the live method builds. */
  function LivePayload(d: Id, req: Request): Payload {
    match req
    case OpenRoot(agent, envelope) =>
      map["kind" := Text("root"), "delegation_id" := Ident(d), "agent_id" := Person(agent),
          "envelope_usd" := AmountCell(Some(envelope))]
    case OpenChild(parent, agent, maximum) =>
      map["kind" := Text("reservation"), "parent_id" := Ident(parent), "delegation_id" := Ident(d),
          "agent_id" := Person(agent), "maximum_usd" := AmountCell(Some(maximum))]
    case Extend(amount) =>
      map["kind" := Text("authority_grant"), "delegation_id" := Ident(d), "amount_usd" := AmountCell(Some(amount))]
    case Spend(cost) =>
      map["kind" := Text("consumption"), "delegation_id" := Ident(d), "amount_usd" := AmountCell(cost)]
    case Close(outcome) =>
      map["kind" := Text("settlement"), "delegation_id" := Ident(d), "outcome" := Text(outcome)]
  }

  /** The row an accepted request left in the older table. */
  function LegacyOf(d: Id, event: EventId, req: Request): Legacy {
    match req
    case OpenRoot(_, envelope) => Legacy(Some(d), event, "root", Some(envelope), "accepted")
    case OpenChild(_, _, maximum) => Legacy(Some(d), event, "reservation", Some(maximum), "accepted")
    case Extend(amount) => Legacy(Some(d), event, "authority_grant", Some(amount), "accepted")
    case Spend(cost) => Legacy(Some(d), event, "consumption", cost, if cost.None? then "unknown" else "accepted")
    case Close(outcome) => Legacy(Some(d), event, "settlement", None, outcome)
  }

  const UNRECONSTRUCTED := "_unreconstructed_legacy_event_id"

  /** The payload rebuilt from a row and its delegation's current row. */
  function Rebuilt(columns: Columns, row: Legacy, d: Id, holders: map<Id, Holder>): Payload {
    var kind := if columns.kind then row.kind else "unknown";
    var amount := if columns.amount then row.amount else None;
    var status := if columns.status then row.status else "accepted";
    if d in holders && kind == "root" then
      map["kind" := Text("root"), "delegation_id" := Ident(d), "agent_id" := Person(holders[d].agent),
          "envelope_usd" := AmountCell(Some(if amount.Some? then amount.value else holders[d].authority))]
    else if d in holders && kind == "reservation" then
      map["kind" := Text("reservation"), "parent_id" := ParentCell(holders[d].parent), "delegation_id" := Ident(d),
          "agent_id" := Person(holders[d].agent),
          "maximum_usd" := AmountCell(Some(if amount.Some? then amount.value else holders[d].authority))]
    else if d in holders && kind == "authority_grant" then
      map["kind" := Text("authority_grant"), "delegation_id" := Ident(d), "amount_usd" := AmountCell(amount)]
    else if d in holders && kind == "consumption" then
      map["kind" := Text("consumption"), "delegation_id" := Ident(d), "amount_usd" := AmountCell(amount)]
    else if d in holders && kind == "settlement" then
      map["kind" := Text("settlement"), "delegation_id" := Ident(d), "outcome" := Text(status)]
    else
      map["kind" := Text(kind), "delegation_id" := Ident(d), UNRECONSTRUCTED := Key(row.event)]
  }

  function DelegationOf(columns: Columns, row: Legacy): Option<Id> {
    if columns.delegation then row.delegation else None
  }

  /** Rebuilds the table row by row. Rows without a delegation are left behind. */
  method MigrateEvents(columns: Columns, legacy: seq<Legacy>, holders: map<Id, Holder>) returns (events: Events)
    // the older table was keyed by event alone
    requires forall i, j :: 0 <= i < j < |legacy| ==> legacy[i].event != legacy[j].event
    ensures forall i :: 0 <= i < |legacy| && DelegationOf(columns, legacy[i]).Some? ==>
              var d := DelegationOf(columns, legacy[i]).value;
              (d, legacy[i].event) in events && events[(d, legacy[i].event)] == Rebuilt(columns, legacy[i], d, holders)
    ensures forall d, e :: (d, e) in events ==>
              exists i :: 0 <= i < |legacy| && legacy[i].event == e && DelegationOf(columns, legacy[i]) == Some(d)
  {
    events := map[];
    for n := 0 to |legacy|
      invariant forall i :: 0 <= i < n && DelegationOf(columns, legacy[i]).Some? ==>
                  var d := DelegationOf(columns, legacy[i]).value;
                  (d, legacy[i].event) in events
                  && events[(d, legacy[i].event)] == Rebuilt(columns, legacy[i], d, holders)
      invariant forall d, e :: (d, e) in events ==>
                  exists i :: 0 <= i < n && legacy[i].event == e && DelegationOf(columns, legacy[i]) == Some(d)
    {
      hide Rebuilt;
      var d := DelegationOf(columns, legacy[n]);
      if d.None? {
        continue;
      }
      events := events[(d.value, legacy[n].event) := Rebuilt(columns, legacy[n], d.value, holders)];
    }
  }

  // ---- Replays after the migration ----

  /** What `_check_event` accepts as a safe retry. Any other request under a recorded key raises. */
  predicate SafeRetry(events: Events, d: Id, event: EventId, req: Request) {
    (d, event) in events && events[(d, event)] == LivePayload(d, req)
  }

  /** A delegation keeps its agent and its parent for ever. */
  predicate Survives(holders: map<Id, Holder>, d: Id, req: Request) {
    && d in holders
    && (req.OpenRoot? || req.OpenChild? ==> holders[d].agent == req.agent)
    && (req.OpenChild? ==> holders[d].parent == Some(req.parent))
  }

  /** An event of any of the five kinds gets back the payload the live method builds for its request. */
  lemma RebuiltIsLive(d: Id, event: EventId, req: Request, holders: map<Id, Holder>)
    requires Survives(holders, d, req)
    ensures Rebuilt(ALL_COLUMNS, LegacyOf(d, event, req), d, holders) == LivePayload(d, req)
  {
  }

  predicate SameAmount(a: Decimal, b: Decimal) {
    SameValue(a, b) && (a.coef == 0 ==> a.neg == b.neg)
  }

  /** The same request, whatever way its amount is written. */
  predicate SameRequest(a: Request, b: Request) {
    match a
    case OpenRoot(agent, envelope) => b.OpenRoot? && b.agent == agent && SameAmount(envelope, b.envelope)
    case OpenChild(parent, agent, maximum) =>
      b.OpenChild? && b.parent == parent && b.agent == agent && SameAmount(maximum, b.maximum)
    case Extend(amount) => b.Extend? && SameAmount(amount, b.amount)
    case Spend(cost) =>
      b.Spend? && (cost.None? <==> b.cost.None?) && (cost.Some? ==> SameAmount(cost.value, b.cost.value))
    case Close(outcome) => b == a
  }

  lemma SameAmountCell(a: Option<Decimal>, b: Option<Decimal>)
    ensures AmountCell(a) == AmountCell(b)
       <==> (a.None? <==> b.None?) && (a.Some? && b.Some? ==> SameAmount(a.value, b.value))
  {
    if a.Some? && b.Some? {
      CanonicalExactly(a.value, b.value);
    }
  }

  /** Two live requests have one payload exactly when they are the same request. */
  lemma LivePayloadExactly(d: Id, a: Request, b: Request)
    ensures LivePayload(d, a) == LivePayload(d, b) <==> SameRequest(a, b)
  {
    hide CanonicalDecimalStr, SameAmount, AmountCell;
    var pa, pb := LivePayload(d, a), LivePayload(d, b);
    assert "kind" in pa && "kind" in pb;
    SameAmountCell(AmountOf(a), AmountOf(b));
    if pa == pb {
      assert pa["kind"] == pb["kind"];
    }
    match a {
      case OpenRoot(_, _) => assert pa["envelope_usd"] == AmountCell(AmountOf(a)) && pa["agent_id"] == Person(a.agent);
      case OpenChild(_, _, _) =>
        assert pa["maximum_usd"] == AmountCell(AmountOf(a)) && pa["agent_id"] == Person(a.agent)
               && pa["parent_id"] == Ident(a.parent);
      case Extend(_) => assert pa["amount_usd"] == AmountCell(AmountOf(a));
      case Spend(_) => assert pa["amount_usd"] == AmountCell(AmountOf(a));
      case Close(_) => assert pa["outcome"] == Text(a.outcome);
    }
  }

  function AmountOf(req: Request): Option<Decimal> {
    match req
    case OpenRoot(_, envelope) => Some(envelope)
    case OpenChild(_, _, maximum) => Some(maximum)
    case Extend(amount) => Some(amount)
    case Spend(cost) => cost
    case Close(_) => None
  }

  /** After the migration, an event that was accepted before it is a safe retry for exactly the requests
      that are the one it recorded. */
  lemma RetryRecognised(events: Events, d: Id, event: EventId, req: Request, holders: map<Id, Holder>, again: Request)
    requires Survives(holders, d, req)
    requires (d, event) in events
    requires events[(d, event)] == Rebuilt(ALL_COLUMNS, LegacyOf(d, event, req), d, holders)
    ensures SafeRetry(events, d, event, again) <==> SameRequest(req, again)
  {
    hide LivePayload, Rebuilt, SameRequest;
    RebuiltIsLive(d, event, req, holders);
    LivePayloadExactly(d, req, again);
  }

  /** A row of no known kind, or of a delegation that is gone, is a safe retry for no request. */
  lemma UnreconstructedNeverRetried(events: Events, columns: Columns, row: Legacy, d: Id, holders: map<Id, Holder>,
                                    req: Request)
    requires d !in holders
          || !columns.kind
          || row.kind !in {"root", "reservation", "authority_grant", "consumption", "settlement"}
    requires (d, row.event) in events && events[(d, row.event)] == Rebuilt(columns, row, d, holders)
    ensures !SafeRetry(events, d, row.event, req)
  {
    assert UNRECONSTRUCTED in Rebuilt(columns, row, d, holders);
    assert UNRECONSTRUCTED !in LivePayload(d, req);
  }
}
