/**
 The ledger of tool calls an operator must approve: a proposal, its decision and its outcome on one row,
 each moved by a guarded update that appends its audit row.
 */
module ToolLedger {
  import opened Wrappers

  datatype CallStatus = AwaitingApproval | Approved | Denied | Succeeded | Failed

  // What a proposal is told apart by, next to who made it: the provider's id, the verb, the arguments.
  datatype CallKey = CallKey(userId: string, providerId: string, toolName: Option<string>, arguments: Option<string>)

  datatype ToolCall = ToolCall(
    key: CallKey,
    status: CallStatus,
    decidedBy: Option<string>,
    decidedAt: Option<Time>,
    result: Option<string>,
    error: Option<string>,
    model: Option<string>,
    promptVersion: Option<string>,
    createdAt: Time)

  type Calls = map<Uuid, ToolCall>

  datatype AuditRow =
    | DecisionAudit(callId: Uuid, approved: bool, key: CallKey, proposedAt: Time, decidedBy: Option<string>)
    | FailureAudit(callId: Uuid, key: CallKey, error: Option<string>, decidedBy: Option<string>,
                   model: Option<string>, promptVersion: Option<string>)

  datatype Ledger = Ledger(calls: Calls, audit: seq<AuditRow>)

  // ---------- The guarded updates ----------

  function Proposal(key: CallKey, model: Option<string>, promptVersion: Option<string>, now: Time): ToolCall {
    ToolCall(key, AwaitingApproval, None, None, None, None, model, promptVersion, now)
  }

  predicate CanSettle(calls: Calls, id: Uuid) {
    id in calls && calls[id].status == AwaitingApproval
  }

  function Settled(ledger: Ledger, id: Uuid, decidedBy: string, approved: bool, now: Time): Ledger {
    if !CanSettle(ledger.calls, id) then ledger
    else
      var call := ledger.calls[id];
      var decided := call.(status := if approved then Approved else Denied, decidedBy := Some(decidedBy),
                           decidedAt := Some(now));
      Ledger(ledger.calls[id := decided],
             ledger.audit + [DecisionAudit(id, approved, call.key, call.createdAt, Some(decidedBy))])
  }

  predicate CanClose(calls: Calls, id: Uuid) {
    id in calls && calls[id].status == Approved
  }

  function Closed(ledger: Ledger, id: Uuid, succeeded: bool, result: Option<string>, error: Option<string>): Ledger {
    if !CanClose(ledger.calls, id) then ledger
    else
      var call := ledger.calls[id];
      var done := call.(status := if succeeded then Succeeded else Failed, result := result, error := error);
      var entry := FailureAudit(id, call.key, error, call.decidedBy, call.model, call.promptVersion);
      Ledger(ledger.calls[id := done], ledger.audit + if succeeded then [] else [entry])
  }

  // ---------- The newest proposal ----------

  // The database's order: by time of proposal, then by id.
  predicate Newer(calls: Calls, a: Uuid, b: Uuid)
    requires a in calls && b in calls
  {
    || calls[a].createdAt > calls[b].createdAt
    || (calls[a].createdAt == calls[b].createdAt && a.bits > b.bits)
  }

  ghost predicate IsNewestTwin(calls: Calls, key: CallKey, id: Uuid) {
    && id in calls && calls[id].key == key
    && forall other :: other in calls && other != id && calls[other].key == key ==> Newer(calls, id, other)
  }

  ghost function NewestTwin(calls: Calls, key: CallKey): Option<Uuid> {
    if exists id :: IsNewestTwin(calls, key, id) then
      var id :| IsNewestTwin(calls, key, id);
      Some(id)
    else None
  }

  lemma {:induction false} NewestTwinIs(calls: Calls, key: CallKey, id: Uuid)
    requires IsNewestTwin(calls, key, id)
    ensures NewestTwin(calls, key) == Some(id)
  {}

  // ---------- The store and the service ----------

  class ToolCallStore {
    var calls: Calls
    var audit: seq<AuditRow>

    ghost function State(): Ledger
      reads this
    {
      Ledger(calls, audit)
    }

    constructor ()
      ensures State() == Ledger(map[], [])
    {
      calls, audit := map[], [];
    }

    method AddToolCall(id: Uuid, call: ToolCall)
      requires id !in calls
      modifies this
      ensures State() == Ledger(old(calls)[id := call], old(audit))
    {
      calls := calls[id := call];
    }

    // The user's calls under the provider's id, newest first.
    method ListByProviderId(userId: string, providerId: string) returns (ids: seq<Uuid>)
      ensures forall id :: id in ids <==>
                           id in calls && calls[id].key.userId == userId && calls[id].key.providerId == providerId
      ensures forall i, j :: 0 <= i < j < |ids| ==>
                ids[i] in calls && ids[j] in calls && Newer(calls, ids[i], ids[j])
    {
      var left := set id | id in calls && calls[id].key.userId == userId && calls[id].key.providerId == providerId;
      ids := [];
      while left != {}
        invariant left <= calls.Keys
        invariant forall id :: id in left ==> calls[id].key.userId == userId && calls[id].key.providerId == providerId
        invariant forall id :: id in ids ==>
          id in calls && calls[id].key.userId == userId && calls[id].key.providerId == providerId
        invariant forall id :: id in calls && calls[id].key.userId == userId && calls[id].key.providerId == providerId ==>
          id in left || id in ids
        invariant forall i, j :: 0 <= i < j < |ids| ==> Newer(calls, ids[i], ids[j])
        invariant forall i, id :: 0 <= i < |ids| && id in left ==> Newer(calls, ids[i], id)
        decreases left
      {
        var newest := Newest(left);
        ids := ids + [newest];
        left := left - {newest};
      }
    }

    method Newest(among: set<Uuid>) returns (newest: Uuid)
      requires among != {} && among <= calls.Keys
      ensures newest in among
      ensures forall id :: id in among && id != newest ==> Newer(calls, newest, id)
    {
      newest :| newest in among;
      var left := among - {newest};
      while left != {}
        invariant newest in among && newest !in left && left <= among
        invariant forall id :: id in among && id !in left && id != newest ==> Newer(calls, newest, id)
        decreases left
      {
        var id :| id in left;
        left := left - {id};
        if calls[id].createdAt > calls[newest].createdAt
           || (calls[id].createdAt == calls[newest].createdAt && id.bits > newest.bits) {
          newest := id;
        }
      }
    }

    method SettleToolCall(id: Uuid, decidedBy: string, approved: bool, now: Time) returns (moved: bool)
      modifies this
      ensures moved == CanSettle(old(calls), id)
      ensures State() == Settled(old(State()), id, decidedBy, approved, now)
    {
      if id !in calls || calls[id].status != AwaitingApproval {
        return false;
      }
      var call := calls[id];
      calls := calls[id := call.(status := if approved then Approved else Denied, decidedBy := Some(decidedBy),
                                 decidedAt := Some(now))];
      audit := audit + [DecisionAudit(id, approved, call.key, call.createdAt, Some(decidedBy))];
      moved := true;
    }

    method RecordToolCallOutcome(id: Uuid, succeeded: bool, result: Option<string>, error: Option<string>)
      returns (moved: bool)
      modifies this
      ensures moved == CanClose(old(calls), id)
      ensures State() == Closed(old(State()), id, succeeded, result, error)
    {
      if id !in calls || calls[id].status != Approved {
        return false;
      }
      var call := calls[id];
      calls := calls[id := call.(status := if succeeded then Succeeded else Failed, result := result, error := error)];
      if !succeeded {
        audit := audit + [FailureAudit(id, call.key, error, call.decidedBy, call.model, call.promptVersion)];
      } else {
        assert audit + [] == audit;
      }
      moved := true;
    }
  }

  // The call a decision on the key settles: the newest proposal under it, if it still awaits one.
  ghost function Eligible(calls: Calls, key: CallKey): Option<Uuid> {
    var newest := NewestTwin(calls, key);
    if newest.Some? && CanSettle(calls, newest.value) then newest else None
  }

  // The first half of a decision: which call it is about.
  method LookUp(store: ToolCallStore, key: CallKey) returns (eligible: Option<Uuid>)
    ensures eligible == Eligible(store.calls, key)
  {
    var candidates := store.ListByProviderId(key.userId, key.providerId);
    var found: Option<Uuid> := None;
    for i := 0 to |candidates|
      invariant found.None?
      invariant forall k :: 0 <= k < i ==> store.calls[candidates[k]].key != key
    {
      var call := store.calls[candidates[i]];
      if call.key.toolName == key.toolName && call.key.arguments == key.arguments {
        found := Some(candidates[i]);
        FirstMatchIsNewest(store.calls, key, candidates, i);
        break;
      }
    }
    if found.None? {
      return None;
    }
    eligible := if store.calls[found.value].status == AwaitingApproval then found else None;
  }

  method RecordDecision(store: ToolCallStore, key: CallKey, decidedBy: string, approved: bool, now: Time)
    returns (settled: Option<Uuid>)
    modifies store
    ensures settled == Eligible(old(store.calls), key)
    ensures store.State() == if settled.Some? then Settled(old(store.State()), settled.value, decidedBy, approved, now)
                             else old(store.State())
  {
    var eligible := LookUp(store, key);
    if eligible.None? {
      return None;
    }
    var moved := store.SettleToolCall(eligible.value, decidedBy, approved, now);
    settled := if moved then eligible else None;
  }

  lemma {:induction false} FirstMatchIsNewest(calls: Calls, key: CallKey, ids: seq<Uuid>, i: nat)
    requires i < |ids|
    requires forall id :: id in ids <==>
                          id in calls && calls[id].key.userId == key.userId && calls[id].key.providerId == key.providerId
    requires forall k, l :: 0 <= k < l < |ids| ==> Newer(calls, ids[k], ids[l])
    requires calls[ids[i]].key == key && forall k :: 0 <= k < i ==> calls[ids[k]].key != key
    ensures NewestTwin(calls, key) == Some(ids[i])
  {
    forall other | other in calls && other != ids[i] && calls[other].key == key ensures Newer(calls, ids[i], other) {
      assert other in ids;
      var k :| 0 <= k < |ids| && ids[k] == other;
    }
    NewestTwinIs(calls, key, ids[i]);
  }

  // ---------- Runs of the ledger ----------

  // The ledger, and the call each decision under way has looked up.
  datatype System = System(ledger: Ledger, lookups: map<nat, Uuid>)

  datatype Event =
    // A new proposal; its id is freshly drawn.
    | Proposed(id: Uuid, key: CallKey, model: Option<string>, promptVersion: Option<string>, now: Time)
    // A decision whose lookup and write have nothing in between.
    | Decided(key: CallKey, decidedBy: string, approved: bool, now: Time)
    // The two halves of a decision, as other writers may come between them. A ticket names one decision.
    | DecisionLookedUp(ticket: nat, key: CallKey)
    | DecisionWritten(ticket: nat, decidedBy: string, approved: bool, now: Time)
    | OutcomeRecorded(id: Uuid, succeeded: bool, result: Option<string>, error: Option<string>)

  ghost function NextLedger(s: System, e: Event): Ledger {
    match e
    case Proposed(id, key, model, promptVersion, now) =>
      if id in s.ledger.calls then s.ledger
      else s.ledger.(calls := s.ledger.calls[id := Proposal(key, model, promptVersion, now)])
    case Decided(key, decidedBy, approved, now) =>
      var eligible := Eligible(s.ledger.calls, key);
      if eligible.Some? then Settled(s.ledger, eligible.value, decidedBy, approved, now) else s.ledger
    case DecisionLookedUp(_, _) => s.ledger
    case DecisionWritten(ticket, decidedBy, approved, now) =>
      if ticket in s.lookups then Settled(s.ledger, s.lookups[ticket], decidedBy, approved, now) else s.ledger
    case OutcomeRecorded(id, succeeded, result, error) => Closed(s.ledger, id, succeeded, result, error)
  }

  // A decision that found nothing to settle has no lookup to write.
  ghost function NextLookups(s: System, e: Event): map<nat, Uuid> {
    if e.DecisionLookedUp? && e.ticket !in s.lookups && Eligible(s.ledger.calls, e.key).Some?
    then s.lookups[e.ticket := Eligible(s.ledger.calls, e.key).value] else s.lookups
  }

  ghost function Next(s: System, e: Event): System {
    System(NextLedger(s, e), NextLookups(s, e))
  }

  ghost function After(s: System, events: seq<Event>): System
    decreases |events|
  {
    if events == [] then s else After(Next(s, events[0]), events[1..])
  }

  const EMPTY_LEDGER: System := System(Ledger(map[], []), map[])

  lemma {:induction false} AfterOneMore(s: System, events: seq<Event>)
    requires events != []
    ensures After(s, events) == Next(After(s, events[..|events| - 1]), Last(events))
    decreases |events|
  {
    if |events| > 1 {
      AfterOneMore(Next(s, events[0]), events[1..]);
      assert events[..|events| - 1][1..] == events[1..][..|events| - 2];
    }
  }

  // The audit rows of one call, in order.
  function AuditOf(audit: seq<AuditRow>, id: Uuid): seq<AuditRow> {
    if audit == [] then []
    else AuditOf(audit[..|audit| - 1], id) + if Last(audit).callId == id then [Last(audit)] else []
  }

  // The audit a call in its status must have: nothing while it waits; one decision once settled, by the
  // one who settled it; and one failure more if it failed.
  function AuditDue(id: Uuid, call: ToolCall): seq<AuditRow> {
    (if call.status.AwaitingApproval? then []
     else [DecisionAudit(id, !call.status.Denied?, call.key, call.createdAt, call.decidedBy)])
    + (if call.status.Failed?
       then [FailureAudit(id, call.key, call.error, call.decidedBy, call.model, call.promptVersion)] else [])
  }

  ghost predicate AuditExact(ledger: Ledger, id: Uuid) {
    AuditOf(ledger.audit, id) == if id in ledger.calls then AuditDue(id, ledger.calls[id]) else []
  }

  // A call names who decided it, and when, exactly once it is decided.
  predicate Signed(call: ToolCall) {
    && (call.decidedBy.None? <==> call.status.AwaitingApproval?)
    && (call.decidedAt.None? <==> call.status.AwaitingApproval?)
  }

  ghost predicate LedgerOk(ledger: Ledger) {
    && (forall id :: AuditExact(ledger, id))
    && (forall id :: id in ledger.calls ==> Signed(ledger.calls[id]))
  }

  // One call changed and one audit row, its own, was appended.
  lemma {:induction false} OneEntryMore(ledger: Ledger, id: Uuid, call: ToolCall, entry: AuditRow)
    requires LedgerOk(ledger) && id in ledger.calls && entry.callId == id
    requires AuditDue(id, call) == AuditDue(id, ledger.calls[id]) + [entry] && Signed(call)
    ensures LedgerOk(Ledger(ledger.calls[id := call], ledger.audit + [entry]))
  {
    var after := Ledger(ledger.calls[id := call], ledger.audit + [entry]);
    forall other ensures AuditExact(after, other) {
      assert AuditExact(ledger, other);
    }
  }

  lemma {:induction false} NoEntryMore(ledger: Ledger, id: Uuid, call: ToolCall)
    requires LedgerOk(ledger) && Signed(call)
    requires AuditDue(id, call) == if id in ledger.calls then AuditDue(id, ledger.calls[id]) else []
    ensures LedgerOk(ledger.(calls := ledger.calls[id := call]))
  {
    var after := ledger.(calls := ledger.calls[id := call]);
    forall other ensures AuditExact(after, other) {
      assert AuditExact(ledger, other);
    }
  }

  lemma {:induction false} SettledKeepsOk(ledger: Ledger, id: Uuid, decidedBy: string, approved: bool, now: Time)
    requires LedgerOk(ledger)
    ensures LedgerOk(Settled(ledger, id, decidedBy, approved, now))
  {
    if CanSettle(ledger.calls, id) {
      var settled := Settled(ledger, id, decidedBy, approved, now);
      assert AuditDue(id, ledger.calls[id]) == [];
      OneEntryMore(ledger, id, settled.calls[id], Last(settled.audit));
    }
  }

  lemma {:induction false} ClosedKeepsOk(ledger: Ledger, id: Uuid, succeeded: bool, result: Option<string>,
                                         error: Option<string>)
    requires LedgerOk(ledger)
    ensures LedgerOk(Closed(ledger, id, succeeded, result, error))
  {
    if CanClose(ledger.calls, id) {
      assert Signed(ledger.calls[id]);
      var closed := Closed(ledger, id, succeeded, result, error);
      if succeeded {
        assert closed.audit == ledger.audit;
        NoEntryMore(ledger, id, closed.calls[id]);
      } else {
        OneEntryMore(ledger, id, closed.calls[id], Last(closed.audit));
      }
    }
  }

  lemma {:induction false} NextKeepsOk(s: System, e: Event)
    requires LedgerOk(s.ledger)
    ensures LedgerOk(Next(s, e).ledger)
  {
    match e
    case Proposed(id, key, model, promptVersion, now) =>
      if id !in s.ledger.calls {
        NoEntryMore(s.ledger, id, Proposal(key, model, promptVersion, now));
      }
    case Decided(key, decidedBy, approved, now) =>
      var eligible := Eligible(s.ledger.calls, key);
      if eligible.Some? {
        SettledKeepsOk(s.ledger, eligible.value, decidedBy, approved, now);
      }
    case DecisionLookedUp(_, _) =>
    case DecisionWritten(ticket, decidedBy, approved, now) =>
      if ticket in s.lookups {
        SettledKeepsOk(s.ledger, s.lookups[ticket], decidedBy, approved, now);
      }
    case OutcomeRecorded(id, succeeded, result, error) => ClosedKeepsOk(s.ledger, id, succeeded, result, error);
  }

  lemma {:induction false} AfterKeepsOk(s: System, events: seq<Event>)
    requires LedgerOk(s.ledger)
    ensures LedgerOk(After(s, events).ledger)
    decreases |events|
  {
    if events != [] {
      NextKeepsOk(s, events[0]);
      AfterKeepsOk(Next(s, events[0]), events[1..]);
    }
  }

  // Over every run of the ledger, racing decisions included, each call has exactly the audit its status
  // calls for: it is settled at most once, and fails at most once.
  lemma {:induction false} AuditMatchesLedger(events: seq<Event>, id: Uuid)
    ensures var ledger := After(EMPTY_LEDGER, events).ledger;
            AuditOf(ledger.audit, id) == if id in ledger.calls then AuditDue(id, ledger.calls[id]) else []
  {
    AfterKeepsOk(EMPTY_LEDGER, events);
    assert AuditExact(After(EMPTY_LEDGER, events).ledger, id);
  }

  // ---------- A call only moves forward ----------

  // The proposal stays as made; a decision is made once and kept; an outcome comes only to an approved
  // call, once.
  ghost predicate Follows(before: ToolCall, after: ToolCall) {
    && after.key == before.key && after.createdAt == before.createdAt
    && after.model == before.model && after.promptVersion == before.promptVersion
    && (!before.status.AwaitingApproval? ==> after.decidedBy == before.decidedBy && after.decidedAt == before.decidedAt)
    && (after.status.AwaitingApproval? ==> after == before)
    && (before.status.Approved? ==> after == before || after.status.Succeeded? || after.status.Failed?)
    && (before.status in {Denied, Succeeded, Failed} ==> after == before)
  }

  lemma {:induction false} NextFollows(s: System, e: Event, id: Uuid)
    requires id in s.ledger.calls
    ensures id in Next(s, e).ledger.calls && Follows(s.ledger.calls[id], Next(s, e).ledger.calls[id])
    ensures s.ledger.audit <= Next(s, e).ledger.audit
  {}

  lemma {:induction false} CallsOnlyMoveForward(s: System, events: seq<Event>, id: Uuid)
    requires id in s.ledger.calls
    ensures id in After(s, events).ledger.calls && Follows(s.ledger.calls[id], After(s, events).ledger.calls[id])
    ensures s.ledger.audit <= After(s, events).ledger.audit
    decreases |events|
  {
    if events != [] {
      NextFollows(s, events[0], id);
      CallsOnlyMoveForward(Next(s, events[0]), events[1..], id);
    }
  }

  // ---------- Only the newest proposal ----------

  // A decision settles a call exactly when the newest proposal under its key still waits, and then that one.
  lemma {:induction false} DecisionSettlesNewest(s: System, key: CallKey, decidedBy: string, approved: bool, now: Time)
    ensures var after := Next(s, Decided(key, decidedBy, approved, now)).ledger.calls;
            forall id :: id in s.ledger.calls ==>
              && (after[id] != s.ledger.calls[id] <==>
                  IsNewestTwin(s.ledger.calls, key, id) && s.ledger.calls[id].status.AwaitingApproval?)
              && (after[id] != s.ledger.calls[id] ==>
                    && after[id].status == (if approved then Approved else Denied)
                    && after[id].decidedBy == Some(decidedBy) && after[id].decidedAt == Some(now)
                    && forall other :: other in s.ledger.calls && s.ledger.calls[other].key == key ==>
                         s.ledger.calls[other].createdAt <= s.ledger.calls[id].createdAt)
  {}

  // An outcome changes exactly the call it is of, and only one that was approved.
  lemma {:induction false} OutcomeClosesApproved(s: System, id: Uuid, succeeded: bool, result: Option<string>,
                                                 error: Option<string>)
    requires id in s.ledger.calls
    ensures var call, after := s.ledger.calls[id], Next(s, OutcomeRecorded(id, succeeded, result, error)).ledger.calls;
            && after == s.ledger.calls[id := after[id]]
            && after[id] == if call.status == Approved
                            then call.(status := if succeeded then Succeeded else Failed, result := result, error := error)
                            else call
  {
    assert s.ledger.calls[id := s.ledger.calls[id]] == s.ledger.calls;
  }

  // Two proposals of one key, the second the newer.
  ghost predicate OlderTwin(calls: Calls, older: Uuid, newer: Uuid) {
    && older in calls && newer in calls
    && calls[older].key == calls[newer].key
    && Newer(calls, newer, older)
  }

  ghost predicate OlderWaits(s: System, older: Uuid, newer: Uuid) {
    OlderTwin(s.ledger.calls, older, newer) && s.ledger.calls[older].status.AwaitingApproval?
  }

  // The event writes a decision that had already looked up the call.
  predicate WritesFor(s: System, e: Event, id: Uuid) {
    e.DecisionWritten? && e.ticket in s.lookups && s.lookups[e.ticket] == id
  }

  // With a newer twin in place no lookup finds the older one, so only an earlier lookup's write moves it.
  lemma {:induction false} OlderTwinStep(s: System, e: Event, older: Uuid, newer: Uuid)
    requires OlderWaits(s, older, newer)
    ensures older in Next(s, e).ledger.calls
    ensures WritesFor(s, e, older) ==> !Next(s, e).ledger.calls[older].status.AwaitingApproval?
    ensures !WritesFor(s, e, older) ==>
              OlderWaits(Next(s, e), older, newer) && Next(s, e).ledger.calls[older] == s.ledger.calls[older]
    ensures forall f :: WritesFor(Next(s, e), f, older) <==> WritesFor(s, f, older)
  {}

  // An older twin left waiting is settled once a newer one exists if and only if a decision that had
  // looked it up before is written.
  lemma {:induction false} OlderTwinSettledIff(s: System, events: seq<Event>, older: Uuid, newer: Uuid)
    requires OlderWaits(s, older, newer)
    ensures older in After(s, events).ledger.calls
    ensures After(s, events).ledger.calls[older] != s.ledger.calls[older] <==>
            exists i :: 0 <= i < |events| && WritesFor(s, events[i], older)
    decreases |events|
  {
    if events != [] {
      var next, rest := Next(s, events[0]), events[1..];
      OlderTwinStep(s, events[0], older, newer);
      if WritesFor(s, events[0], older) {
        CallsOnlyMoveForward(next, rest, older);
      } else {
        OlderTwinSettledIff(next, rest, older, newer);
      }
    }
  }

  // The k-th event is the lookup of the ticket's decision, and finds the call.
  ghost predicate LooksUp(events: seq<Event>, k: nat, ticket: nat, id: Uuid)
    requires k < |events|
  {
    var earlier := After(EMPTY_LEDGER, events[..k]);
    && events[k].DecisionLookedUp? && events[k].ticket == ticket && ticket !in earlier.lookups
    && Eligible(earlier.ledger.calls, events[k].key) == Some(id)
  }

  lemma {:induction false} LookupsHaveEvents(events: seq<Event>, ticket: nat, id: Uuid)
    ensures var lookups := After(EMPTY_LEDGER, events).lookups;
            ticket in lookups && lookups[ticket] == id <==>
            exists k :: 0 <= k < |events| && LooksUp(events, k, ticket, id)
    decreases |events|
  {
    if events != [] {
      var n := |events| - 1;
      LookupsHaveEvents(events[..n], ticket, id);
      AfterOneMore(EMPTY_LEDGER, events);
      forall k | 0 <= k < n ensures LooksUp(events, k, ticket, id) <==> LooksUp(events[..n], k, ticket, id) {
        assert events[..n][..k] == events[..k];
      }
      var before := After(EMPTY_LEDGER, events[..n]);
      if LooksUp(events, n, ticket, id) {
        assert ticket !in before.lookups;
      }
    }
  }

  lemma {:induction false} AfterConcat(s: System, first: seq<Event>, second: seq<Event>)
    ensures After(s, first + second) == After(After(s, first), second)
    decreases |first|
  {
    if first == [] {
      assert first + second == second;
    } else {
      assert (first + second)[0] == first[0] && (first + second)[1..] == first[1..] + second;
      AfterConcat(Next(s, first[0]), first[1..], second);
    }
  }

  // Whoever found the older proposal looked before the newer one was there.
  lemma {:induction false} LookupPrecedesNewer(events: seq<Event>, k: nat, ticket: nat, older: Uuid, newer: Uuid)
    requires k < |events| && LooksUp(events, k, ticket, older)
    requires OlderTwin(After(EMPTY_LEDGER, events).ledger.calls, older, newer)
    ensures newer !in After(EMPTY_LEDGER, events[..k]).ledger.calls
  {
    var earlier := After(EMPTY_LEDGER, events[..k]);
    assert IsNewestTwin(earlier.ledger.calls, events[k].key, older);
    if newer in earlier.ledger.calls {
      assert events[..k] + events[k..] == events;
      AfterConcat(EMPTY_LEDGER, events[..k], events[k..]);
      CallsOnlyMoveForward(earlier, events[k..], older);
      CallsOnlyMoveForward(earlier, events[k..], newer);
    }
  }

  // The written decision had found the call at the k-th event, before the newer proposal was made.
  ghost predicate Straddles(before: seq<Event>, k: nat, e: Event, older: Uuid, newer: Uuid)
    requires k < |before|
  {
    && e.DecisionWritten?
    && LooksUp(before, k, e.ticket, older)
    && newer !in After(EMPTY_LEDGER, before[..k]).ledger.calls
  }

  ghost predicate SettledAcross(before: seq<Event>, e: Event, older: Uuid, newer: Uuid) {
    exists k :: 0 <= k < |before| && Straddles(before, k, e, older, newer)
  }

  lemma {:induction false} WritesIffStraddles(before: seq<Event>, e: Event, older: Uuid, newer: Uuid)
    requires OlderTwin(After(EMPTY_LEDGER, before).ledger.calls, older, newer)
    ensures WritesFor(After(EMPTY_LEDGER, before), e, older) <==> SettledAcross(before, e, older, newer)
  {
    if e.DecisionWritten? {
      LookupsHaveEvents(before, e.ticket, older);
      forall k | 0 <= k < |before| && LooksUp(before, k, e.ticket, older)
        ensures Straddles(before, k, e, older, newer)
      {
        LookupPrecedesNewer(before, k, e.ticket, older, newer);
      }
    }
  }

  // Over whole runs: once a newer twin was proposed, an older one left waiting is settled if and only if
  // some decision looked it up before the newer proposal and is written after it.
  lemma {:induction false} OlderTwinSettledIffStraddled(before: seq<Event>, after: seq<Event>, older: Uuid, newer: Uuid)
    requires OlderWaits(After(EMPTY_LEDGER, before), older, newer)
    ensures older in After(EMPTY_LEDGER, before + after).ledger.calls
    ensures After(EMPTY_LEDGER, before + after).ledger.calls[older] !=
            After(EMPTY_LEDGER, before).ledger.calls[older] <==>
            exists i :: 0 <= i < |after| && SettledAcross(before, after[i], older, newer)
  {
    var s := After(EMPTY_LEDGER, before);
    AfterConcat(EMPTY_LEDGER, before, after);
    OlderTwinSettledIff(s, after, older, newer);
    forall i | 0 <= i < |after|
      ensures WritesFor(s, after[i], older) <==> SettledAcross(before, after[i], older, newer)
    {
      WritesIffStraddles(before, after[i], older, newer);
    }
  }

  predicate DecidesInOneStep(events: seq<Event>) {
    forall i :: 0 <= i < |events| ==> !events[i].DecisionWritten?
  }

  // So when every decision is one step, an older twin is never settled once a newer one exists.
  lemma {:induction false} OlderTwinIsNeverSettled(s: System, events: seq<Event>, older: Uuid, newer: Uuid)
    requires OlderWaits(s, older, newer) && DecidesInOneStep(events)
    ensures older in After(s, events).ledger.calls
    ensures After(s, events).ledger.calls[older] == s.ledger.calls[older]
  {
    OlderTwinSettledIff(s, events, older, newer);
  }

  // The race: the lookup finds the first proposal, a second comes, and the write settles the first.
  lemma {:induction false} SplitDecisionSettlesOlderTwin(key: CallKey)
    ensures var a, b := Uuid(1), Uuid(2);
            var found := Next(Next(EMPTY_LEDGER, Proposed(a, key, None, None, 10)), DecisionLookedUp(0, key));
            var both := Next(found, Proposed(b, key, None, None, 20));
            && OlderWaits(both, a, b)
            && Next(both, DecisionWritten(0, "operator", true, 30)).ledger.calls[a].status == Approved
  {
    var first := Next(EMPTY_LEDGER, Proposed(Uuid(1), key, None, None, 10));
    NewestTwinIs(first.ledger.calls, key, Uuid(1));
  }

  // A decision changes nothing the second time, approve after deny included, until the key is proposed again.
  lemma {:induction false} DecisionIsOnce(s: System, key: CallKey, first: Event, second: Event)
    requires first.Decided? && second.Decided? && first.key == key == second.key
    ensures Next(Next(s, first), second) == Next(s, first)
  {
    var after := Next(s, first);
    var eligible := Eligible(after.ledger.calls, key);
    if eligible.Some? {
      var id := eligible.value;
      assert IsNewestTwin(after.ledger.calls, key, id);
      NewestSurvives(s, first, id);
      NewestTwinIs(s.ledger.calls, key, id);
    }
  }

  lemma {:induction false} NewestSurvives(s: System, e: Event, id: Uuid)
    requires e.Decided? && IsNewestTwin(Next(s, e).ledger.calls, e.key, id)
    ensures IsNewestTwin(s.ledger.calls, e.key, id)
  {
    var calls, after := s.ledger.calls, Next(s, e).ledger.calls;
    assert after.Keys == calls.Keys;
    forall other | other in calls ensures Follows(calls[other], after[other]) {
      NextFollows(s, e, other);
    }
    forall other | other in calls && other != id && calls[other].key == e.key ensures Newer(calls, id, other) {
      assert Newer(after, id, other);
    }
  }

  // A decision under one user's key leaves every other user's calls as they are.
  lemma {:induction false} DecisionsAreScoped(s: System, key: CallKey, decidedBy: string, approved: bool, now: Time,
                                              id: Uuid)
    requires id in s.ledger.calls && s.ledger.calls[id].key.userId != key.userId
    ensures Next(s, Decided(key, decidedBy, approved, now)).ledger.calls[id] == s.ledger.calls[id]
  {}
}
