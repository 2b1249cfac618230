/** The recorder of searches, intents, decisions and actions: an append-only log with rules across its records. */
module UsageRecorder {
  import opened Domain
  import opened Ordering
  import opened UsageRecords

  /** NullRead is no answer of the recorder: it fails because it would read a null list. */
  datatype Refusal = TelemetryError | TelemetryConflict | NullRead
  datatype Reply = Recorded(replayed: bool) | Refused(refusal: Refusal)

  type Log = seq<Record>

  // ---- what the recorder looks up ---------------------------------------------------------

  predicate IsIntentOf(r: Record, trace: string, client: string) {
    r.tool == IntentTool && r.traceId == Some(trace) && r.client == Some(client)
  }

  predicate KnownTrace(log: Log, trace: string, client: string) {
    exists r <- log :: IsIntentOf(r, trace, client)
  }

  /** The first record that passes, if any. */
  function First(log: Log, passes: Record -> bool): Option<Record> {
    if log == [] then None else if passes(log[0]) then Some(log[0]) else First(log[1..], passes)
  }

  /** The searches by id; of two with one id the later counts. */
  function SearchesOf(log: Log): map<string, Record> {
    if log == [] then map[]
    else
      var last := log[|log| - 1];
      var before := SearchesOf(log[..|log| - 1]);
      if last.tool == SearchTool && last.searchId.Some? then before[last.searchId.value := last] else before
  }

  predicate Resolves(r: Record, id: string) {
    r.tool == DecisionTool && r.searchIds.Ids? && id in r.searchIds.ids
  }

  predicate IsResolved(log: Log, id: string) {
    exists r <- log :: Resolves(r, id)
  }

  /** Listing what is resolved reads the list of every decision, whatever the tool wrote. */
  predicate HasNullDecision(log: Log) {
    exists r <- log :: r.tool == DecisionTool && r.searchIds.Null?
  }

  predicate Returned(searches: map<string, Record>, ids: seq<string>, fact: string) {
    exists id <- ids :: id in searches && searches[id].factIds.Ids? && fact in searches[id].factIds.ids
  }

  // ---- the records written ----------------------------------------------------------------

  /** An empty list of facts is stored as null. */
  function SearchRecord(client: string, id: string, hits: int, facts: seq<string>, outcome: string, trace: Option<string>): Record {
    BLANK.(tool := SearchTool, client := Some(client), searchId := Some(id), hits := Some(hits),
           factIds := if facts == [] then Null else Ids(facts), outcome := Some(outcome), traceId := trace)
  }

  function IntentRecord(client: string, c: IntentCommand): Record {
    BLANK.(tool := IntentTool, client := Some(client), traceId := Some(c.traceId), sideEffect := Some(c.sideEffect),
           outcome := Some("recorded"), request := Some(IntentRequest(c)))
  }

  function DecisionRecord(client: string, c: DecisionCommand): Record {
    BLANK.(tool := DecisionTool, client := Some(client), decisionId := Some(c.decisionId), searchIds := Ids(c.searchIds),
           usedFactIds := Some(c.usedFactIds), effect := Some(c.effect), noUseReason := c.noUseReason, traceId := c.traceId,
           outcome := Some("recorded"), request := Some(DecisionRequest(c)))
  }

  function ActionRecord(client: string, c: ActionCommand): Record {
    BLANK.(tool := ActionTool, client := Some(client), eventId := Some(c.eventId), actionId := Some(c.actionId),
           traceId := Some(c.traceId), phase := Some(c.phase), sideEffect := Some(c.sideEffect), decisionId := c.decisionId,
           outcome := Some(c.outcome), request := Some(ActionRequest(c)))
  }

  // ---- one call ---------------------------------------------------------------------------

  /** A call with a key that is already used: a replay of the same request by the same client, or a conflict. */
  function Again(existing: Record, client: string, request: Request): Reply {
    if existing.request != Some(request) || existing.client != Some(client) then Refused(TelemetryConflict) else Recorded(true)
  }

  function SearchReply(log: Log, client: string, trace: Option<string>): Reply {
    if trace.Some? && !KnownTrace(log, trace.value, client) then Refused(TelemetryError) else Recorded(false)
  }

  function IntentReply(log: Log, client: string, c: IntentCommand): Reply {
    match First(log, (r: Record) => r.tool == IntentTool && r.traceId == Some(c.traceId))
    case Some(existing) => Again(existing, client, IntentRequest(c))
    case None => Recorded(false)
  }

  function SearchHits(r: Record): bool {
    r.outcome == Some("ok") && r.hits.Some? && r.hits.value > 0
  }

  /** The rules of a new decision, in the order they are tested. */
  function DecisionRefusal(log: Log, client: string, c: DecisionCommand): Option<Refusal> {
    var searches := SearchesOf(log);
    if exists id <- c.searchIds :: id !in searches then Some(TelemetryError)
    else if exists id <- c.searchIds :: searches[id].client != Some(client) then Some(TelemetryError)
    else if c.traceId.None? && exists id <- c.searchIds :: searches[id].traceId.Some? then Some(TelemetryError)
    else if c.traceId.Some? && !KnownTrace(log, c.traceId.value, client) then Some(TelemetryError)
    else if c.traceId.Some? && exists id <- c.searchIds :: searches[id].traceId != c.traceId then Some(TelemetryError)
    else if exists id <- c.searchIds :: !SearchHits(searches[id]) then Some(TelemetryError)
    else if HasNullDecision(log) then Some(NullRead)
    else if exists id <- c.searchIds :: IsResolved(log, id) then Some(TelemetryConflict)
    else if exists id <- c.searchIds :: searches[id].factIds.Null? then Some(NullRead)
    else if exists fact <- c.usedFactIds :: !Returned(searches, c.searchIds, fact) then Some(TelemetryError)
    else None
  }

  function DecisionReply(log: Log, client: string, c: DecisionCommand): Reply {
    match First(log, (r: Record) => r.tool == DecisionTool && r.decisionId == Some(c.decisionId))
    case Some(existing) => Again(existing, client, DecisionRequest(c))
    case None => (match DecisionRefusal(log, client, c)
                  case Some(refusal) => Refused(refusal)
                  case None => Recorded(false))
  }

  predicate Attempted(log: Log, action: string, trace: string) {
    exists r <- log :: r.tool == ActionTool && r.actionId == Some(action) && r.traceId == Some(trace) && r.phase == Some("attempted")
  }

  function ActionRefusal(log: Log, client: string, c: ActionCommand): Option<Refusal> {
    match First(log, r => IsIntentOf(r, c.traceId, client))
    case None => Some(TelemetryError)
    case Some(intent) =>
      if intent.sideEffect != Some(c.sideEffect) then Some(TelemetryError)
      else if c.decisionId.Some? && !exists r <- log :: r.tool == DecisionTool && r.decisionId == c.decisionId
                                                          && r.traceId == Some(c.traceId) && r.client == Some(client) then
        Some(TelemetryError)
      else if c.phase == "completed" && !Attempted(log, c.actionId, c.traceId) then Some(TelemetryError)
      else None
  }

  function ActionReply(log: Log, client: string, c: ActionCommand): Reply {
    match First(log, (r: Record) => r.tool == ActionTool && r.eventId == Some(c.eventId))
    case Some(existing) => Again(existing, client, ActionRequest(c))
    case None => (match ActionRefusal(log, client, c)
                  case Some(refusal) => Refused(refusal)
                  case None => Recorded(false))
  }

  // ---- runs -------------------------------------------------------------------------------

  datatype Call =
    | Search(client: string, id: string, hits: int, facts: seq<string>, outcome: string, trace: Option<string>)
    | Intent(client: string, intent: IntentCommand)
    | Decision(client: string, decision: DecisionCommand)
    | Action(client: string, action: ActionCommand)
    | Other(client: string)

  function ReplyTo(log: Log, call: Call): Reply {
    match call
    case Search(client, _, _, _, _, trace) => SearchReply(log, client, trace)
    case Intent(client, c) => IntentReply(log, client, c)
    case Decision(client, c) => DecisionReply(log, client, c)
    case Action(client, c) => ActionReply(log, client, c)
    case Other(_) => Recorded(false)
  }

  function RecordOf(call: Call): Record {
    match call
    case Search(client, id, hits, facts, outcome, trace) => SearchRecord(client, id, hits, facts, outcome, trace)
    case Intent(client, c) => IntentRecord(client, c)
    case Decision(client, c) => DecisionRecord(client, c)
    case Action(client, c) => ActionRecord(client, c)
    case Other(client) => BLANK.(client := Some(client))
  }

  /** Only a new record is appended; a refusal or a replay leaves the log alone. */
  function After(log: Log, call: Call): Log {
    if ReplyTo(log, call) == Recorded(false) then log + [RecordOf(call)] else log
  }

  function Written(calls: seq<Call>): Log {
    if calls == [] then [] else After(Written(calls[..|calls| - 1]), calls[|calls| - 1])
  }

  /** What the validators of the commands and the callers guarantee: valid commands, and search ids never used before
      with one fact for each hit. */
  ghost predicate Admissible(log: Log, call: Call) {
    match call
    case Search(_, id, hits, facts, _, _) => hits == |facts| && forall r <- log :: r.searchId != Some(id)
    case Intent(_, c) => ValidIntent(c)
    case Decision(_, c) => ValidDecision(c)
    case Action(_, c) => ValidAction(c)
    case Other(_) => true
  }

  ghost predicate AllAdmissible(calls: seq<Call>) {
    forall n :: 0 <= n < |calls| ==> Admissible(Written(calls[..n]), calls[n])
  }

  // ---- the rules a log keeps --------------------------------------------------------------

  /** Each search has its own id, each trace its own intent, each decision and each action event its own id. */
  ghost predicate OwnIds(log: Log) {
    forall i, j :: 0 <= i < j < |log| ==>
      && !(log[i].tool == log[j].tool == SearchTool && log[i].searchId == log[j].searchId)
      && !(log[i].tool == log[j].tool == IntentTool && log[i].traceId == log[j].traceId)
      && !(log[i].tool == log[j].tool == DecisionTool && log[i].decisionId == log[j].decisionId)
      && !(log[i].tool == log[j].tool == ActionTool && log[i].eventId == log[j].eventId)
  }

  /** No search is resolved twice. */
  ghost predicate ResolvedOnce(log: Log) {
    forall i, j, id :: 0 <= i < j < |log| && Resolves(log[i], id) ==> !Resolves(log[j], id)
  }

  /** Every record of a trace belongs to the client of an earlier intent of that trace, with that intent's side effect if it is an action. */
  ghost predicate TraceOk(log: Log, n: nat)
    requires n < |log|
  {
    log[n].traceId.Some? && log[n].tool != IntentTool ==>
      exists m :: 0 <= m < n && log[m].tool == IntentTool && log[m].traceId == log[n].traceId && log[m].client == log[n].client
                  && (log[n].tool == ActionTool ==> log[m].sideEffect == log[n].sideEffect)
  }

  ghost predicate CompletedOk(log: Log, n: nat)
    requires n < |log|
  {
    log[n].tool == ActionTool && log[n].phase == Some("completed") ==>
      exists m :: 0 <= m < n && log[m].tool == ActionTool && log[m].phase == Some("attempted")
                  && log[m].actionId == log[n].actionId && log[m].traceId == log[n].traceId
  }

  /** A search that a decision may resolve. */
  ghost predicate Serves(s: Record, d: Record, id: string) {
    && s.tool == SearchTool && s.searchId == Some(id) && s.client == d.client && SearchHits(s) && s.traceId == d.traceId
    && s.factIds.Ids?
  }

  /** A decision was recorded after the searches it resolves, and uses only what they returned. */
  ghost predicate DecisionOk(log: Log, n: nat)
    requires n < |log|
  {
    var d := log[n];
    d.tool == DecisionTool ==>
      && d.client.Some? && d.decisionId.Some? && d.outcome == Some("recorded")
      && d.searchIds.Ids? && d.searchIds.ids != [] && Distinct(d.searchIds.ids)
      && d.usedFactIds.Some? && Distinct(d.usedFactIds.value)
      && d.effect.Some? && EffectFits(d.effect.value, d.usedFactIds.value, d.noUseReason)
      && (forall id <- d.searchIds.ids :: HasServing(log, n, id))
      && (forall fact <- d.usedFactIds.value :: HasReturned(log, n, fact))
  }

  ghost predicate HasServing(log: Log, n: nat, id: string)
    requires n < |log|
  {
    exists m :: 0 <= m < n && Serves(log[m], log[n], id)
  }

  ghost predicate HasReturned(log: Log, n: nat, fact: string)
    requires n < |log| && log[n].searchIds.Ids?
  {
    exists m :: 0 <= m < n && log[m].tool == SearchTool && log[m].searchId.Some? && log[m].searchId.value in log[n].searchIds.ids
                && log[m].factIds.Ids? && fact in log[m].factIds.ids
  }

  ghost predicate LogOk(log: Log) {
    && OwnIds(log) && ResolvedOnce(log)
    && (forall n :: 0 <= n < |log| ==> TraceOk(log, n))
    && (forall n :: 0 <= n < |log| ==> CompletedOk(log, n))
    && (forall n :: 0 <= n < |log| ==> DecisionOk(log, n))
    && (forall r <- log :: r.tool == SearchTool ==> SearchOk(r))
  }

  /** A search has an id, and a list of facts if it has hits. */
  predicate SearchOk(r: Record) {
    r.searchId.Some? && (r.factIds.Ids? || (r.factIds.Null? && !SearchHits(r)))
  }

  // ---- every call keeps them --------------------------------------------------------------

  lemma {:induction false} FirstFinds(log: Log, passes: Record -> bool)
    ensures First(log, passes).None? <==> forall r <- log :: !passes(r)
    ensures First(log, passes).Some? ==> First(log, passes).value in log && passes(First(log, passes).value)
  {
    if log != [] {
      FirstFinds(log[1..], passes);
    }
  }

  lemma {:induction false} SearchesFind(log: Log, id: string)
    ensures id in SearchesOf(log) <==> exists r <- log :: r.tool == SearchTool && r.searchId == Some(id)
    ensures id in SearchesOf(log) ==> SearchesOf(log)[id] in log && SearchesOf(log)[id].tool == SearchTool
                                      && SearchesOf(log)[id].searchId == Some(id)
  {
    if log != [] {
      var n := |log| - 1;
      SearchesFind(log[..n], id);
      assert forall r :: r in log <==> r in log[..n] || r == log[n];
    }
  }

  lemma KnownTraceHas(log: Log, trace: string, client: string)
    requires KnownTrace(log, trace, client)
    ensures exists m :: 0 <= m < |log| && IsIntentOf(log[m], trace, client)
  {
    var r :| r in log && IsIntentOf(r, trace, client);
    var m :| 0 <= m < |log| && log[m] == r;
  }

  /** What a new record must meet for the log to keep its rules. */
  ghost predicate Fits(log: Log, r: Record) {
    var u := log + [r];
    && (r.tool == SearchTool ==> SearchOk(r) && forall x <- log :: x.tool == SearchTool ==> x.searchId != r.searchId)
    && (r.tool == IntentTool ==> forall x <- log :: x.tool == IntentTool ==> x.traceId != r.traceId)
    && (r.tool == DecisionTool ==> forall x <- log :: x.tool == DecisionTool ==> x.decisionId != r.decisionId)
    && (r.tool == ActionTool ==> forall x <- log :: x.tool == ActionTool ==> x.eventId != r.eventId)
    && (r.tool == DecisionTool && r.searchIds.Ids? ==> forall id <- r.searchIds.ids :: !IsResolved(log, id))
    && TraceOk(u, |log|) && CompletedOk(u, |log|) && DecisionOk(u, |log|)
  }

  lemma FitsKeepsOwnIds(log: Log, r: Record)
    requires OwnIds(log) && ResolvedOnce(log) && Fits(log, r)
    ensures OwnIds(log + [r]) && ResolvedOnce(log + [r])
  {
    hide TraceOk, CompletedOk, DecisionOk;
    var u := log + [r];
    forall i, j, id | 0 <= i < j < |u| && Resolves(u[i], id) ensures !Resolves(u[j], id) {
      assert j == |log| && Resolves(r, id) ==> !IsResolved(log, id);
    }
  }

  lemma OldRulesStay(log: Log, r: Record, n: nat)
    requires n < |log| && TraceOk(log, n) && CompletedOk(log, n) && DecisionOk(log, n)
    ensures TraceOk(log + [r], n) && CompletedOk(log + [r], n) && DecisionOk(log + [r], n)
  {
    var u := log + [r];
    var d := log[n];
    assert u[n] == d;
    if d.tool == DecisionTool {
      forall id <- d.searchIds.ids ensures HasServing(u, n, id) {
        assert HasServing(log, n, id);
        var m :| 0 <= m < n && Serves(log[m], log[n], id);
        assert Serves(u[m], u[n], id);
      }
      forall fact <- d.usedFactIds.value ensures HasReturned(u, n, fact) {
        assert HasReturned(log, n, fact);
        var m :| 0 <= m < n && log[m].tool == SearchTool && log[m].searchId.Some? && log[m].searchId.value in d.searchIds.ids
                 && log[m].factIds.Ids? && fact in log[m].factIds.ids;
        assert u[m] == log[m];
      }
    }
    if d.traceId.Some? && d.tool != IntentTool {
      var m :| 0 <= m < n && log[m].tool == IntentTool && log[m].traceId == d.traceId && log[m].client == d.client
               && (d.tool == ActionTool ==> log[m].sideEffect == d.sideEffect);
      assert u[m] == log[m];
    }
    if d.tool == ActionTool && d.phase == Some("completed") {
      var m :| 0 <= m < n && log[m].tool == ActionTool && log[m].phase == Some("attempted")
               && log[m].actionId == d.actionId && log[m].traceId == d.traceId;
      assert u[m] == log[m];
    }
  }

  lemma FitsKeepsLog(log: Log, r: Record)
    requires LogOk(log) && Fits(log, r)
    ensures LogOk(log + [r])
  {
    hide OwnIds, ResolvedOnce, TraceOk, CompletedOk, DecisionOk;
    FitsKeepsOwnIds(log, r);
    forall n | 0 <= n < |log| + 1 ensures TraceOk(log + [r], n) && CompletedOk(log + [r], n) && DecisionOk(log + [r], n) {
      if n < |log| {
        OldRulesStay(log, r, n);
      }
    }
    forall x <- log + [r] | x.tool == SearchTool ensures SearchOk(x) {
      assert x in log || x == r;
    }
  }

  lemma SearchFits(log: Log, call: Call)
    requires call.Search? && Admissible(log, call) && ReplyTo(log, call) == Recorded(false)
    ensures Fits(log, RecordOf(call))
  {
    if call.trace.Some? {
      KnownTraceHas(log, call.trace.value, call.client);
      var m :| 0 <= m < |log| && IsIntentOf(log[m], call.trace.value, call.client);
      assert (log + [RecordOf(call)])[m] == log[m];
    }
  }

  lemma IntentFits(log: Log, call: Call)
    requires call.Intent? && ReplyTo(log, call) == Recorded(false)
    ensures Fits(log, RecordOf(call))
  {
    FirstFinds(log, (r: Record) => r.tool == IntentTool && r.traceId == Some(call.intent.traceId));
  }

  lemma DecisionAccepted(log: Log, client: string, c: DecisionCommand)
    requires DecisionReply(log, client, c) == Recorded(false)
    ensures DecisionRefusal(log, client, c).None?
    ensures forall r <- log :: r.tool == DecisionTool ==> r.decisionId != Some(c.decisionId)
  {
    FirstFinds(log, (r: Record) => r.tool == DecisionTool && r.decisionId == Some(c.decisionId));
  }

  lemma SearchServes(log: Log, client: string, c: DecisionCommand, id: string)
    requires LogOk(log) && DecisionRefusal(log, client, c).None? && id in c.searchIds
    ensures HasServing(log + [DecisionRecord(client, c)], |log|, id)
  {
    hide OwnIds, ResolvedOnce, TraceOk, CompletedOk, DecisionOk;
    var u := log + [DecisionRecord(client, c)];
    SearchesFind(log, id);
    var s := SearchesOf(log)[id];
    var m :| 0 <= m < |log| && log[m] == s;
    assert Serves(u[m], u[|log|], id);
  }

  lemma FactReturned(log: Log, client: string, c: DecisionCommand, fact: string)
    requires DecisionRefusal(log, client, c).None? && fact in c.usedFactIds
    ensures HasReturned(log + [DecisionRecord(client, c)], |log|, fact)
  {
    var searches := SearchesOf(log);
    assert Returned(searches, c.searchIds, fact);
    var id :| id in c.searchIds && id in searches && searches[id].factIds.Ids? && fact in searches[id].factIds.ids;
    SearchesFind(log, id);
    var m :| 0 <= m < |log| && log[m] == searches[id];
    assert (log + [DecisionRecord(client, c)])[m] == log[m];
  }

  lemma DecisionFits(log: Log, call: Call)
    requires LogOk(log) && call.Decision? && Admissible(log, call) && ReplyTo(log, call) == Recorded(false)
    ensures Fits(log, RecordOf(call))
  {
    var client, c := call.client, call.decision;
    var r := DecisionRecord(client, c);
    DecisionAccepted(log, client, c);
    forall id <- c.searchIds ensures HasServing(log + [r], |log|, id) && !IsResolved(log, id) {
      SearchServes(log, client, c, id);
    }
    forall fact <- c.usedFactIds ensures HasReturned(log + [r], |log|, fact) {
      FactReturned(log, client, c, fact);
    }
    if c.traceId.Some? {
      KnownTraceHas(log, c.traceId.value, client);
      var m :| 0 <= m < |log| && IsIntentOf(log[m], c.traceId.value, client);
      assert (log + [r])[m] == log[m];
    }
    hide LogOk, DecisionRefusal, HasServing, HasReturned, IsResolved;
  }

  lemma ActionFits(log: Log, call: Call)
    requires call.Action? && ReplyTo(log, call) == Recorded(false)
    ensures Fits(log, RecordOf(call))
  {
    var client, c := call.client, call.action;
    var r := ActionRecord(client, c);
    FirstFinds(log, (r: Record) => r.tool == ActionTool && r.eventId == Some(c.eventId));
    FirstFinds(log, (r: Record) => IsIntentOf(r, c.traceId, client));
    var intent := First(log, (r: Record) => IsIntentOf(r, c.traceId, client)).value;
    var m :| 0 <= m < |log| && log[m] == intent;
    assert (log + [r])[m] == log[m];
    if c.phase == "completed" {
      var a :| a in log && a.tool == ActionTool && a.actionId == Some(c.actionId) && a.traceId == Some(c.traceId) && a.phase == Some("attempted");
      var n :| 0 <= n < |log| && log[n] == a;
      assert (log + [r])[n] == log[n];
    }
  }

  lemma OtherFits(log: Log, client: string)
    ensures Fits(log, BLANK.(client := Some(client)))
  {
  }

  lemma CallKeepsLog(log: Log, call: Call)
    requires LogOk(log) && Admissible(log, call)
    ensures LogOk(After(log, call))
  {
    hide LogOk, Fits, ReplyTo, RecordOf, Admissible;
    if ReplyTo(log, call) == Recorded(false) {
      match call {
        case Search(_, _, _, _, _, _) => SearchFits(log, call);
        case Intent(_, _) => IntentFits(log, call);
        case Decision(_, _) => DecisionFits(log, call);
        case Action(_, _) => ActionFits(log, call);
        case Other(client) =>
          OtherFits(log, client);
          OtherRecord(client);
      }
      FitsKeepsLog(log, RecordOf(call));
    }
  }

  lemma OtherRecord(client: string)
    ensures RecordOf(Other(client)) == BLANK.(client := Some(client))
  {
  }

  /** In every log the recorder builds, each search is resolved at most once and by a decision of its own client
      that uses only what was returned, every record of a trace shares its intent's client, and every completed
      action follows an attempt of the same trace. */
  lemma {:induction false} RecorderKeepsRules(calls: seq<Call>)
    requires AllAdmissible(calls)
    ensures LogOk(Written(calls))
  {
    hide LogOk, After, Admissible;
    if calls == [] {
      NothingWritten();
    } else {
      var n := |calls| - 1;
      assert AllAdmissible(calls[..n]) by {
        forall i | 0 <= i < n ensures Admissible(Written(calls[..n][..i]), calls[..n][i]) {
          assert calls[..n][..i] == calls[..i];
        }
      }
      RecorderKeepsRules(calls[..n]);
      assert Admissible(Written(calls[..n]), calls[n]);
      CallKeepsLog(Written(calls[..n]), calls[n]);
    }
  }

  lemma NothingWritten()
    ensures LogOk([])
  {
  }

  // ---- idempotency ------------------------------------------------------------------------

  lemma {:induction false} FirstIsOnly(log: Log, passes: Record -> bool, n: nat)
    requires n < |log| && passes(log[n]) && forall m :: 0 <= m < |log| && passes(log[m]) ==> m == n
    ensures First(log, passes) == Some(log[n])
  {
    if n > 0 {
      FirstIsOnly(log[1..], passes, n - 1);
    }
  }

  /** A call that was recorded is answered as a replay ever after, however the log has grown. */
  lemma RecordedIsReplayed(log: Log, call: Call, later: Log)
    requires ReplyTo(log, call) == Recorded(false) && (call.Intent? || call.Decision? || call.Action?)
    requires After(log, call) <= later && OwnIds(later)
    ensures ReplyTo(later, call) == Recorded(true) && After(later, call) == later
  {
    var n := |log|;
    assert later[n] == RecordOf(call);
    match call
    case Intent(_, c) => FirstIsOnly(later, (r: Record) => r.tool == IntentTool && r.traceId == Some(c.traceId), n);
    case Decision(_, c) => FirstIsOnly(later, (r: Record) => r.tool == DecisionTool && r.decisionId == Some(c.decisionId), n);
    case Action(_, c) => FirstIsOnly(later, (r: Record) => r.tool == ActionTool && r.eventId == Some(c.eventId), n);
  }

  // ---- the log as an object ---------------------------------------------------------------

  class UsageLog {
    var records: Log

    constructor ()
      ensures records == []
    {
      records := [];
    }

    method FirstWith(passes: Record -> bool) returns (found: Option<Record>)
      ensures found == First(records, passes)
    {
      for n := 0 to |records|
        invariant First(records, passes) == First(records[n..], passes)
      {
        if passes(records[n]) {
          return Some(records[n]);
        }
      }
      return None;
    }

    method Searches() returns (searches: map<string, Record>)
      ensures searches == SearchesOf(records)
    {
      searches := map[];
      for n := 0 to |records|
        invariant searches == SearchesOf(records[..n])
      {
        assert records[..n + 1][..n] == records[..n];
        var r := records[n];
        if r.tool == SearchTool && r.searchId.Some? {
          searches := searches[r.searchId.value := r];
        }
      }
      assert records[..|records|] == records;
    }

    method RecordSearch(client: string, id: string, hits: int, facts: seq<string>, outcome: string, trace: Option<string>)
      returns (reply: Reply)
      modifies this
      ensures var call := Search(client, id, hits, facts, outcome, trace);
              reply == ReplyTo(old(records), call) && records == After(old(records), call)
    {
      if trace.Some? {
        var intent := FirstWith((r: Record) => IsIntentOf(r, trace.value, client));
        FirstFinds(records, (r: Record) => IsIntentOf(r, trace.value, client));
        if intent.None? {
          return Refused(TelemetryError);
        }
      }
      records := records + [SearchRecord(client, id, hits, facts, outcome, trace)];
      return Recorded(false);
    }

    method RecordIntent(client: string, c: IntentCommand) returns (reply: Reply)
      modifies this
      ensures reply == ReplyTo(old(records), Intent(client, c)) && records == After(old(records), Intent(client, c))
    {
      var existing := FirstWith((r: Record) => r.tool == IntentTool && r.traceId == Some(c.traceId));
      if existing.Some? {
        return Again(existing.value, client, IntentRequest(c));
      }
      records := records + [IntentRecord(client, c)];
      return Recorded(false);
    }

    method RecordDecision(client: string, c: DecisionCommand) returns (reply: Reply)
      modifies this
      ensures reply == ReplyTo(old(records), Decision(client, c)) && records == After(old(records), Decision(client, c))
    {
      var existing := FirstWith((r: Record) => r.tool == DecisionTool && r.decisionId == Some(c.decisionId));
      if existing.Some? {
        return Again(existing.value, client, DecisionRequest(c));
      }
      var searches := Searches();
      var refusal := CheckSearches(searches, client, c);
      if refusal.Some? {
        return Refused(refusal.value);
      }
      if exists id <- c.searchIds :: searches[id].factIds.Null? {
        return Refused(NullRead);
      }
      if exists fact <- c.usedFactIds :: !Returned(searches, c.searchIds, fact) {
        return Refused(TelemetryError);
      }
      records := records + [DecisionRecord(client, c)];
      return Recorded(false);
    }

    /** The rules about the searches of a new decision. */
    method CheckSearches(searches: map<string, Record>, client: string, c: DecisionCommand) returns (refusal: Option<Refusal>)
      requires searches == SearchesOf(records)
      ensures refusal.Some? ==> DecisionRefusal(records, client, c) == refusal
      ensures refusal.None? ==> (forall id <- c.searchIds :: id in searches)
      ensures refusal.None? ==> DecisionRefusal(records, client, c) ==
                                if exists id <- c.searchIds :: searches[id].factIds.Null? then Some(NullRead)
                                else if exists fact <- c.usedFactIds :: !Returned(searches, c.searchIds, fact) then Some(TelemetryError) else None
    {
      if exists id <- c.searchIds :: id !in searches {
        return Some(TelemetryError);
      }
      if exists id <- c.searchIds :: searches[id].client != Some(client) {
        return Some(TelemetryError);
      }
      if c.traceId.None? && exists id <- c.searchIds :: searches[id].traceId.Some? {
        return Some(TelemetryError);
      }
      if c.traceId.Some? {
        var intent := FirstWith((r: Record) => IsIntentOf(r, c.traceId.value, client));
        FirstFinds(records, (r: Record) => IsIntentOf(r, c.traceId.value, client));
        if intent.None? || exists id <- c.searchIds :: searches[id].traceId != c.traceId {
          return Some(TelemetryError);
        }
      }
      if exists id <- c.searchIds :: !SearchHits(searches[id]) {
        return Some(TelemetryError);
      }
      var nulls, resolved := ResolvedIds();
      if nulls {
        return Some(NullRead);
      }
      if exists id <- c.searchIds :: id in resolved {
        return Some(TelemetryConflict);
      }
      return None;
    }

    /** The ids resolved so far, unless a null list is met. */
    method ResolvedIds() returns (nulls: bool, resolved: set<string>)
      ensures nulls <==> HasNullDecision(records)
      ensures !nulls ==> forall id :: id in resolved <==> IsResolved(records, id)
    {
      resolved := {};
      for n := 0 to |records|
        invariant !HasNullDecision(records[..n])
        invariant forall id :: id in resolved <==> IsResolved(records[..n], id)
      {
        var r := records[n];
        assert forall x :: x in records[..n + 1] <==> x in records[..n] || x == r;
        if r.tool == DecisionTool && r.searchIds.Null? {
          return true, {};
        }
        if r.tool == DecisionTool && r.searchIds.Ids? {
          resolved := resolved + Elements(r.searchIds.ids);
        }
        assert forall id :: Resolves(r, id) <==> r.tool == DecisionTool && r.searchIds.Ids? && id in Elements(r.searchIds.ids);
      }
      assert records[..|records|] == records;
      return false, resolved;
    }

    method RecordAction(client: string, c: ActionCommand) returns (reply: Reply)
      modifies this
      ensures reply == ReplyTo(old(records), Action(client, c)) && records == After(old(records), Action(client, c))
    {
      var existing := FirstWith((r: Record) => r.tool == ActionTool && r.eventId == Some(c.eventId));
      if existing.Some? {
        return Again(existing.value, client, ActionRequest(c));
      }
      var intent := FirstWith((r: Record) => IsIntentOf(r, c.traceId, client));
      if intent.None? || intent.value.sideEffect != Some(c.sideEffect) {
        return Refused(TelemetryError);
      }
      if c.decisionId.Some? && !exists r <- records :: r.tool == DecisionTool && r.decisionId == c.decisionId
                                                         && r.traceId == Some(c.traceId) && r.client == Some(client) {
        return Refused(TelemetryError);
      }
      if c.phase == "completed" && !Attempted(records, c.actionId, c.traceId) {
        return Refused(TelemetryError);
      }
      records := records + [ActionRecord(client, c)];
      return Recorded(false);
    }
  }
}
