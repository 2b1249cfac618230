/** What the recorder answers and writes, in terms of the records of the log alone. */
module RecorderAnswers {
  import opened Domain
  import opened Ordering
  import opened UsageRecords
  import opened UsageRecorder

  // ---- keys that are used -----------------------------------------------------------------

  /** The record that the key of a call belongs to. */
  ghost predicate HasKeyOf(r: Record, call: Call) {
    match call
    case Intent(_, c) => r.tool.IntentTool? && r.traceId == Some(c.traceId)
    case Decision(_, c) => r.tool.DecisionTool? && r.decisionId == Some(c.decisionId)
    case Action(_, c) => r.tool.ActionTool? && r.eventId == Some(c.eventId)
    case _ => false
  }

  ghost predicate IsRepeatOf(call: Call, r: Record) {
    match call
    case Intent(client, c) => r.client == Some(client) && r.request == Some(IntentRequest(c))
    case Decision(client, c) => r.client == Some(client) && r.request == Some(DecisionRequest(c))
    case Action(client, c) => r.client == Some(client) && r.request == Some(ActionRequest(c))
    case _ => false
  }

  /** A key that a record of the log has is never recorded again: the same request of the same client is a replay,
      anything else a conflict. Of several records with the key the first counts. */
  lemma {:induction false} UsedKeyExactly(log: Log, call: Call, n: nat)
    requires n < |log| && HasKeyOf(log[n], call) && forall m :: 0 <= m < n ==> !HasKeyOf(log[m], call)
    ensures After(log, call) == log
    ensures ReplyTo(log, call) == if IsRepeatOf(call, log[n]) then Recorded(true) else Refused(TelemetryConflict)
  {
    match call
    case Intent(_, c) => FirstIsAt(log, (r: Record) => r.tool == IntentTool && r.traceId == Some(c.traceId), n);
    case Decision(_, c) => FirstIsAt(log, (r: Record) => r.tool == DecisionTool && r.decisionId == Some(c.decisionId), n);
    case Action(_, c) => FirstIsAt(log, (r: Record) => r.tool == ActionTool && r.eventId == Some(c.eventId), n);
    case _ =>
  }

  lemma {:induction false} FirstIsAt(log: Log, passes: Record -> bool, n: nat)
    requires n < |log| && passes(log[n]) && forall m :: 0 <= m < n ==> !passes(log[m])
    ensures First(log, passes) == Some(log[n])
  {
    if n > 0 {
      FirstIsAt(log[1..], passes, n - 1);
    }
  }

  // ---- new keys ---------------------------------------------------------------------------

  ghost predicate IsNew(log: Log, call: Call) {
    forall r <- log :: !HasKeyOf(r, call)
  }

  ghost predicate HasIntent(log: Log, client: string, trace: string) {
    exists r <- log :: r.tool.IntentTool? && r.traceId == Some(trace) && r.client == Some(client)
  }

  /** The last search with this id. */
  ghost predicate IsSearchOf(log: Log, n: nat, id: string) {
    && n < |log| && log[n].tool.SearchTool? && log[n].searchId == Some(id)
    && forall m :: n < m < |log| ==> !(log[m].tool.SearchTool? && log[m].searchId == Some(id))
  }

  /** The search may be resolved by this client under this trace: it is the client's, of the same trace or of none, and
      returned facts. */
  ghost predicate MayResolve(log: Log, client: string, trace: Option<string>, id: string) {
    exists n: nat :: IsSearchOf(log, n, id) && log[n].client == Some(client) && log[n].traceId == trace
                     && log[n].outcome == Some("ok") && log[n].hits.Some? && log[n].hits.value >= 1
  }

  ghost predicate WasResolved(log: Log, id: string) {
    exists r <- log :: r.tool.DecisionTool? && r.searchIds.Ids? && id in r.searchIds.ids
  }

  ghost predicate ListsNull(log: Log) {
    exists r <- log :: r.tool.DecisionTool? && r.searchIds == Null
  }

  ghost predicate FactsAreNull(log: Log, id: string) {
    exists n: nat :: IsSearchOf(log, n, id) && log[n].factIds == Null
  }

  ghost predicate ReturnedBy(log: Log, ids: seq<string>, fact: string) {
    exists n: nat, id: string :: id in ids && IsSearchOf(log, n, id) && log[n].factIds.Ids? && fact in log[n].factIds.ids
  }

  lemma {:induction false} SearchesAreLast(log: Log, n: nat, id: string)
    requires n <= |log|
    ensures id in SearchesOf(log[..n]) <==> exists m: nat :: IsSearchOf(log[..n], m, id)
    ensures forall m: nat :: IsSearchOf(log[..n], m, id) ==> SearchesOf(log[..n])[id] == log[m]
  {
    if n > 0 {
      var before, last := log[..n - 1], log[n - 1];
      assert log[..n] == before + [last] && log[..n][..n - 1] == before;
      SearchesAreLast(log, n - 1, id);
      OneMoreSearch(before, last, id);
      hide IsSearchOf;
      if last.tool.SearchTool? && last.searchId == Some(id) {
        assert IsSearchOf(before + [last], n - 1, id);
      } else if m: nat :| IsSearchOf(before, m, id) {
        assert IsSearchOf(before + [last], m, id);
      }
    }
  }

  lemma OneMoreSearch(before: Log, last: Record, id: string)
    ensures last.tool.SearchTool? && last.searchId == Some(id) ==> forall m: nat :: IsSearchOf(before + [last], m, id) <==> m == |before|
    ensures !(last.tool.SearchTool? && last.searchId == Some(id)) ==>
              forall m: nat :: IsSearchOf(before + [last], m, id) <==> IsSearchOf(before, m, id)
    ensures forall m: nat :: IsSearchOf(before, m, id) ==> m < |before|
  {
    var all := before + [last];
    assert all[|before|] == last && forall k :: 0 <= k < |before| ==> all[k] == before[k];
  }

  ghost predicate IsLookup(log: Log, searches: map<string, Record>) {
    forall id :: (id in searches <==> exists m: nat :: IsSearchOf(log, m, id))
                 && forall m: nat :: IsSearchOf(log, m, id) ==> searches[id] == log[m]
  }

  lemma LookupIs(log: Log)
    ensures IsLookup(log, SearchesOf(log))
  {
    assert log[..|log|] == log;
    forall id ensures (id in SearchesOf(log) <==> exists m: nat :: IsSearchOf(log, m, id))
                      && forall m: nat :: IsSearchOf(log, m, id) ==> SearchesOf(log)[id] == log[m] {
      SearchesAreLast(log, |log|, id);
    }
  }

  lemma SearchReadsLookup(log: Log, searches: map<string, Record>, client: string, trace: Option<string>, id: string)
    requires IsLookup(log, searches)
    ensures MayResolve(log, client, trace, id) <==>
              id in searches && searches[id].client == Some(client) && searches[id].traceId == trace && SearchHits(searches[id])
    ensures FactsAreNull(log, id) <==> id in searches && searches[id].factIds.Null?
  {
    if id in searches {
      var m: nat :| IsSearchOf(log, m, id);
      assert searches[id] == log[m];
    }
  }

  lemma ReturnedReadsLookup(log: Log, searches: map<string, Record>, ids: seq<string>, fact: string)
    requires IsLookup(log, searches)
    ensures ReturnedBy(log, ids, fact) <==> Returned(searches, ids, fact)
  {
    if Returned(searches, ids, fact) {
      var id :| id in ids && id in searches && searches[id].factIds.Ids? && fact in searches[id].factIds.ids;
      var m: nat :| IsSearchOf(log, m, id);
      assert searches[id] == log[m];
    }
  }

  /** How a new decision is refused, and when it is not: every search it names must be one its client may resolve, and
      its trace known; then a null list of ids ends the call; then no search may be resolved already, which alone is a
      conflict; then a null list of facts ends the call; and last every fact it uses must have been returned. */
  ghost predicate DecisionJudged(log: Log, client: string, c: DecisionCommand, refusal: Option<Refusal>) {
    if !((forall id <- c.searchIds :: MayResolve(log, client, c.traceId, id)) && (c.traceId.Some? ==> HasIntent(log, client, c.traceId.value)))
    then refusal == Some(TelemetryError)
    else if ListsNull(log) then refusal == Some(NullRead)
    else if exists id <- c.searchIds :: WasResolved(log, id) then refusal == Some(TelemetryConflict)
    else if exists id <- c.searchIds :: FactsAreNull(log, id) then refusal == Some(NullRead)
    else if exists fact <- c.usedFactIds :: !ReturnedBy(log, c.searchIds, fact) then refusal == Some(TelemetryError)
    else refusal == None
  }

  lemma JudgedExactly(log: Log, client: string, c: DecisionCommand)
    ensures DecisionJudged(log, client, c, DecisionRefusal(log, client, c))
  {
    LookupIs(log);
    var searches := SearchesOf(log);
    forall id ensures (MayResolve(log, client, c.traceId, id) <==>
                         id in searches && searches[id].client == Some(client) && searches[id].traceId == c.traceId && SearchHits(searches[id]))
                      && (FactsAreNull(log, id) <==> id in searches && searches[id].factIds.Null?) {
      SearchReadsLookup(log, searches, client, c.traceId, id);
    }
    forall fact ensures ReturnedBy(log, c.searchIds, fact) <==> Returned(searches, c.searchIds, fact) {
      ReturnedReadsLookup(log, searches, c.searchIds, fact);
    }
    assert forall id :: WasResolved(log, id) <==> IsResolved(log, id);
    assert c.traceId.Some? ==> (HasIntent(log, client, c.traceId.value) <==> KnownTrace(log, c.traceId.value, client));
    assert ListsNull(log) <==> HasNullDecision(log);
    hide IsLookup, SearchesOf, MayResolve, FactsAreNull, ReturnedBy, Returned, SearchHits, WasResolved, IsResolved, HasIntent, KnownTrace, ListsNull,
      HasNullDecision;
  }

  /** The first intent of the client for the trace. */
  ghost predicate IsIntent(log: Log, n: nat, client: string, trace: string) {
    && n < |log| && log[n].tool.IntentTool? && log[n].traceId == Some(trace) && log[n].client == Some(client)
    && forall m :: 0 <= m < n ==> !(log[m].tool.IntentTool? && log[m].traceId == Some(trace) && log[m].client == Some(client))
  }

  /** An action of a known trace: with the side effect of its intent, a decision of the same client and trace if it names
      one, and an attempt before it if it is completed. */
  ghost predicate MayAct(log: Log, client: string, c: ActionCommand) {
    && (exists n: nat :: IsIntent(log, n, client, c.traceId) && log[n].sideEffect == Some(c.sideEffect))
    && (c.decisionId.Some? ==>
          exists r <- log :: r.tool.DecisionTool? && r.decisionId == c.decisionId && r.traceId == Some(c.traceId) && r.client == Some(client))
    && (c.phase == "completed" ==>
          exists r <- log :: r.tool.ActionTool? && r.actionId == Some(c.actionId) && r.traceId == Some(c.traceId) && r.phase == Some("attempted"))
  }

  lemma ActsExactly(log: Log, client: string, c: ActionCommand)
    ensures ActionRefusal(log, client, c) == if MayAct(log, client, c) then None else Some(TelemetryError)
  {
    var passes := (r: Record) => IsIntentOf(r, c.traceId, client);
    FirstFinds(log, passes);
    if First(log, passes).Some? {
      var n := FirstPlace(log, passes);
      FirstIsAt(log, passes, n);
      assert IsIntent(log, n, client, c.traceId);
      assert forall m: nat :: IsIntent(log, m, client, c.traceId) ==> m == n;
    } else {
      forall m: nat ensures !IsIntent(log, m, client, c.traceId) {
        assert m < |log| ==> log[m] in log;
      }
    }
  }

  lemma {:induction false} FirstPlace(log: Log, passes: Record -> bool) returns (n: nat)
    requires First(log, passes).Some?
    ensures n < |log| && passes(log[n]) && forall m :: 0 <= m < n ==> !passes(log[m])
  {
    if passes(log[0]) {
      n := 0;
    } else {
      n := FirstPlace(log[1..], passes);
      n := n + 1;
      assert forall m :: 0 < m < n ==> log[m] == log[1..][m - 1];
    }
  }

  /** How a call under a new key is answered. */
  ghost predicate AnsweredAsNew(log: Log, call: Call, reply: Reply) {
    match call
    case Search(client, _, _, _, _, trace) =>
      reply == if trace.None? || HasIntent(log, client, trace.value) then Recorded(false) else Refused(TelemetryError)
    case Intent(_, _) => reply == Recorded(false)
    case Decision(client, c) =>
      reply.Refused? == (reply != Recorded(false)) && DecisionJudged(log, client, c, if reply.Refused? then Some(reply.refusal) else None)
    case Action(client, c) => reply == if MayAct(log, client, c) then Recorded(false) else Refused(TelemetryError)
    case Other(_) => reply == Recorded(false)
  }

  lemma NewKeyExactly(log: Log, call: Call)
    requires IsNew(log, call)
    ensures AnsweredAsNew(log, call, ReplyTo(log, call))
  {
    hide DecisionJudged, MayAct, DecisionRefusal, ActionRefusal;
    match call
    case Search(client, _, _, _, _, trace) =>
    case Intent(_, c) => FirstFinds(log, (r: Record) => r.tool == IntentTool && r.traceId == Some(c.traceId));
    case Decision(client, c) =>
      FirstFinds(log, (r: Record) => r.tool == DecisionTool && r.decisionId == Some(c.decisionId));
      JudgedExactly(log, client, c);
    case Action(client, c) =>
      FirstFinds(log, (r: Record) => r.tool == ActionTool && r.eventId == Some(c.eventId));
      ActsExactly(log, client, c);
    case Other(_) =>
  }

  // ---- what is written --------------------------------------------------------------------

  /** The record of a call holds what the call says, and nothing else. */
  ghost predicate HoldsCall(call: Call, r: Record) {
    match call
    case Search(client, id, hits, facts, outcome, trace) =>
      && r.tool == SearchTool && r.client == Some(client) && r.searchId == Some(id) && r.hits == Some(hits) && r.outcome == Some(outcome)
      && r.traceId == trace && (facts == [] ==> r.factIds == Null) && (facts != [] ==> r.factIds == Ids(facts))
      && r.decisionId == None && r.searchIds == Missing && r.actionId == None && r.request == None
    case Intent(client, c) =>
      && r.tool == IntentTool && r.client == Some(client) && r.traceId == Some(c.traceId) && r.sideEffect == Some(c.sideEffect)
      && r.request == Some(IntentRequest(c)) && r.searchId == None && r.decisionId == None && r.actionId == None
    case Decision(client, c) =>
      && r.tool == DecisionTool && r.client == Some(client) && r.outcome == Some("recorded") && r.decisionId == Some(c.decisionId)
      && r.searchIds == Ids(c.searchIds) && r.usedFactIds == Some(c.usedFactIds) && r.effect == Some(c.effect)
      && r.noUseReason == c.noUseReason && r.traceId == c.traceId && r.request == Some(DecisionRequest(c))
    case Action(client, c) =>
      && r.tool == ActionTool && r.client == Some(client) && r.eventId == Some(c.eventId) && r.actionId == Some(c.actionId)
      && r.traceId == Some(c.traceId) && r.phase == Some(c.phase) && r.sideEffect == Some(c.sideEffect)
      && r.decisionId == c.decisionId && r.outcome == Some(c.outcome) && r.request == Some(ActionRequest(c))
    case Other(client) => r.client == Some(client) && r.tool == OtherTool
  }

  /** A call under a new key is answered by the rules of its tool, and only if it is accepted one record is appended,
      which holds what the call says. */
  lemma RecordedExactly(log: Log, call: Call)
    requires IsNew(log, call)
    ensures AnsweredAsNew(log, call, ReplyTo(log, call))
    ensures ReplyTo(log, call) == Recorded(false) ==>
              |After(log, call)| == |log| + 1 && After(log, call)[..|log|] == log && HoldsCall(call, After(log, call)[|log|])
    ensures ReplyTo(log, call) != Recorded(false) ==> After(log, call) == log
  {
    NewKeyExactly(log, call);
    hide AnsweredAsNew, ReplyTo;
  }
}
