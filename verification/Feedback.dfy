/** Feedback requests on facts: a durable store of requests and the coordinator that moves them along. */
module Feedback {
  import opened Domain

  datatype State = Queued | Running | Proposed | Applying | Applied | Rejected | Failed | Stale

  function AllowedTransitions(s: State): set<State> {
    match s
    case Queued => {Running, Failed}
    case Running => {Queued, Proposed, Failed}
    case Proposed => {Applying, Rejected}
    case Applying => {Proposed, Applied, Stale}
    case _ => {}
  }

  /** The table of the store, transition by transition. */
  ghost predicate MayBecome(s: State, to: State) {
    || (s.Queued? && (to.Running? || to.Failed?))
    || (s.Running? && (to.Queued? || to.Proposed? || to.Failed?))
    || (s.Proposed? && (to.Applying? || to.Rejected?))
    || (s.Applying? && (to.Proposed? || to.Applied? || to.Stale?))
  }

  lemma TransitionsExactly(s: State, to: State)
    ensures to in AllowedTransitions(s) <==> MayBecome(s, to)
  {
  }

  predicate IsActive(s: State) {
    s in {Queued, Running, Proposed, Applying}
  }

  /** A fact file. Its content hash is injective, so the file stands for it. */
  datatype File = File(content: string, active: bool, supersededBy: Option<string>)

  datatype Proposal = Proposal(statement: string, why: string, howToApply: string, tags: seq<string>, body: string, rationale: string)

  datatype Request = Request(
    fact: string, base: File, feedback: string, state: State, proposal: Option<Proposal>, replacement: Option<string>)

  type Items = map<string, Request>

  datatype Limits = Limits(maxFeedbackChars: nat, maxActive: nat)

  predicate IsPending(s: State) {
    s == Queued || s == Running
  }

  function ActiveIds(items: Items): set<string> {
    set id <- items | IsActive(items[id].state)
  }

  // ---- what each operation does to the store ----------------------------------------------

  function Submitted(items: Items, limits: Limits, id: string, fact: string, base: File, kind: Kind, feedback: string): Result<Items> {
    var text := Strip(feedback);
    if |text| < 3 || |text| > limits.maxFeedbackChars || kind == Philosophy then Err(ValueError)
    else if |ActiveIds(items)| >= limits.maxActive then Err(ValueError)
    else if exists other <- ActiveIds(items) :: items[other].fact == fact then Err(ValueError)
    else Ok(items[id := Request(fact, base, text, Queued, None, None)])
  }

  /** The first half of a run: only a queued request is started. */
  function Started(items: Items, id: string): Items {
    if id in items && items[id].state == Queued then items[id := items[id].(state := Running)] else items
  }

  /** The second half: the proposal or the failure is stored whatever the state has become. */
  function Finished(items: Items, id: string, outcome: Option<Proposal>): Items {
    if id !in items then items
    else match outcome
         case Some(p) => items[id := items[id].(state := Proposed, proposal := Some(p))]
         case None => items[id := items[id].(state := Failed)]
  }

  function Moved(items: Items, id: string, to: State, replacement: Option<string>): Result<Items> {
    if id !in items then Err(ValidationError)
    else if to !in AllowedTransitions(items[id].state) then Err(ValueError)
    else Ok(items[id := items[id].(state := to, replacement := replacement)])
  }

  function Claimed(items: Items, id: string): Result<Items> {
    if id !in items then Err(ValidationError)
    else if items[id].state != Proposed || items[id].proposal.None? then Err(ValueError)
    else Ok(items[id := items[id].(state := Applying)])
  }

  function Dismissed(items: Items, id: string): Result<Items> {
    if id !in items then Err(ValidationError)
    else if items[id].state != Proposed then Err(ValueError)
    else Ok(items[id := items[id].(state := Rejected)])
  }

  /** A request that still waits for a run, a decision or an apply. */
  ghost predicate IsUnfinished(r: Request) {
    r.state.Queued? || r.state.Running? || r.state.Proposed? || r.state.Applying?
  }

  lemma UnfinishedAreActive(items: Items)
    ensures (set id <- items | IsUnfinished(items[id])) == ActiveIds(items)
  {
  }

  // ---- the coordinator --------------------------------------------------------------------

  class FeedbackCoordinator {
    const limits: Limits
    var items: Items
    var tasks: set<string>

    constructor (limits: Limits)
      ensures this.limits == limits && items == map[] && tasks == {}
    {
      this.limits, items, tasks := limits, map[], {};
    }

    method Submit(id: string, fact: string, base: File, kind: Kind, feedback: string) returns (r: Result<Request>)
      modifies this
      ensures match Submitted(old(items), limits, id, fact, base, kind, feedback)
              case Err(e) => r == Err(e) && items == old(items) && tasks == old(tasks)
              case Ok(u) => r == Ok(u[id]) && items == u && tasks == old(tasks) + {id}
      ensures r.Ok? <==>
                && 3 <= |Strip(feedback)| <= limits.maxFeedbackChars && !kind.Philosophy?
                && |set other <- old(items) | IsUnfinished(old(items)[other])| < limits.maxActive
                && (forall other <- old(items) :: IsUnfinished(old(items)[other]) ==> old(items)[other].fact != fact)
      ensures r.Ok? ==> items == old(items)[id := Request(fact, base, Strip(feedback), Queued, None, None)]
    {
      UnfinishedAreActive(items);
      var text := Strip(feedback);
      if |text| < 3 || |text| > limits.maxFeedbackChars {
        return Err(ValueError);
      }
      if kind == Philosophy {
        return Err(ValueError);
      }
      var request := Request(fact, base, text, Queued, None, None);
      var active: set<string> := {};
      var busy := false;
      var rest := items.Keys;
      while rest != {}
        invariant rest <= items.Keys
        invariant active == set other <- items | other !in rest && IsActive(items[other].state)
        invariant busy <==> exists other <- active :: items[other].fact == fact
        decreases |rest|
      {
        var other :| other in rest;
        rest := rest - {other};
        if IsActive(items[other].state) {
          active := active + {other};
          busy := busy || items[other].fact == fact;
        }
      }
      assert active == ActiveIds(items);
      if |active| >= limits.maxActive || busy {
        return Err(ValueError);
      }
      items := items[id := request];
      tasks := tasks + {id};
      return Ok(request);
    }

    /** Runs until the request is handed to the runner; false if there is nothing to run. */
    method StartRun(id: string) returns (started: bool)
      modifies this
      ensures items == Started(old(items), id)
      ensures started ==> id in old(items) && items == old(items)[id := old(items)[id].(state := Running)]
      ensures !started ==> items == old(items)
      ensures started <==> id in old(items) && old(items)[id].state == Queued
      ensures tasks == if started then old(tasks) else old(tasks) - {id}
    {
      if id !in items || items[id].state != Queued {
        tasks := tasks - {id};
        return false;
      }
      items := items[id := items[id].(state := Running)];
      return true;
    }

    method FinishRun(id: string, outcome: Option<Proposal>)
      modifies this
      ensures items == Finished(old(items), id, outcome) && tasks == old(tasks) - {id}
      ensures items.Keys == old(items).Keys && forall other <- items :: other != id ==> items[other] == old(items)[other]
      ensures id in items && outcome.None? ==> items[id] == old(items)[id].(state := Failed)
      ensures id in items && outcome.Some? ==> items[id] == old(items)[id].(state := Proposed, proposal := outcome)
    {
      tasks := tasks - {id};
      if id in items {
        var current := items[id];
        items := items[id := if outcome.Some? then current.(state := Proposed, proposal := outcome) else current.(state := Failed)];
      }
    }

    method RecoverApplies()
      modifies this`items
      ensures items == map id <- old(items) :: Recovered(old(items)[id])
    {
      ghost var before := items;
      var rest := items.Keys;
      while rest != {}
        invariant rest <= before.Keys
        invariant items == map id <- before :: if id in rest then before[id] else Recovered(before[id])
        decreases |rest|
      {
        var id :| id in rest;
        rest := rest - {id};
        if items[id].state == Applying {
          items := items[id := items[id].(state := Proposed)];
        }
      }
    }

    method Requeue(ids: set<string>)
      requires ids <= items.Keys && tasks == {}
      modifies this
      ensures items == map id <- old(items) :: if id in ids then old(items)[id].(state := Queued) else old(items)[id]
      ensures tasks == ids
    {
      ghost var before := items;
      var rest := ids;
      while rest != {}
        invariant rest <= ids && tasks == ids - rest
        invariant items == map id <- before :: if id in ids - rest then before[id].(state := Queued) else before[id]
        decreases |rest|
      {
        var id :| id in rest;
        rest := rest - {id};
        items := items[id := items[id].(state := Queued)];
        tasks := tasks + {id};
      }
    }

    method RequeueRuns()
      requires tasks == {}
      modifies this
      ensures items == map id <- old(items) :: Requeued(old(items)[id])
      ensures tasks == set id <- old(items) | IsPending(old(items)[id].state)
    {
      RequeuesPending(items);
      hide IsPending, Requeued;
      Requeue(set id <- items | IsPending(items[id].state));
    }

    /** At start-up: interrupted applies go back to their proposals, everything unfinished is queued and run again. */
    method ResumePending()
      requires tasks == {}
      modifies this
      ensures items == Resumed(old(items))
      ensures items.Keys == old(items).Keys
      ensures forall id <- items ::
                var was := old(items)[id];
                && items[id] == was.(state := items[id].state)
                && items[id].state == if was.state.Applying? then Proposed else if was.state.Running? then Queued else was.state
      ensures tasks == set id <- old(items) | IsPending(old(items)[id].state)
    {
      RecoverApplies();
      RequeueRuns();
    }

    method Transition(id: string, to: State, replacement: Option<string>) returns (r: Result<Request>)
      modifies this
      ensures tasks == old(tasks)
      ensures match Moved(old(items), id, to, replacement)
              case Err(e) => r == Err(e) && items == old(items)
              case Ok(u) => r == Ok(u[id]) && items == u
      ensures r.Ok? <==> id in old(items) && MayBecome(old(items)[id].state, to)
      ensures r.Ok? ==> items == old(items)[id := old(items)[id].(state := to, replacement := replacement)]
    {
      if id !in items {
        return Err(ValidationError);
      }
      TransitionsExactly(items[id].state, to);
      var request := items[id];
      if to !in AllowedTransitions(request.state) {
        return Err(ValueError);
      }
      request := request.(state := to, replacement := replacement);
      items := items[id := request];
      return Ok(request);
    }

    method ClaimApply(id: string) returns (r: Result<Request>)
      modifies this
      ensures tasks == old(tasks)
      ensures match Claimed(old(items), id)
              case Err(e) => r == Err(e) && items == old(items)
              case Ok(u) => r == Ok(u[id]) && items == u
      ensures r.Ok? <==> id in old(items) && old(items)[id].state.Proposed? && old(items)[id].proposal.Some?
      ensures r.Ok? ==> items == old(items)[id := old(items)[id].(state := Applying)]
    {
      if id !in items {
        return Err(ValidationError);
      }
      if items[id].state != Proposed || items[id].proposal.None? {
        return Err(ValueError);
      }
      items := items[id := items[id].(state := Applying)];
      return Ok(items[id]);
    }

    method Reject(id: string) returns (r: Result<Request>)
      modifies this
      ensures tasks == old(tasks)
      ensures match Dismissed(old(items), id)
              case Err(e) => r == Err(e) && items == old(items)
              case Ok(u) => r == Ok(u[id]) && items == u
      ensures r.Ok? <==> id in old(items) && old(items)[id].state.Proposed?
      ensures r.Ok? ==> items == old(items)[id := old(items)[id].(state := State.Rejected)]
    {
      if id !in items {
        return Err(ValidationError);
      }
      if items[id].state != Proposed {
        return Err(ValueError);
      }
      items := items[id := items[id].(state := Rejected)];
      return Ok(items[id]);
    }
  }

  function Recovered(r: Request): Request {
    if r.state == Applying then r.(state := Proposed) else r
  }

  function Requeued(r: Request): Request {
    if r.state == Running then r.(state := Queued) else r
  }

  lemma RequeuesPending(items: Items)
    ensures (map id <- items :: if IsPending(items[id].state) then items[id].(state := Queued) else items[id]) ==
            map id <- items :: Requeued(items[id])
  {
  }

  function Resumed(items: Items): Items {
    map id <- items :: Requeued(Recovered(items[id]))
  }
}
