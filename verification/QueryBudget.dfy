/** What one run of the assistant may look up (`agent.py`, `engine_tools.py`): queries and tool calls share one budget
    over all rounds, no query runs twice, and a query may only name what the run was shown before. */
module QueryBudget {
  import opened Basics

  type Ref = string

  /** A well-formed query step: its surface, its references and its identity; `complete` when it names every reference
      its surface requires. */
  datatype Query = Query(key: string, refs: seq<Ref>, complete: bool)

  datatype StepItem = OtherStep | MalformedQuery | QueryStep(query: Query)

  /** What a query comes back with; only the last two were carried out. */
  datatype Observation =
    | Incomplete(query: Query)
    | Unobserved(query: Query)
    | Unavailable(query: Query)
    | Shown(query: Query, refs: set<Ref>)

  predicate CarriedOut(o: Observation) {
    o.Unavailable? || o.Shown?
  }

  /** A spent observation marks its key; an unobserved query may be asked again. */
  predicate Spends(o: Observation) {
    !o.Unobserved?
  }

  function Spent(observations: seq<Observation>): nat {
    if observations == [] then 0
    else Spent(observations[..|observations| - 1]) + if Spends(observations[|observations| - 1]) then 1 else 0
  }

  function Gained(observations: seq<Observation>): set<Ref> {
    if observations == [] then {}
    else
      var o := observations[|observations| - 1];
      Gained(observations[..|observations| - 1]) + if o.Shown? then o.refs else {}
  }

  predicate KnownRefs(q: Query, observed: set<Ref>) {
    forall i | 0 <= i < |q.refs| :: q.refs[i] in observed
  }

  lemma {:induction false} SpentIsFew(observations: seq<Observation>)
    ensures Spent(observations) <= |observations|
  {
    if observations != [] {
      SpentIsFew(observations[..|observations| - 1]);
    }
  }

  /** The keys spent are new, and no two are the same. */
  ghost predicate FreshKeys(observations: seq<Observation>, before: set<string>, after: set<string>) {
    && (forall i | 0 <= i < |observations| && Spends(observations[i]) ::
          observations[i].query.key !in before && observations[i].query.key in after)
    && (forall i, j | 0 <= i < j < |observations| && Spends(observations[i]) && Spends(observations[j]) ::
          observations[i].query.key != observations[j].query.key)
  }

  /** One more observation: its key, if it spends one, was not spent before. */
  lemma KeysStayFresh(observations: seq<Observation>, before: set<string>, spent: set<string>, o: Observation,
                      after: set<string>)
    requires FreshKeys(observations, before, spent) && before <= spent && o.query.key !in spent
    requires after == if Spends(o) then spent + {o.query.key} else spent
    ensures FreshKeys(observations + [o], before, after)
    ensures |after| == |spent| + if Spends(o) then 1 else 0
  {
  }

  /** One batch of queries, at most `limit` observations of them. */
  method Queries(items: seq<StepItem>, seen: set<string>, observed: set<Ref>, limit: nat,
                 project: Query -> Option<set<Ref>>)
    returns (observations: seq<Observation>, after: set<string>, gained: set<Ref>)
    ensures |observations| <= limit
    ensures seen <= after && |after| == |seen| + Spent(observations)
    ensures FreshKeys(observations, seen, after)
    ensures forall i | 0 <= i < |observations| && CarriedOut(observations[i]) ::
      observations[i].query.complete && KnownRefs(observations[i].query, observed)
    ensures gained == Gained(observations)
  {
    observations, after, gained := [], seen, {};
    var i := 0;
    while i < |items| && |observations| < limit
      invariant i <= |items| && |observations| <= limit
      invariant seen <= after && |after| == |seen| + Spent(observations)
      invariant FreshKeys(observations, seen, after)
      invariant forall k | 0 <= k < |observations| && CarriedOut(observations[k]) ::
        observations[k].query.complete && KnownRefs(observations[k].query, observed)
      invariant gained == Gained(observations)
    {
      var item := items[i];
      i := i + 1;
      if !item.QueryStep? || item.query.key in after {
        continue;
      }
      var q := item.query;
      ghost var spent := after;
      var o;
      if !q.complete {
        o := Incomplete(q);
        after := after + {q.key};
      } else if !KnownRefs(q, observed) {
        o := Unobserved(q);
      } else {
        after := after + {q.key};
        var context := project(q);
        if context.None? {
          o := Unavailable(q);
        } else {
          o := Shown(q, context.value);
          gained := gained + context.value;
        }
      }
      assert (observations + [o])[..|observations|] == observations;
      KeysStayFresh(observations, seen, spent, o, after);
      observations := observations + [o];
    }
  }

  // ---------------------------------------------------------------- the tools

  datatype Output = Failed(code: string) | Outcome(refs: set<Ref>)

  datatype ToolCall = ToolCall(key: string, known: bool)

  datatype ToolReply = Refused | Cached(output: Output) | Fresh(output: Output)

  class EngineTools {
    var cache: map<string, Output>
    var calls: seq<string>
    var maxCalls: int

    constructor (maxCalls: int)
      ensures cache == map[] && calls == [] && this.maxCalls == maxCalls
    {
      cache, calls, this.maxCalls := map[], [], maxCalls;
    }

    /** A known call is answered from the cache, refused when the budget is spent, or carried out and remembered; a
        validation call costs nothing. */
    method Call(call: ToolCall, validation: bool, execute: string -> Output) returns (reply: ToolReply)
      modifies this`cache, this`calls
      ensures reply == (
        if !call.known then Refused
        else if call.key in old(cache) then Cached(old(cache)[call.key])
        else if !validation && |old(calls)| >= maxCalls then Refused
        else Fresh(execute(call.key)))
      ensures cache == if reply.Fresh? then old(cache)[call.key := reply.output] else old(cache)
      ensures calls == if reply.Fresh? && !validation then old(calls) + [call.key] else old(calls)
    {
      if !call.known {
        return Refused;
      }
      if call.key in cache {
        return Cached(cache[call.key]);
      }
      if !validation && |calls| >= maxCalls {
        return Refused;
      }
      var output := execute(call.key);
      cache := cache[call.key := output];
      if !validation {
        calls := calls + [call.key];
      }
      return Fresh(output);
    }
  }

  // ---------------------------------------------------------------- the rounds

  /** What the model answered in one round: whether a draft was created for it, its steps and its tool calls. */
  datatype Document = Document(draft: Option<Ref>, items: seq<StepItem>, calls: seq<ToolCall>)

  /** A query that was carried out, and how many showings came before its batch. */
  datatype Execution = Execution(query: Query, before: nat)

  function Union(shown: seq<set<Ref>>): set<Ref> {
    if shown == [] then {} else Union(shown[..|shown| - 1]) + shown[|shown| - 1]
  }

  /** The reference was shown by one of the first n showings. */
  predicate ShownBy(shown: seq<set<Ref>>, n: nat, ref: Ref) {
    exists k | 0 <= k < n && k < |shown| :: ref in shown[k]
  }

  lemma {:induction false} UnionIsShown(shown: seq<set<Ref>>, ref: Ref)
    ensures ref in Union(shown) <==> ShownBy(shown, |shown|, ref)
  {
    if shown != [] {
      var n := |shown| - 1;
      UnionIsShown(shown[..n], ref);
      assert forall k | 0 <= k < n :: shown[..n][k] == shown[k];
    }
  }

  lemma UnionGrows(shown: seq<set<Ref>>, more: set<Ref>)
    ensures Union(shown + [more]) == Union(shown) + more
  {
    assert (shown + [more])[..|shown|] == shown;
  }

  function Executions(observations: seq<Observation>, before: nat): seq<Execution> {
    if observations == [] then []
    else
      var o := observations[|observations| - 1];
      Executions(observations[..|observations| - 1], before)
      + if CarriedOut(o) then [Execution(o.query, before)] else []
  }

  /** No key was carried out twice, and each carried-out key is among the seen. */
  ghost predicate ExecutedOnce(executed: seq<Execution>, seen: set<string>) {
    && (forall i | 0 <= i < |executed| :: executed[i].query.key in seen)
    && (forall i, j | 0 <= i < j < |executed| :: executed[i].query.key != executed[j].query.key)
  }

  /** Every reference of a carried-out query was shown before its batch. */
  ghost predicate Grounded(executed: seq<Execution>, shown: seq<set<Ref>>) {
    forall i | 0 <= i < |executed| ::
      executed[i].before <= |shown| && forall k | 0 <= k < |executed[i].query.refs| ::
        ShownBy(shown, executed[i].before, executed[i].query.refs[k])
  }

  lemma GroundedGrows(executed: seq<Execution>, shown: seq<set<Ref>>, more: set<Ref>)
    requires Grounded(executed, shown)
    ensures Grounded(executed, shown + [more])
  {
    forall i, k | 0 <= i < |executed| && 0 <= k < |executed[i].query.refs|
      ensures ShownBy(shown + [more], executed[i].before, executed[i].query.refs[k])
    {
      assert ShownBy(shown, executed[i].before, executed[i].query.refs[k]);
      var s :| 0 <= s < executed[i].before && s < |shown| && executed[i].query.refs[k] in shown[s];
      assert (shown + [more])[s] == shown[s];
    }
  }

  lemma {:induction false} BatchIsGrounded(observations: seq<Observation>, shown: seq<set<Ref>>)
    requires forall i | 0 <= i < |observations| && CarriedOut(observations[i]) ::
      KnownRefs(observations[i].query, Union(shown))
    ensures Grounded(Executions(observations, |shown|), shown)
  {
    if observations != [] {
      var n := |observations| - 1;
      BatchIsGrounded(observations[..n], shown);
      if CarriedOut(observations[n]) {
        var q := observations[n].query;
        forall k | 0 <= k < |q.refs| ensures ShownBy(shown, |shown|, q.refs[k]) {
          UnionIsShown(shown, q.refs[k]);
        }
      }
    }
  }

  /** The execution comes from one of the observations. */
  predicate Observed(observations: seq<Observation>, e: Execution) {
    exists k | 0 <= k < |observations| :: CarriedOut(observations[k]) && observations[k].query == e.query
  }

  lemma {:induction false} ExecutionsAreObserved(observations: seq<Observation>, before: nat)
    ensures forall i | 0 <= i < |Executions(observations, before)| ::
      Observed(observations, Executions(observations, before)[i])
  {
    if observations != [] {
      var n := |observations| - 1;
      ExecutionsAreObserved(observations[..n], before);
      var rest, all := Executions(observations[..n], before), Executions(observations, before);
      forall i | 0 <= i < |all| ensures Observed(observations, all[i]) {
        if i < |rest| {
          assert Observed(observations[..n], rest[i]);
          var k :| 0 <= k < n && CarriedOut(observations[..n][k]) && observations[..n][k].query == rest[i].query;
          assert observations[k] == observations[..n][k];
        } else {
          assert CarriedOut(observations[n]);
        }
      }
    }
  }

  lemma {:induction false} BatchIsFresh(observations: seq<Observation>, before: nat, seen: set<string>, after: set<string>)
    requires FreshKeys(observations, seen, after)
    ensures ExecutedOnce(Executions(observations, before), after)
    ensures forall i | 0 <= i < |Executions(observations, before)| ::
      Executions(observations, before)[i].query.key !in seen
  {
    if observations != [] {
      var n := |observations| - 1;
      BatchIsFresh(observations[..n], before, seen, after);
      ExecutionsAreObserved(observations[..n], before);
      var rest := Executions(observations[..n], before);
      forall i | 0 <= i < |rest| ensures rest[i].query.key != observations[n].query.key || !CarriedOut(observations[n]) {
        assert Observed(observations[..n], rest[i]);
        var k :| 0 <= k < n && CarriedOut(observations[..n][k]) && observations[..n][k].query == rest[i].query;
        assert observations[k] == observations[..n][k];
      }
    }
  }

  lemma JoinExecuted(a: seq<Execution>, b: seq<Execution>, seen: set<string>, after: set<string>, shown: seq<set<Ref>>)
    requires ExecutedOnce(a, seen) && ExecutedOnce(b, after) && seen <= after
    requires forall i | 0 <= i < |b| :: b[i].query.key !in seen
    requires Grounded(a, shown) && Grounded(b, shown)
    ensures ExecutedOnce(a + b, after) && Grounded(a + b, shown)
  {
  }

  class Run {
    const maxQueries: nat
    const tools: EngineTools
    var seen: set<string>
    var observed: set<Ref>
    /** Every showing, in order: the first projection, then drafts, projections and tool results. */
    var shown: seq<set<Ref>>
    var executed: seq<Execution>

    ghost predicate Valid()
      reads this, tools
    {
      && 1 <= |seen| && |seen| - 1 + |tools.calls| <= maxQueries
      && observed == Union(shown)
      && ExecutedOnce(executed, seen) && Grounded(executed, shown)
    }

    /** The run starts from its own surface, already projected. */
    constructor (maxQueries: nat, first: string, context: set<Ref>)
      ensures Valid() && fresh(tools) && this.maxQueries == maxQueries && tools.calls == [] && seen == {first}
      ensures executed == [] && shown == [context]
    {
      this.maxQueries := maxQueries;
      tools := new EngineTools(maxQueries);
      seen, observed, shown, executed := {first}, context, [context], [];
      new;
      UnionGrows([], context);
      assert [] + [context] == [context];
    }

    /** Something is shown to the run. */
    method Show(refs: set<Ref>)
      requires Valid()
      modifies this`observed, this`shown
      ensures Valid() && shown == old(shown) + [refs] && executed == old(executed) && seen == old(seen)
    {
      UnionGrows(shown, refs);
      GroundedGrows(executed, shown, refs);
      observed := observed + refs;
      shown := shown + [refs];
    }

    /** One tool call; a fresh result that is no error is shown. */
    method Use(call: ToolCall, execute: string -> Output) returns (reply: ToolReply)
      requires Valid() && tools.maxCalls == maxQueries - (|seen| - 1)
      modifies this`observed, this`shown, tools`cache, tools`calls
      ensures Valid() && old(shown) <= shown && executed == old(executed) && seen == old(seen)
      ensures reply.Fresh? ==> |tools.calls| == |old(tools.calls)| + 1
    {
      reply := tools.Call(call, false, execute);
      if reply.Fresh? && reply.output.Outcome? {
        Show(reply.output.refs);
      }
    }

    /** A window with its drawing is looked at before the first round; a budget too small for it ends the run. */
    method Prime(catalog: ToolCall, calculation: ToolCall, execute: string -> Output) returns (started: bool)
      requires Valid() && tools.maxCalls == maxQueries - (|seen| - 1)
      modifies this`observed, this`shown, tools`cache, tools`calls
      ensures Valid() && old(shown) <= shown && executed == old(executed) && seen == old(seen)
    {
      var a := Use(catalog, execute);
      if a.Refused? {
        return false;
      }
      var b := Use(calculation, execute);
      return !b.Refused?;
    }

    /** One round: the draft if any, then the queries with what is left of the budget, then the tool calls with what
        the queries left. */
    method Round(document: Document, project: Query -> Option<set<Ref>>, execute: string -> Output)
      requires Valid()
      modifies this, tools
      ensures Valid()
      ensures old(shown) <= shown && old(executed) <= executed && old(seen) <= seen
    {
      if document.draft.Some? {
        Show({document.draft.value});
      }
      var limit := maxQueries - (|seen| - 1) - |tools.calls|;
      var observations, after, gained := Queries(document.items, seen, observed, limit, project);
      SpentIsFew(observations);
      BatchIsGrounded(observations, shown);
      BatchIsFresh(observations, |shown|, seen, after);
      JoinExecuted(executed, Executions(observations, |shown|), seen, after, shown);
      executed := executed + Executions(observations, |shown|);
      seen := after;
      Show(gained);
      tools.maxCalls := maxQueries - (|seen| - 1);
      var i := 0;
      while i < |document.calls| && i < maxQueries
        invariant Valid() && tools.maxCalls == maxQueries - (|seen| - 1)
        invariant old(shown) <= shown && old(executed) <= executed && old(seen) <= seen
      {
        var _ := Use(document.calls[i], execute);
        i := i + 1;
      }
    }

    /** All the rounds of a run: what was looked up stays within the budget, whatever the model asked. */
    method Work(documents: seq<Document>, project: Query -> Option<set<Ref>>, execute: string -> Output)
      requires Valid()
      modifies this, tools
      ensures |seen| - 1 + |tools.calls| <= maxQueries
      ensures ExecutedOnce(executed, seen) && Grounded(executed, shown)
      ensures old(executed) <= executed
    {
      for i := 0 to |documents|
        invariant Valid() && old(executed) <= executed
      {
        Round(documents[i], project, execute);
      }
    }
  }
}
