/**
 * The agent traces page: an agent select offering each agent name that occurs in
 * the trace list once, in order of first appearance; the list shown is the
 * trace list filtered by that select, a status select (each holding "all" or a
 * value's written form) and a free-text search; clicking a row opens the
 * trace's page.
 */
module AgentTraces {
  import opened Collections
  import opened Text
  import opened Types
  import AppSidebar

  /** `traces.map(t => t.agentName)` */
  function AgentNamesOf(traces: seq<Trace>): (names: seq<string>)
    ensures |names| == |traces|
  {
    seq(|traces|, i requires 0 <= i < |traces| => traces[i].agentName)
  }

  /** `agents`: `Array.from(new Set(traces.map(t => t.agentName)))` */
  function Agents(traces: seq<Trace>): seq<string>
  {
    Distinct(AgentNamesOf(traces))
  }

  /** Every agent name of the list appears in the select exactly once, and nothing else does. */
  lemma AgentsSpec(traces: seq<Trace>)
    ensures NoDuplicates(Agents(traces))
    ensures forall a :: a in Agents(traces) ==> exists t :: t in traces && t.agentName == a
    ensures forall t :: t in traces ==> t.agentName in Agents(traces)
  {
    var names := AgentNamesOf(traces);
    DistinctContents(names);
    forall a | a in Agents(traces)
      ensures exists t :: t in traces && t.agentName == a
    {
      var i :| 0 <= i < |names| && names[i] == a;
      assert traces[i] in traces;
    }
    forall t | t in traces
      ensures t.agentName in Agents(traces)
    {
      var i :| 0 <= i < |traces| && traces[i] == t;
      assert names[i] == t.agentName;
    }
  }

  /** The select lists agents in the order their first trace appears in the list. */
  lemma AgentsInFirstSeenOrder(traces: seq<Trace>, i: nat, j: nat)
    requires i < j < |Agents(traces)|
    ensures Agents(traces)[i] in AgentNamesOf(traces) && Agents(traces)[j] in AgentNamesOf(traces)
    ensures FirstIndexOf(AgentNamesOf(traces), Agents(traces)[i]) < FirstIndexOf(AgentNamesOf(traces), Agents(traces)[j])
  {
    DistinctFirstSeenOrder(AgentNamesOf(traces), i, j);
  }

  /** The filter predicate, one early `return false` per check, as the page writes it. */
  function KeepTrace(agentFilter: string, statusFilter: string, searchQuery: string, trace: Trace): bool
  {
    if agentFilter != "all" && trace.agentName != agentFilter then false
    else if statusFilter != "all" && RunStatusName(trace.status) != statusFilter then false
    else if searchQuery != [] && !Contains(Lower(trace.id), Lower(searchQuery))
         && !Contains(Lower(trace.agentName), Lower(searchQuery)) then false
    else true
  }

  /** `filteredTraces` */
  function FilteredTraces(traces: seq<Trace>, agentFilter: string, statusFilter: string, searchQuery: string): seq<Trace>
  {
    Filter((t: Trace) => KeepTrace(agentFilter, statusFilter, searchQuery, t), traces)
  }

  predicate AgentPasses(agentFilter: string, trace: Trace)
  {
    agentFilter == "all" || trace.agentName == agentFilter
  }

  predicate StatusPasses(statusFilter: string, trace: Trace)
  {
    statusFilter == "all" || RunStatusName(trace.status) == statusFilter
  }

  /** The query is empty, or occurs, ignoring ASCII case, in the trace id or the agent name. */
  ghost predicate QueryFound(searchQuery: string, trace: Trace)
  {
    || searchQuery == []
    || (exists i :: OccursAt(Lower(trace.id), Lower(searchQuery), i))
    || (exists i :: OccursAt(Lower(trace.agentName), Lower(searchQuery), i))
  }

  /** A trace is kept exactly when it passes all three checks. */
  lemma KeepTraceIsConjunction(agentFilter: string, statusFilter: string, searchQuery: string, trace: Trace)
    ensures KeepTrace(agentFilter, statusFilter, searchQuery, trace) <==>
      AgentPasses(agentFilter, trace) && StatusPasses(statusFilter, trace) && QueryFound(searchQuery, trace)
  {
    SearchMatchesSpec(searchQuery, trace.id, trace.agentName);
  }

  /**
   * The list holds exactly the traces that pass the agent and status selects and
   * whose id or agent name contains the query, in their original order.
   */
  lemma FilteredTracesSpec(traces: seq<Trace>, agentFilter: string, statusFilter: string, searchQuery: string)
    ensures forall x :: x in FilteredTraces(traces, agentFilter, statusFilter, searchQuery) ==>
      x in traces && AgentPasses(agentFilter, x) && StatusPasses(statusFilter, x) && QueryFound(searchQuery, x)
    ensures forall x :: x in traces && AgentPasses(agentFilter, x) && StatusPasses(statusFilter, x)
                        && QueryFound(searchQuery, x) ==>
      x in FilteredTraces(traces, agentFilter, statusFilter, searchQuery)
    ensures forall x :: multiset(FilteredTraces(traces, agentFilter, statusFilter, searchQuery))[x] ==
              (if AgentPasses(agentFilter, x) && StatusPasses(statusFilter, x) && QueryFound(searchQuery, x)
               then multiset(traces)[x] else 0)
    ensures IsSubsequence(FilteredTraces(traces, agentFilter, statusFilter, searchQuery), traces)
  {
    var keep := (t: Trace) => KeepTrace(agentFilter, statusFilter, searchQuery, t);
    FilterSpec(keep, traces);
    forall x: Trace
      ensures keep(x) <==> AgentPasses(agentFilter, x) && StatusPasses(statusFilter, x) && QueryFound(searchQuery, x)
    {
      KeepTraceIsConjunction(agentFilter, statusFilter, searchQuery, x);
    }
  }

  /** With both selects on "all" and an empty query, every trace is shown. */
  lemma DefaultFiltersKeepAll(traces: seq<Trace>)
    ensures FilteredTraces(traces, "all", "all", "") == traces
  {
    FilterKeepsAll((t: Trace) => KeepTrace("all", "all", "", t), traces);
  }

  /** Selecting an agent shows only its traces; selecting a status shows only traces with exactly that status. */
  lemma SelectedValuesAreExact(traces: seq<Trace>, agentName: string, status: RunStatus,
                               agentFilter: string, statusFilter: string, searchQuery: string)
    requires agentName != "all"
    ensures forall x :: x in FilteredTraces(traces, agentName, statusFilter, searchQuery) ==> x.agentName == agentName
    ensures forall x :: x in FilteredTraces(traces, agentFilter, RunStatusName(status), searchQuery) ==> x.status == status
  {
    NamesDistinct();
    FilterAllPass((t: Trace) => KeepTrace(agentName, statusFilter, searchQuery, t), traces);
    FilterAllPass((t: Trace) => KeepTrace(agentFilter, RunStatusName(status), searchQuery, t), traces);
  }

  /** `handleRowClick`: the route of the trace's detail page. */
  function TracePath(trace: Trace): string
  {
    "/trace/" + trace.id
  }

  /**
   * The route carries the id verbatim after the "/trace/" prefix, so distinct
   * traces open distinct routes, and no sidebar section is active there.
   */
  lemma TracePathSpec(a: Trace, b: Trace)
    ensures TracePath(a)[..7] == "/trace/" && TracePath(a)[7..] == a.id
    ensures TracePath(a) == TracePath(b) ==> a.id == b.id
    ensures forall j :: 0 <= j < |AppSidebar.Navigation()| ==> !AppSidebar.IsActiveSection(AppSidebar.Navigation()[j], TracePath(a))
  {
    if TracePath(a) == TracePath(b) {
      assert TracePath(b)[7..] == b.id;
    }
    AppSidebar.DetailPagesActivateNothing(a.id);
  }
}
