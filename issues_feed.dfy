/**
 * The incident feed page: the list shown is the mock incident list filtered by
 * a status select, a severity select (each holding "all" or a value's written
 * form) and a free-text search; clicking a row opens the incident's page.
 */
module IssuesFeed {
  import opened Collections
  import opened Text
  import opened Types
  import AppSidebar

  /** The filter predicate, one early `return false` per check, as the page writes it. */
  function KeepIncident(statusFilter: string, severityFilter: string, searchQuery: string, incident: Incident): bool
  {
    if statusFilter != "all" && StatusName(incident.status) != statusFilter then false
    else if severityFilter != "all" && SeverityName(incident.severity) != severityFilter then false
    else if searchQuery != [] && !Contains(Lower(incident.title), Lower(searchQuery))
         && !Contains(Lower(incident.agentName), Lower(searchQuery)) then false
    else true
  }

  /** `filteredIncidents` */
  function FilteredIncidents(incidents: seq<Incident>, statusFilter: string, severityFilter: string,
                             searchQuery: string): seq<Incident>
  {
    Filter((inc: Incident) => KeepIncident(statusFilter, severityFilter, searchQuery, inc), incidents)
  }

  /** The status check passes when the select reads "all" or names the incident's status. */
  predicate StatusPasses(statusFilter: string, incident: Incident)
  {
    statusFilter == "all" || StatusName(incident.status) == statusFilter
  }

  predicate SeverityPasses(severityFilter: string, incident: Incident)
  {
    severityFilter == "all" || SeverityName(incident.severity) == severityFilter
  }

  /** The query is empty, or occurs, ignoring ASCII case, in the title or the agent name. */
  ghost predicate QueryFound(searchQuery: string, incident: Incident)
  {
    || searchQuery == []
    || (exists i :: OccursAt(Lower(incident.title), Lower(searchQuery), i))
    || (exists i :: OccursAt(Lower(incident.agentName), Lower(searchQuery), i))
  }

  /** An incident is kept exactly when it passes all three checks. */
  lemma KeepIncidentIsConjunction(statusFilter: string, severityFilter: string, searchQuery: string, incident: Incident)
    ensures KeepIncident(statusFilter, severityFilter, searchQuery, incident) <==>
      && StatusPasses(statusFilter, incident)
      && SeverityPasses(severityFilter, incident)
      && QueryFound(searchQuery, incident)
  {
    SearchMatchesSpec(searchQuery, incident.title, incident.agentName);
  }

  /**
   * The feed holds exactly the incidents that pass the status and severity
   * selects and whose title or agent name contains the query, in their
   * original order.
   */
  lemma FilteredIncidentsSpec(incidents: seq<Incident>, statusFilter: string, severityFilter: string, searchQuery: string)
    ensures forall x :: x in FilteredIncidents(incidents, statusFilter, severityFilter, searchQuery) ==>
      x in incidents && StatusPasses(statusFilter, x) && SeverityPasses(severityFilter, x) && QueryFound(searchQuery, x)
    ensures forall x :: x in incidents && StatusPasses(statusFilter, x) && SeverityPasses(severityFilter, x)
                        && QueryFound(searchQuery, x) ==>
      x in FilteredIncidents(incidents, statusFilter, severityFilter, searchQuery)
    ensures forall x :: multiset(FilteredIncidents(incidents, statusFilter, severityFilter, searchQuery))[x] ==
              (if StatusPasses(statusFilter, x) && SeverityPasses(severityFilter, x) && QueryFound(searchQuery, x)
               then multiset(incidents)[x] else 0)
    ensures IsSubsequence(FilteredIncidents(incidents, statusFilter, severityFilter, searchQuery), incidents)
  {
    var keep := (inc: Incident) => KeepIncident(statusFilter, severityFilter, searchQuery, inc);
    FilterSpec(keep, incidents);
    forall x: Incident
      ensures keep(x) <==>
        StatusPasses(statusFilter, x) && SeverityPasses(severityFilter, x) && QueryFound(searchQuery, x)
    {
      KeepIncidentIsConjunction(statusFilter, severityFilter, searchQuery, x);
    }
  }

  /** With both selects on "all" and an empty query, every incident is shown. */
  lemma DefaultFiltersKeepAll(incidents: seq<Incident>)
    ensures FilteredIncidents(incidents, "all", "all", "") == incidents
  {
    FilterKeepsAll((inc: Incident) => KeepIncident("all", "all", "", inc), incidents);
  }

  /** Selecting a status shows only incidents with exactly that status; likewise for a severity. */
  lemma SelectedValuesAreExact(incidents: seq<Incident>, status: IncidentStatus, severity: Severity,
                               statusFilter: string, severityFilter: string, searchQuery: string)
    ensures forall x :: x in FilteredIncidents(incidents, StatusName(status), severityFilter, searchQuery) ==> x.status == status
    ensures forall x :: x in FilteredIncidents(incidents, statusFilter, SeverityName(severity), searchQuery) ==> x.severity == severity
  {
    NamesDistinct();
    FilterAllPass((inc: Incident) => KeepIncident(StatusName(status), severityFilter, searchQuery, inc), incidents);
    FilterAllPass((inc: Incident) => KeepIncident(statusFilter, SeverityName(severity), searchQuery, inc), incidents);
  }

  /** `handleRowClick`: the route of the incident's detail page. */
  function IncidentPath(incident: Incident): string
  {
    "/incident/" + incident.id
  }

  /**
   * The route carries the id verbatim after the "/incident/" prefix, so distinct
   * incidents open distinct routes, and no sidebar section is active there.
   */
  lemma IncidentPathSpec(a: Incident, b: Incident)
    ensures IncidentPath(a)[..10] == "/incident/" && IncidentPath(a)[10..] == a.id
    ensures IncidentPath(a) == IncidentPath(b) ==> a.id == b.id
    ensures forall j :: 0 <= j < |AppSidebar.Navigation()| ==> !AppSidebar.IsActiveSection(AppSidebar.Navigation()[j], IncidentPath(a))
  {
    if IncidentPath(a) == IncidentPath(b) {
      assert IncidentPath(b)[10..] == b.id;
    }
    AppSidebar.DetailPagesActivateNothing(a.id);
  }
}
