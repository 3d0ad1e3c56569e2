/**
 * The mock incident list and its lookups. The list is 25 incidents built from
 * random draws; each draw is a parameter here, and so are the current time and
 * the day-of-month fields the date setters read. The lookups take the list as
 * an argument instead of reading the module-level constant.
 */
module MockIncidents {
  import opened Collections
  import opened Text
  import opened Draws
  import opened Types

  const IncidentTypes: seq<IncidentType> := [Hallucination, RetrievalFailure, PolicyViolation, Timeout, ContextOverflow]
  const Severities: seq<Severity> := [Critical, High, Medium, Low]
  const Statuses: seq<IncidentStatus> := [Open, Investigating, Resolved]

  const AgentNames: seq<string> := [
    "CustomerSupport-v2", "SalesAssistant-prod", "DocumentQA-main", "CodeReview-beta", "DataAnalyst-v1"]

  const RootCause: string :=
    "Insufficient context provided to the model during the RAG retrieval phase, leading to hallucinated responses."

  /** The three candidate titles of each incident type. */
  function IncidentTitles(t: IncidentType): (titles: seq<string>)
    ensures |titles| == 3
  {
    match t
    case Hallucination => [
      "Model generated fabricated product specifications",
      "Incorrect date references in customer response",
      "Fictional company policy cited in support chat"]
    case RetrievalFailure => [
      "RAG failed to retrieve relevant documentation",
      "Vector search returned empty results",
      "Context window exceeded during retrieval"]
    case PolicyViolation => [
      "PII detected in model output",
      "Unauthorized financial advice generated",
      "Content safety filter bypassed"]
    case Timeout => [
      "LLM inference exceeded 30s threshold",
      "Tool execution timed out",
      "Agent workflow hung on external API"]
    case ContextOverflow => [
      "Token limit exceeded in conversation",
      "Document chunking failed for large file",
      "History context truncation triggered"]
  }

  /**
   * The random inputs of one incident, each in [0, 1), and the day of the month
   * that `getDate()` reads on the current date and on `lastSeen`.
   */
  datatype IncidentDraw = IncidentDraw(
    typeR: real, titleR: real, lastSeenR: real, firstSeenR: real, agentIdR: real,
    agentNameR: real, severityR: real, statusR: real, eventR: real, usersR: real,
    nowDay: nat, lastSeenDay: nat)

  predicate ValidDraw(d: IncidentDraw)
  {
    && IsDraw(d.typeR) && IsDraw(d.titleR) && IsDraw(d.lastSeenR) && IsDraw(d.firstSeenR)
    && IsDraw(d.agentIdR) && IsDraw(d.agentNameR) && IsDraw(d.severityR) && IsDraw(d.statusR)
    && IsDraw(d.eventR) && IsDraw(d.usersR)
  }

  /** The id of the incident at index `i`: `INC-` and `i + 1` zero-padded to four digits. */
  function IncidentId(i: nat): string
  {
    "INC-" + ZeroPadded(i + 1, 4)
  }

  /** The description names the type with its first underscore shown as a space. */
  function IncidentDescription(t: IncidentType): string
  {
    "Detailed analysis of the " + ReplaceFirst(IncidentTypeName(t), '_', ' ') + " incident affecting production systems."
  }

  /** The incident the generator builds at index `i`. */
  function MakeIncident(i: nat, now: int, d: IncidentDraw): Incident
    requires ValidDraw(d)
  {
    var t := RandomItem(IncidentTypes, d.typeR);
    var lastSeen := RandomDate(now, d.nowDay, d.lastSeenR, 7, DayMs);
    var firstSeen := RandomDate(lastSeen, d.lastSeenDay, d.firstSeenR, 30, DayMs);
    Incident(
      IncidentId(i),
      t,
      RandomItem(IncidentTitles(t), d.titleR),
      IncidentDescription(t),
      "agent-" + Decimal(RandomIndex(d.agentIdR, 5) + 1),
      RandomItem(AgentNames, d.agentNameR),
      RandomItem(Severities, d.severityR),
      RandomItem(Statuses, d.statusR),
      lastSeen,
      firstSeen,
      RandomIndex(d.eventR, 500) + 1,
      RandomIndex(d.usersR, 100) + 1,
      Some(RootCause))
  }

  /** `mockIncidents`: one incident per draw (the source makes 25). */
  function MockIncidentList(now: int, draws: seq<IncidentDraw>): (incidents: seq<Incident>)
    requires forall k :: 0 <= k < |draws| ==> ValidDraw(draws[k])
    ensures |incidents| == |draws|
  {
    seq(|draws|, i requires 0 <= i < |draws| => MakeIncident(i, now, draws[i]))
  }

  /** Incident ids are "INC-" plus four digits for the first 9999 indices. */
  lemma IncidentIdFormat(i: nat)
    ensures |IncidentId(i)| >= 8 && IncidentId(i)[..4] == "INC-"
    ensures i < 9999 ==> |IncidentId(i)| == 8
  {
    if i < 9999 {
      ZeroPaddedLength(i + 1, 4);
    }
  }

  /** Different indices never get the same incident id. */
  lemma IncidentIdInjective(i: nat, j: nat)
    requires IncidentId(i) == IncidentId(j)
    ensures i == j
  {
    PrefixedZeroPaddedInjective("INC-", i + 1, j + 1, 4);
  }

  /** The first id is "INC-0001". */
  lemma FirstIncidentId()
    ensures IncidentId(0) == "INC-0001"
  {
    assert Decimal(1) == "1";
  }

  /** Replacing the one underscore of `a_b` leaves `a b`, with no underscore left. */
  lemma ReplaceSingleUnderscore(a: string, b: string)
    requires '_' !in a && '_' !in b
    ensures ReplaceFirst(a + "_" + b, '_', ' ') == a + " " + b
    ensures '_' !in a + " " + b
  {
    var s := a + "_" + b;
    assert s[..|a|] == a;
    ReplaceFirstAt(s, '_', ' ', |a|);
    assert s[|a| + 1..] == b;
  }

  /**
   * The description shows the type name with its first underscore replaced by a
   * space; no type name has a second underscore, so none is left.
   */
  lemma ShownTypeName(t: IncidentType)
    ensures '_' !in ReplaceFirst(IncidentTypeName(t), '_', ' ')
    ensures |ReplaceFirst(IncidentTypeName(t), '_', ' ')| == |IncidentTypeName(t)|
  {
    match t
    case RetrievalFailure =>
      assert IncidentTypeName(t) == "retrieval" + "_" + "failure";
      ReplaceSingleUnderscore("retrieval", "failure");
    case PolicyViolation =>
      assert IncidentTypeName(t) == "policy" + "_" + "violation";
      ReplaceSingleUnderscore("policy", "violation");
    case ContextOverflow =>
      assert IncidentTypeName(t) == "context" + "_" + "overflow";
      ReplaceSingleUnderscore("context", "overflow");
    case Hallucination => ReplaceFirstAbsent(IncidentTypeName(t), '_', ' ');
    case Timeout => ReplaceFirstAbsent(IncidentTypeName(t), '_', ' ');
  }

  /** Every generated incident has the id of its index and the counts, agent and title the generator promises. */
  lemma MakeIncidentFields(i: nat, now: int, d: IncidentDraw)
    requires ValidDraw(d)
    ensures var inc := MakeIncident(i, now, d);
      && inc.id == IncidentId(i)
      && 1 <= inc.eventCount <= 500
      && 1 <= inc.affectedUsers <= 100
      && (exists n :: 1 <= n <= 5 && inc.agentId == "agent-" + Decimal(n))
      && inc.agentName in AgentNames
      && inc.title in IncidentTitles(inc.incidentType)
      && inc.rootCause.Some?
      && now - 7 * DayMs <= inc.lastSeen <= now
      && inc.lastSeen - 30 * DayMs <= inc.firstSeen <= inc.lastSeen
  {
    var n := RandomIndex(d.agentIdR, 5) + 1;
    assert MakeIncident(i, now, d).agentId == "agent-" + Decimal(n);
  }

  /** In a generated list the incident at index `i` has id `IncidentId(i)`, so ids never repeat. */
  lemma MockIncidentIdsDistinct(now: int, draws: seq<IncidentDraw>)
    requires forall k :: 0 <= k < |draws| ==> ValidDraw(draws[k])
    ensures forall i :: 0 <= i < |draws| ==> MockIncidentList(now, draws)[i].id == IncidentId(i)
    ensures forall i, j :: 0 <= i < j < |draws| ==> MockIncidentList(now, draws)[i].id != MockIncidentList(now, draws)[j].id
  {
    forall i, j | 0 <= i < j < |draws|
      ensures MockIncidentList(now, draws)[i].id != MockIncidentList(now, draws)[j].id
    {
      if MockIncidentList(now, draws)[i].id == MockIncidentList(now, draws)[j].id {
        IncidentIdInjective(i, j);
      }
    }
  }

  /** `getIncidentById`: the first incident with that id, or none. */
  function GetIncidentById(incidents: seq<Incident>, id: string): (r: Option<Incident>)
    ensures r.Some? ==> r.value in incidents && r.value.id == id
    ensures r.None? <==> forall x :: x in incidents ==> x.id != id
    ensures r.Some? ==> exists i :: 0 <= i < |incidents| && incidents[i] == r.value
                                    && forall k :: 0 <= k < i ==> incidents[k].id != id
  {
    Find((inc: Incident) => inc.id == id, incidents)
  }

  /** `getIncidentsByStatus`: exactly the incidents with that status, in list order. */
  function GetIncidentsByStatus(incidents: seq<Incident>, status: IncidentStatus): seq<Incident>
  {
    Filter((inc: Incident) => inc.status == status, incidents)
  }

  /** `getIncidentsBySeverity`: exactly the incidents with that severity, in list order. */
  function GetIncidentsBySeverity(incidents: seq<Incident>, severity: Severity): seq<Incident>
  {
    Filter((inc: Incident) => inc.severity == severity, incidents)
  }

  lemma GetIncidentsByStatusSpec(incidents: seq<Incident>, status: IncidentStatus)
    ensures forall x :: x in GetIncidentsByStatus(incidents, status) ==> x in incidents && x.status == status
    ensures forall x :: x in incidents && x.status == status ==> x in GetIncidentsByStatus(incidents, status)
    ensures forall x :: multiset(GetIncidentsByStatus(incidents, status))[x] ==
              (if x.status == status then multiset(incidents)[x] else 0)
    ensures IsSubsequence(GetIncidentsByStatus(incidents, status), incidents)
  {
    FilterSpec((inc: Incident) => inc.status == status, incidents);
  }

  lemma GetIncidentsBySeveritySpec(incidents: seq<Incident>, severity: Severity)
    ensures forall x :: x in GetIncidentsBySeverity(incidents, severity) ==> x in incidents && x.severity == severity
    ensures forall x :: x in incidents && x.severity == severity ==> x in GetIncidentsBySeverity(incidents, severity)
    ensures forall x :: multiset(GetIncidentsBySeverity(incidents, severity))[x] ==
              (if x.severity == severity then multiset(incidents)[x] else 0)
    ensures IsSubsequence(GetIncidentsBySeverity(incidents, severity), incidents)
  {
    FilterSpec((inc: Incident) => inc.severity == severity, incidents);
  }

  /** When only incident `i` has its id, looking that id up finds incident `i`. */
  lemma LookupUniqueId(incidents: seq<Incident>, i: nat)
    requires i < |incidents|
    requires forall k :: 0 <= k < |incidents| && incidents[k].id == incidents[i].id ==> k == i
    ensures GetIncidentById(incidents, incidents[i].id) == Some(incidents[i])
  {
    assert incidents[i] in incidents;
    var r := GetIncidentById(incidents, incidents[i].id);
    var j :| 0 <= j < |incidents| && incidents[j] == r.value
             && forall k :: 0 <= k < j ==> incidents[k].id != incidents[i].id;
  }

  /** Looking up the id formatted for index `i` of a generated list finds incident `i`. */
  lemma LookupGeneratedId(now: int, draws: seq<IncidentDraw>, i: nat)
    requires forall k :: 0 <= k < |draws| ==> ValidDraw(draws[k])
    requires i < |draws|
    ensures GetIncidentById(MockIncidentList(now, draws), IncidentId(i)) == Some(MockIncidentList(now, draws)[i])
  {
    var incidents := MockIncidentList(now, draws);
    assert incidents[i].id == IncidentId(i);
    forall k | 0 <= k < |incidents| && incidents[k].id == incidents[i].id
      ensures k == i
    {
      assert incidents[k].id == IncidentId(k);
      IncidentIdInjective(k, i);
    }
    LookupUniqueId(incidents, i);
  }
}
