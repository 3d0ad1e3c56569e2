/**
 * The policies page: the list of policies starts as the fixture list and a
 * switch per policy flips that policy's `enabled` flag.
 */
module Policies {
  import opened Collections
  import opened Types

  const HourMs: int := 60 * 60 * 1000

  /** The fixture descriptions. */
  const PiiDescription: string :=
    "Prevents AI agents from outputting personally identifiable information including SSNs, credit cards, and addresses."
  const FinancialDescription: string :=
    "Blocks AI from providing specific financial, investment, or tax advice to users."
  const ContentSafetyDescription: string :=
    "Filters harmful, inappropriate, or offensive content from AI responses."
  const LatencyDescription: string :=
    "Triggers alert when agent response time exceeds 5 seconds."
  const HallucinationDescription: string :=
    "Uses secondary model to detect potential hallucinations in AI responses."
  const GdprDescription: string :=
    "Ensures AI agents comply with GDPR data handling and privacy requirements."

  /** `mockPolicies`, with `Date.now()` as the parameter `now`. */
  function MockPolicies(now: int): (policies: seq<Policy>)
    ensures |policies| == 6
  {
    [
      Policy("policy-1", "PII Detection & Blocking", PiiDescription,
        true, Safety, 23, Some(now - 2 * HourMs)),
      Policy("policy-2", "Financial Advice Restriction", FinancialDescription,
        true, Compliance, 8, Some(now - 24 * HourMs)),
      Policy("policy-3", "Content Safety Filter", ContentSafetyDescription,
        true, Safety, 156, Some(now - 30 * 60 * 1000)),
      Policy("policy-4", "Latency Threshold Alert", LatencyDescription,
        true, Performance, 42, Some(now - 4 * HourMs)),
      Policy("policy-5", "Hallucination Detection", HallucinationDescription,
        false, Content, 0, None),
      Policy("policy-6", "GDPR Data Handling", GdprDescription,
        true, Compliance, 3, Some(now - 7 * 24 * HourMs))
    ]
  }

  /** The fixture ids are distinct. */
  lemma MockPolicyIdsDistinct(now: int)
    ensures var ps := MockPolicies(now);
      forall i, j :: 0 <= i < j < |ps| ==> ps[i].id != ps[j].id
  {
    var ps := MockPolicies(now);
    forall i, j | 0 <= i < j < |ps|
      ensures ps[i].id != ps[j].id
    {
      assert ps[i].id[7] != ps[j].id[7];
    }
  }

  /**
   * Only policy-5 is disabled, it alone has never triggered, and every other
   * policy last triggered within the past week.
   */
  lemma MockPoliciesTriggers(now: int)
    ensures var ps := MockPolicies(now);
      && (forall i :: 0 <= i < |ps| ==> (!ps[i].enabled <==> i == 4))
      && (forall i :: 0 <= i < |ps| ==> (ps[i].lastTriggered.None? <==> !ps[i].enabled))
      && (forall i :: 0 <= i < |ps| && ps[i].lastTriggered.Some? ==>
            now - 7 * 24 * HourMs <= ps[i].lastTriggered.value < now)
  {
    var ps := MockPolicies(now);
    forall i | 0 <= i < |ps|
      ensures !ps[i].enabled <==> i == 4
      ensures ps[i].lastTriggered.None? <==> !ps[i].enabled
      ensures ps[i].lastTriggered.Some? ==> now - 7 * 24 * HourMs <= ps[i].lastTriggered.value < now
    {
      if i == 0 {} else if i == 1 {} else if i == 2 {} else if i == 3 {} else if i == 4 {} else {}
    }
  }

  /** `handleToggle(policyId)`: `prev.map(p => p.id === policyId ? { ...p, enabled: !p.enabled } : p)` */
  function TogglePolicy(policies: seq<Policy>, policyId: string): (r: seq<Policy>)
    ensures |r| == |policies|
  {
    seq(|policies|, i requires 0 <= i < |policies| =>
      if policies[i].id == policyId then policies[i].(enabled := !policies[i].enabled) else policies[i])
  }

  /**
   * Toggling keeps the length and the order of ids; each policy with that id has
   * `enabled` negated and every other field unchanged; every other policy is
   * unchanged.
   */
  lemma TogglePolicySpec(policies: seq<Policy>, policyId: string)
    ensures var r := TogglePolicy(policies, policyId);
      && |r| == |policies|
      && (forall i :: 0 <= i < |r| ==> r[i].id == policies[i].id)
      && (forall i :: 0 <= i < |r| && policies[i].id == policyId ==>
            r[i].enabled == !policies[i].enabled && r[i] == policies[i].(enabled := r[i].enabled))
      && (forall i :: 0 <= i < |r| && policies[i].id != policyId ==> r[i] == policies[i])
  {
  }

  /** Toggling the same id twice gives back the original list. */
  lemma TogglePolicyTwice(policies: seq<Policy>, policyId: string)
    ensures TogglePolicy(TogglePolicy(policies, policyId), policyId) == policies
  {
    var r := TogglePolicy(TogglePolicy(policies, policyId), policyId);
    assert forall i :: 0 <= i < |policies| ==> r[i] == policies[i];
  }

  /** Toggling an id no policy has changes nothing. */
  lemma TogglePolicyAbsent(policies: seq<Policy>, policyId: string)
    requires forall p :: p in policies ==> p.id != policyId
    ensures TogglePolicy(policies, policyId) == policies
  {
    var r := TogglePolicy(policies, policyId);
    forall i | 0 <= i < |policies|
      ensures r[i] == policies[i]
    {
      assert policies[i] in policies;
    }
  }

  /** The page's `policies` state. */
  class PoliciesPage {
    var policies: seq<Policy>

    /** `useState(mockPolicies)` */
    constructor(now: int)
      ensures policies == MockPolicies(now)
    {
      policies := MockPolicies(now);
    }

    /** `handleToggle`: replaces the state with the toggled list. */
    method HandleToggle(policyId: string)
      modifies this
      ensures policies == TogglePolicy(old(policies), policyId)
    {
      policies := TogglePolicy(policies, policyId);
    }
  }
}
