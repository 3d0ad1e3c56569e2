/**
 * The guardrails page: the list of guardrails starts as the fixture list and a
 * switch per guardrail flips that guardrail's `enabled` flag.
 */
module Guardrails {
  import opened Types

  /** `mockGuardrails` */
  function MockGuardrails(): (guardrails: seq<Guardrail>)
    ensures |guardrails| == 4
  {
    [
      Guardrail("guard-1", "Input Sanitization",
        "Sanitizes and validates all user inputs before processing.", true, 45),
      Guardrail("guard-2", "Output Length Limit",
        "Limits AI response length to prevent token overflow attacks.", true, 12),
      Guardrail("guard-3", "Prompt Injection Detection",
        "Detects and blocks prompt injection attempts in user inputs.", true, 7),
      Guardrail("guard-4", "Rate Limiting",
        "Limits requests per user to prevent abuse.", true, 89)
    ]
  }

  /** The fixture ids are distinct and every guardrail starts enabled. */
  lemma MockGuardrailsFacts()
    ensures var gs := MockGuardrails();
      && (forall i, j :: 0 <= i < j < |gs| ==> gs[i].id != gs[j].id)
      && (forall i :: 0 <= i < |gs| ==> gs[i].enabled)
  {
  }

  /** `handleToggle(guardrailId)`: `prev.map(g => g.id === guardrailId ? { ...g, enabled: !g.enabled } : g)` */
  function ToggleGuardrail(guardrails: seq<Guardrail>, guardrailId: string): (r: seq<Guardrail>)
    ensures |r| == |guardrails|
  {
    seq(|guardrails|, i requires 0 <= i < |guardrails| =>
      if guardrails[i].id == guardrailId then guardrails[i].(enabled := !guardrails[i].enabled) else guardrails[i])
  }

  /**
   * Toggling keeps the length and the order of ids; each guardrail with that id
   * has `enabled` negated and every other field unchanged; every other
   * guardrail is unchanged.
   */
  lemma ToggleGuardrailSpec(guardrails: seq<Guardrail>, guardrailId: string)
    ensures var r := ToggleGuardrail(guardrails, guardrailId);
      && |r| == |guardrails|
      && (forall i :: 0 <= i < |r| ==> r[i].id == guardrails[i].id)
      && (forall i :: 0 <= i < |r| && guardrails[i].id == guardrailId ==>
            r[i].enabled == !guardrails[i].enabled && r[i] == guardrails[i].(enabled := r[i].enabled))
      && (forall i :: 0 <= i < |r| && guardrails[i].id != guardrailId ==> r[i] == guardrails[i])
  {
  }

  /** Toggling the same id twice gives back the original list. */
  lemma ToggleGuardrailTwice(guardrails: seq<Guardrail>, guardrailId: string)
    ensures ToggleGuardrail(ToggleGuardrail(guardrails, guardrailId), guardrailId) == guardrails
  {
    var r := ToggleGuardrail(ToggleGuardrail(guardrails, guardrailId), guardrailId);
    assert forall i :: 0 <= i < |guardrails| ==> r[i] == guardrails[i];
  }

  /** Toggling an id no guardrail has changes nothing. */
  lemma ToggleGuardrailAbsent(guardrails: seq<Guardrail>, guardrailId: string)
    requires forall g :: g in guardrails ==> g.id != guardrailId
    ensures ToggleGuardrail(guardrails, guardrailId) == guardrails
  {
    var r := ToggleGuardrail(guardrails, guardrailId);
    forall i | 0 <= i < |guardrails|
      ensures r[i] == guardrails[i]
    {
      assert guardrails[i] in guardrails;
    }
  }

  /** The page's `guardrails` state. */
  class GuardrailsPage {
    var guardrails: seq<Guardrail>

    /** `useState(mockGuardrails)` */
    constructor()
      ensures guardrails == MockGuardrails()
    {
      guardrails := MockGuardrails();
    }

    /** `handleToggle`: replaces the state with the toggled list. */
    method HandleToggle(guardrailId: string)
      modifies this
      ensures guardrails == ToggleGuardrail(old(guardrails), guardrailId)
    {
      guardrails := ToggleGuardrail(guardrails, guardrailId);
    }
  }
}
