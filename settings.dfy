/**
 * The settings page: six boolean switches held in one record; a switch flips
 * its own key.
 */
module Settings {

  datatype SettingKey =
    | AiGovernance | PolicyEnforcement | AuditLogs | AlertNotifications | SlackIntegration | EmailDigest

  datatype OrgSettings = OrgSettings(
    aiGovernance: bool,
    policyEnforcement: bool,
    auditLogs: bool,
    alertNotifications: bool,
    slackIntegration: bool,
    emailDigest: bool)

  /** `settings[key]` */
  function Get(s: OrgSettings, key: SettingKey): bool
  {
    match key
    case AiGovernance => s.aiGovernance
    case PolicyEnforcement => s.policyEnforcement
    case AuditLogs => s.auditLogs
    case AlertNotifications => s.alertNotifications
    case SlackIntegration => s.slackIntegration
    case EmailDigest => s.emailDigest
  }

  /** The initial settings: everything on except the Slack integration. */
  function InitialSettings(): OrgSettings
  {
    OrgSettings(true, true, true, true, false, true)
  }

  lemma InitialSettingsValues()
    ensures forall key :: Get(InitialSettings(), key) <==> key != SlackIntegration
  {
  }

  /** `handleToggle(key)`: `{ ...prev, [key]: !prev[key] }` */
  function Toggle(s: OrgSettings, key: SettingKey): OrgSettings
  {
    match key
    case AiGovernance => s.(aiGovernance := !s.aiGovernance)
    case PolicyEnforcement => s.(policyEnforcement := !s.policyEnforcement)
    case AuditLogs => s.(auditLogs := !s.auditLogs)
    case AlertNotifications => s.(alertNotifications := !s.alertNotifications)
    case SlackIntegration => s.(slackIntegration := !s.slackIntegration)
    case EmailDigest => s.(emailDigest := !s.emailDigest)
  }

  /** Two settings records with the same value at every key are the same record. */
  lemma SettingsExtensionality(a: OrgSettings, b: OrgSettings)
    requires forall key :: Get(a, key) == Get(b, key)
    ensures a == b
  {
    assert Get(a, AiGovernance) == Get(b, AiGovernance);
    assert Get(a, PolicyEnforcement) == Get(b, PolicyEnforcement);
    assert Get(a, AuditLogs) == Get(b, AuditLogs);
    assert Get(a, AlertNotifications) == Get(b, AlertNotifications);
    assert Get(a, SlackIntegration) == Get(b, SlackIntegration);
    assert Get(a, EmailDigest) == Get(b, EmailDigest);
  }

  /** A toggle negates its key and leaves every other key as it was. */
  lemma ToggleSpec(s: OrgSettings, key: SettingKey)
    ensures Get(Toggle(s, key), key) == !Get(s, key)
    ensures forall other :: other != key ==> Get(Toggle(s, key), other) == Get(s, other)
  {
  }

  /** Toggling a key twice restores the settings. */
  lemma ToggleTwice(s: OrgSettings, key: SettingKey)
    ensures Toggle(Toggle(s, key), key) == s
  {
    ToggleSpec(s, key);
    ToggleSpec(Toggle(s, key), key);
    SettingsExtensionality(Toggle(Toggle(s, key), key), s);
  }

  /** Toggles of two keys commute. */
  lemma ToggleCommutes(s: OrgSettings, a: SettingKey, b: SettingKey)
    ensures Toggle(Toggle(s, a), b) == Toggle(Toggle(s, b), a)
  {
  }

  /** The page's `settings` state. */
  class SettingsPage {
    var settings: OrgSettings

    constructor()
      ensures settings == InitialSettings()
    {
      settings := InitialSettings();
    }

    /** `handleToggle`: replaces the state with the toggled record. */
    method HandleToggle(key: SettingKey)
      modifies this
      ensures settings == Toggle(old(settings), key)
    {
      settings := Toggle(settings, key);
    }
  }
}
