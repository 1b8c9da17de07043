/**
  The alert-notification endpoints of the config service. `GET` reads the
  alertmanager configuration file and reports which notification channels
  (Slack, email) it sets up; `PUT` is not implemented yet.

  Opening and decoding the file are abstracted into a `ConfigRead` outcome
  per path; the mapping from the decoded global settings to the reply is
  modelled exactly.
*/
module AlertsApi {
  import opened Wrappers

  /** Where the alertmanager configuration is read from. */
  const DefaultConfigPath := "/etc/alertmanager/config.yml"

  /** `http.StatusOK`. */
  const StatusOK := 200

  const OpenFailedPrefix := "failed to open alertmanager config: "
  const DecodeFailedPrefix := "failed to read alertmanager config: "
  const NotYetImplemented := "NYI"

  /** The settings of the alertmanager `global` section that the endpoint reads. */
  datatype GlobalConfig = GlobalConfig(
    slackApiUrl: string,
    slackApiUrlFile: string,
    smtpFrom: string,
    smtpHello: string,
    smtpSmarthost: string,
    smtpAuthUsername: string,
    smtpAuthPassword: string,
    smtpAuthSecret: string,
    smtpAuthIdentity: string,
    smtpRequireTls: bool)

  /** An alertmanager configuration file, as far as the endpoint reads it. */
  datatype ConfigFile = ConfigFile(globalConfig: GlobalConfig)

  /** Opening and decoding a configuration file: either step can fail with a cause. */
  datatype ConfigRead = OpenFailed(openCause: string) | DecodeFailed(decodeCause: string) | Decoded(cfg: ConfigFile)

  /** The Slack block of the reply; an absent pointer is `None`. */
  datatype SlackConfig = SlackConfig(configuredExternally: Option<bool>, webhookUrl: string)

  /** The email block of the reply; an absent pointer is `None`. */
  datatype EmailConfig = EmailConfig(
    from: string,
    host: string,
    hello: Option<string>,
    identity: Option<string>,
    password: Option<string>,
    requireTls: Option<bool>,
    secret: Option<string>,
    username: Option<string>)

  /** The reply body: a block per channel, absent when the channel is not set up. */
  datatype AlertNotificationConfig = AlertNotificationConfig(email: Option<EmailConfig>, slack: Option<SlackConfig>)

  /** What a handler gives back: a JSON reply with its status, or an error. */
  datatype Reply = JsonReply(status: int, body: AlertNotificationConfig) | ErrorReply(message: string)

  /** The reply body for the global settings `g`. */
  function AlertsFrom(g: GlobalConfig): (r: AlertNotificationConfig)
    ensures r.slack.None? <==> g.slackApiUrlFile == "" && g.slackApiUrl == ""
    ensures g.slackApiUrlFile != "" ==> r.slack == Some(SlackConfig(Some(true), ""))
    ensures g.slackApiUrlFile == "" && g.slackApiUrl != "" ==> r.slack == Some(SlackConfig(None, g.slackApiUrl))
    ensures r.email.Some? <==> g.smtpFrom != "" && g.smtpHello != ""
    ensures r.email.Some? ==>
      && r.email.value.from == g.smtpFrom
      && r.email.value.host == g.smtpSmarthost
      && r.email.value.hello == Some(g.smtpHello)
      && r.email.value.identity == Some(g.smtpAuthIdentity)
      && r.email.value.password == Some(g.smtpAuthPassword)
      && r.email.value.requireTls == Some(g.smtpRequireTls)
      && r.email.value.secret == Some(g.smtpAuthSecret)
      && r.email.value.username == Some(g.smtpAuthUsername)
  {
    var result := AlertNotificationConfig(None, None);
    var result :=
      if g.slackApiUrlFile != "" then result.(slack := Some(SlackConfig(Some(true), "")))
      else if g.slackApiUrl != "" then result.(slack := Some(SlackConfig(None, g.slackApiUrl)))
      else result;
    if g.smtpFrom != "" && g.smtpHello != "" then
      result.(email := Some(EmailConfig(
        g.smtpFrom, g.smtpSmarthost, Some(g.smtpHello), Some(g.smtpAuthIdentity), Some(g.smtpAuthPassword),
        Some(g.smtpRequireTls), Some(g.smtpAuthSecret), Some(g.smtpAuthUsername))))
    else result
  }

  /** `GetAlertsConfiguration`, with `load` telling what opening and decoding each path gives. */
  function GetAlertsConfiguration(load: string -> ConfigRead): (r: Reply)
    ensures r.ErrorReply? <==> !load(DefaultConfigPath).Decoded?
    ensures load(DefaultConfigPath).OpenFailed? ==> r == ErrorReply(OpenFailedPrefix + load(DefaultConfigPath).openCause)
    ensures load(DefaultConfigPath).DecodeFailed? ==> r == ErrorReply(DecodeFailedPrefix + load(DefaultConfigPath).decodeCause)
    ensures load(DefaultConfigPath).Decoded? ==> r.status == StatusOK
  {
    match load(DefaultConfigPath)
    case OpenFailed(cause) => ErrorReply(OpenFailedPrefix + cause)
    case DecodeFailed(cause) => ErrorReply(DecodeFailedPrefix + cause)
    case Decoded(cfg) => JsonReply(StatusOK, AlertsFrom(cfg.globalConfig))
  }

  /** `PutAlertsConfiguration`: not implemented, whatever it is sent. */
  function PutAlertsConfiguration(body: AlertNotificationConfig): (r: Reply)
    ensures r == ErrorReply(NotYetImplemented)
  {
    ErrorReply(NotYetImplemented)
  }

  /** A decoded configuration is answered with the blocks `AlertsFrom` gives for its global settings. */
  lemma GetReportsDecodedConfig(load: string -> ConfigRead)
    requires load(DefaultConfigPath).Decoded?
    ensures GetAlertsConfiguration(load) == JsonReply(StatusOK, AlertsFrom(load(DefaultConfigPath).cfg.globalConfig))
  {
  }

  /** The reply depends on nothing but what reading the default path gives. */
  lemma GetReadsOnlyDefaultPath(load: string -> ConfigRead, other: string -> ConfigRead)
    requires load(DefaultConfigPath) == other(DefaultConfigPath)
    ensures GetAlertsConfiguration(load) == GetAlertsConfiguration(other)
  {
  }

  /** The Slack block depends on the two Slack settings alone. */
  lemma SlackDependsOnSlackSettings(g: GlobalConfig, h: GlobalConfig)
    requires g.slackApiUrl == h.slackApiUrl && g.slackApiUrlFile == h.slackApiUrlFile
    ensures AlertsFrom(g).slack == AlertsFrom(h).slack
  {
  }

  /** The email block depends on the SMTP settings alone. */
  lemma EmailDependsOnSmtpSettings(g: GlobalConfig, h: GlobalConfig)
    requires g.(slackApiUrl := h.slackApiUrl, slackApiUrlFile := h.slackApiUrlFile) == h
    ensures AlertsFrom(g).email == AlertsFrom(h).email
  {
  }

  /** With no channel set up, both blocks stay absent. */
  lemma NothingConfigured(g: GlobalConfig)
    requires g.slackApiUrlFile == "" && g.slackApiUrl == "" && (g.smtpFrom == "" || g.smtpHello == "")
    ensures AlertsFrom(g) == AlertNotificationConfig(None, None)
  {
  }
}
