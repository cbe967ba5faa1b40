/**
 * The configuration records of `internal/config/config.go` and its
 * `DefaultConfig` literal. They are read-only values for the scheduler.
 */
module Configuration {

  /** Go's `time.Duration` counts nanoseconds. */
  const Second: int := 1_000_000_000
  const Minute: int := 60 * Second

  /** One mailbox to poll; `id` is the key of its scheduler state. */
  datatype EmailAccount = EmailAccount(
    id: string,
    name: string,
    provider: string,
    clientId: string,
    clientSecret: string,
    token: string,
    enabled: bool)

  /** A subject-substring rule; `action` is carried but never interpreted. */
  datatype Rule = Rule(subjectContains: string, action: string, labelName: string)

  /** `interval` is a duration in nanoseconds. */
  datatype PollConfig = PollConfig(interval: int, rules: seq<Rule>)

  datatype Config = Config(emailAccounts: seq<EmailAccount>, poll: PollConfig)

  /** The IDs of all configured accounts. */
  function AccountIds(cfg: Config): set<string>
  {
    set k | 0 <= k < |cfg.emailAccounts| :: cfg.emailAccounts[k].id
  }

  /** The IDs of the accounts that `Start` launches a polling loop for. */
  function EnabledIds(cfg: Config): set<string>
  {
    set k | 0 <= k < |cfg.emailAccounts| && cfg.emailAccounts[k].enabled :: cfg.emailAccounts[k].id
  }

  /**
   * The built-in configuration: one enabled Gmail account "primary" with its
   * OAuth2 credentials still to be filled in, a five-minute interval, and one
   * rule that labels "job opportunity" mails as "imp".
   */
  function DefaultConfig(): (c: Config)
    ensures |c.emailAccounts| == 1
    ensures c.emailAccounts[0].id == "primary"
    ensures c.emailAccounts[0].name == "Primary Gmail"
    ensures c.emailAccounts[0].provider == "gmail"
    ensures c.emailAccounts[0].enabled
    ensures c.emailAccounts[0].clientId == "" && c.emailAccounts[0].clientSecret == "" && c.emailAccounts[0].token == ""
    ensures c.poll.interval == 5 * Minute
    ensures c.poll.rules == [Rule("job opportunity", "label", "imp")]
    ensures AccountIds(c) == EnabledIds(c) == {"primary"}
  {
    Config(
      [EmailAccount("primary", "Primary Gmail", "gmail", "", "", "", true)],
      PollConfig(5 * Minute, [Rule("job opportunity", "label", "imp")]))
  }
}
