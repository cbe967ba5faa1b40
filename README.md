# go-tsk email poller, modelled in Dafny

go-tsk is a Go service. It watches Gmail accounts and labels incoming mail
by subject rules. The heart of it is the per-account polling scheduler in
`internal/scheduler/poller.go`:
- `NewEmailPoller` creates one state record per configured account.
- `Start` launches one polling loop per enabled account.
- Each loop claims its account and polls once at start, then once per
  timer tick, until its stop channel closes or the context is cancelled.
- A poll opens the Gmail session lazily, fetches messages since the last
  successful poll and asks the client to apply the label of every rule
  whose text occurs in a subject, ignoring case. It then moves `lastSync`
  to the current time.
- `Stop` closes the sessions and stop channels of the active accounts and
  marks them inactive.

The project has these modules:

- `Wrappers`: `Option` and `Result`.
- `Strings`: ASCII case mapping and substring search (`Contains`), with
  its characterisation by positions.
- `Configuration` (`internal/config/config.go`): the configuration
  records and `DefaultConfig`.
- `EmailClient` (`internal/email/gmail_client.go`):
  - the `Email` record and `formatAddresses`;
  - a `GmailClient` class whose only state is whether an IMAP connection
    is stored, so that its "client not connected" guards are a two-state
    machine;
  - the IMAP server's answers are parameters (`FetchOutcome` and plain
    success flags).
- `Scheduler` (`internal/scheduler/poller.go`):
  - `containsIgnoreCase`, and the label requests a poll makes, as
    functions;
  - `AccountState` and `EmailPoller` as classes whose methods update
    their fields in place.

Concurrency is replayed sequentially:
- A poll's provider answers and its clock reading are one `PollOutcome`
  value.
- A loop's `select` outcomes are a list of `Event`s (tick, stop signal,
  cancel). A loop whose events run out without a stop or cancel is still
  polling.
- Only `Stop` closes a stop channel. A stop signal that reaches a loop
  whose channel was still open therefore stands for the `Stop` that closed
  it: the loop applies that `Stop`'s effect on its own account (the
  session's logout, the closed channel, the cleared claim) before it
  returns nil. The signal carries the logout's outcome.
- `Start` replays the enabled accounts' loops in configuration order and
  combines their outcomes as the source's error channel does (`Aggregate`).
- `Poll` returns the trace of provider requests it makes (`Request`).
  This makes "which labels are requested, in which order" a statement
  about a sequence.

Behaviours of the code that a reader might not expect, and that the model
keeps as written:
- **Cancellation is an error.** A cancelled loop returns `ctx.Err()`,
  which is not nil, and `Start` forwards it wrapped with the account ID
  (poller.go:60-62, 120-121). A cancelled run of `Start` therefore ends
  in an error, not in nil.
- **A failed initial poll is only logged.** Like a failed tick poll, it
  never ends the loop or reaches `Start` (poller.go:114-116), so bad
  credentials do not make `Start` return.
- **A second `Start` is not refused.** Each account's loop finds its state
  already claimed and fails with "already active"; there is no separate
  "already started" check on the poller.
- **The create-client error branch is dead.** `NewGmailClient` never
  returns an error (gmail_client.go:22-42), so poll's "failed to create"
  branch (poller.go:147-149) cannot be taken. The model has no outcome
  for session creation; a connect failure or a login failure is what
  leaves the session absent.
- **Returning does not release the claim.** Returning from `pollAccount`
  does not reset `isActive`; only `Stop` does. So an account whose loop
  was cancelled, or that is still polling, stays claimed. A loop that
  exits on its stop signal finds its account already released by the
  `Stop` that sent the signal.
- **`Stop` can close a stop channel twice.** The stop channel is never
  recreated. Consider `Stop` followed by a second `Start` that claims the
  account again. A later `Stop` then closes the same channel again, which
  panics in Go. `Scheduler.EmailPoller.Stop` reports such accounts in
  `reclosed`. Within one activation this cannot happen, because `Stop`
  clears `isActive` and a second `Stop` finds nothing active.

## Model

| member | source | states |
|---|---|---|
| Strings.ToLower | internal/scheduler/poller.go:190 | keeps the length; each upper-case ASCII letter becomes the letter 32 code points above it and every other character is kept, so no upper-case ASCII letter is left |
| Strings.ToLowerFixed | internal/scheduler/poller.go:190 | lower-casing leaves a string unchanged exactly when it holds no upper-case ASCII letter |
| Strings.Contains | internal/scheduler/poller.go:191 | a prefix of `s` is contained in it, and a contained string is no longer than `s`; `ContainsIff` characterises it fully |
| Strings.ContainsIff | internal/scheduler/poller.go:191 | `Contains(s, t)` holds exactly when `t` occurs at some position of `s` |
| Strings.ContainsEmpty | internal/scheduler/poller.go:191 | the empty string is contained in every string |
| Strings.ContainsTooLong | internal/scheduler/poller.go:191 | a string longer than `s` is not contained in `s` |
| Strings.LowerOfUpper | internal/scheduler/poller.go:190 | lower-casing an upper-cased string is the same as lower-casing the original |
| Scheduler.ContainsIgnoreCase | internal/scheduler/poller.go:189-192 | an empty rule text matches, and a matching text is no longer than the subject; `ContainsIgnoreCaseIff` characterises it fully |
| Scheduler.ContainsIgnoreCaseIff | internal/scheduler/poller.go:189-192 | `containsIgnoreCase(s, t)` holds exactly when lower(`t`) occurs at some position of lower(`s`) |
| Scheduler.ContainsIgnoreCaseEmpty | internal/scheduler/poller.go:189-192 | an empty rule text matches every subject |
| Scheduler.ContainsIgnoreCaseIgnoresCase | internal/scheduler/poller.go:189-192 | the letter case of either argument does not change the answer |
| Configuration.DefaultConfig | internal/config/config.go:36-61 | exactly one account: "primary", "Primary Gmail", "gmail", enabled, empty client ID, secret and token; interval 5 minutes; exactly one rule ("job opportunity", "label", "imp"); the configured and the enabled IDs are both {"primary"} |
| EmailClient.FormatAddresses | internal/email/gmail_client.go:161-171 | "" exactly for the empty list; otherwise the text contains '@' |
| EmailClient.FormatAddressesFirstOnly | internal/email/gmail_client.go:166-170 | only the first address is shown: later addresses do not change the text |
| EmailClient.FormatAddressRoundTrip | internal/email/gmail_client.go:166-170 | for an address without delimiter characters in its parts, the text shows "Name <mailbox@host>" or "mailbox@host" so faithfully that parsing it back gives the address |
| EmailClient.NewEmail | internal/email/gmail_client.go:114-120 | the record copies the message's UID, subject, date and flags, its `from` is `FormatAddresses` of the sender list, and `from` is empty exactly when the envelope names no sender |
| EmailClient.EmailsOf | internal/email/gmail_client.go:112-122 | one record per message, the `i`-th copying the `i`-th message's UID, subject, date and flags, with `from` set to `FormatAddresses` of its sender list |
| EmailClient.EmailsOfAppend | internal/email/gmail_client.go:112-122 | records are built message by message: two batches delivered in turn give the records of each, in that order |
| EmailClient.FetchResult | internal/email/gmail_client.go:76-128 | an error exactly when SELECT, SEARCH, or the FETCH of a non-empty UID list fails, naming the first failing step (`SelectFailed`, `SearchFailed`, `FetchFailed`); no emails and no error when the search finds nothing; otherwise one email per delivered message, the `i`-th copying the UID, subject, date and flags of the `i`-th message, with `from` set to `FormatAddresses` of its sender list |
| EmailClient.GmailClient.constructor | internal/email/gmail_client.go:22-42 | keeps the credentials, stores no connection and cannot fail |
| EmailClient.GmailClient.Connect | internal/email/gmail_client.go:45-54 | a failed dial returns the dial error and stores nothing; a successful one stores the connection, after which the guards pass |
| EmailClient.GmailClient.Authenticate | internal/email/gmail_client.go:57-68 | not connected: "client not connected" and no other effect; connected: the login's own outcome |
| EmailClient.GmailClient.FetchNewEmails | internal/email/gmail_client.go:71-129 | not connected: "client not connected" and no emails; connected: exactly `FetchResult`; each email copies the UID, subject, date and flags of the message at the same position, with `from` set to `FormatAddresses` of the sender list |
| EmailClient.GmailClient.ApplyLabel | internal/email/gmail_client.go:132-142 | not connected: "client not connected" and no other effect; connected: the STORE's own outcome |
| EmailClient.GmailClient.Close | internal/email/gmail_client.go:145-150 | not connected: nil; connected: the logout's own outcome |
| Scheduler.EmailRequests | internal/scheduler/poller.go:170-177 | at most one request per rule; `EmailRequestsMembership` characterises its contents |
| Scheduler.LabelRequests | internal/scheduler/poller.go:169-179 | no rules, no requests; `LabelRequestsMembership` characterises its contents and `LabelRequestsAppend` its order |
| Scheduler.EmailRequestsStep | internal/scheduler/poller.go:170-177 | the rules are tried in order: one more rule appends its request, when it matches, after the earlier rules' |
| Scheduler.LabelRequestsStep | internal/scheduler/poller.go:169-179 | the emails are handled in order: one more email appends its requests after the earlier emails' |
| Scheduler.EmailRequestsMembership | internal/scheduler/poller.go:170-177 | a request is among one email's label requests exactly when it is `ApplyLabel(uid, rule label)` for a rule whose text matches the subject |
| Scheduler.LabelRequestsMembership | internal/scheduler/poller.go:169-179 | a request is made exactly when it is `ApplyLabel(uid, label)` for some fetched email and some rule matching that email's subject |
| Scheduler.NoMatchNoRequests | internal/scheduler/poller.go:169-179 | when no rule matches any subject, no label is requested |
| Scheduler.LabelRequestsAppend | internal/scheduler/poller.go:169-179 | emails are handled one after another in fetch order: the requests for two batches are the first batch's followed by the second's |
| Scheduler.LabelRequestsIgnoreAction | internal/scheduler/poller.go:169-179 | a rule's `Action` is never consulted: rules that differ only in their actions give the same requests |
| Scheduler.EmailRequestsIgnoreAction | internal/scheduler/poller.go:170-177 | the same, for one email |
| Scheduler.DefaultRuleScenario | internal/scheduler/poller.go:169-177 | under `DefaultConfig`'s rules, "Job Opportunity at Acme" yields exactly one "imp" label request and "Lunch plans" yields none |
| Scheduler.TicksBeforeExit | internal/scheduler/poller.go:118-130 | the number of polling ticks before the first stop or cancel event: all events before it are ticks and the event at it is not |
| Scheduler.LoopOutcomeOf | internal/scheduler/poller.go:118-130 | the outcome is decided by the first non-tick event (`ExitAt` of `TicksBeforeExit`); the only error a loop that got past its guard returns is the context's |
| Scheduler.LoopOutcomeAfterTicks | internal/scheduler/poller.go:118-130 | after any number of ticks, a stop event ends the loop with nil, a cancel event with the context's error, and without either the loop is still polling |
| Scheduler.LoopOutcomeIgnoresPolls | internal/scheduler/poller.go:124-128 | how the tick polls fare does not change how or when the loop ends |
| Scheduler.Aggregate | internal/scheduler/poller.go:72-77 | nil exactly when every launched loop returned nil; any returned error is some failed loop's error wrapped with that account's ID; some error whenever a loop failed; still waiting exactly when no loop failed and some loop still polls |
| Scheduler.LaunchedIdsIff | internal/scheduler/poller.go:51-57 | an ID is launched among the first `i` accounts exactly when one of them is enabled and has that ID |
| Scheduler.LaunchedAllEnabled | internal/scheduler/poller.go:51-57 | after the whole account list, the launched IDs are exactly the enabled IDs |
| Scheduler.AfterLaunchElsewhere | internal/scheduler/poller.go:99-108 | a launch changes the claim and the stop channel of its own account ID and of no other |
| Scheduler.ReplayLoopsAt | internal/scheduler/poller.go:51-64 | the `k`-th recorded loop outcome is the `k`-th account's, launched on the flags the first `k` launches left |
| Scheduler.ReplayFlagsUntouched | internal/scheduler/poller.go:51-64 | an ID that no launched account has keeps its claim and stop-channel flags |
| Scheduler.ReplayFlagsLaunched | internal/scheduler/poller.go:51-64 | every launched ID ends claimed or with its stop channel closed, and launching never clears a claim or reopens a channel that was set before |
| Scheduler.ReplayDistinct | internal/scheduler/poller.go:51-106 | when the enabled IDs are distinct and none is claimed beforehand, every enabled account's recorded outcome is its own loop's outcome: "already active" is never returned |
| Scheduler.ApplyRules | internal/scheduler/poller.go:169-179 | the nested loop over emails and rules makes exactly the requests of `LabelRequests`, whichever of them fail |
| Scheduler.AccountState.constructor | internal/scheduler/poller.go:34-36 | zero `lastSync`, inactive, stop channel open, no session |
| Scheduler.EmailPoller.constructor | internal/scheduler/poller.go:31-43 | one state per configured account ID and no other key; no state shared between two IDs; every state zero `lastSync`, inactive, stop channel open, no session |
| Scheduler.EmailPoller.OpenSession | internal/scheduler/poller.go:141-160 | a stored session is reused with no request; otherwise the client is created and connected and logs in; on a connect or login failure the error is returned and no session is stored; on success a fresh client is stored; `lastSync` and the flags are unchanged |
| Scheduler.EmailPoller.MarkSynced | internal/scheduler/poller.go:181-183 | `lastSync` becomes the clock reading, nothing else changes |
| Scheduler.EmailPoller.Poll | internal/scheduler/poller.go:134-186 | a connect or login failure returns the error with no session and `lastSync` unchanged; a stored session is reused; a failed fetch returns the error with `lastSync` unchanged; a successful fetch (empty included) sets `lastSync` to `now` whatever the label failures; the requests are, in order, the session calls, the fetch since the old `lastSync` and `LabelRequests` of the fetched emails; the flags are unchanged |
| Scheduler.EmailPoller.LoggedPoll | internal/scheduler/poller.go:114-116 | a poll whose error is only logged: keeps the claim, the stop channel and a stored session, and leaves `lastSync` or moves it to `now` |
| Scheduler.EmailPoller.Claim | internal/scheduler/poller.go:102-108 | claims exactly when the account was not active; a refused claim changes nothing; afterwards the account is active, with its other fields unchanged |
| Scheduler.EmailPoller.PollAccount | internal/scheduler/poller.go:99-131 | already active: "already active" error, no poll, state unchanged; otherwise the loop's outcome is `LoopOutcomeOf(events)` (stop: nil, cancel: the context's error, failed polls never end it) and it polls once plus once per tick before the exit; a stop signal on a still open channel leaves the account released with its channel closed (the `Stop` that sent it), any other return leaves it claimed with its channel as it was; a stored session is kept |
| Scheduler.EmailPoller.StopOne | internal/scheduler/poller.go:86-94 | for an active account: closes the session if one is stored, closes the stop channel and clears the flag; an inactive account is left alone; `lastSync` and the session field never change |
| Scheduler.EmailPoller.Stop | internal/scheduler/poller.go:81-96 | afterwards no account is active; exactly the previously active ones have their stop channel closed and `isActive` cleared; `lastSync` and the session field are unchanged everywhere; `closed` is exactly the active accounts with a session and `reclosed` exactly the active accounts whose channel was already closed |
| Scheduler.EmailPoller.Launch | internal/scheduler/poller.go:58-63 | the launched goroutine's loop outcome is `LaunchOutcome` of the flags before it: "already active" if claimed, else `LoopOutcomeOf` of its events; its account's flags become `AfterLaunch` of them: released with the channel closed after a stop on an open channel, claimed with the channel as it was otherwise |
| Scheduler.EmailPoller.LaunchAll | internal/scheduler/poller.go:51-64 | the recorded outcomes are `ReplayLoops`: none for a disabled account, "already active" when the state was claimed before or by an earlier account with the same ID, else the loop's own outcome; every state's flags are `ReplayFlags`, the launches' combined effect; the state of an ID no enabled account has is untouched |
| Scheduler.EmailPoller.Start | internal/scheduler/poller.go:46-78 | `outcome` is `Aggregate` of the loop outcomes: nil exactly when every launched loop returned nil; one failed loop's error wrapped with its account ID when some loop failed; still waiting when none failed and one still polls; one outcome per account, present exactly for the enabled ones, each as `LaunchOutcome` after the earlier launches, and each loop's own outcome when the enabled IDs are distinct and none was claimed; every enabled ID ends claimed or with its channel closed, a claim or closed channel present before `Start` stays set, and disabled accounts' states are untouched |

## Left out

- Goroutines, the `sync.WaitGroup`, the error channel, `select` and the
  ticker in `Start` and `pollAccount` are replaced by a sequential replay.
  Loops run one after another in configuration order. Each loop's choices
  are given as an event list. Which of several ready `select` cases Go
  picks is therefore part of the input. The mutex is the atomicity of a
  method. Completion order is not modelled: `Start` may return any loop's
  error, and the model's `Aggregate` picks the first in configuration
  order.
- `Start` does not block: when no loop failed and some loop still polls,
  the model reports `StillWaiting` instead of waiting forever.
- The IMAP and OAuth2 library calls (dial, login, SELECT, SEARCH, FETCH,
  STORE, LOGOUT) and the OAuth2 configuration built by `NewGmailClient`
  are network I/O. Their outcomes are parameters. The token and the
  credentials are only carried along.
- `EmailClient.GmailClient.FetchNewEmails`: the `since` argument only
  feeds the IMAP SEARCH criterion, whose answer is a parameter. The model
  therefore does not relate the found messages to `since`. The fetch's
  context argument is unused in the source and left out.
- `time.Now()` is the `now` field of a poll's outcome. Times and
  durations are integers of nanoseconds, and 0 is Go's zero time.
- `strings.ToLower` is Unicode-aware in Go. `Strings.ToLower` maps only
  the ASCII letters, so `containsIgnoreCase` is modelled for ASCII case
  only.
- The text of the `log.Printf` messages and the wording of the wrapped
  errors are not modelled. Errors are datatypes that keep the cause and
  the account ID.
- `Scheduler.EmailPoller.PollAccount`: it states only that `lastSync` is
  the old value, the initial poll's clock reading or some tick's clock
  reading. It does not say which successful poll was the last.
- `Scheduler.EmailPoller.LoggedPoll` deliberately exposes less than
  `Poll`, only what the loop relies on, since the loop discards the poll's
  error.
- `Scheduler.EmailPoller.PollAccount`: `poll.interval` is never read.
  Go's `time.NewTicker` panics for an interval that is not positive,
  which would abort the loop right after the claim; the model takes the
  ticker's firings as tick events whatever the interval.
- `Scheduler.EmailPoller.Start`: a `Stop` that runs while `Start` is
  launching is replayed per account. The stop signal in one account's
  events stands for that `Stop`'s effect on that account; its effect on
  accounts launched later is not replayed before their launch.
- `Scheduler.EmailPoller.Stop`: Go's panic on closing a closed channel is
  not modelled as an abort. The sweep completes, and the affected accounts
  are reported in `reclosed`. The order of Go's map iteration is not
  modelled: the sweep's result does not depend on it.
- `cmd/app/main.go` (signal handling, context creation, exit code) is
  wiring only and is not part of this model.
- `pkg/calculator/calculator_test.go` tests code that is not part of this
  model and is unrelated to the scheduler.
