/**
 * The per-account polling scheduler of `internal/scheduler/poller.go`,
 * replayed sequentially. The mutex disappears (a Dafny method is atomic),
 * the goroutines of `Start` run one after another, every `select` of a
 * polling loop is decided by a given `Event`, and the provider's answers
 * and the clock are given as `PollOutcome` values.
 */
module Scheduler {
  import opened Wrappers
  import opened Strings
  import opened Configuration
  import opened EmailClient

  // ---------------------------------------------------------------------
  // Rule evaluation

  /** The rule predicate of a poll (Go: `strings.Contains` of the lower-cased strings). */
  predicate ContainsIgnoreCase(s: string, substr: string)
    ensures |substr| == 0 ==> ContainsIgnoreCase(s, substr)
    ensures ContainsIgnoreCase(s, substr) ==> |substr| <= |s|
  {
    Contains(ToLower(s), ToLower(substr))
  }

  /** The rule predicate is substring containment after lower-casing both sides. */
  lemma ContainsIgnoreCaseIff(s: string, substr: string)
    ensures ContainsIgnoreCase(s, substr) <==> exists i :: OccursAt(ToLower(s), ToLower(substr), i)
  {
    ContainsIff(ToLower(s), ToLower(substr));
  }

  /** A rule with an empty fragment matches every subject. */
  lemma ContainsIgnoreCaseEmpty(s: string)
    ensures ContainsIgnoreCase(s, "")
  {
    ContainsEmpty(ToLower(s));
  }

  /** Matching does not see the letter case of either argument. */
  lemma ContainsIgnoreCaseIgnoresCase(s: string, substr: string)
    ensures ContainsIgnoreCase(ToUpper(s), substr) == ContainsIgnoreCase(s, substr)
    ensures ContainsIgnoreCase(s, ToUpper(substr)) == ContainsIgnoreCase(s, substr)
    ensures ContainsIgnoreCase(ToLower(s), ToLower(substr)) == ContainsIgnoreCase(s, substr)
  {
    LowerOfUpper(s);
    LowerOfUpper(substr);
    assert ToLower(ToLower(s)) == ToLower(s);
    assert ToLower(ToLower(substr)) == ToLower(substr);
  }

  /** A request the scheduler makes of the mail provider during a poll. */
  datatype Request =
    | CreateClient                              // NewGmailClient
    | Connect                                   // client.Connect
    | Authenticate                              // client.Authenticate
    | FetchSince(since: int)                    // client.FetchNewEmails(ctx, since)
    | ApplyLabel(uid: uint32, labelName: string)  // client.ApplyLabel(uid, label)

  /** The label requests for one email: its matching rules, in declaration order. */
  function EmailRequests(e: Email, rules: seq<Rule>): (r: seq<Request>)
    ensures |r| <= |rules|
    decreases |rules|
  {
    if |rules| == 0 then []
    else
      var r := rules[|rules| - 1];
      EmailRequests(e, rules[..|rules| - 1]) +
      (if ContainsIgnoreCase(e.subject, r.subjectContains) then [ApplyLabel(e.uid, r.labelName)] else [])
  }

  /** The label requests of a poll: each email's requests, in fetch order. */
  function LabelRequests(emails: seq<Email>, rules: seq<Rule>): (r: seq<Request>)
    ensures |rules| == 0 ==> r == []
  {
    if |emails| == 0 then []
    else EmailRequests(emails[0], rules) + LabelRequests(emails[1..], rules)
  }

  /** A request is made for an email exactly when one of the rules matches its subject. */
  lemma {:induction false} EmailRequestsMembership(e: Email, rules: seq<Rule>, q: Request)
    ensures q in EmailRequests(e, rules) <==>
      exists j :: 0 <= j < |rules| && ContainsIgnoreCase(e.subject, rules[j].subjectContains) &&
                  q == ApplyLabel(e.uid, rules[j].labelName)
    decreases |rules|
  {
    if |rules| > 0 {
      var n := |rules| - 1;
      EmailRequestsMembership(e, rules[..n], q);
      if exists j :: 0 <= j < |rules| && ContainsIgnoreCase(e.subject, rules[j].subjectContains) &&
                     q == ApplyLabel(e.uid, rules[j].labelName) {
        var j :| 0 <= j < |rules| && ContainsIgnoreCase(e.subject, rules[j].subjectContains) &&
                 q == ApplyLabel(e.uid, rules[j].labelName);
        if j < n {
          assert rules[..n][j] == rules[j];
        }
      }
    }
  }

  /**
   * A poll requests label `l` for UID `u` exactly when some fetched email
   * with that UID has a subject matched by some rule with that label.
   */
  lemma {:induction false} LabelRequestsMembership(emails: seq<Email>, rules: seq<Rule>, q: Request)
    ensures q in LabelRequests(emails, rules) <==>
      exists i, j :: 0 <= i < |emails| && 0 <= j < |rules| &&
        ContainsIgnoreCase(emails[i].subject, rules[j].subjectContains) &&
        q == ApplyLabel(emails[i].uid, rules[j].labelName)
    decreases |emails|
  {
    if |emails| > 0 {
      LabelRequestsMembership(emails[1..], rules, q);
      EmailRequestsMembership(emails[0], rules, q);
      if exists i, j :: 0 <= i < |emails| && 0 <= j < |rules| &&
           ContainsIgnoreCase(emails[i].subject, rules[j].subjectContains) &&
           q == ApplyLabel(emails[i].uid, rules[j].labelName) {
        var i, j :| 0 <= i < |emails| && 0 <= j < |rules| &&
           ContainsIgnoreCase(emails[i].subject, rules[j].subjectContains) &&
           q == ApplyLabel(emails[i].uid, rules[j].labelName);
        if i > 0 {
          assert emails[1..][i - 1] == emails[i];
        }
      }
      if exists i, j :: 0 <= i < |emails| - 1 && 0 <= j < |rules| &&
           ContainsIgnoreCase(emails[1..][i].subject, rules[j].subjectContains) &&
           q == ApplyLabel(emails[1..][i].uid, rules[j].labelName) {
        var i, j :| 0 <= i < |emails| - 1 && 0 <= j < |rules| &&
           ContainsIgnoreCase(emails[1..][i].subject, rules[j].subjectContains) &&
           q == ApplyLabel(emails[1..][i].uid, rules[j].labelName);
        assert emails[1..][i] == emails[i + 1];
      }
    }
  }

  /** When no rule matches any subject, a poll requests no label at all. */
  lemma NoMatchNoRequests(emails: seq<Email>, rules: seq<Rule>)
    requires forall i, j :: 0 <= i < |emails| && 0 <= j < |rules| ==>
      !ContainsIgnoreCase(emails[i].subject, rules[j].subjectContains)
    ensures LabelRequests(emails, rules) == []
  {
    if LabelRequests(emails, rules) != [] {
      LabelRequestsMembership(emails, rules, LabelRequests(emails, rules)[0]);
    }
  }

  /** The requests for a batch of emails are those of its parts, in order. */
  lemma {:induction false} LabelRequestsAppend(emails: seq<Email>, more: seq<Email>, rules: seq<Rule>)
    ensures LabelRequests(emails + more, rules) == LabelRequests(emails, rules) + LabelRequests(more, rules)
    decreases |emails|
  {
    if |emails| == 0 {
      assert emails + more == more;
    } else {
      assert (emails + more)[1..] == emails[1..] + more;
      LabelRequestsAppend(emails[1..], more, rules);
    }
  }

  /** `Rule.Action` is never consulted: only fragments and labels matter. */
  lemma {:induction false} LabelRequestsIgnoreAction(emails: seq<Email>, rules: seq<Rule>, rules': seq<Rule>)
    requires |rules| == |rules'|
    requires forall j :: 0 <= j < |rules| ==>
      rules[j].subjectContains == rules'[j].subjectContains && rules[j].labelName == rules'[j].labelName
    ensures LabelRequests(emails, rules) == LabelRequests(emails, rules')
    decreases |emails|
  {
    if |emails| > 0 {
      LabelRequestsIgnoreAction(emails[1..], rules, rules');
      EmailRequestsIgnoreAction(emails[0], rules, rules');
    }
  }

  lemma {:induction false} EmailRequestsIgnoreAction(e: Email, rules: seq<Rule>, rules': seq<Rule>)
    requires |rules| == |rules'|
    requires forall j :: 0 <= j < |rules| ==>
      rules[j].subjectContains == rules'[j].subjectContains && rules[j].labelName == rules'[j].labelName
    ensures EmailRequests(e, rules) == EmailRequests(e, rules')
    decreases |rules|
  {
    if |rules| > 0 {
      EmailRequestsIgnoreAction(e, rules[..|rules| - 1], rules'[..|rules| - 1]);
    }
  }

  /**
   * Under the default rule, "Job Opportunity at Acme" is labelled "imp"
   * and "Lunch plans" is left alone.
   */
  lemma DefaultRuleScenario(job: Email, lunch: Email)
    requires job.subject == "Job Opportunity at Acme" && lunch.subject == "Lunch plans"
    ensures LabelRequests([job, lunch], DefaultConfig().poll.rules) == [ApplyLabel(job.uid, "imp")]
  {
    var rules := DefaultConfig().poll.rules;
    var frag := rules[0].subjectContains;
    var t := ToLower(frag);
    assert ToLower(job.subject)[..|t|] == t;
    assert ContainsIgnoreCase(job.subject, frag);
    ContainsTooLong(ToLower(lunch.subject), t);
    assert !ContainsIgnoreCase(lunch.subject, frag);
    assert rules[..0] == [];
    assert EmailRequests(job, rules) == [ApplyLabel(job.uid, "imp")];
    assert EmailRequests(lunch, rules) == [];
    assert [job, lunch][1..] == [lunch];
    assert [lunch][1..] == [];
    assert LabelRequests([lunch], rules) == [];
  }

  // ---------------------------------------------------------------------
  // Outcomes of the provider, the loop and the scheduler

  /**
   * How the provider answers one poll: whether dialling and the login
   * succeed (used only while no client is stored), the IMAP answers of the
   * fetch, which label requests fail (by their 0-based position in the
   * poll), and the clock reading taken after the fetch.
   */
  datatype PollOutcome = PollOutcome(
    dialOk: bool,
    loginOk: bool,
    fetch: FetchOutcome,
    storeFailures: set<nat>,
    now: int)

  /** The errors `poll` returns, each wrapping the client's error. */
  datatype PollError =
    | ConnectFailed(cause: ClientError)       // "failed to connect to Gmail"
    | AuthenticateFailed(cause: ClientError)  // "failed to authenticate with Gmail"
    | FetchEmailsFailed(cause: ClientError)   // "failed to fetch emails"

  /** The errors a polling loop returns. */
  datatype LoopError =
    | AlreadyActive(account: string)   // "polling already active for account"
    | ContextCanceled                  // ctx.Err() after cancellation

  /** A loop has returned (nil or an error), or is still waiting for events. */
  datatype LoopOutcome = Exited(err: Option<LoopError>) | StillPolling

  /** The branch a polling loop's `select` takes. */
  datatype Event =
    | Tick(outcome: PollOutcome)   // the ticker fired; poll with this outcome
    | StopSignal(logoutOk: bool)   // the stop channel is closed; by a `Stop` whose logout has this outcome if it was open
    | Canceled                     // the context is done

  /** What one account's loop sees: the initial poll, then its events. */
  datatype Run = Run(initial: PollOutcome, events: seq<Event>)

  /** `Start`'s error: a loop's error wrapped with its account ID. */
  datatype StartError = AccountFailed(account: string, cause: LoopError)

  /** `Start` has returned (nil or an error), or is still waiting for its loops. */
  datatype StartOutcome = Returned(err: Option<StartError>) | StillWaiting

  /** The number of ticks a loop polls for before its first stop or cancel event. */
  function TicksBeforeExit(events: seq<Event>): (n: nat)
    ensures n <= |events|
    ensures forall k :: 0 <= k < n ==> events[k].Tick?
    ensures n < |events| ==> !events[n].Tick?
  {
    if |events| == 0 || !events[0].Tick? then 0
    else 1 + TicksBeforeExit(events[1..])
  }

  /**
   * How a loop that got past its guard ends: the first non-tick event
   * decides, whatever the polls before it returned.
   */
  function LoopOutcomeOf(events: seq<Event>): (r: LoopOutcome)
    ensures r == ExitAt(events, TicksBeforeExit(events))
    ensures r.Exited? && r.err.Some? ==> r.err == Some(ContextCanceled)
  {
    if |events| == 0 then StillPolling
    else match events[0]
      case Canceled => Exited(Some(ContextCanceled))
      case StopSignal(_) => Exited(None)
      case Tick(_) => LoopOutcomeOf(events[1..])
  }

  /** How a loop ends when `events[n]` is its first non-tick event, or when it has none. */
  function ExitAt(events: seq<Event>, n: nat): LoopOutcome
    requires n <= |events|
  {
    if n == |events| then StillPolling
    else if events[n].StopSignal? then Exited(None)
    else if events[n].Canceled? then Exited(Some(ContextCanceled))
    else StillPolling
  }

  /**
   * A stop event ends the loop with nil and a cancel event with the
   * context's error, however many ticks came first; with no such event
   * the loop is still polling.
   */
  lemma {:induction false} LoopOutcomeAfterTicks(events: seq<Event>, n: nat)
    requires n <= |events|
    requires forall k :: 0 <= k < n ==> events[k].Tick?
    requires n < |events| ==> !events[n].Tick?
    ensures TicksBeforeExit(events) == n
    ensures LoopOutcomeOf(events) == ExitAt(events, n)
    decreases n
  {
    if n > 0 {
      LoopOutcomeAfterTicks(events[1..], n - 1);
    }
  }

  /** The events agree on which are ticks, stops and cancels. */
  ghost predicate SameKinds(events: seq<Event>, events': seq<Event>)
  {
    |events| == |events'| &&
    forall k :: 0 <= k < |events| ==>
      events[k].Tick? == events'[k].Tick? && events[k].StopSignal? == events'[k].StopSignal?
  }

  /** A failed tick poll does not end the loop: how the polls fare is irrelevant to its outcome. */
  lemma {:induction false} LoopOutcomeIgnoresPolls(events: seq<Event>, events': seq<Event>)
    requires SameKinds(events, events')
    ensures LoopOutcomeOf(events) == LoopOutcomeOf(events')
    ensures TicksBeforeExit(events) == TicksBeforeExit(events')
    decreases |events|
  {
    if |events| > 0 {
      LoopOutcomeIgnoresPolls(events[1..], events'[1..]);
    }
  }

  /** The loop at that position was launched and returned an error. */
  predicate Failed(loop: Option<LoopOutcome>)
  {
    loop.Some? && loop.value.Exited? && loop.value.err.Some?
  }

  /**
   * What `Start` returns once its loops have run: an error of some failed
   * loop, wrapped with its account ID; else it keeps waiting while a loop
   * still polls; else nil. `loops[i]` is `None` for a skipped account.
   */
  function Aggregate(accounts: seq<EmailAccount>, loops: seq<Option<LoopOutcome>>): (r: StartOutcome)
    requires |loops| == |accounts|
    ensures r == Returned(None) <==>
      forall i :: 0 <= i < |loops| && loops[i].Some? ==> loops[i].value == Exited(None)
    ensures r.Returned? && r.err.Some? ==>
      exists i :: 0 <= i < |loops| && loops[i] == Some(Exited(Some(r.err.value.cause))) &&
                  r.err.value.account == accounts[i].id
    ensures (exists i :: 0 <= i < |loops| && Failed(loops[i])) ==> r.Returned? && r.err.Some?
    ensures r == StillWaiting <==>
      (forall i :: 0 <= i < |loops| ==> !Failed(loops[i])) &&
      (exists i :: 0 <= i < |loops| && loops[i] == Some(StillPolling))
    decreases |loops|
  {
    if |loops| == 0 then Returned(None)
    else
      var rest := Aggregate(accounts[1..], loops[1..]);
      assert forall i :: 1 <= i < |loops| ==> loops[i] == loops[1..][i - 1];
      if Failed(loops[0]) then Returned(Some(AccountFailed(accounts[0].id, loops[0].value.err.value)))
      else if loops[0] == Some(StillPolling) && !(rest.Returned? && rest.err.Some?) then StillWaiting
      else rest
  }

  /** One more rule adds that rule's request, if it matches, after the others'. */
  lemma EmailRequestsStep(e: Email, rules: seq<Rule>, j: nat)
    requires j < |rules|
    ensures EmailRequests(e, rules[..j + 1]) ==
      EmailRequests(e, rules[..j]) +
      (if ContainsIgnoreCase(e.subject, rules[j].subjectContains) then [ApplyLabel(e.uid, rules[j].labelName)] else [])
  {
    assert rules[..j + 1][..j] == rules[..j];
  }

  /** One more email adds that email's requests after the others'. */
  lemma LabelRequestsStep(emails: seq<Email>, rules: seq<Rule>, i: nat)
    requires i < |emails|
    ensures LabelRequests(emails[..i + 1], rules) == LabelRequests(emails[..i], rules) + EmailRequests(emails[i], rules)
  {
    assert emails[..i + 1] == emails[..i] + [emails[i]];
    LabelRequestsAppend(emails[..i], [emails[i]], rules);
    assert [emails[i]][1..] == [];
  }

  // ---------------------------------------------------------------------
  // The poller

  /**
   * The rule loop of `poll`: for every fetched email, in order, and every
   * rule, in declaration order, ask the client to apply the rule's label
   * when the rule matches the subject. A failed request is only logged and
   * the remaining pairs are still tried; the k-th request fails when k is
   * in `storeFailures`. Returns the requests made.
   */
  method ApplyRules(client: GmailClient, emails: seq<Email>, rules: seq<Rule>, storeFailures: set<nat>)
    returns (requests: seq<Request>)
    ensures requests == LabelRequests(emails, rules)
  {
    requests := [];
    var i := 0;
    while i < |emails|
      invariant 0 <= i <= |emails|
      invariant requests == LabelRequests(emails[..i], rules)
    {
      ghost var before := LabelRequests(emails[..i], rules);
      var j := 0;
      while j < |rules|
        invariant 0 <= j <= |rules|
        invariant requests == before + EmailRequests(emails[i], rules[..j])
      {
        var email, rule := emails[i], rules[j];
        EmailRequestsStep(email, rules, j);
        if ContainsIgnoreCase(email.subject, rule.subjectContains) {
          var _ := client.ApplyLabel(email.uid, rule.labelName, |requests| !in storeFailures);
          requests := requests + [ApplyLabel(email.uid, rule.labelName)];
          assert requests == before + (EmailRequests(email, rules[..j]) + [ApplyLabel(email.uid, rule.labelName)]);
        } else {
          assert EmailRequests(email, rules[..j + 1]) == EmailRequests(email, rules[..j]) + [];
        }
        j := j + 1;
      }
      assert rules[..|rules|] == rules;
      LabelRequestsStep(emails, rules, i);
      i := i + 1;
    }
    assert emails[..|emails|] == emails;
  }

  /** The state the scheduler keeps for one account. */
  class AccountState {
    /** The time of the last successful poll; 0 is Go's zero time. */
    var lastSync: int
    /** A polling loop has claimed the account. */
    var isActive: bool
    /** The account's stop channel has been closed. */
    var stopClosed: bool
    /** The session, created lazily by the first poll that gets through login. */
    var client: GmailClient?
    /** The account ID the state is kept under; it only names the owner in proofs. */
    ghost const key: string

    constructor (key: string)
      ensures this.key == key
      ensures lastSync == 0 && !isActive && !stopClosed && client == null
    {
      this.key := key;
      lastSync := 0;
      isActive := false;
      stopClosed := false;
      client := null;
    }
  }

  /** The client calls a poll makes before fetching: none once a session is stored. */
  function SessionCalls(hadClient: bool): seq<Request>
  {
    if hadClient then [] else [CreateClient, Connect, Authenticate]
  }

  /** The IDs of the enabled accounts among the first `i`: those whose loop is launched first. */
  function LaunchedIds(accounts: seq<EmailAccount>, i: nat): set<string>
    requires i <= |accounts|
  {
    if i == 0 then {}
    else LaunchedIds(accounts, i - 1) + (if accounts[i - 1].enabled then {accounts[i - 1].id} else {})
  }

  /** An ID is launched among the first `i` accounts exactly when one of them is enabled and has it. */
  lemma {:induction false} LaunchedIdsIff(accounts: seq<EmailAccount>, i: nat, id: string)
    requires i <= |accounts|
    ensures id in LaunchedIds(accounts, i) <==> exists k :: 0 <= k < i && accounts[k].enabled && accounts[k].id == id
  {
    if i > 0 {
      LaunchedIdsIff(accounts, i - 1, id);
      if accounts[i - 1].enabled && accounts[i - 1].id == id {
        assert 0 <= i - 1 < i && accounts[i - 1].enabled && accounts[i - 1].id == id;
      }
    }
  }

  /** Once every account is considered, the launched IDs are exactly the enabled ones. */
  lemma LaunchedAllEnabled(cfg: Config)
    ensures LaunchedIds(cfg.emailAccounts, |cfg.emailAccounts|) == EnabledIds(cfg)
  {
    forall id
      ensures id in LaunchedIds(cfg.emailAccounts, |cfg.emailAccounts|) <==> id in EnabledIds(cfg)
    {
      LaunchedIdsIff(cfg.emailAccounts, |cfg.emailAccounts|, id);
    }
  }

  /**
   * A loop that got past its guard left on a stop event while the stop
   * channel it started with was open: only `Stop` closes the channel, and
   * it swept the account (closed its session, closed the channel and
   * cleared the claim) before the loop could notice.
   */
  predicate StoppedWhileOpen(outcome: LoopOutcome, wasClosed: bool)
  {
    outcome == Exited(None) && !wasClosed
  }

  /** The claimed accounts and the accounts whose stop channel is closed. */
  datatype Flags = Flags(active: set<string>, closed: set<string>)

  /**
   * The outcome `Start` records for an account launched when the flags are
   * `f`: none for a disabled account, "already active" when it is claimed,
   * else its own loop's outcome.
   */
  function LaunchOutcome(f: Flags, account: EmailAccount, run: Run): Option<LoopOutcome>
  {
    if !account.enabled then None
    else if account.id in f.active then Some(Exited(Some(AlreadyActive(account.id))))
    else Some(LoopOutcomeOf(run.events))
  }

  /**
   * The flags once that account's loop has returned or settled into
   * polling: a loop stopped while its channel was open leaves the account
   * unclaimed with the channel closed; any other launched loop keeps its claim.
   */
  function AfterLaunch(f: Flags, account: EmailAccount, run: Run): Flags
  {
    if !account.enabled || account.id in f.active then f
    else if StoppedWhileOpen(LoopOutcomeOf(run.events), account.id in f.closed)
    then Flags(f.active, f.closed + {account.id})
    else Flags(f.active + {account.id}, f.closed)
  }

  /** A launch changes the flags of its own account only. */
  lemma AfterLaunchElsewhere(f: Flags, account: EmailAccount, run: Run, id: string)
    requires id != account.id
    ensures id in AfterLaunch(f, account, run).active <==> id in f.active
    ensures id in AfterLaunch(f, account, run).closed <==> id in f.closed
  {
  }

  /** The flags after the loops of the first `n` accounts, starting from `f`. */
  function ReplayFlags(accounts: seq<EmailAccount>, runs: seq<Run>, f: Flags, n: nat): Flags
    requires n <= |accounts| && |runs| == |accounts|
  {
    if n == 0 then f else AfterLaunch(ReplayFlags(accounts, runs, f, n - 1), accounts[n - 1], runs[n - 1])
  }

  /** The outcomes of the loops of the first `n` accounts, in configuration order. */
  function ReplayLoops(accounts: seq<EmailAccount>, runs: seq<Run>, f: Flags, n: nat): seq<Option<LoopOutcome>>
    requires n <= |accounts| && |runs| == |accounts|
  {
    if n == 0 then []
    else ReplayLoops(accounts, runs, f, n - 1) + [LaunchOutcome(ReplayFlags(accounts, runs, f, n - 1), accounts[n - 1], runs[n - 1])]
  }

  /** The `k`-th recorded outcome is that of the `k`-th account, launched after the ones before it. */
  lemma {:induction false} ReplayLoopsAt(accounts: seq<EmailAccount>, runs: seq<Run>, f: Flags, n: nat)
    requires n <= |accounts| && |runs| == |accounts|
    ensures |ReplayLoops(accounts, runs, f, n)| == n
    ensures forall k :: 0 <= k < n ==>
      ReplayLoops(accounts, runs, f, n)[k] == LaunchOutcome(ReplayFlags(accounts, runs, f, k), accounts[k], runs[k])
  {
    if n > 0 {
      ReplayLoopsAt(accounts, runs, f, n - 1);
      var prefix := ReplayLoops(accounts, runs, f, n - 1);
      assert forall k :: 0 <= k < n - 1 ==> ReplayLoops(accounts, runs, f, n)[k] == prefix[k];
    }
  }

  /** The flags of an ID no launched account has are those it started with. */
  lemma {:induction false} ReplayFlagsUntouched(accounts: seq<EmailAccount>, runs: seq<Run>, f: Flags, n: nat, id: string)
    requires n <= |accounts| && |runs| == |accounts|
    requires id !in LaunchedIds(accounts, n)
    ensures id in ReplayFlags(accounts, runs, f, n).active <==> id in f.active
    ensures id in ReplayFlags(accounts, runs, f, n).closed <==> id in f.closed
  {
    if n > 0 {
      ReplayFlagsUntouched(accounts, runs, f, n - 1, id);
    }
  }

  /**
   * A launched ID ends claimed or with its stop channel closed, and
   * neither flag is ever cleared by a launch.
   */
  lemma {:induction false} ReplayFlagsLaunched(accounts: seq<EmailAccount>, runs: seq<Run>, f: Flags, n: nat, id: string)
    requires n <= |accounts| && |runs| == |accounts|
    ensures id in LaunchedIds(accounts, n) ==>
      id in ReplayFlags(accounts, runs, f, n).active || id in ReplayFlags(accounts, runs, f, n).closed
    ensures id in f.active ==> id in ReplayFlags(accounts, runs, f, n).active
    ensures id in f.closed ==> id in ReplayFlags(accounts, runs, f, n).closed
  {
    if n > 0 {
      ReplayFlagsLaunched(accounts, runs, f, n - 1, id);
    }
  }

  /** No two enabled accounts share an ID. */
  predicate DistinctEnabledIds(accounts: seq<EmailAccount>)
  {
    forall j, k :: 0 <= j < k < |accounts| && accounts[j].enabled && accounts[k].enabled ==>
      accounts[j].id != accounts[k].id
  }

  /**
   * With distinct enabled IDs and no account claimed beforehand, every
   * enabled account's recorded outcome is its own loop's.
   */
  lemma ReplayDistinct(accounts: seq<EmailAccount>, runs: seq<Run>, f: Flags)
    requires |runs| == |accounts|
    requires DistinctEnabledIds(accounts)
    requires forall k :: 0 <= k < |accounts| ==> accounts[k].id !in f.active
    ensures |ReplayLoops(accounts, runs, f, |accounts|)| == |accounts|
    ensures forall k :: 0 <= k < |accounts| && accounts[k].enabled ==>
      ReplayLoops(accounts, runs, f, |accounts|)[k] == Some(LoopOutcomeOf(runs[k].events))
  {
    ReplayLoopsAt(accounts, runs, f, |accounts|);
    forall k | 0 <= k < |accounts| && accounts[k].enabled
      ensures accounts[k].id !in ReplayFlags(accounts, runs, f, k).active
    {
      LaunchedIdsIff(accounts, k, accounts[k].id);
      ReplayFlagsUntouched(accounts, runs, f, k, accounts[k].id);
    }
  }

  /** The state's claim and stop channel are as the flags say for `id`. */
  ghost predicate HasFlags(s: AccountState, id: string, f: Flags)
    reads s
  {
    (s.isActive <==> id in f.active) && (s.stopClosed <==> id in f.closed)
  }

  /** A state claimed by a loop, its stop channel as it was. */
  ghost predicate Claimed(s: AccountState, wasClosed: bool)
    reads s
  {
    s.isActive && s.stopClosed == wasClosed
  }

  /** What `Stop` leaves in a state whose fields held the given values before. */
  ghost predicate Swept(s: AccountState, wasActive: bool, wasClosed: bool, sync: int, c: GmailClient?)
    reads s
  {
    !s.isActive && s.stopClosed == (wasClosed || wasActive) && s.lastSync == sync && s.client == c
  }

  class EmailPoller {
    const config: Config
    var accountState: map<string, AccountState>
    ghost var Repr: set<object>

    /**
     * One state per configured account ID, no state shared between two
     * IDs, and every stored session connected.
     */
    ghost predicate Valid()
      reads this, Repr
    {
      this in Repr &&
      accountState.Keys == AccountIds(config) &&
      (forall id :: id in accountState ==> accountState[id] in Repr && accountState[id].key == id) &&
      (forall id :: id in accountState && accountState[id].client != null ==>
         accountState[id].client in Repr && accountState[id].client.connected)
    }

    /** `NewEmailPoller`: one fresh, idle state per configured account ID. */
    constructor (cfg: Config)
      ensures Valid() && fresh(Repr)
      ensures config == cfg
      ensures accountState.Keys == AccountIds(cfg)
      ensures forall id :: id in accountState ==>
        var s := accountState[id];
        s.lastSync == 0 && !s.isActive && !s.stopClosed && s.client == null
    {
      var m: map<string, AccountState> := map[];
      var i := 0;
      while i < |cfg.emailAccounts|
        invariant 0 <= i <= |cfg.emailAccounts|
        invariant m.Keys == set k | 0 <= k < i :: cfg.emailAccounts[k].id
        invariant forall id :: id in m ==>
          fresh(m[id]) && m[id].lastSync == 0 && !m[id].isActive && !m[id].stopClosed && m[id].client == null
        invariant forall id :: id in m ==> m[id].key == id
      {
        var st := new AccountState(cfg.emailAccounts[i].id);
        m := m[cfg.emailAccounts[i].id := st];
        i := i + 1;
      }
      config := cfg;
      accountState := m;
      Repr := {this} + m.Values;
    }

    /**
     * The first half of `poll`: when no session is stored, create a client,
     * connect and log in, and store the client only if all of that works.
     */
    method OpenSession(account: EmailAccount, o: PollOutcome) returns (err: Option<PollError>, calls: seq<Request>)
      requires Valid() && account.id in accountState
      modifies this`Repr, accountState[account.id]
      ensures Valid()
      ensures var s := accountState[account.id];
        s.lastSync == old(s.lastSync) && s.isActive == old(s.isActive) && s.stopClosed == old(s.stopClosed)
      ensures var s := accountState[account.id];
        old(s.client) != null ==> s.client == old(s.client) && err == None && calls == []
      ensures var s := accountState[account.id];
        old(s.client) == null && !o.dialOk ==>
          err == Some(ConnectFailed(DialFailed)) && s.client == null && calls == [CreateClient, Connect]
      ensures var s := accountState[account.id];
        old(s.client) == null && o.dialOk && !o.loginOk ==>
          err == Some(AuthenticateFailed(AuthFailed)) && s.client == null &&
          calls == [CreateClient, Connect, Authenticate]
      ensures var s := accountState[account.id];
        old(s.client) == null && o.dialOk && o.loginOk ==>
          err == None && s.client != null && fresh(s.client) && calls == SessionCalls(false)
    {
      var s := accountState[account.id];
      if s.client != null {
        return None, [];
      }
      // NewGmailClient cannot fail, so its error branch is never taken.
      var c := new GmailClient(account.clientId, account.clientSecret, account.token);
      var e := c.Connect(o.dialOk);
      if e.Some? {
        return Some(ConnectFailed(e.value)), [CreateClient, Connect];
      }
      e := c.Authenticate(o.loginOk);
      if e.Some? {
        return Some(AuthenticateFailed(e.value)), [CreateClient, Connect, Authenticate];
      }
      s.client := c;
      Repr := Repr + {c};
      err, calls := None, SessionCalls(false);
    }

    /** The last step of a successful poll: record the clock reading as `lastSync`. */
    method MarkSynced(id: string, now: int)
      requires Valid() && id in accountState
      modifies accountState[id]
      ensures Valid()
      ensures var s := accountState[id];
        s.lastSync == now && s.isActive == old(s.isActive) && s.stopClosed == old(s.stopClosed) &&
        s.client == old(s.client)
    {
      accountState[id].lastSync := now;
    }

    /**
     * `poll`: one cycle for one account. Opens the session if needed,
     * fetches what arrived since `lastSync`, requests a label for every
     * matching email and rule, and on a successful fetch moves `lastSync`
     * to the clock reading. `calls` lists the provider requests in order.
     */
    method Poll(account: EmailAccount, o: PollOutcome) returns (err: Option<PollError>, calls: seq<Request>)
      requires Valid() && account.id in accountState
      modifies this`Repr, accountState[account.id]
      ensures Valid()
      ensures var s := accountState[account.id];
        s.isActive == old(s.isActive) && s.stopClosed == old(s.stopClosed)
      ensures var s := accountState[account.id];
        old(s.client) != null ==> s.client == old(s.client)
      ensures var s := accountState[account.id];
        old(s.client) == null && !o.dialOk ==>
          err == Some(ConnectFailed(DialFailed)) && s.client == null &&
          s.lastSync == old(s.lastSync) && calls == [CreateClient, Connect]
      ensures var s := accountState[account.id];
        old(s.client) == null && o.dialOk && !o.loginOk ==>
          err == Some(AuthenticateFailed(AuthFailed)) && s.client == null &&
          s.lastSync == old(s.lastSync) && calls == [CreateClient, Connect, Authenticate]
      ensures var s := accountState[account.id];
        old(s.client) == null && o.dialOk && o.loginOk ==> s.client != null && fresh(s.client)
      ensures var s := accountState[account.id];
        (old(s.client) != null || (o.dialOk && o.loginOk)) && FetchResult(o.fetch).Err? ==>
          err == Some(FetchEmailsFailed(FetchResult(o.fetch).error)) &&
          s.lastSync == old(s.lastSync) &&
          calls == SessionCalls(old(s.client) != null) + [FetchSince(old(s.lastSync))]
      ensures var s := accountState[account.id];
        (old(s.client) != null || (o.dialOk && o.loginOk)) && FetchResult(o.fetch).Ok? ==>
          err == None &&
          s.lastSync == o.now &&
          calls == SessionCalls(old(s.client) != null) + [FetchSince(old(s.lastSync))] +
                   LabelRequests(FetchResult(o.fetch).value, config.poll.rules)
    {
      var s := accountState[account.id];
      var since := s.lastSync;
      err, calls := OpenSession(account, o);
      if err.None? {
        calls := calls + [FetchSince(since)];
        var emails, e := s.client.FetchNewEmails(since, o.fetch);
        if e.Some? {
          err := Some(FetchEmailsFailed(e.value));
        } else {
          var requests := ApplyRules(s.client, emails, config.poll.rules, o.storeFailures);
          calls := calls + requests;
          MarkSynced(account.id, o.now);
        }
      }
    }

    /**
     * A poll inside `pollAccount`, whose error is only logged: what the
     * loop relies on is that the claim, the stop channel and a stored
     * session survive it, and that `lastSync` is left or moved to `now`.
     */
    method LoggedPoll(account: EmailAccount, o: PollOutcome)
      requires Valid() && account.id in accountState
      modifies this`Repr, accountState[account.id]
      ensures Valid()
      ensures var s := accountState[account.id];
        s.isActive == old(s.isActive) && s.stopClosed == old(s.stopClosed) &&
        (old(s.client) != null ==> s.client == old(s.client)) &&
        (s.lastSync == old(s.lastSync) || s.lastSync == o.now)
    {
      var err, calls := Poll(account, o);
    }

    /**
     * The locked check-and-set at the top of `pollAccount`: claims the
     * account when no loop holds it, and otherwise changes nothing.
     */
    method Claim(id: string) returns (claimed: bool)
      requires Valid() && id in accountState
      modifies accountState[id]
      ensures Valid()
      ensures claimed == !old(accountState[id].isActive)
      ensures !claimed ==> unchanged(accountState[id])
      ensures var s := accountState[id];
        s.isActive && s.lastSync == old(s.lastSync) && s.stopClosed == old(s.stopClosed) &&
        s.client == old(s.client)
    {
      var s := accountState[id];
      if s.isActive {
        return false;
      }
      s.isActive := true;
      claimed := true;
    }

    /**
     * `pollAccount`: fails with "already active" when another loop holds
     * the account, leaving its state alone. Otherwise claims it, polls once,
     * then polls on every tick until a stop event (returns nil) or a cancel
     * event (returns the context's error). Poll failures are only logged.
     * A stop event on a channel that was open when the loop began stands
     * for the `Stop` that closed it, which swept the account; otherwise
     * returning keeps the claim. `polls` counts the polls made.
     */
    method PollAccount(account: EmailAccount, initial: PollOutcome, events: seq<Event>)
      returns (outcome: LoopOutcome, polls: nat)
      requires Valid() && account.id in accountState
      modifies this`Repr, accountState[account.id]
      ensures Valid()
      ensures old(accountState[account.id].isActive) ==>
        outcome == Exited(Some(AlreadyActive(account.id))) && polls == 0 &&
        unchanged(accountState[account.id]) && Repr == old(Repr)
      ensures !old(accountState[account.id].isActive) ==>
        outcome == LoopOutcomeOf(events) && polls == 1 + TicksBeforeExit(events)
      ensures var s := accountState[account.id];
        if StoppedWhileOpen(outcome, old(s.stopClosed)) then !s.isActive && s.stopClosed
        else s.isActive && s.stopClosed == old(s.stopClosed)
      ensures var s := accountState[account.id];
        old(s.client) != null ==> s.client == old(s.client)
      ensures var s := accountState[account.id];
        s.lastSync == old(s.lastSync) || s.lastSync == initial.now ||
        exists k :: 0 <= k < TicksBeforeExit(events) && events[k].Tick? && s.lastSync == events[k].outcome.now
    {
      var s := accountState[account.id];
      var claimed := Claim(account.id);
      if !claimed {
        return Exited(Some(AlreadyActive(account.id))), 0;
      }
      // The initial poll's error is only logged.
      LoggedPoll(account, initial);
      polls := 1;
      var i := 0;
      while i < |events|
        invariant 0 <= i <= |events|
        invariant forall k :: 0 <= k < i ==> events[k].Tick?
        invariant polls == 1 + i
        invariant Valid()
        invariant s.isActive && s.stopClosed == old(s.stopClosed)
        invariant old(s.client) != null ==> s.client == old(s.client)
        invariant s.lastSync == old(s.lastSync) || s.lastSync == initial.now ||
          exists k :: 0 <= k < i && events[k].Tick? && s.lastSync == events[k].outcome.now
      {
        match events[i]
        case Canceled =>
          LoopOutcomeAfterTicks(events, i);
          return Exited(Some(ContextCanceled)), polls;
        case StopSignal(logoutOk) =>
          LoopOutcomeAfterTicks(events, i);
          if !s.stopClosed {
            // Only `Stop` closes the channel, and it swept this claimed account.
            var _, _ := StopOne(account.id, logoutOk);
          }
          return Exited(None), polls;
        case Tick(o) =>
          // A failed tick poll is only logged; the loop keeps waiting.
          LoggedPoll(account, o);
          polls := polls + 1;
          i := i + 1;
      }
      LoopOutcomeAfterTicks(events, i);
      outcome := StillPolling;
    }

    /** The body of `Stop`'s sweep for one account. */
    method StopOne(id: string, logoutOk: bool) returns (didClose: bool, didReclose: bool)
      requires Valid() && id in accountState
      modifies accountState[id]
      ensures Valid()
      ensures var s := accountState[id];
        !s.isActive && s.stopClosed == (old(s.stopClosed) || old(s.isActive)) &&
        s.lastSync == old(s.lastSync) && s.client == old(s.client)
      ensures didClose == (old(accountState[id].isActive) && accountState[id].client != null)
      ensures didReclose == (old(accountState[id].isActive) && old(accountState[id].stopClosed))
    {
      var s := accountState[id];
      didClose, didReclose := false, false;
      if s.isActive {
        if s.client != null {
          var _ := s.client.Close(logoutOk);
          didClose := true;
        }
        didReclose := s.stopClosed;
        s.stopClosed := true;
        s.isActive := false;
      }
    }

    /**
     * `Stop`: for every active account, close its session when one is
     * stored (a failed logout is only logged; it fails for the IDs in
     * `logoutFailures`), close its stop channel and clear the active flag.
     * Idle accounts, `lastSync` and the stored session are left alone.
     * `closed` lists the accounts whose session was closed; `reclosed`
     * lists the accounts whose stop channel was already closed, where Go's
     * second `close` panics.
     */
    method Stop(logoutFailures: set<string>) returns (closed: set<string>, reclosed: set<string>)
      requires Valid()
      modifies accountState.Values
      ensures Valid()
      ensures forall id :: id in accountState ==>
        var s := accountState[id];
        !s.isActive && s.stopClosed == (old(s.stopClosed) || old(s.isActive)) &&
        s.lastSync == old(s.lastSync) && s.client == old(s.client)
      ensures forall id :: id in closed <==>
        id in accountState && old(accountState[id].isActive) && accountState[id].client != null
      ensures forall id :: id in reclosed <==>
        id in accountState && old(accountState[id].isActive) && old(accountState[id].stopClosed)
    {
      closed, reclosed := {}, {};
      var todo := accountState.Keys;
      while todo != {}
        invariant todo <= accountState.Keys
        invariant Valid()
        invariant forall id :: id in accountState && id !in todo ==>
          Swept(accountState[id], old(accountState[id].isActive), old(accountState[id].stopClosed),
                old(accountState[id].lastSync), old(accountState[id].client))
        invariant forall id :: id in todo ==> unchanged(accountState[id])
        invariant forall id :: id in closed <==>
          id in accountState && id !in todo && old(accountState[id].isActive) && accountState[id].client != null
        invariant forall id :: id in reclosed <==>
          id in accountState && id !in todo && old(accountState[id].isActive) && old(accountState[id].stopClosed)
        decreases todo
      {
        var id :| id in todo;
        var didClose, didReclose := StopOne(id, id !in logoutFailures);
        if didClose {
          closed := closed + {id};
        }
        if didReclose {
          reclosed := reclosed + {id};
        }
        todo := todo - {id};
      }
    }

    /** The claimed IDs and the IDs whose stop channel is closed. */
    ghost function FlagsOf(): Flags
      reads this, accountState.Values
    {
      Flags(set id | id in accountState && accountState[id].isActive,
            set id | id in accountState && accountState[id].stopClosed)
    }

    /** The goroutine `Start` launches for one enabled account: its loop's outcome. */
    method Launch(account: EmailAccount, run: Run, ghost f: Flags) returns (outcome: LoopOutcome)
      requires Valid() && account.id in accountState && account.enabled
      requires HasFlags(accountState[account.id], account.id, f)
      modifies this`Repr, accountState[account.id]
      ensures Valid()
      ensures Some(outcome) == LaunchOutcome(f, account, run)
      ensures HasFlags(accountState[account.id], account.id, AfterLaunch(f, account, run))
      ensures outcome == if old(accountState[account.id].isActive)
        then Exited(Some(AlreadyActive(account.id))) else LoopOutcomeOf(run.events)
      ensures var s := accountState[account.id];
        if StoppedWhileOpen(outcome, old(s.stopClosed)) then !s.isActive && s.stopClosed
        else Claimed(s, old(s.stopClosed))
    {
      var polls;
      outcome, polls := PollAccount(account, run.initial, run.events);
    }

    /**
     * The launching half of `Start`: run `pollAccount` for every enabled
     * account, in configuration order, skipping the disabled ones.
     * `runs[i]` is how the `i`-th account's loop fares; `loops[i]` is its
     * outcome, `None` when the account is disabled. An account whose ID an
     * earlier enabled account already launched finds the state claimed,
     * unless that earlier loop was released by a stop.
     */
    method LaunchAll(runs: seq<Run>) returns (loops: seq<Option<LoopOutcome>>)
      requires Valid() && |runs| == |config.emailAccounts|
      modifies this`Repr, accountState.Values
      ensures Valid()
      ensures loops == ReplayLoops(config.emailAccounts, runs, old(FlagsOf()), |config.emailAccounts|)
      ensures forall id :: id in accountState ==>
        HasFlags(accountState[id], id, ReplayFlags(config.emailAccounts, runs, old(FlagsOf()), |config.emailAccounts|))
      ensures forall id :: id in accountState && id !in EnabledIds(config) ==> unchanged(accountState[id])
    {
      var accounts := config.emailAccounts;
      ghost var f0 := FlagsOf();
      loops := [];
      var i := 0;
      while i < |accounts|
        invariant 0 <= i <= |accounts|
        invariant Valid()
        invariant loops == ReplayLoops(accounts, runs, f0, i)
        invariant forall id :: id in accountState ==> HasFlags(accountState[id], id, ReplayFlags(accounts, runs, f0, i))
        invariant forall id :: id in accountState && id !in LaunchedIds(accounts, i) ==>
          unchanged(accountState[id])
      {
        var account := accounts[i];
        ghost var f := ReplayFlags(accounts, runs, f0, i);
        if account.enabled {
          assert account.id in AccountIds(config);
          var o := Launch(account, runs[i], f);
          loops := loops + [Some(o)];
        } else {
          loops := loops + [None];
        }
        forall id | id in accountState
          ensures HasFlags(accountState[id], id, AfterLaunch(f, account, runs[i]))
        {
          if id != account.id {
            AfterLaunchElsewhere(f, account, runs[i], id);
          }
        }
        i := i + 1;
      }
      LaunchedAllEnabled(config);
    }

    /**
     * `Start`: launch the loops of the enabled accounts and return one
     * loop error, wrapped with its account ID, or nil once every loop has
     * returned nil; while a loop still polls and none failed, `Start` is
     * still waiting.
     */
    method Start(runs: seq<Run>) returns (outcome: StartOutcome, loops: seq<Option<LoopOutcome>>)
      requires Valid() && |runs| == |config.emailAccounts|
      modifies this`Repr, accountState.Values
      ensures Valid()
      ensures |loops| == |config.emailAccounts|
      ensures outcome == Aggregate(config.emailAccounts, loops)
      ensures forall i :: 0 <= i < |loops| ==> (loops[i].Some? <==> config.emailAccounts[i].enabled)
      ensures forall i :: 0 <= i < |loops| ==>
        loops[i] == LaunchOutcome(ReplayFlags(config.emailAccounts, runs, old(FlagsOf()), i), config.emailAccounts[i], runs[i])
      ensures DistinctEnabledIds(config.emailAccounts) &&
              (forall id :: id in accountState ==> !old(accountState[id].isActive)) ==>
        forall i :: 0 <= i < |loops| && config.emailAccounts[i].enabled ==>
          loops[i] == Some(LoopOutcomeOf(runs[i].events))
      ensures forall id :: id in accountState ==>
        var f := ReplayFlags(config.emailAccounts, runs, old(FlagsOf()), |config.emailAccounts|);
        (accountState[id].isActive <==> id in f.active) && (accountState[id].stopClosed <==> id in f.closed)
      ensures forall id :: id in EnabledIds(config) ==> accountState[id].isActive || accountState[id].stopClosed
      ensures forall id :: id in accountState ==>
        (old(accountState[id].isActive) ==> accountState[id].isActive) &&
        (old(accountState[id].stopClosed) ==> accountState[id].stopClosed)
      ensures forall id :: id in accountState && id !in EnabledIds(config) ==> unchanged(accountState[id])
    {
      var accounts := config.emailAccounts;
      ghost var f0 := FlagsOf();
      loops := LaunchAll(runs);
      ReplayLoopsAt(accounts, runs, f0, |accounts|);
      LaunchedAllEnabled(config);
      forall id {
        ReplayFlagsLaunched(accounts, runs, f0, |accounts|, id);
      }
      if DistinctEnabledIds(accounts) && forall id :: id in accountState ==> !old(accountState[id].isActive) {
        ReplayDistinct(accounts, runs, f0);
      }
      outcome := Aggregate(accounts, loops);
    }
  }
}
