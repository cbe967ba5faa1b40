/**
 * The Gmail client of `internal/email/gmail_client.go`, with the IMAP and
 * OAuth2 library calls replaced by outcome parameters. What remains is the
 * address formatting, the `Email` record built from a fetched message and
 * the "client not connected" guards around the stored connection.
 */
module EmailClient {
  import opened Wrappers

  /** IMAP UIDs are Go `uint32` values. */
  type uint32 = x: int | 0 <= x < 0x1_0000_0000

  /** An IMAP envelope address. */
  datatype Address = Address(personalName: string, mailboxName: string, hostName: string)

  /** The parts of an IMAP envelope the client reads; `date` is a timestamp. */
  datatype Envelope = Envelope(subject: string, from: seq<Address>, date: int)

  /** A message as the IMAP fetch delivers it. */
  datatype Message = Message(uid: uint32, envelope: Envelope, flags: seq<string>)

  /** The client's own record of a fetched message. */
  datatype Email = Email(uid: uint32, subject: string, from: string, date: int, flags: seq<string>)

  /** The errors the client returns, one per failing step. */
  datatype ClientError =
    | NotConnected   // the guard: no IMAP connection stored yet
    | DialFailed     // dialling the IMAP server failed
    | AuthFailed     // the OAuth2 login was refused
    | SelectFailed   // selecting INBOX failed
    | SearchFailed   // the SINCE search failed
    | FetchFailed    // fetching the found messages failed
    | StoreFailed    // adding the label flag failed
    | LogoutFailed   // logging out failed

  /**
   * What the IMAP server answers during one `FetchNewEmails`: whether
   * SELECT and SEARCH succeed, the UIDs found, the messages the FETCH
   * delivers (in delivery order) and whether the FETCH ends without error.
   */
  datatype FetchOutcome = FetchOutcome(
    selectOk: bool,
    searchOk: bool,
    uids: seq<uint32>,
    messages: seq<Message>,
    fetchOk: bool)

  // ---------------------------------------------------------------------
  // Address formatting

  /**
   * Renders the first address of a list for display, as
   * "Name <mailbox@host>" when it has a personal name and as
   * "mailbox@host" otherwise; the empty list gives "".
   */
  function FormatAddresses(addrs: seq<Address>): (r: string)
    ensures r == "" <==> |addrs| == 0
    ensures |addrs| > 0 ==> '@' in r
  {
    if |addrs| == 0 then ""
    else
      var a := addrs[0];
      if a.personalName != "" then
        a.personalName + " <" + a.mailboxName + "@" + a.hostName + ">"
      else
        a.mailboxName + "@" + a.hostName
  }

  /** Only the first address of the list is ever shown. */
  lemma FormatAddressesFirstOnly(addrs: seq<Address>, more: seq<Address>)
    requires |addrs| > 0
    ensures FormatAddresses(addrs + more) == FormatAddresses([addrs[0]])
  {
  }

  /** Splits `s` at its first `c`; without a `c`, everything comes before. */
  function SplitAt(s: string, c: char): (string, string)
  {
    if |s| == 0 then ("", "")
    else if s[0] == c then ("", s[1..])
    else
      var (before, after) := SplitAt(s[1..], c);
      ([s[0]] + before, after)
  }

  lemma {:induction false} SplitAtFirst(a: string, c: char, b: string)
    requires c !in a
    ensures SplitAt(a + [c] + b, c) == (a, b)
  {
    if |a| == 0 {
      assert a + [c] + b == [c] + b;
    } else {
      assert (a + [c] + b)[1..] == a[1..] + [c] + b;
      SplitAtFirst(a[1..], c, b);
      assert [a[0]] + a[1..] == a;
    }
  }

  /** Reads an address back from the text `FormatAddresses` gives for it. */
  function ParseAddress(s: string): Address
  {
    if |s| > 0 && s[|s| - 1] == '>' then
      var (named, inner) := SplitAt(s[..|s| - 1], '<');
      var (mailbox, host) := SplitAt(inner, '@');
      Address(if |named| > 0 then named[..|named| - 1] else named, mailbox, host)
    else
      var (mailbox, host) := SplitAt(s, '@');
      Address("", mailbox, host)
  }

  /** Addresses whose parts do not contain the delimiters of the display form. */
  predicate Printable(a: Address)
  {
    '<' !in a.personalName && '@' !in a.mailboxName && '>' !in a.hostName
  }

  /** The display form loses nothing: distinct printable addresses display differently. */
  lemma FormatAddressRoundTrip(a: Address)
    requires Printable(a)
    ensures ParseAddress(FormatAddresses([a])) == a
  {
    var s := FormatAddresses([a]);
    if a.personalName != "" {
      var rest := a.mailboxName + "@" + a.hostName;
      assert s == a.personalName + [' '] + ['<'] + rest + ['>'];
      assert s[..|s| - 1] == (a.personalName + [' ']) + ['<'] + rest;
      SplitAtFirst(a.personalName + [' '], '<', rest);
      SplitAtFirst(a.mailboxName, '@', a.hostName);
      assert (a.personalName + [' '])[..|a.personalName|] == a.personalName;
    } else {
      assert s == a.mailboxName + ['@'] + a.hostName;
      if |a.hostName| > 0 {
        assert s[|s| - 1] == a.hostName[|a.hostName| - 1];
      }
      SplitAtFirst(a.mailboxName, '@', a.hostName);
    }
  }

  // ---------------------------------------------------------------------
  // Fetched messages

  /**
   * The `Email` record built for one fetched message: the UID, subject,
   * date and flags are copied, and `from` is empty exactly when the
   * envelope names no sender.
   */
  function NewEmail(m: Message): (r: Email)
    ensures r.uid == m.uid && r.subject == m.envelope.subject && r.date == m.envelope.date && r.flags == m.flags
    ensures r.from == FormatAddresses(m.envelope.from)
    ensures r.from == "" <==> |m.envelope.from| == 0
  {
    Email(m.uid, m.envelope.subject, FormatAddresses(m.envelope.from), m.envelope.date, m.flags)
  }

  /** One record per message, in delivery order. */
  function EmailsOf(messages: seq<Message>): (r: seq<Email>)
    ensures |r| == |messages|
    ensures forall i :: 0 <= i < |r| ==>
      r[i].uid == messages[i].uid && r[i].subject == messages[i].envelope.subject &&
      r[i].from == FormatAddresses(messages[i].envelope.from) &&
      r[i].date == messages[i].envelope.date && r[i].flags == messages[i].flags
  {
    seq(|messages|, i requires 0 <= i < |messages| => NewEmail(messages[i]))
  }

  /**
   * Records are built message by message: the records of two batches
   * delivered one after the other are the records of each, in that order.
   */
  lemma EmailsOfAppend(first: seq<Message>, second: seq<Message>)
    ensures EmailsOf(first + second) == EmailsOf(first) + EmailsOf(second)
  {
    var all := first + second;
    forall i | 0 <= i < |all|
      ensures EmailsOf(all)[i] == (EmailsOf(first) + EmailsOf(second))[i]
    {
      if i >= |first| {
        assert all[i] == second[i - |first|];
      }
    }
  }

  /**
   * What `FetchNewEmails` answers on a connected client: the first failing
   * IMAP step, else no emails when the search finds no UID, else one
   * record per delivered message, in delivery order.
   */
  function FetchResult(server: FetchOutcome): (r: Result<seq<Email>, ClientError>)
    ensures r.Err? <==> !server.selectOk || !server.searchOk || (|server.uids| > 0 && !server.fetchOk)
    ensures !server.selectOk ==> r == Err(SelectFailed)
    ensures server.selectOk && !server.searchOk ==> r == Err(SearchFailed)
    ensures r.Ok? && |server.uids| == 0 ==> r.value == []
    ensures server.selectOk && server.searchOk && |server.uids| > 0 && !server.fetchOk ==> r == Err(FetchFailed)
    ensures r.Ok? && |server.uids| > 0 ==>
      |r.value| == |server.messages| &&
      forall i :: 0 <= i < |r.value| ==>
        var m := server.messages[i];
        r.value[i] == Email(m.uid, m.envelope.subject, FormatAddresses(m.envelope.from), m.envelope.date, m.flags)
  {
    if !server.selectOk then Err(SelectFailed)
    else if !server.searchOk then Err(SearchFailed)
    else if |server.uids| == 0 then Ok([])
    else if !server.fetchOk then Err(FetchFailed)
    else Ok(EmailsOf(server.messages))
  }

  // ---------------------------------------------------------------------
  // The client

  /**
   * A Gmail IMAP client. `connected` stands for the stored IMAP connection
   * (`g.client != nil` in Go), the one piece of state its guards read.
   */
  class GmailClient {
    const clientId: string
    const clientSecret: string
    const token: string
    var connected: bool

    /** `NewGmailClient`: records the OAuth2 credentials; it cannot fail. */
    constructor (clientId: string, clientSecret: string, token: string)
      ensures this.clientId == clientId && this.clientSecret == clientSecret && this.token == token
      ensures !connected
    {
      this.clientId := clientId;
      this.clientSecret := clientSecret;
      this.token := token;
      connected := false;
    }

    /** Dials the IMAP server; only a successful dial stores a connection. */
    method Connect(dialOk: bool) returns (err: Option<ClientError>)
      modifies this
      ensures err == (if dialOk then None else Some(DialFailed))
      ensures connected == (old(connected) || dialOk)
    {
      if !dialOk {
        return Some(DialFailed);
      }
      connected := true;
      err := None;
    }

    /** Logs in with the OAuth2 token, once connected. */
    method Authenticate(loginOk: bool) returns (err: Option<ClientError>)
      ensures !connected ==> err == Some(NotConnected)
      ensures connected ==> err == (if loginOk then None else Some(AuthFailed))
    {
      if !connected {
        return Some(NotConnected);
      }
      if !loginOk {
        return Some(AuthFailed);
      }
      err := None;
    }

    /**
     * Searches INBOX for messages since `since` and builds one `Email` per
     * delivered message; on any error the result is empty.
     */
    method FetchNewEmails(since: int, server: FetchOutcome) returns (emails: seq<Email>, err: Option<ClientError>)
      ensures !connected ==> err == Some(NotConnected) && emails == []
      ensures connected && FetchResult(server).Err? ==> err == Some(FetchResult(server).error) && emails == []
      ensures connected && FetchResult(server).Ok? ==> err == None && emails == FetchResult(server).value
      ensures err == None && |server.uids| > 0 ==>
        |emails| == |server.messages| &&
        forall i :: 0 <= i < |emails| ==>
          var m := server.messages[i];
          emails[i] == Email(m.uid, m.envelope.subject, FormatAddresses(m.envelope.from), m.envelope.date, m.flags)
    {
      if !connected {
        return [], Some(NotConnected);
      }
      if !server.selectOk {
        return [], Some(SelectFailed);
      }
      if !server.searchOk {
        return [], Some(SearchFailed);
      }
      if |server.uids| == 0 {
        return [], None;
      }
      emails := [];
      var i := 0;
      while i < |server.messages|
        invariant 0 <= i <= |server.messages|
        invariant |emails| == i
        invariant forall k :: 0 <= k < i ==> emails[k] == NewEmail(server.messages[k])
      {
        emails := emails + [NewEmail(server.messages[i])];
        i := i + 1;
      }
      if !server.fetchOk {
        return [], Some(FetchFailed);
      }
      assert emails == EmailsOf(server.messages);
      err := None;
    }

    /**
     * Asks the server to add the label, as an IMAP flag, to the message set
     * holding `uid`; the set is passed to a plain STORE, not a UID STORE.
     */
    method ApplyLabel(uid: uint32, labelName: string, storeOk: bool) returns (err: Option<ClientError>)
      ensures !connected ==> err == Some(NotConnected)
      ensures connected ==> err == (if storeOk then None else Some(StoreFailed))
    {
      if !connected {
        return Some(NotConnected);
      }
      err := if storeOk then None else Some(StoreFailed);
    }

    /** Logs out; closing a client that never connected succeeds at once. */
    method Close(logoutOk: bool) returns (err: Option<ClientError>)
      ensures !connected ==> err == None
      ensures connected ==> err == (if logoutOk then None else Some(LogoutFailed))
    {
      if !connected {
        return None;
      }
      err := if logoutOk then None else Some(LogoutFailed);
    }
  }
}
