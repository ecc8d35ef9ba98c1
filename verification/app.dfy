/**
 * The login page: the ordered checks on the form, the account-id input
 * sanitiser, and the login driver that starts the device flow, polls the
 * backend a bounded number of times and then asks for role credentials.
 *
 * The backend's HTTP replies are parameters. Sleeping between polls, the
 * browser window, the alert and session storage are not modelled.
 */
module App {
  import opened Wrappers

  /** The poll loop gives up after this many attempts. */
  const MaxPollAttempts: nat := 60
  const AccountIdLength: nat := 12
  const HttpsPrefix: string := "https://"

  const FieldsRequiredMessage: string := "All fields are required"
  const AccountIdMessage: string := "Account ID must be a 12-digit number"
  const StartUrlMessage: string := "SSO Start URL must start with https://"
  const StartFailedMessage: string := "Failed to start SSO"
  const SessionExpiredMessage: string := "Authentication session expired"
  const AuthenticationFailedMessage: string := "Authentication failed"
  const TimeoutMessage: string := "Authentication timeout. Please try again."
  const CredentialsFailedMessage: string := "Failed to get credentials"

  datatype LoginForm = LoginForm(ssoStartUrl: string, ssoAccountId: string, ssoRoleName: string, ssoRegion: string)

  // ---------------------------------------------------------------------
  // Form checks
  // ---------------------------------------------------------------------

  /** The characters `\d` matches: ASCII digits only. */
  predicate IsDigit(c: char)
  {
    '0' <= c <= '9'
  }

  predicate AllDigits(s: string)
  {
    forall i :: 0 <= i < |s| ==> IsDigit(s[i])
  }

  /** The pattern `^\d{12}$`: exactly twelve ASCII digits and nothing else. */
  predicate IsAccountId(s: string)
  {
    |s| == AccountIdLength && AllDigits(s)
  }

  predicate HasHttpsPrefix(url: string)
  {
    |HttpsPrefix| <= |url| && url[..|HttpsPrefix|] == HttpsPrefix
  }

  predicate HasEmptyField(form: LoginForm)
  {
    form.ssoStartUrl == "" || form.ssoAccountId == "" || form.ssoRoleName == "" || form.ssoRegion == ""
  }

  /**
   * The checks `handleLogin` makes before any request, in their order; the
   * first that fails decides the one error reported.
   */
  function CheckLogin(form: LoginForm): (error: Option<string>)
    ensures error == Some(FieldsRequiredMessage) <==> HasEmptyField(form)
    ensures error == Some(AccountIdMessage) <==> !HasEmptyField(form) && !IsAccountId(form.ssoAccountId)
    ensures error == Some(StartUrlMessage) <==>
              !HasEmptyField(form) && IsAccountId(form.ssoAccountId) && !HasHttpsPrefix(form.ssoStartUrl)
    ensures error.None? <==>
              !HasEmptyField(form) && IsAccountId(form.ssoAccountId) && HasHttpsPrefix(form.ssoStartUrl)
  {
    if HasEmptyField(form) then Some(FieldsRequiredMessage)
    else if !IsAccountId(form.ssoAccountId) then Some(AccountIdMessage)
    else if !HasHttpsPrefix(form.ssoStartUrl) then Some(StartUrlMessage)
    else None
  }

  /** The account-id examples: five digits are refused, twelve accepted. */
  lemma AccountIdExamples()
    ensures !IsAccountId("12345")
    ensures IsAccountId("123456789012")
    ensures !IsAccountId("12345678901a")
  {
    assert !IsDigit("12345678901a"[11]);
  }

  // ---------------------------------------------------------------------
  // Account-id sanitiser
  // ---------------------------------------------------------------------

  /** `s.replace(/\D/g, '')`: the digits of `s`, in order. */
  function DigitsOf(s: string): (d: string)
    ensures AllDigits(d)
    ensures |d| <= |s|
    ensures forall c :: IsDigit(c) ==> multiset(d)[c] == multiset(s)[c]
  {
    if s == [] then []
    else
      assert s == [s[0]] + s[1..];
      (if IsDigit(s[0]) then [s[0]] else []) + DigitsOf(s[1..])
  }

  /** Removing non-digits distributes over concatenation, so the digits keep their order. */
  lemma {:induction false} DigitsOfAppend(a: string, b: string)
    ensures DigitsOf(a + b) == DigitsOf(a) + DigitsOf(b)
  {
    if a == [] {
      assert a + b == b;
    } else {
      assert (a + b)[0] == a[0];
      assert (a + b)[1..] == a[1..] + b;
      DigitsOfAppend(a[1..], b);
    }
  }

  /** A string of digits passes through the digit filter unchanged. */
  lemma {:induction false} DigitsOfDigits(s: string)
    requires AllDigits(s)
    ensures DigitsOf(s) == s
  {
    if s != [] {
      DigitsOfDigits(s[1..]);
    }
  }

  /** The account-id input's `onChange`: keep the digits, then the first twelve of them. */
  function SanitizeAccountId(raw: string): (id: string)
    ensures AllDigits(id)
    ensures |id| <= AccountIdLength
    ensures |id| == if |DigitsOf(raw)| <= AccountIdLength then |DigitsOf(raw)| else AccountIdLength
    ensures id <= DigitsOf(raw)
  {
    var d := DigitsOf(raw);
    if |d| <= AccountIdLength then d else d[..AccountIdLength]
  }

  /** Sanitising twice is sanitising once. */
  lemma SanitizeIdempotent(raw: string)
    ensures SanitizeAccountId(SanitizeAccountId(raw)) == SanitizeAccountId(raw)
  {
    DigitsOfDigits(SanitizeAccountId(raw));
  }

  /** A valid account id is left as it is. */
  lemma SanitizeKeepsAccountId(s: string)
    requires IsAccountId(s)
    ensures SanitizeAccountId(s) == s
  {
    DigitsOfDigits(s);
  }

  /**
   * A sanitised id passes the account-id check exactly when the raw input
   * held at least twelve digits.
   */
  lemma SanitizedAccountIdCheck(raw: string)
    ensures IsAccountId(SanitizeAccountId(raw)) <==> |DigitsOf(raw)| >= AccountIdLength
  {
  }

  // ---------------------------------------------------------------------
  // Poll loop and login driver
  // ---------------------------------------------------------------------

  /** The reply to one `fetch`: a status with the body's `error` field, or a rejected request. */
  datatype HttpReply = Reply(status: int, error: Option<string>) | NetworkError(message: string)

  /** `response.ok`: a 2xx status. */
  predicate IsOk(reply: HttpReply)
  {
    reply.Reply? && 200 <= reply.status <= 299
  }

  /** The message a failed request surfaces: `errData.error || fallback`, or the network error's own. */
  function FailureMessage(reply: HttpReply, fallback: string): string
  {
    match reply
    case Reply(_, error) => OrElse(error, fallback)
    case NetworkError(message) => message
  }

  /** A poll reply after which the loop goes on: pending (202) or slow down (429). */
  predicate IsRetry(reply: HttpReply)
  {
    reply.Reply? && (reply.status == 202 || reply.status == 429)
  }

  datatype PollOutcome = Authenticated | PollFailed(message: string)

  /** What a poll reply that is not a retry decides. */
  function Decide(reply: HttpReply): (o: PollOutcome)
    requires !IsRetry(reply)
    ensures o == Authenticated <==> reply.Reply? && reply.status == 200
    ensures reply.Reply? && reply.status == 401 ==> o == PollFailed(SessionExpiredMessage)
    ensures reply.Reply? && reply.status != 200 && reply.status != 401 ==>
              o == PollFailed(OrElse(reply.error, AuthenticationFailedMessage))
    ensures reply.NetworkError? ==> o == PollFailed(reply.message)
  {
    match reply
    case NetworkError(message) => PollFailed(message)
    case Reply(status, error) =>
      if status == 200 then Authenticated
      else if status == 401 then PollFailed(SessionExpiredMessage)
      else PollFailed(OrElse(error, AuthenticationFailedMessage))
  }

  /**
   * The outcome of the poll loop from attempt `i + 1` on: the first reply that
   * is not a retry decides, and a run of retries up to the bound is a timeout.
   */
  function PollFrom(replies: seq<HttpReply>, i: nat): PollOutcome
    requires |replies| >= MaxPollAttempts && i <= MaxPollAttempts
    decreases MaxPollAttempts - i
  {
    if i == MaxPollAttempts then PollFailed(TimeoutMessage)
    else if IsRetry(replies[i]) then PollFrom(replies, i + 1)
    else Decide(replies[i])
  }

  /**
   * The number of attempts the poll loop makes from attempt `i + 1` on: up to
   * and including the first reply that is not a retry, and at most to the bound.
   */
  function PollAttemptsFrom(replies: seq<HttpReply>, i: nat): (n: nat)
    requires |replies| >= MaxPollAttempts && i <= MaxPollAttempts
    ensures i <= n <= MaxPollAttempts
    ensures i < MaxPollAttempts ==> i < n
    decreases MaxPollAttempts - i
  {
    if i == MaxPollAttempts then MaxPollAttempts
    else if IsRetry(replies[i]) then PollAttemptsFrom(replies, i + 1)
    else i + 1
  }

  /** The number of attempts the whole poll loop makes. */
  function PollAttempts(replies: seq<HttpReply>): nat
    requires |replies| >= MaxPollAttempts
  {
    PollAttemptsFrom(replies, 0)
  }

  /** The outcome of the whole poll loop. */
  function PollResult(replies: seq<HttpReply>): PollOutcome
    requires |replies| >= MaxPollAttempts
  {
    PollFrom(replies, 0)
  }

  /**
   * The poll loop of `handleLogin`. `replies[i]` is the backend's reply to
   * attempt `i`; the loop makes at most `MaxPollAttempts` of them, so the
   * sequence holds a reply for each attempt it may make.
   */
  method AwaitAuthorization(replies: seq<HttpReply>) returns (outcome: PollOutcome, attempts: nat)
    requires |replies| >= MaxPollAttempts
    ensures 1 <= attempts <= MaxPollAttempts
    ensures forall i :: 0 <= i < attempts - 1 ==> IsRetry(replies[i])
    ensures !IsRetry(replies[attempts - 1]) ==> outcome == Decide(replies[attempts - 1])
    ensures IsRetry(replies[attempts - 1]) ==>
              attempts == MaxPollAttempts && outcome == PollFailed(TimeoutMessage)
    ensures outcome == PollResult(replies)
    ensures attempts == PollAttempts(replies)
  {
    var authenticated := false;
    attempts := 0;
    while attempts < MaxPollAttempts
      invariant 0 <= attempts <= MaxPollAttempts
      invariant forall i :: 0 <= i < attempts ==> IsRetry(replies[i])
      invariant !authenticated
      invariant PollResult(replies) == PollFrom(replies, attempts)
      invariant PollAttempts(replies) == PollAttemptsFrom(replies, attempts)
    {
      var reply := replies[attempts];
      attempts := attempts + 1;
      if reply.Reply? && reply.status == 200 {
        authenticated := true;
        break;
      } else if reply.NetworkError? {
        return PollFailed(reply.message), attempts;
      } else if reply.status == 401 {
        return PollFailed(SessionExpiredMessage), attempts;
      } else if reply.status != 202 && reply.status != 429 {
        return PollFailed(OrElse(reply.error, AuthenticationFailedMessage)), attempts;
      }
    }
    if !authenticated {
      return PollFailed(TimeoutMessage), attempts;
    }
    outcome := Authenticated;
  }

  /** Attempt `n` (counting from 1) is the first non-retry reply, and it is a 200. */
  predicate AuthorizedAt(replies: seq<HttpReply>, n: nat)
  {
    && 1 <= n <= MaxPollAttempts && n <= |replies|
    && replies[n - 1].Reply? && replies[n - 1].status == 200
    && forall i :: 0 <= i < n - 1 ==> IsRetry(replies[i])
  }

  /** Some attempt within the bound is answered with 200 after only retries. */
  ghost predicate Authorizes(replies: seq<HttpReply>)
  {
    exists n :: AuthorizedAt(replies, n)
  }

  /**
   * The loop authenticates exactly when some attempt within the bound is
   * answered with 200 after only retries.
   */
  lemma {:induction false} PollFromAuthorizes(replies: seq<HttpReply>, i: nat)
    requires |replies| >= MaxPollAttempts && i <= MaxPollAttempts
    requires forall j :: 0 <= j < i ==> IsRetry(replies[j])
    ensures PollFrom(replies, i) == Authenticated <==> Authorizes(replies)
    decreases MaxPollAttempts - i
  {
    if i == MaxPollAttempts {
      forall n: nat | AuthorizedAt(replies, n) ensures false {
      }
    } else if IsRetry(replies[i]) {
      PollFromAuthorizes(replies, i + 1);
    } else if replies[i].Reply? && replies[i].status == 200 {
      assert AuthorizedAt(replies, i + 1);
    } else {
      forall n: nat | AuthorizedAt(replies, n) ensures false {
      }
    }
  }

  lemma PollResultAuthorizes(replies: seq<HttpReply>)
    requires |replies| >= MaxPollAttempts
    ensures PollResult(replies) == Authenticated <==> Authorizes(replies)
  {
    PollFromAuthorizes(replies, 0);
  }

  datatype Endpoint = StartEndpoint | PollEndpoint | CredentialsEndpoint

  datatype LoginResult = DashboardOpened | LoginFailed(message: string)

  /**
   * `handleLogin`: check the form, start the flow, poll, then exchange the
   * token for credentials. `requests` lists the backend endpoints called,
   * in order.
   */
  method HandleLogin(form: LoginForm, startReply: HttpReply, pollReplies: seq<HttpReply>, credentialsReply: HttpReply)
    returns (result: LoginResult, requests: seq<Endpoint>)
    requires |pollReplies| >= MaxPollAttempts
    ensures CheckLogin(form).Some? ==> result == LoginFailed(CheckLogin(form).value) && requests == []
    ensures CheckLogin(form).None? ==> 1 <= |requests| <= MaxPollAttempts + 2 && requests[0] == StartEndpoint
    ensures CheckLogin(form).None? && !IsOk(startReply) ==>
              requests == [StartEndpoint] && result == LoginFailed(FailureMessage(startReply, StartFailedMessage))
    ensures CheckLogin(form).None? && IsOk(startReply) ==>
              requests == [StartEndpoint] + seq(PollAttempts(pollReplies), _ => PollEndpoint) +
                          (if PollResult(pollReplies) == Authenticated then [CredentialsEndpoint] else [])
    ensures CredentialsEndpoint in requests <==>
              CheckLogin(form).None? && IsOk(startReply) && Authorizes(pollReplies)
    ensures CredentialsEndpoint in requests <==>
              CheckLogin(form).None? && IsOk(startReply) && PollResult(pollReplies) == Authenticated
    ensures CredentialsEndpoint in requests ==>
              requests[|requests| - 1] == CredentialsEndpoint && requests[|requests| - 2] == PollEndpoint
    ensures CheckLogin(form).None? && IsOk(startReply) &&
            (forall i :: 0 <= i < MaxPollAttempts ==> IsRetry(pollReplies[i])) ==>
              result == LoginFailed(TimeoutMessage)
    ensures CheckLogin(form).None? && IsOk(startReply) && PollResult(pollReplies).PollFailed? ==>
              result == LoginFailed(PollResult(pollReplies).message) && CredentialsEndpoint !in requests
    ensures CredentialsEndpoint in requests && !IsOk(credentialsReply) ==>
              result == LoginFailed(FailureMessage(credentialsReply, CredentialsFailedMessage))
    ensures result == DashboardOpened <==>
              CredentialsEndpoint in requests && IsOk(credentialsReply)
  {
    var error := CheckLogin(form);
    if error.Some? {
      return LoginFailed(error.value), [];
    }
    requests := [StartEndpoint];
    if !IsOk(startReply) {
      return LoginFailed(FailureMessage(startReply, StartFailedMessage)), requests;
    }
    var outcome, attempts := AwaitAuthorization(pollReplies);
    requests := requests + seq(attempts, _ => PollEndpoint);
    assert CredentialsEndpoint !in requests;
    if outcome.PollFailed? {
      forall n | AuthorizedAt(pollReplies, n) ensures false {
      }
      return LoginFailed(outcome.message), requests;
    }
    assert AuthorizedAt(pollReplies, attempts);
    requests := requests + [CredentialsEndpoint];
    if !IsOk(credentialsReply) {
      return LoginFailed(FailureMessage(credentialsReply, CredentialsFailedMessage)), requests;
    }
    result := DashboardOpened;
  }
}
