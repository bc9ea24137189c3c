// tools/cmd/github_issue_manager/main.go: resolving the command line and the
// environment, and the order in which the GitHub client is called. The client
// is abstract: every call is recorded in a trace, and a call listed in the
// fault map fails with that error.
module IssueManager {
  import opened Wrappers
  import opened Strings
  import opened Triage

  // ---------------------------------------------------------------------------
  // strconv.Atoi and strconv.Quote (64-bit int)
  // ---------------------------------------------------------------------------

  const MaxInt: int := 0x7fff_ffff_ffff_ffff
  const MaxUint: int := 0xffff_ffff_ffff_ffff

  /** The digits after the sign, read left to right as ParseUint does: the
      first non-digit is a syntax error, the first digit that takes the value
      past the unsigned 64-bit range a range error. */
  function ScanUint(rest: string, acc: nat): Result<nat>
    decreases |rest|
  {
    if |rest| == 0 then Ok(acc)
    else if !IsDigit(rest[0]) then Err("invalid syntax")
    else
      var n := acc * 10 + (rest[0] as int - '0' as int);
      if n > MaxUint then Err("value out of range") else ScanUint(rest[1..], n)
  }

  function HasSign(s: string): bool
  {
    |s| > 0 && (s[0] == '+' || s[0] == '-')
  }

  /** strconv.Atoi: a value, or the message of the *NumError. */
  function Atoi(s: string): Result<int>
  {
    var fail := (reason: string) => "strconv.Atoi: parsing " + Quote(s) + ": " + reason;
    var body := if HasSign(s) then s[1..] else s;
    var negative := |s| > 0 && s[0] == '-';
    if |body| == 0 then Err(fail("invalid syntax"))
    else
      match ScanUint(body, 0)
      case Err(reason) => Err(fail(reason))
      case Ok(u) =>
        if !negative && u > MaxInt then Err(fail("value out of range"))
        else if negative && u > MaxInt + 1 then Err(fail("value out of range"))
        else Ok(if negative then -(u as int) else u)
  }

  lemma {:induction false} DigitsValueMonotone(s: string, j: nat)
    requires AllDigits(s) && j <= |s|
    ensures DigitsValue(s[..j]) <= DigitsValue(s)
    decreases |s|
  {
    if j < |s| {
      var init := s[..|s| - 1];
      assert s[..j] == init[..j];
      DigitsValueMonotone(init, j);
    } else {
      assert s[..j] == s;
    }
  }

  /** On a digit string, reading on from any prefix gives the whole value, or
      a range error when that value is past the unsigned range. */
  lemma {:induction false} ScanUintDigits(s: string, i: nat)
    requires AllDigits(s) && i <= |s|
    requires DigitsValue(s[..i]) <= MaxUint
    ensures ScanUint(s[i..], DigitsValue(s[..i]))
      == if DigitsValue(s) <= MaxUint then Ok(DigitsValue(s)) else Err("value out of range")
    decreases |s| - i
  {
    if i == |s| {
      assert s[..i] == s;
    } else {
      var n := DigitsValue(s[..i]) * 10 + (s[i] as int - '0' as int);
      assert s[..i + 1][..i] == s[..i];
      assert n == DigitsValue(s[..i + 1]);
      assert s[i..][0] == s[i] && s[i..][1..] == s[i + 1..];
      DigitsValueMonotone(s, i + 1);
      if n <= MaxUint {
        ScanUintDigits(s, i + 1);
      }
    }
  }

  /** Atoi accepts exactly an optional sign followed by digits whose value is
      within the 64-bit range, and then yields that value. */
  lemma AtoiAccepts(s: string)
    ensures var body := if HasSign(s) then s[1..] else s;
      Atoi(s).Ok? <==> (|body| > 0 && AllDigits(body)
        && (if |s| > 0 && s[0] == '-' then DigitsValue(body) <= MaxInt + 1 else DigitsValue(body) <= MaxInt))
    ensures var body := if HasSign(s) then s[1..] else s;
      Atoi(s).Ok? ==> Atoi(s).value == if s[0] == '-' then -(DigitsValue(body) as int) else DigitsValue(body)
  {
    var body := if HasSign(s) then s[1..] else s;
    if |body| > 0 {
      if AllDigits(body) {
        assert body[..0] == [];
        ScanUintDigits(body, 0);
        assert body[0..] == body;
      } else {
        ScanUintStops(body, 0);
      }
    }
  }

  /** A string with a non-digit never scans to a value. */
  lemma {:induction false} ScanUintStops(rest: string, acc: nat)
    requires !AllDigits(rest)
    ensures ScanUint(rest, acc).Err?
    decreases |rest|
  {
    if IsDigit(rest[0]) {
      var n := acc * 10 + (rest[0] as int - '0' as int);
      if n <= MaxUint {
        assert !AllDigits(rest[1..]) by {
          var k :| 0 <= k < |rest| && !IsDigit(rest[k]);
          assert k > 0 && rest[1..][k - 1] == rest[k];
        }
        ScanUintStops(rest[1..], n);
      }
    }
  }

  /** Reading back Go's decimal rendering of a 64-bit int gives the int. */
  lemma AtoiIntToString(n: int)
    requires -(MaxInt + 1) <= n <= MaxInt
    ensures Atoi(IntToString(n)) == Ok(n)
  {
    var s := IntToString(n);
    AtoiAccepts(s);
    if n >= 0 {
      NatToStringValue(n);
      assert !HasSign(s) by {
        assert IsDigit(s[0]);
      }
    } else {
      NatToStringValue(-n);
      assert s[1..] == NatToString(-n);
    }
  }

  // ---------------------------------------------------------------------------
  // Resolving flags and environment
  // ---------------------------------------------------------------------------

  /** What the flag set parsed: the flag values and the positional arguments. */
  datatype Flags = Flags(verbose: bool, dryRun: bool, owner: string, repo: string, issue: int, args: seq<string>)

  datatype Settings = Settings(command: string, verbose: bool, dryRun: bool, owner: string, repo: string, issue: int, token: string)

  /** os.Getenv: an unset variable reads as empty. */
  function Getenv(env: map<string, string>, key: string): string
  {
    if key in env then env[key] else ""
  }

  const Usage: string :=
    "Usage: github_issue_manager [flags] <command>\n\n"
    + "Commands:\n"
    + "  update-labels     Apply triage label rules based on milestone status\n"
    + "  close-declined    Handle declined issues (close, remove labels/milestone)\n\n"
    + "Flags:\n"
    + "  -v, --verbose     Enable verbose output\n"
    + "  --dry-run         Display changes without making them\n"
    + "  --owner           Repository owner (or GITHUB_OWNER env)\n"
    + "  --repo            Repository name (or GITHUB_REPO env)\n"
    + "  --issue           Issue number (or GITHUB_ISSUE env)\n\n"
    + "Environment:\n"
    + "  GITHUB_TOKEN      GitHub API token (required)"

  const MissingCommand: string := "missing command: expected 'update-labels' or 'close-declined'\n\n" + Usage
  const RequiredSettings: string := "--owner, --repo, and --issue are required (or set GITHUB_OWNER, GITHUB_REPO, GITHUB_ISSUE)"
  const TokenRequired: string := "GITHUB_TOKEN environment variable is required"

  function UnknownCommand(command: string): string
  {
    "unknown command " + Quote(command) + ": expected 'update-labels' or 'close-declined'\n\n" + Usage
  }

  function InvalidIssue(v: string, err: string): string
  {
    "invalid GITHUB_ISSUE " + Quote(v) + ": " + err
  }

  /** The steps of run before the client is made. */
  function Resolve(parsed: Result<Flags>, env: map<string, string>): Result<Settings>
  {
    match parsed
    case Err(e) => Err(e)
    case Ok(f) =>
      if |f.args| == 0 then Err(MissingCommand)
      else
        var owner := if f.owner == "" then Getenv(env, "GITHUB_OWNER") else f.owner;
        var repo := if f.repo == "" then Getenv(env, "GITHUB_REPO") else f.repo;
        var v := Getenv(env, "GITHUB_ISSUE");
        var issue := if f.issue == 0 && v != "" then Atoi(v) else Ok(f.issue);
        if issue.Err? then Err(InvalidIssue(v, issue.error))
        else if owner == "" || repo == "" || issue.value == 0 then Err(RequiredSettings)
        else if Getenv(env, "GITHUB_TOKEN") == "" then Err(TokenRequired)
        else Ok(Settings(f.args[0], f.verbose, f.dryRun, owner, repo, issue.value, Getenv(env, "GITHUB_TOKEN")))
  }

  /** A flag wins over its environment variable, which is read only when the
      flag is empty or zero; everything resolved is set. */
  lemma ResolvePrecedence(f: Flags, env: map<string, string>)
    requires Resolve(Ok(f), env).Ok?
    ensures var s := Resolve(Ok(f), env).value;
      s.command == f.args[0] && s.dryRun == f.dryRun
      && s.owner == (if f.owner != "" then f.owner else Getenv(env, "GITHUB_OWNER"))
      && s.repo == (if f.repo != "" then f.repo else Getenv(env, "GITHUB_REPO"))
      && (f.issue != 0 ==> s.issue == f.issue)
      && (f.issue == 0 ==> Atoi(Getenv(env, "GITHUB_ISSUE")) == Ok(s.issue))
      && s.owner != "" && s.repo != "" && s.issue != 0 && s.token == Getenv(env, "GITHUB_TOKEN") != ""
  {
  }

  /** The error cases, in the order run checks them. */
  lemma ResolveErrors(f: Flags, env: map<string, string>)
    ensures |f.args| == 0 ==> Resolve(Ok(f), env) == Err(MissingCommand)
    ensures var v := Getenv(env, "GITHUB_ISSUE");
      |f.args| > 0 && f.issue == 0 && v != "" && Atoi(v).Err? ==>
        Resolve(Ok(f), env) == Err(InvalidIssue(v, Atoi(v).error))
    ensures |f.args| > 0 && f.owner == "" && Getenv(env, "GITHUB_OWNER") == "" && (f.issue != 0 || Getenv(env, "GITHUB_ISSUE") == "") ==>
      Resolve(Ok(f), env) == Err(RequiredSettings)
    ensures |f.args| > 0 && f.owner != "" && f.repo != "" && f.issue != 0 && Getenv(env, "GITHUB_TOKEN") == "" ==>
      Resolve(Ok(f), env) == Err(TokenRequired)
  {
  }

  /** A non-numeric GITHUB_ISSUE is an error. */
  lemma NonNumericIssue(f: Flags, env: map<string, string>)
    requires |f.args| > 0 && f.issue == 0
    requires var v := Getenv(env, "GITHUB_ISSUE"); |v| > 0 && exists i :: 0 <= i < |v| && !IsDigit(v[i]) && !(i == 0 && HasSign(v))
    ensures Resolve(Ok(f), env).Err?
  {
    var v := Getenv(env, "GITHUB_ISSUE");
    AtoiAccepts(v);
    var i :| 0 <= i < |v| && !IsDigit(v[i]) && !(i == 0 && HasSign(v));
    var body := if HasSign(v) then v[1..] else v;
    if HasSign(v) {
      assert body[i - 1] == v[i];
    } else {
      assert body[i] == v[i];
    }
  }

  // ---------------------------------------------------------------------------
  // The client as a trace
  // ---------------------------------------------------------------------------

  datatype Issue = Issue(number: int, state: string, labels: seq<string>, hasMilestone: bool)

  datatype Call =
    | GetIssue(number: int)
    | AddLabels(number: int, labels: seq<string>)
    | RemoveLabel(number: int, name: string)
    | RemoveMilestone(number: int)
    | CloseIssue(number: int)

  /** The calls issued and the error the command returns. */
  datatype Trace = Trace(err: Option<string>, calls: seq<Call>)

  function Outcome(c: Call, faults: map<Call, string>): Option<string>
  {
    if c in faults then Some(faults[c]) else None
  }

  const Nothing: Trace := Trace(None, [])

  function Issue1(c: Call, faults: map<Call, string>): Trace
  {
    Trace(Outcome(c, faults), [c])
  }

  /** first, then next unless first failed. */
  function Then(first: Trace, next: Trace): Trace
  {
    if first.err.Some? then first else Trace(next.err, first.calls + next.calls)
  }

  /** One RemoveLabel per label, in order, up to the first that fails. */
  function RemoveEach(number: int, labels: seq<string>, faults: map<Call, string>): Trace
  {
    if |labels| == 0 then Nothing else Then(Issue1(RemoveLabel(number, labels[0]), faults), RemoveEach(number, labels[1..], faults))
  }

  /** The removals sent are a prefix of the labels, in order; every one but a
      failing last one succeeded; the error is that of the failing one. */
  lemma {:induction false} RemoveEachStopsAtFirstError(number: int, labels: seq<string>, faults: map<Call, string>)
    ensures var t := RemoveEach(number, labels, faults);
      |t.calls| <= |labels|
      && (forall j :: 0 <= j < |t.calls| ==> t.calls[j] == RemoveLabel(number, labels[j]))
      && (t.err.None? <==> forall j :: 0 <= j < |labels| ==> RemoveLabel(number, labels[j]) !in faults)
      && (t.err.None? ==> |t.calls| == |labels|)
      && (t.err.Some? ==> |t.calls| > 0 && t.calls[|t.calls| - 1] in faults && t.err == Some(faults[t.calls[|t.calls| - 1]]))
      && (forall j :: 0 <= j < |t.calls| - 1 ==> t.calls[j] !in faults)
  {
    if |labels| > 0 {
      RemoveEachStopsAtFirstError(number, labels[1..], faults);
      var rest := RemoveEach(number, labels[1..], faults);
      var c := RemoveLabel(number, labels[0]);
      if c !in faults {
        var t := RemoveEach(number, labels, faults);
        assert t.calls == [c] + rest.calls;
        forall j | 0 < j < |labels|
          ensures labels[1..][j - 1] == labels[j]
        {
        }
      }
    }
  }

  /** runUpdateLabels. */
  function UpdateLabelsTrace(number: int, labels: seq<string>, hasMilestone: bool, dryRun: bool, faults: map<Call, string>): Trace
  {
    if Declined in labels then Nothing
    else
      var r := LabelUpdates(labels, hasMilestone);
      if (|r.labelsToAdd| == 0 && |r.labelsToRemove| == 0) || dryRun then Nothing
      else
        Then(if |r.labelsToAdd| > 0 then Issue1(AddLabels(number, r.labelsToAdd), faults) else Nothing,
             RemoveEach(number, r.labelsToRemove, faults))
  }

  /** runCloseDeclined. */
  function CloseDeclinedTrace(number: int, labels: seq<string>, hasMilestone: bool, state: string, dryRun: bool, faults: map<Call, string>): Trace
  {
    match DeclinedChanges(labels, hasMilestone, state)
    case None => Nothing
    case Some(d) =>
      if dryRun then Nothing
      else
        Then(RemoveEach(number, d.labelsToRemove, faults), Closing(number, d.removeMilestone, d.closeIssue, faults))
  }

  /** After the removals: the milestone removal, then the close, each only as flagged. */
  function Closing(number: int, removeMilestone: bool, closeIssue: bool, faults: map<Call, string>): Trace
  {
    Then(if removeMilestone then Issue1(RemoveMilestone(number), faults) else Nothing,
         if closeIssue then Issue1(CloseIssue(number), faults) else Nothing)
  }

  /** The milestone is removed exactly when flagged; the close comes after it
      and is sent when flagged unless the milestone removal failed. */
  lemma ClosingCalls(number: int, removeMilestone: bool, closeIssue: bool, faults: map<Call, string>)
    ensures var t := Closing(number, removeMilestone, closeIssue, faults);
      (RemoveMilestone(number) in t.calls <==> removeMilestone)
      && (CloseIssue(number) in t.calls <==> closeIssue && (!removeMilestone || RemoveMilestone(number) !in faults))
      && |t.calls| <= 2
      && (|t.calls| == 2 ==> t.calls == [RemoveMilestone(number), CloseIssue(number)])
      && (t.err.Some? <==>
            ((removeMilestone && RemoveMilestone(number) in faults) || (CloseIssue(number) in t.calls && CloseIssue(number) in faults)))
  {
  }

  /** run, after the flag set has parsed. */
  function RunTrace(parsed: Result<Flags>, env: map<string, string>, server: Issue, faults: map<Call, string>): Trace
  {
    match Resolve(parsed, env)
    case Err(e) => Trace(Some(e), [])
    case Ok(s) => Then(Issue1(GetIssue(s.issue), faults), CommandTrace(s, server, faults))
  }

  /** What the command does once the issue has been fetched. */
  function CommandTrace(s: Settings, server: Issue, faults: map<Call, string>): Trace
  {
    if s.command == "update-labels" then UpdateLabelsTrace(s.issue, server.labels, server.hasMilestone, s.dryRun, faults)
    else if s.command == "close-declined" then CloseDeclinedTrace(s.issue, server.labels, server.hasMilestone, server.state, s.dryRun, faults)
    else Trace(Some(UnknownCommand(s.command)), [])
  }

  /** Nothing is called before the settings resolve, and an unknown command
      is reported only after the issue has been fetched. */
  lemma RunOrdering(parsed: Result<Flags>, env: map<string, string>, server: Issue, faults: map<Call, string>)
    ensures var t := RunTrace(parsed, env, server, faults);
      match Resolve(parsed, env)
      case Err(e) => t == Trace(Some(e), [])
      case Ok(s) =>
        |t.calls| > 0 && t.calls[0] == GetIssue(s.issue)
        && (GetIssue(s.issue) in faults ==> t == Trace(Some(faults[GetIssue(s.issue)]), [GetIssue(s.issue)]))
        && (s.command != "update-labels" && s.command != "close-declined" && GetIssue(s.issue) !in faults ==>
              t == Trace(Some(UnknownCommand(s.command)), [GetIssue(s.issue)]))
  {
  }

  /** update-labels calls nothing for a declined issue, when there is nothing
      to change, or in dry-run; otherwise it sends the additions as one
      AddLabels before any RemoveLabel, then removals in order up to the first
      error. */
  lemma {:induction false} UpdateLabelsCalls(number: int, labels: seq<string>, hasMilestone: bool, dryRun: bool, faults: map<Call, string>)
    ensures var t := UpdateLabelsTrace(number, labels, hasMilestone, dryRun, faults);
      var r := LabelUpdates(labels, hasMilestone);
      (Declined in labels || dryRun || (r.labelsToAdd == [] && r.labelsToRemove == []) ==> t == Nothing)
      && (forall j :: 0 <= j < |t.calls| ==> t.calls[j].AddLabels? ==> j == 0 && t.calls[j] == AddLabels(number, r.labelsToAdd))
      && (forall j :: 0 <= j < |t.calls| ==> t.calls[j].AddLabels? || t.calls[j].RemoveLabel?)
      && (var removals := if |t.calls| > 0 && t.calls[0].AddLabels? then t.calls[1..] else t.calls;
          |removals| <= |r.labelsToRemove|
          && forall j :: 0 <= j < |removals| ==> removals[j] == RemoveLabel(number, r.labelsToRemove[j]))
  {
    var r := LabelUpdates(labels, hasMilestone);
    if !(Declined in labels || dryRun || (r.labelsToAdd == [] && r.labelsToRemove == [])) {
      AddThenRemove(number, r.labelsToAdd, r.labelsToRemove, faults);
    }
  }

  /** The calls of update-labels once it has something to send: at most one
      AddLabels, first, then RemoveLabel calls in label order. */
  lemma AddThenRemove(number: int, adds: seq<string>, removes: seq<string>, faults: map<Call, string>)
    ensures var t := Then(if |adds| > 0 then Issue1(AddLabels(number, adds), faults) else Nothing,
                          RemoveEach(number, removes, faults));
      (forall j :: 0 <= j < |t.calls| ==> t.calls[j].AddLabels? ==> j == 0 && t.calls[j] == AddLabels(number, adds))
      && (forall j :: 0 <= j < |t.calls| ==> t.calls[j].AddLabels? || t.calls[j].RemoveLabel?)
      && (var removals := if |t.calls| > 0 && t.calls[0].AddLabels? then t.calls[1..] else t.calls;
          |removals| <= |removes|
          && forall j :: 0 <= j < |removals| ==> removals[j] == RemoveLabel(number, removes[j]))
  {
    RemovalsInOrder(number, removes, faults);
    var rem := RemoveEach(number, removes, faults);
    if |adds| > 0 {
      var add := AddLabels(number, adds);
      if add !in faults {
        var t := Then(Issue1(add, faults), rem);
        assert t.calls == [add] + rem.calls;
        assert t.calls[1..] == rem.calls;
      }
    } else {
      assert Then(Nothing, rem).calls == rem.calls;
    }
  }

  /** RemoveEach calls RemoveLabel for a prefix of the labels, in order. */
  lemma RemovalsInOrder(number: int, labels: seq<string>, faults: map<Call, string>)
    ensures var t := RemoveEach(number, labels, faults);
      |t.calls| <= |labels| && forall j :: 0 <= j < |t.calls| ==> t.calls[j] == RemoveLabel(number, labels[j])
  {
    RemoveEachStopsAtFirstError(number, labels, faults);
  }

  /** close-declined calls nothing for an issue that is not declined or in
      dry-run; otherwise the removals come first, and only when all succeed
      the milestone removal and the close follow. */
  lemma CloseDeclinedCalls(number: int, labels: seq<string>, hasMilestone: bool, state: string, dryRun: bool, faults: map<Call, string>)
    ensures var t := CloseDeclinedTrace(number, labels, hasMilestone, state, dryRun, faults);
      (Declined !in labels || dryRun ==> t == Nothing)
      && (Declined in labels && !dryRun ==>
        var rem := RemoveEach(number, Filtered(labels, OtherTriage(Declined)), faults);
        var closing := Closing(number, hasMilestone, state != "closed", faults);
        (rem.err.Some? ==> t == rem)
        && (rem.err.None? ==> t == Trace(closing.err, rem.calls + closing.calls)))
  {
  }

  // ---------------------------------------------------------------------------
  // The client and the commands
  // ---------------------------------------------------------------------------

  /** GitHubClient against a server holding one issue. */
  class GitHubClient {
    const token: string
    const owner: string
    const repo: string
    const server: Issue
    const faults: map<Call, string>
    var calls: seq<Call>

    constructor (token: string, owner: string, repo: string, server: Issue, faults: map<Call, string>)
      ensures this.token == token && this.owner == owner && this.repo == repo
      ensures this.server == server && this.faults == faults && calls == []
    {
      this.token := token;
      this.owner := owner;
      this.repo := repo;
      this.server := server;
      this.faults := faults;
      calls := [];
    }

    method Send(c: Call) returns (err: Option<string>)
      modifies this
      ensures calls == old(calls) + [c] && err == Outcome(c, faults)
    {
      calls := calls + [c];
      err := if c in faults then Some(faults[c]) else None;
    }

    method FetchIssue(number: int) returns (iss: Issue, err: Option<string>)
      modifies this
      ensures calls == old(calls) + [GetIssue(number)] && err == Outcome(GetIssue(number), faults)
      ensures iss == server
    {
      err := Send(GetIssue(number));
      iss := server;
    }
  }

  lemma ThenAssociative(a: Trace, b: Trace, c: Trace)
    ensures Then(Then(a, b), c) == Then(a, Then(b, c))
  {
  }

  /** The removal loop of both commands. */
  method RemoveLabels(client: GitHubClient, number: int, labels: seq<string>) returns (err: Option<string>)
    modifies client
    ensures var t := RemoveEach(number, labels, client.faults);
      err == t.err && client.calls == old(client.calls) + t.calls
  {
    ghost var start := client.calls;
    var i := 0;
    while i < |labels|
      invariant 0 <= i <= |labels|
      invariant |start| <= |client.calls| && client.calls[..|start|] == start
      invariant RemoveEach(number, labels, client.faults)
        == Then(Trace(None, client.calls[|start|..]), RemoveEach(number, labels[i..], client.faults))
    {
      ghost var done := client.calls[|start|..];
      assert labels[i..][0] == labels[i] && labels[i..][1..] == labels[i + 1..];
      ThenAssociative(Trace(None, done), Issue1(RemoveLabel(number, labels[i]), client.faults), RemoveEach(number, labels[i + 1..], client.faults));
      err := client.Send(RemoveLabel(number, labels[i]));
      assert client.calls[|start|..] == done + [RemoveLabel(number, labels[i])];
      if err.Some? {
        return;
      }
      i := i + 1;
    }
    assert labels[i..] == [];
    assert client.calls == start + client.calls[|start|..];
    return None;
  }

  method RunUpdateLabels(client: GitHubClient, number: int, labels: seq<string>, hasMilestone: bool, dryRun: bool)
    returns (err: Option<string>)
    modifies client
    ensures var t := UpdateLabelsTrace(number, labels, hasMilestone, dryRun, client.faults);
      err == t.err && client.calls == old(client.calls) + t.calls
  {
    var declined := Triage.Contains(labels, Declined);
    if declined {
      return None;
    }
    var result := ComputeLabelUpdates(labels, hasMilestone);
    if |result.labelsToAdd| == 0 && |result.labelsToRemove| == 0 {
      return None;
    }
    if dryRun {
      return None;
    }
    if |result.labelsToAdd| > 0 {
      err := client.Send(AddLabels(number, result.labelsToAdd));
      if err.Some? {
        return;
      }
    }
    err := RemoveLabels(client, number, result.labelsToRemove);
  }

  method RunCloseDeclined(client: GitHubClient, number: int, labels: seq<string>, hasMilestone: bool, state: string, dryRun: bool)
    returns (err: Option<string>)
    modifies client
    ensures var t := CloseDeclinedTrace(number, labels, hasMilestone, state, dryRun, client.faults);
      err == t.err && client.calls == old(client.calls) + t.calls
  {
    var result := ComputeDeclined(labels, hasMilestone, state);
    if result.None? {
      return None;
    }
    if dryRun {
      return None;
    }
    var d := result.value;
    err := RemoveLabels(client, number, d.labelsToRemove);
    if err.Some? {
      return;
    }
    ghost var afterRemovals := client.calls;
    if d.removeMilestone {
      err := client.Send(RemoveMilestone(number));
      if err.Some? {
        return;
      }
    }
    if d.closeIssue {
      err := client.Send(CloseIssue(number));
      if err.Some? {
        return;
      }
    }
    return None;
  }

  /** The steps of run that reassign owner, repo and issue from the environment. */
  method ResolveSettings(parsed: Result<Flags>, env: map<string, string>) returns (r: Result<Settings>)
    ensures r == Resolve(parsed, env)
  {
    if parsed.Err? {
      return Err(parsed.error);
    }
    var f := parsed.value;
    if |f.args| == 0 {
      return Err(MissingCommand);
    }
    var command := f.args[0];
    var owner, repo, issue := f.owner, f.repo, f.issue;
    if owner == "" {
      owner := Getenv(env, "GITHUB_OWNER");
    }
    if repo == "" {
      repo := Getenv(env, "GITHUB_REPO");
    }
    if issue == 0 {
      var v := Getenv(env, "GITHUB_ISSUE");
      if v != "" {
        var n := Atoi(v);
        if n.Err? {
          return Err(InvalidIssue(v, n.error));
        }
        issue := n.value;
      }
    }
    if owner == "" || repo == "" || issue == 0 {
      return Err(RequiredSettings);
    }
    var token := Getenv(env, "GITHUB_TOKEN");
    if token == "" {
      return Err(TokenRequired);
    }
    return Ok(Settings(command, f.verbose, f.dryRun, owner, repo, issue, token));
  }

  /** run: the calls it makes and the error it returns, for a flag set that
      parsed as parsed, an environment, and a server holding the issue. */
  method Run(parsed: Result<Flags>, env: map<string, string>, server: Issue, faults: map<Call, string>)
    returns (err: Option<string>, calls: seq<Call>)
    ensures Trace(err, calls) == RunTrace(parsed, env, server, faults)
  {
    var settings := ResolveSettings(parsed, env);
    if settings.Err? {
      return Some(settings.error), [];
    }
    var st := settings.value;
    assert RunTrace(parsed, env, server, faults) == Then(Issue1(GetIssue(st.issue), faults), CommandTrace(st, server, faults));
    var client := new GitHubClient(st.token, st.owner, st.repo, server, faults);
    var iss, getErr := client.FetchIssue(st.issue);
    if getErr.Some? {
      return getErr, client.calls;
    }
    err := RunCommand(client, st, iss);
    calls := client.calls;
  }

  /** The switch on the command, once the issue has been fetched. */
  method RunCommand(client: GitHubClient, st: Settings, iss: Issue) returns (err: Option<string>)
    modifies client
    ensures var t := CommandTrace(st, iss, client.faults);
      err == t.err && client.calls == old(client.calls) + t.calls
  {
    if st.command == "update-labels" {
      err := RunUpdateLabels(client, st.issue, iss.labels, iss.hasMilestone, st.dryRun);
    } else if st.command == "close-declined" {
      err := RunCloseDeclined(client, st.issue, iss.labels, iss.hasMilestone, iss.state, st.dryRun);
    } else {
      err := Some(UnknownCommand(st.command));
    }
  }
}
