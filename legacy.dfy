/** The original single-provider command (main.go): GitHub members of an org or of some
    teams, plus explicit users, minus excluded users, whose public keys are read from
    `https://github.com/<user>.keys` and printed after a header. */
module Legacy {
  import opened Wrappers
  import opened Seqs
  import opened Text
  import opened Effects
  import opened Pagination
  import Github

  /** The command-line flags after parsing: absent strings are "", absent lists empty. */
  datatype Flags = Flags(
    token: string,
    org: string,
    teams: seq<string>,
    users: seq<string>,
    exclude: seq<string>,
    werror: bool)

  /** The GitHub API and the web server as the command uses them. */
  datatype Api = Api(
    orgMembers: string -> seq<Response<string>>,   // Organizations.ListMembers answers (logins), in request order
    teamBySlug: (string, string) -> Result<int>,   // Teams.GetTeamBySlug(org, slug): the team ID
    teamMembers: int -> seq<Response<string>>,     // Teams.ListTeamMembers answers for a team ID
    httpGet: string -> Result<string>)             // http.Get of a URL: the response body, or the transport error

  datatype Request =
    | ListMembers(org: string, page: int)
    | GetTeamBySlug(org: string, slug: string)
    | ListTeamMembers(team: int, page: int)
    | HttpGet(url: string)

  const Provider := "github-team-ssh-key"

  // The fatal messages start with '-', never with the warning marker (see NotWarning).
  const MissingInput := "--github-org, " + "--github-team or --github-user " + "must be provided.\n"
  const TeamWithoutOrg := "--github-team " + "cannot be provided without --github-org.\n"
  const TeamWithoutToken := "--github-team " + "cannot be provided without --github-token.\n"
  const PublicMembersOnly := WarningMarker + " You provided --github-org " + "without --github-token: " + "organization private members won't be fetched."

  function OrgNotFound(org: string): string { "[warning] Github Organisation \"" + org + "\" not found" }
  function TeamOrgNotFound(org: string): string { "[warning] Github Organisation \"" + org + "\" not found.\n" }
  function TeamNotFound(team: string): string { "[warning] Github teams \"" + team + "\" not found.\n" }
  function KeysNotFetched(user: string): string { "[warning] Failed to fetch public ssh key of user \"" + user + "\"" }

  function KeysUrl(user: string): string { "https://github.com/" + user + ".keys" }

  /** What checkFlags decides: a usage error that ends the run, or go on after printing
      the notices. */
  datatype Verdict = Usage(msg: string) | Proceed(notices: seq<string>)

  /** Flags the command can run with: something to list, and teams only together with
      a non-empty org and a token. */
  predicate Usable(f: Flags)
  {
    && (|f.org| > 0 || |f.teams| > 0 || |f.users| > 0)
    && (|f.teams| > 0 ==> |f.org| > 0 && |f.token| > 0)
  }

  /** checkFlags: the three usage errors in order; an org without a token only prints
      a notice, which is never escalated, not even with --Werror. */
  function CheckFlags(f: Flags): (v: Verdict)
    ensures v.Usage? <==> !Usable(f)
    ensures |f.org| + |f.teams| + |f.users| == 0 ==> v == Usage(MissingInput)
    ensures |f.teams| > 0 && |f.org| == 0 ==> v == Usage(TeamWithoutOrg)
    ensures |f.org| > 0 && |f.teams| > 0 && |f.token| == 0 ==> v == Usage(TeamWithoutToken)
    ensures v.Proceed? ==> (v.notices == [PublicMembersOnly] <==> |f.org| > 0 && |f.token| == 0)
    ensures v.Proceed? ==> (v.notices == [] <==> |f.org| == 0 || |f.token| > 0)
  {
    if |f.org| + |f.teams| + |f.users| == 0 then Usage(MissingInput)
    else if |f.teams| > 0 && |f.org| == 0 then Usage(TeamWithoutOrg)
    else if |f.teams| > 0 && |f.token| == 0 then Usage(TeamWithoutToken)
    else if |f.org| > 0 && |f.token| == 0 then Proceed([PublicMembersOnly])
    else Proceed([])
  }

  /** The same flags as a GitHub source configuration, with "" read as absent. */
  function AsSource(f: Flags): Github.Source
  {
    Github.Source(
      if f.token == "" then None else Some(f.token),
      if f.org == "" then None else Some(f.org),
      f.teams, f.users, f.exclude)
  }

  /** checkFlags and the GitHub source's CheckInputErrors accept the same flags once ""
      is read as absent, and print the org-without-token notice in the same cases. */
  lemma CheckFlagsAgreesWithSource(f: Flags)
    ensures var msg := Github.CheckInputErrors(AsSource(f));
      && (CheckFlags(f).Usage? <==> msg != "" && !IsWarning(msg))
      && (CheckFlags(f) == Proceed([PublicMembersOnly]) <==> IsWarning(msg))
  {
  }

  /** The GitHub source sees an org given as "" as present; checkFlags sees it as absent. */
  lemma EmptyOrgDiffers()
    ensures Github.CheckInputErrors(Github.Source(Some("t"), Some(""), [], [], [])) == ""
    ensures CheckFlags(Flags("t", "", [], [], [], false)) == Usage(MissingInput)
  {
  }

  /** The team's member listing ends, when the slug resolves at all. */
  predicate TeamEnds(api: Api, org: string, team: string)
  {
    match api.teamBySlug(org, team)
    case Err(_) => true
    case Ok(id) => Ends(api.teamMembers(id))
  }

  /** Every listing the command asks for eventually ends. */
  predicate Fetchable(f: Flags, api: Api)
  {
    |f.org| > 0 ==>
      if |f.teams| > 0 then forall t :: t in f.teams ==> TeamEnds(api, f.org, t)
      else Ends(api.orgMembers(f.org))
  }

  function MemberPages(org: string, cursors: seq<int>): seq<Request>
  {
    seq(|cursors|, k requires 0 <= k < |cursors| => ListMembers(org, cursors[k]))
  }

  function TeamPages(team: int, cursors: seq<int>): seq<Request>
  {
    seq(|cursors|, k requires 0 <= k < |cursors| => ListTeamMembers(team, cursors[k]))
  }

  /** What getGithubOrgMembers yields: the logins of the pages received. */
  function OrgMembers(api: Api, org: string): Gathered<string, Request>
    requires Ends(api.orgMembers(org))
  {
    var rs := api.orgMembers(org);
    Gathered(Collected(rs), WarnIf(Failure(rs), OrgNotFound(org)), MemberPages(org, Cursors(rs)))
  }

  method GetOrgMembers(api: Api, org: string) returns (logins: seq<string>, warnings: seq<Warning>, requests: seq<Request>)
    requires Ends(api.orgMembers(org))
    ensures Gathered(logins, warnings, requests) == OrgMembers(api, org)
  {
    var cursors, failure;
    logins, cursors, failure := FetchAll(api.orgMembers(org));
    warnings := WarnIf(failure, OrgNotFound(org));
    requests := MemberPages(org, cursors);
  }

  /** What getGithubTeamMembers yields: nothing but a warning naming the org when the
      slug does not resolve, otherwise the logins of the team's pages. */
  function TeamMembers(api: Api, org: string, team: string): Gathered<string, Request>
    requires TeamEnds(api, org, team)
  {
    match api.teamBySlug(org, team)
    case Err(e) => Gathered([], [Warning(e, TeamOrgNotFound(org))], [GetTeamBySlug(org, team)])
    case Ok(id) =>
      var rs := api.teamMembers(id);
      Gathered(Collected(rs), WarnIf(Failure(rs), TeamNotFound(team)), [GetTeamBySlug(org, team)] + TeamPages(id, Cursors(rs)))
  }

  method GetTeamMembers(api: Api, org: string, team: string) returns (logins: seq<string>, warnings: seq<Warning>, requests: seq<Request>)
    requires TeamEnds(api, org, team)
    ensures Gathered(logins, warnings, requests) == TeamMembers(api, org, team)
  {
    var lookup := api.teamBySlug(org, team);
    if lookup.Err? {
      return [], [Warning(lookup.error, TeamOrgNotFound(org))], [GetTeamBySlug(org, team)];
    }
    var cursors, failure;
    logins, cursors, failure := FetchAll(api.teamMembers(lookup.value));
    warnings := WarnIf(failure, TeamNotFound(team));
    requests := [GetTeamBySlug(org, team)] + TeamPages(lookup.value, cursors);
  }

  /** The members of the teams, team after team. */
  function TeamsMembers(api: Api, org: string, teams: seq<string>): Gathered<string, Request>
    requires forall t :: t in teams ==> TeamEnds(api, org, t)
  {
    if teams == [] then Nothing()
    else Then(TeamsMembers(api, org, teams[..|teams| - 1]), TeamMembers(api, org, teams[|teams| - 1]))
  }

  /** The members collected before the explicit users: team members when a non-empty
      org and teams are given, org members when only the org is, nobody otherwise. */
  function Members(f: Flags, api: Api): Gathered<string, Request>
    requires Fetchable(f, api)
  {
    if |f.org| == 0 then Nothing()
    else if |f.teams| > 0 then TeamsMembers(api, f.org, f.teams)
    else OrgMembers(api, f.org)
  }

  /** The usernames whose keys are fetched. */
  function Usernames(f: Flags, api: Api): seq<string>
    requires Fetchable(f, api)
  {
    Without(Dedup(Members(f, api).values + f.users), f.exclude)
  }

  /** getUserSSHKeys: the non-empty lines of the user's `.keys` page, each tagged
      `<line> <user>@github-team-ssh-key`, or a warning when the request fails. */
  function UserSSHKeys(api: Api, user: string): Gathered<string, Request>
  {
    match api.httpGet(KeysUrl(user))
    case Err(e) => Gathered([], [Warning(e, KeysNotFetched(user))], [HttpGet(KeysUrl(user))])
    case Ok(body) => Gathered(AnnotateAll(NonEmptyLines(body), user, Provider), [], [HttpGet(KeysUrl(user))])
  }

  /** The keys of the users, user after user, before the final de-duplication. */
  function KeysOf(api: Api, users: seq<string>): Gathered<string, Request>
  {
    if users == [] then Nothing()
    else Then(KeysOf(api, users[..|users| - 1]), UserSSHKeys(api, users[|users| - 1]))
  }

  /** The member block of main. */
  method GetMembers(f: Flags, api: Api) returns (usernames: seq<string>, warnings: seq<Warning>, requests: seq<Request>)
    requires Fetchable(f, api)
    ensures Gathered(usernames, warnings, requests) == Members(f, api)
  {
    usernames, warnings, requests := [], [], [];
    if |f.org| > 0 {
      if |f.teams| > 0 {
        for i := 0 to |f.teams|
          invariant Gathered(usernames, warnings, requests) == TeamsMembers(api, f.org, f.teams[..i])
        {
          var logins, w, r := GetTeamMembers(api, f.org, f.teams[i]);
          assert f.teams[..i + 1][..i] == f.teams[..i];
          usernames, warnings, requests := usernames + logins, warnings + w, requests + r;
        }
        assert f.teams[..|f.teams|] == f.teams;
      } else {
        usernames, warnings, requests := GetOrgMembers(api, f.org);
      }
    }
  }

  /** The collection part of main: members, explicit users, de-duplication, exclusion,
      then every remaining user's keys and a final de-duplication. */
  method CollectKeys(f: Flags, api: Api) returns (keys: seq<string>, warnings: seq<Warning>, requests: seq<Request>)
    requires Fetchable(f, api)
    ensures var m := Members(f, api);
      var k := KeysOf(api, Usernames(f, api));
      && keys == Dedup(k.values)
      && warnings == m.warnings + k.warnings
      && requests == m.requests + k.requests
  {
    var usernames, memberWarnings, memberRequests := GetMembers(f, api);
    usernames := usernames + f.users;
    usernames := Dedup(usernames);
    usernames := Without(usernames, f.exclude);
    assert usernames == Usernames(f, api);

    var sshKeys: seq<string> := [];
    var keyWarnings: seq<Warning>, keyRequests: seq<Request> := [], [];
    for j := 0 to |usernames|
      invariant Gathered(sshKeys, keyWarnings, keyRequests) == KeysOf(api, usernames[..j])
    {
      var k := UserSSHKeys(api, usernames[j]);
      assert usernames[..j + 1][..j] == usernames[..j];
      sshKeys, keyWarnings, keyRequests := sshKeys + k.values, keyWarnings + k.warnings, keyRequests + k.requests;
    }
    assert usernames[..|usernames|] == usernames;
    warnings, requests := memberWarnings + keyWarnings, memberRequests + keyRequests;
    keys := Dedup(sshKeys);
  }

  const Banner := "# Generated with " + "https://github.com/" + "samber/" + "github-team-ssh-keys"

  /** The header line printed before the keys. */
  const Header := "#\n" + Banner + "\n#\n"

  /** output: nothing for no keys; otherwise the header and an empty line, then the
      keys separated by empty lines, with a final newline. */
  function Output(keys: seq<string>): (out: string)
    ensures out == "" <==> keys == []
  {
    if |keys| > 0 then Header + "\n" + Join(keys, "\n\n") + "\n" else ""
  }

  /** The lines of keys joined by empty lines, blank lines dropped, are the keys. */
  lemma {:induction false} JoinedKeysLines(keys: seq<string>)
    requires |keys| > 0
    requires forall i :: 0 <= i < |keys| ==> keys[i] != "" && '\n' !in keys[i]
    ensures DropEmpty(Split(Join(keys, "\n\n"), '\n')) == keys
  {
    if |keys| == 1 {
      SplitNoSep(keys[0], '\n');
      DropEmptyOfNonEmpty(keys);
    } else {
      var first, rest := keys[0], Join(keys[1..], "\n\n");
      var lines := Split(rest, '\n');
      assert Split(Join(keys, "\n\n"), '\n') == [first] + ([""] + lines) by {
        assert Join(keys, "\n\n") == first + ['\n'] + ("" + ['\n'] + rest);
        SplitFirstLine(first, "" + ['\n'] + rest, '\n');
        SplitFirstLine("", rest, '\n');
      }
      assert DropEmpty([first] + ([""] + lines)) == [first] + DropEmpty(lines) by {
        DropEmptyCons(first, [""] + lines);
        DropEmptyCons("", lines);
      }
      JoinedKeysLines(keys[1..]);
      assert keys == [first] + keys[1..];
    }
  }

  lemma BannerIsOneLine()
    ensures Banner != "" && '\n' !in Banner
  {
  }

  /** Three lines, an empty line, a body and a final newline, split into lines. */
  lemma {:induction false} FramedSplit(a: string, b: string, c: string, body: string)
    requires '\n' !in a && '\n' !in b && '\n' !in c
    ensures Split(a + "\n" + b + "\n" + c + "\n" + "\n" + body + "\n", '\n') == [a, b, c, ""] + (Split(body, '\n') + [""])
  {
    var tail := body + ['\n'] + "";
    assert Split(tail, '\n') == Split(body, '\n') + [""] by {
      SplitConcat(body, "", '\n');
    }
    SplitFirstLine("", tail, '\n');
    SplitFirstLine(c, "" + ['\n'] + tail, '\n');
    SplitFirstLine(b, c + ['\n'] + ("" + ['\n'] + tail), '\n');
    SplitFirstLine(a, b + ['\n'] + (c + ['\n'] + ("" + ['\n'] + tail)), '\n');
    assert a + "\n" + b + "\n" + c + "\n" + "\n" + body + "\n" == a + ['\n'] + (b + ['\n'] + (c + ['\n'] + ("" + ['\n'] + tail)));
  }

  lemma {:induction false} FramedLines(a: string, b: string, c: string, lines: seq<string>)
    requires a != "" && b != "" && c != ""
    ensures DropEmpty([a, b, c, ""] + (lines + [""])) == [a, b, c] + DropEmpty(lines)
  {
    DropEmptyConcat([a, b, c, ""], lines + [""]);
    DropEmptyConcat(lines, [""]);
    assert DropEmpty([""]) == [] by {
      DropEmptyCons("", []);
      assert [""] + [] == [""];
    }
    assert [a, b, c, ""] == [a, b, c] + [""];
    DropEmptyConcat([a, b, c], [""]);
    DropEmptyOfNonEmpty([a, b, c]);
  }

  /** Reading the printed output back line by line, blank lines dropped, gives the
      three header lines and then exactly the keys, in order. */
  lemma OutputLines(keys: seq<string>)
    requires |keys| > 0
    requires forall i :: 0 <= i < |keys| ==> keys[i] != "" && '\n' !in keys[i]
    ensures NonEmptyLines(Output(keys)) == ["#", Banner, "#"] + keys
  {
    var body := Join(keys, "\n\n");
    BannerIsOneLine();
    assert Output(keys) == "#" + "\n" + Banner + "\n" + "#" + "\n" + "\n" + body + "\n";
    FramedSplit("#", Banner, "#", body);
    FramedLines("#", Banner, "#", Split(body, '\n'));
    JoinedKeysLines(keys);
  }

  /** How a run ends: a usage error from checkFlags, a fatal warning under --Werror, or
      the printed keys. `stderr` holds the lines printed to standard error on the way. */
  datatype Outcome =
    | UsageError(msg: string)
    | Aborted(stderr: seq<string>, fatal: string)
    | Completed(stdout: string, stderr: seq<string>)

  /** The standard-error lines of printed warnings: the error text, then the message. */
  function WarningLines(warnings: seq<Warning>): seq<string>
  {
    if warnings == [] then []
    else WarningLines(warnings[..|warnings| - 1]) + [warnings[|warnings| - 1].cause, warnings[|warnings| - 1].message]
  }

  /** main: check the flags, collect the keys, print them. Under --Werror the first
      warning ends the run after its error text is printed, with its message as the
      fatal message; nothing reaches standard output then. */
  method Run(f: Flags, api: Api) returns (o: Outcome)
    requires Fetchable(f, api)
    ensures CheckFlags(f).Usage? <==> o.UsageError?
    ensures CheckFlags(f).Usage? ==> o == UsageError(CheckFlags(f).msg)
    ensures CheckFlags(f).Proceed? ==>
      var m := Members(f, api);
      var k := KeysOf(api, Usernames(f, api));
      var warnings := m.warnings + k.warnings;
      if f.werror && warnings != [] then
        o == Aborted(CheckFlags(f).notices + [warnings[0].cause], warnings[0].message)
      else
        o == Completed(Output(Dedup(k.values)), CheckFlags(f).notices + WarningLines(warnings))
  {
    var verdict := CheckFlags(f);
    if verdict.Usage? {
      return UsageError(verdict.msg);
    }
    var keys, warnings, requests := CollectKeys(f, api);
    if f.werror && warnings != [] {
      return Aborted(verdict.notices + [warnings[0].cause], warnings[0].message);
    }
    o := Completed(Output(keys), verdict.notices + WarningLines(warnings));
  }

  /** A key is collected exactly when it is a non-empty line of a listed user's `.keys`
      page tagged with that user; each listed user's page is requested once, in order. */
  lemma {:induction false} KeysOfTagged(api: Api, users: seq<string>)
    ensures forall x :: x in KeysOf(api, users).values <==>
      exists u, line :: u in users && api.httpGet(KeysUrl(u)).Ok? && line in NonEmptyLines(api.httpGet(KeysUrl(u)).value) && x == Annotate(line, u, Provider)
    ensures KeysOf(api, users).requests == seq(|users|, i requires 0 <= i < |users| => HttpGet(KeysUrl(users[i])))
  {
    if users != [] {
      var prev, u := users[..|users| - 1], users[|users| - 1];
      KeysOfTagged(api, prev);
      assert users == prev + [u];
      forall x | x in KeysOf(api, users).values
        ensures exists v, line :: v in users && api.httpGet(KeysUrl(v)).Ok? && line in NonEmptyLines(api.httpGet(KeysUrl(v)).value) && x == Annotate(line, v, Provider)
      {
        if x !in KeysOf(api, prev).values {
          var lines := NonEmptyLines(api.httpGet(KeysUrl(u)).value);
          var i :| 0 <= i < |lines| && AnnotateAll(lines, u, Provider)[i] == x;
          assert lines[i] in lines && x == Annotate(lines[i], u, Provider);
        }
      }
      forall x, v, line | v in users && api.httpGet(KeysUrl(v)).Ok? && line in NonEmptyLines(api.httpGet(KeysUrl(v)).value) && x == Annotate(line, v, Provider)
        ensures x in KeysOf(api, users).values
      {
        if v != u {
          assert v in prev;
        } else {
          var lines := NonEmptyLines(api.httpGet(KeysUrl(u)).value);
          var i :| 0 <= i < |lines| && lines[i] == line;
          assert AnnotateAll(lines, u, Provider)[i] == x;
        }
      }
    }
  }

  /** The usernames main fetches keys for: no duplicates, no excluded name, every
      collected name that is not excluded, in first-seen order. */
  lemma UsernamesSpec(f: Flags, api: Api)
    requires Fetchable(f, api)
    ensures var u := Usernames(f, api);
      && NoDups(u)
      && (forall x :: x in u <==> (x in Members(f, api).values || x in f.users) && x !in f.exclude)
      && InFirstSeenOrder(u, Members(f, api).values + f.users)
  {
    SurvivorsSpec(Members(f, api).values + f.users, f.exclude);
  }

  /** Which listings main requests: none for an empty org, the org's member pages
      starting at page 0 when no team is given, one slug lookup per team otherwise. */
  lemma MembersRequests(f: Flags, api: Api)
    requires Fetchable(f, api)
    ensures |f.org| == 0 ==> Members(f, api) == Nothing()
    ensures |f.org| > 0 && |f.teams| == 0 ==> Members(f, api).requests[0] == ListMembers(f.org, 0)
    ensures |f.org| > 0 && |f.teams| == 0 ==> forall r :: r in Members(f, api).requests ==> r.ListMembers? && r.org == f.org
    ensures |f.org| > 0 ==> forall t :: t in f.teams ==> GetTeamBySlug(f.org, t) in Members(f, api).requests
    ensures |f.org| > 0 ==> SlugLookups(Members(f, api).requests) == LookupsOf(f.org, f.teams)
  {
    if |f.org| > 0 && |f.teams| > 0 {
      TeamsLookups(api, f.org, f.teams);
    } else if |f.org| > 0 {
      NoSlugLookups(Members(f, api).requests);
    }
  }

  /** The team lookups among some requests, in the order they were issued. */
  function SlugLookups(rs: seq<Request>): (r: seq<Request>)
    ensures |r| <= |rs|
    ensures forall q :: q in r ==> q.GetTeamBySlug? && q in rs
  {
    if rs == [] then []
    else (if rs[0].GetTeamBySlug? then [rs[0]] else []) + SlugLookups(rs[1..])
  }

  lemma {:induction false} SlugLookupsConcat(a: seq<Request>, b: seq<Request>)
    ensures SlugLookups(a + b) == SlugLookups(a) + SlugLookups(b)
  {
    if a == [] {
      assert a + b == b;
    } else {
      assert (a + b)[0] == a[0];
      assert (a + b)[1..] == a[1..] + b;
      SlugLookupsConcat(a[1..], b);
    }
  }

  lemma {:induction false} NoSlugLookups(rs: seq<Request>)
    requires forall i :: 0 <= i < |rs| ==> !rs[i].GetTeamBySlug?
    ensures SlugLookups(rs) == []
  {
    if rs != [] {
      NoSlugLookups(rs[1..]);
    }
  }

  /** One lookup of each team's slug in the org, team after team. */
  function LookupsOf(org: string, teams: seq<string>): (r: seq<Request>)
    ensures |r| == |teams|
    ensures forall i :: 0 <= i < |teams| ==> r[i] == GetTeamBySlug(org, teams[i])
  {
    if teams == [] then []
    else LookupsOf(org, teams[..|teams| - 1]) + [GetTeamBySlug(org, teams[|teams| - 1])]
  }

  /** One team's requests hold exactly its own slug lookup. */
  lemma TeamSlugLookup(api: Api, org: string, team: string)
    requires TeamEnds(api, org, team)
    ensures SlugLookups(TeamMembers(api, org, team).requests) == [GetTeamBySlug(org, team)]
  {
    var rs := TeamMembers(api, org, team).requests;
    assert rs[0] == GetTeamBySlug(org, team);
    NoSlugLookups(rs[1..]);
    assert rs == [rs[0]] + rs[1..];
    SlugLookupsConcat([rs[0]], rs[1..]);
  }

  lemma {:induction false} TeamsLookups(api: Api, org: string, teams: seq<string>)
    requires forall t :: t in teams ==> TeamEnds(api, org, t)
    ensures SlugLookups(TeamsMembers(api, org, teams).requests) == LookupsOf(org, teams)
    ensures forall t :: t in teams ==> GetTeamBySlug(org, t) in TeamsMembers(api, org, teams).requests
  {
    if teams != [] {
      var prev, t := teams[..|teams| - 1], teams[|teams| - 1];
      assert teams == prev + [t];
      TeamsLookups(api, org, prev);
      TeamSlugLookup(api, org, t);
      SlugLookupsConcat(TeamsMembers(api, org, prev).requests, TeamMembers(api, org, t).requests);
      assert GetTeamBySlug(org, t) in TeamMembers(api, org, t).requests;
    }
  }

  /** A team whose slug does not resolve gives no member, one warning naming the org,
      and no member request. */
  lemma FailedTeamLookup(api: Api, org: string, team: string)
    requires api.teamBySlug(org, team).Err?
    ensures TeamMembers(api, org, team) ==
      Gathered([], [Warning(api.teamBySlug(org, team).error, TeamOrgNotFound(org))], [GetTeamBySlug(org, team)])
  {
  }
}
