/** The GitHub source (datasources/github.go): validation of its configuration, and the
    pipeline that turns org, team and explicit usernames into tagged public keys. */
module Github {
  import opened Wrappers
  import opened Seqs
  import opened Text
  import opened Effects
  import opened Pagination

  /** GithubSource: `nil` pointers are `None`; a nil slice is the empty sequence. */
  datatype Source = Source(
    token: Option<string>,
    org: Option<string>,
    teams: seq<string>,
    usernames: seq<string>,
    exclude: seq<string>)

  /** The GitHub API as the source uses it, one total function per call. */
  datatype Api = Api(
    orgMembers: string -> seq<Response<string>>,   // Organizations.ListMembers answers (logins), in request order
    teamBySlug: (string, string) -> Result<int>,   // Teams.GetTeamBySlug(org, slug): the team ID
    teamMembers: int -> seq<Response<string>>,     // Teams.ListTeamMembers answers for a team ID
    userKeys: string -> Result<seq<string>>)       // Users.ListKeys: the first page of a user's keys

  datatype Request =
    | ListMembers(org: string, page: int)
    | GetTeamBySlug(org: string, slug: string)
    | ListTeamMembers(team: int, page: int)
    | ListKeys(user: string)

  const Provider := "github"

  // The fatal messages start with '-', never with the warning marker (see NotWarning).
  const MissingInput := "--github-org, " + "--github-team or --github-username " + "must be provided.\n"
  const TeamWithoutOrg := "--github-team " + "cannot be provided without --github-org.\n"
  const TeamWithoutToken := "--github-team " + "cannot be provided without --github-token.\n"
  const PublicMembersOnly := WarningMarker + " You provided --github-org " + "without --github-token: " + "organization private members won't be fetched.\n"

  function OrgNotFound(org: string): string { "[warning] Github Organisation \"" + org + "\" not found" }
  function TeamNotFound(team: string): string { "[warning] Github Team \"" + team + "\" not found.\n" }
  function UserNotFound(user: string): string { "[warning] Github User \"" + user + "\" not found.\n" }

  /** A configuration the source can run with: something to list, and teams only
      together with an org and a token. */
  predicate Usable(g: Source)
  {
    && (g.org.Some? || |g.teams| > 0 || |g.usernames| > 0)
    && (|g.teams| > 0 ==> g.org.Some? && g.token.Some?)
  }

  /** Without a token only the public members of the org are visible. */
  predicate PublicOnly(g: Source)
  {
    g.org.Some? && g.token.None?
  }

  /** CheckInputErrors: a fatal message exactly for unusable configurations, checked in
      a fixed order; a warning for an org without a token; "" otherwise. */
  function CheckInputErrors(g: Source): (msg: string)
    ensures (msg != "" && !IsWarning(msg)) <==> !Usable(g)
    ensures IsWarning(msg) <==> Usable(g) && PublicOnly(g)
    ensures msg == "" <==> Usable(g) && !PublicOnly(g)
    ensures g.org.None? && |g.teams| == 0 && |g.usernames| == 0 ==> msg == MissingInput
    ensures |g.teams| > 0 && g.org.None? ==> msg == TeamWithoutOrg
    ensures g.org.Some? && |g.teams| > 0 && g.token.None? ==> msg == TeamWithoutToken
  {
    NotWarning(MissingInput);
    NotWarning(TeamWithoutOrg);
    NotWarning(TeamWithoutToken);
    assert IsWarning(PublicMembersOnly);
    if g.org.None? && |g.teams| == 0 && |g.usernames| == 0 then MissingInput
    else if |g.teams| > 0 && g.org.None? then TeamWithoutOrg
    else if |g.teams| > 0 && g.token.None? then TeamWithoutToken
    else if g.org.Some? && g.token.None? then PublicMembersOnly
    else ""
  }

  /** The team's member listing ends, when the slug resolves at all. */
  predicate TeamEnds(api: Api, org: string, team: string)
  {
    match api.teamBySlug(org, team)
    case Err(_) => true
    case Ok(id) => Ends(api.teamMembers(id))
  }

  /** Every listing GetKeys asks for eventually ends. */
  predicate Fetchable(g: Source, api: Api)
  {
    g.org.Some? ==>
      if |g.teams| > 0 then forall t :: t in g.teams ==> TeamEnds(api, g.org.value, t)
      else Ends(api.orgMembers(g.org.value))
  }

  function MemberPages(org: string, cursors: seq<int>): seq<Request>
  {
    seq(|cursors|, k requires 0 <= k < |cursors| => ListMembers(org, cursors[k]))
  }

  function TeamPages(team: int, cursors: seq<int>): seq<Request>
  {
    seq(|cursors|, k requires 0 <= k < |cursors| => ListTeamMembers(team, cursors[k]))
  }

  /** What getGithubOrgMembers yields: the logins of the pages received. */
  function OrgMembers(api: Api, org: string): Gathered<string, Request>
    requires Ends(api.orgMembers(org))
  {
    var rs := api.orgMembers(org);
    Gathered(Collected(rs), WarnIf(Failure(rs), OrgNotFound(org)), MemberPages(org, Cursors(rs)))
  }

  method GetOrgMembers(api: Api, org: string) returns (logins: seq<string>, warnings: seq<Warning>, requests: seq<Request>)
    requires Ends(api.orgMembers(org))
    ensures Gathered(logins, warnings, requests) == OrgMembers(api, org)
  {
    var cursors, failure;
    logins, cursors, failure := FetchAll(api.orgMembers(org));
    warnings := WarnIf(failure, OrgNotFound(org));
    requests := MemberPages(org, cursors);
  }

  /** What getGithubTeamMembers yields: nothing but a warning when the slug does not
      resolve, otherwise the logins of the team's pages. */
  function TeamMembers(api: Api, org: string, team: string): Gathered<string, Request>
    requires TeamEnds(api, org, team)
  {
    match api.teamBySlug(org, team)
    case Err(e) => Gathered([], [Warning(e, TeamNotFound(team))], [GetTeamBySlug(org, team)])
    case Ok(id) =>
      var rs := api.teamMembers(id);
      Gathered(Collected(rs), WarnIf(Failure(rs), TeamNotFound(team)), [GetTeamBySlug(org, team)] + TeamPages(id, Cursors(rs)))
  }

  method GetTeamMembers(api: Api, org: string, team: string) returns (logins: seq<string>, warnings: seq<Warning>, requests: seq<Request>)
    requires TeamEnds(api, org, team)
    ensures Gathered(logins, warnings, requests) == TeamMembers(api, org, team)
  {
    var lookup := api.teamBySlug(org, team);
    if lookup.Err? {
      return [], [Warning(lookup.error, TeamNotFound(team))], [GetTeamBySlug(org, team)];
    }
    var cursors, failure;
    logins, cursors, failure := FetchAll(api.teamMembers(lookup.value));
    warnings := WarnIf(failure, TeamNotFound(team));
    requests := [GetTeamBySlug(org, team)] + TeamPages(lookup.value, cursors);
  }

  /** The members of the teams, team after team. */
  function TeamsMembers(api: Api, org: string, teams: seq<string>): Gathered<string, Request>
    requires forall t :: t in teams ==> TeamEnds(api, org, t)
  {
    if teams == [] then Nothing()
    else Then(TeamsMembers(api, org, teams[..|teams| - 1]), TeamMembers(api, org, teams[|teams| - 1]))
  }

  /** The members collected before explicit usernames: team members when an org and
      teams are given, org members when only an org is given, nobody otherwise. */
  function Members(g: Source, api: Api): Gathered<string, Request>
    requires Fetchable(g, api)
  {
    if g.org.None? then Nothing()
    else if |g.teams| > 0 then TeamsMembers(api, g.org.value, g.teams)
    else OrgMembers(api, g.org.value)
  }

  /** The usernames whose keys are fetched. */
  function Usernames(g: Source, api: Api): seq<string>
    requires Fetchable(g, api)
  {
    Without(Dedup(Members(g, api).values + g.usernames), g.exclude)
  }

  /** getUserSSHKeys: the user's keys tagged `<key> <user>@github`, or a warning. */
  function UserSSHKeys(api: Api, user: string): Gathered<string, Request>
  {
    match api.userKeys(user)
    case Err(e) => Gathered([], [Warning(e, UserNotFound(user))], [ListKeys(user)])
    case Ok(keys) => Gathered(AnnotateAll(keys, user, Provider), [], [ListKeys(user)])
  }

  /** The keys of the users, user after user, before the final de-duplication. */
  function KeysOf(api: Api, users: seq<string>): Gathered<string, Request>
  {
    if users == [] then Nothing()
    else Then(KeysOf(api, users[..|users| - 1]), UserSSHKeys(api, users[|users| - 1]))
  }

  /** The first block of GetKeys: team members when an org and teams are given, org
      members when only an org is given. */
  method GetMembers(g: Source, api: Api) returns (usernames: seq<string>, warnings: seq<Warning>, requests: seq<Request>)
    requires Fetchable(g, api)
    ensures Gathered(usernames, warnings, requests) == Members(g, api)
  {
    usernames, warnings, requests := [], [], [];
    if g.org.Some? {
      if |g.teams| > 0 {
        var i := 0;
        while i < |g.teams|
          invariant 0 <= i <= |g.teams|
          invariant Gathered(usernames, warnings, requests) == TeamsMembers(api, g.org.value, g.teams[..i])
        {
          var logins, w, r := GetTeamMembers(api, g.org.value, g.teams[i]);
          assert g.teams[..i + 1][..i] == g.teams[..i];
          usernames, warnings, requests := usernames + logins, warnings + w, requests + r;
          i := i + 1;
        }
        assert g.teams[..i] == g.teams;
      } else {
        usernames, warnings, requests := GetOrgMembers(api, g.org.value);
      }
    }
  }

  /** GetKeys: collect usernames, de-duplicate, drop excluded names, fetch and tag each
      user's keys, de-duplicate the keys. */
  method GetKeys(g: Source, api: Api) returns (keys: seq<string>, warnings: seq<Warning>, requests: seq<Request>)
    requires Fetchable(g, api)
    ensures var m := Members(g, api);
      var k := KeysOf(api, Usernames(g, api));
      && keys == Dedup(k.values)
      && warnings == m.warnings + k.warnings
      && requests == m.requests + k.requests
  {
    var usernames, memberWarnings, memberRequests := GetMembers(g, api);
    usernames := usernames + g.usernames;
    usernames := Dedup(usernames);
    usernames := Without(usernames, g.exclude);
    assert usernames == Usernames(g, api);

    var sshKeys: seq<string> := [];
    var keyWarnings: seq<Warning>, keyRequests: seq<Request> := [], [];
    var j := 0;
    while j < |usernames|
      invariant 0 <= j <= |usernames|
      invariant Gathered(sshKeys, keyWarnings, keyRequests) == KeysOf(api, usernames[..j])
    {
      var k := UserSSHKeys(api, usernames[j]);
      assert usernames[..j + 1][..j] == usernames[..j];
      sshKeys, keyWarnings, keyRequests := sshKeys + k.values, keyWarnings + k.warnings, keyRequests + k.requests;
      j := j + 1;
    }
    assert usernames[..j] == usernames;
    warnings, requests := memberWarnings + keyWarnings, memberRequests + keyRequests;
    keys := Dedup(sshKeys);
  }

  /** A key is in KeysOf exactly when it is one of a listed user's keys tagged with
      that user; each listed user is asked for keys once, in list order. */
  lemma {:induction false} KeysOfTagged(api: Api, users: seq<string>)
    ensures forall x :: x in KeysOf(api, users).values <==>
      exists u, key :: u in users && api.userKeys(u).Ok? && key in api.userKeys(u).value && x == Annotate(key, u, Provider)
    ensures KeysOf(api, users).requests == seq(|users|, i requires 0 <= i < |users| => ListKeys(users[i]))
  {
    if users != [] {
      var prev, u := users[..|users| - 1], users[|users| - 1];
      KeysOfTagged(api, prev);
      assert users == prev + [u];
      forall x | x in KeysOf(api, users).values
        ensures exists v, key :: v in users && api.userKeys(v).Ok? && key in api.userKeys(v).value && x == Annotate(key, v, Provider)
      {
        if x !in KeysOf(api, prev).values {
          var ks := api.userKeys(u).value;
          var i :| 0 <= i < |ks| && AnnotateAll(ks, u, Provider)[i] == x;
          assert ks[i] in ks && x == Annotate(ks[i], u, Provider);
        }
      }
      forall x, v, key | v in users && api.userKeys(v).Ok? && key in api.userKeys(v).value && x == Annotate(key, v, Provider)
        ensures x in KeysOf(api, users).values
      {
        if v != u {
          assert v in prev;
        } else {
          var ks := api.userKeys(u).value;
          var i :| 0 <= i < |ks| && ks[i] == key;
          assert AnnotateAll(ks, u, Provider)[i] == x;
        }
      }
    }
  }

  /** The keys GetKeys returns: no duplicates, and exactly the keys of the surviving
      usernames tagged with their owner, so no key belongs to an excluded user. */
  lemma GetKeysResult(g: Source, api: Api)
    requires Fetchable(g, api)
    ensures var keys := Dedup(KeysOf(api, Usernames(g, api)).values);
      && NoDups(keys)
      && forall x :: x in keys <==>
        exists u, key :: u in Usernames(g, api) && api.userKeys(u).Ok? && key in api.userKeys(u).value && x == Annotate(key, u, Provider)
    ensures forall u :: u in Usernames(g, api) ==> u !in g.exclude
  {
    KeysOfTagged(api, Usernames(g, api));
  }

  /** The team lookups among some requests, in the order they were issued. */
  function SlugLookups(rs: seq<Request>): (r: seq<Request>)
    ensures |r| <= |rs|
    ensures forall q :: q in r ==> q.GetTeamBySlug? && q in rs
  {
    if rs == [] then []
    else (if rs[0].GetTeamBySlug? then [rs[0]] else []) + SlugLookups(rs[1..])
  }

  lemma {:induction false} SlugLookupsConcat(a: seq<Request>, b: seq<Request>)
    ensures SlugLookups(a + b) == SlugLookups(a) + SlugLookups(b)
  {
    if a == [] {
      assert a + b == b;
    } else {
      assert (a + b)[0] == a[0];
      assert (a + b)[1..] == a[1..] + b;
      SlugLookupsConcat(a[1..], b);
    }
  }

  lemma {:induction false} NoSlugLookups(rs: seq<Request>)
    requires forall i :: 0 <= i < |rs| ==> !rs[i].GetTeamBySlug?
    ensures SlugLookups(rs) == []
  {
    if rs != [] {
      NoSlugLookups(rs[1..]);
    }
  }

  /** One lookup of each team's slug in the org, team after team. */
  function LookupsOf(org: string, teams: seq<string>): (r: seq<Request>)
    ensures |r| == |teams|
    ensures forall i :: 0 <= i < |teams| ==> r[i] == GetTeamBySlug(org, teams[i])
  {
    if teams == [] then []
    else LookupsOf(org, teams[..|teams| - 1]) + [GetTeamBySlug(org, teams[|teams| - 1])]
  }

  /** One team's requests hold exactly its own slug lookup. */
  lemma TeamSlugLookup(api: Api, org: string, team: string)
    requires TeamEnds(api, org, team)
    ensures SlugLookups(TeamMembers(api, org, team).requests) == [GetTeamBySlug(org, team)]
  {
    var rs := TeamMembers(api, org, team).requests;
    assert rs[0] == GetTeamBySlug(org, team);
    NoSlugLookups(rs[1..]);
    assert rs == [rs[0]] + rs[1..];
    SlugLookupsConcat([rs[0]], rs[1..]);
  }

  lemma {:induction false} TeamsSlugLookups(api: Api, org: string, teams: seq<string>)
    requires forall t :: t in teams ==> TeamEnds(api, org, t)
    ensures SlugLookups(TeamsMembers(api, org, teams).requests) == LookupsOf(org, teams)
  {
    if teams != [] {
      var prev, t := teams[..|teams| - 1], teams[|teams| - 1];
      assert teams == prev + [t];
      TeamsSlugLookups(api, org, prev);
      TeamSlugLookup(api, org, t);
      SlugLookupsConcat(TeamsMembers(api, org, prev).requests, TeamMembers(api, org, t).requests);
    }
  }

  /** Requests issued while collecting team members: one slug lookup per team, and
      member pages only for teams whose slug resolved. */
  lemma {:induction false} TeamsRequests(api: Api, org: string, teams: seq<string>)
    requires forall t :: t in teams ==> TeamEnds(api, org, t)
    ensures forall t :: t in teams ==> GetTeamBySlug(org, t) in TeamsMembers(api, org, teams).requests
    ensures forall r :: r in TeamsMembers(api, org, teams).requests ==>
      && (r.GetTeamBySlug? ==> r.org == org && r.slug in teams)
      && (r.ListTeamMembers? ==> exists t :: t in teams && api.teamBySlug(org, t) == Ok(r.team))
      && !r.ListMembers? && !r.ListKeys?
  {
    if teams != [] {
      var prev, t := teams[..|teams| - 1], teams[|teams| - 1];
      assert teams == prev + [t];
      TeamsRequests(api, org, prev);
      var last := TeamMembers(api, org, t);
      assert GetTeamBySlug(org, t) == last.requests[0];
      forall r | r in last.requests && r.ListTeamMembers?
        ensures api.teamBySlug(org, t) == Ok(r.team)
      {
      }
    }
  }

  /** Which listings are requested: org member pages only for an org without teams,
      team lookups and team pages only for an org with teams, never keys. */
  lemma MembersRequests(g: Source, api: Api)
    requires Fetchable(g, api)
    ensures forall r :: r in Members(g, api).requests ==>
      && (r.ListMembers? ==> g.org == Some(r.org) && |g.teams| == 0)
      && (r.GetTeamBySlug? ==> g.org == Some(r.org) && r.slug in g.teams)
      && (r.ListTeamMembers? ==> g.org.Some? && exists t :: t in g.teams && api.teamBySlug(g.org.value, t) == Ok(r.team))
      && !r.ListKeys?
    ensures g.org.Some? && |g.teams| == 0 ==> Members(g, api).requests[0] == ListMembers(g.org.value, 0)
    ensures g.org.Some? ==> forall t :: t in g.teams ==> GetTeamBySlug(g.org.value, t) in Members(g, api).requests
    ensures g.org.None? ==> Members(g, api).requests == []
    ensures g.org.Some? ==> SlugLookups(Members(g, api).requests) == LookupsOf(g.org.value, g.teams)
  {
    if g.org.Some? && |g.teams| > 0 {
      TeamsRequests(api, g.org.value, g.teams);
      TeamsSlugLookups(api, g.org.value, g.teams);
    } else if g.org.Some? {
      NoSlugLookups(Members(g, api).requests);
    }
  }

  /** A team whose slug does not resolve contributes no login, one warning, and no
      member-page request. */
  lemma FailedTeamLookup(api: Api, org: string, team: string)
    requires api.teamBySlug(org, team).Err?
    ensures TeamMembers(api, org, team) ==
      Gathered([], [Warning(api.teamBySlug(org, team).error, TeamNotFound(team))], [GetTeamBySlug(org, team)])
  {
  }
}
