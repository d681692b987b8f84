/** The GitLab source (sources/gitlab.go). Users are identified by numeric ID: group
    members, explicit usernames and exclusions are merged in one ID-to-username map
    before any key is fetched, with a fixed pause before each key request. */
module Gitlab {
  import opened Wrappers
  import opened Seqs
  import opened Text
  import opened Effects
  import opened Pagination

  /** GitlabSource. The token is a plain string: "" means no token. */
  datatype Source = Source(token: string, groups: seq<string>, usernames: seq<string>, exclude: seq<string>)

  datatype Member = Member(id: int, username: string)

  /** The GitLab API as the source uses it, one total function per call. */
  datatype Api = Api(
    listUsers: string -> Result<seq<int>>,          // Users.ListUsers with a username filter: IDs of the users listed
    groupMembers: string -> seq<Response<Member>>,  // Groups.ListAllGroupMembers answers, in request order
    sshKeys: int -> Result<seq<string>>)            // Users.ListSSHKeysForUser: the first page of a user's keys

  /** Remote requests, and the pauses between key requests. */
  datatype Effect =
    | ListUsers(username: string)
    | ListAllGroupMembers(group: string, page: int)
    | Sleep(ms: int)
    | ListSSHKeysForUser(id: int)

  /** `sleepTime`: 100 ms, for a rate limit of 10 requests per second and 600 per minute. */
  const SleepMs := 100

  const Provider := "gitlab"

  const TokenMissing := "--gitlab-token is missing.\n"
  const MissingInput := "--gitlab-group " + "or --gitlab-usernames " + "must be provided.\n"

  function UserNotFound(username: string): string { "[warning] Gitlab user \"" + username + "\" not found.\n" }
  function KeysNotFound(username: string): string { "[warning] Gitlab User \"" + username + "\" not found.\n" }
  function GroupNotFound(group: string): string { "[warning] Gitlab Group or Subgroup \"" + group + "\" not found.\n" }

  /** CheckInputErrors: the missing token is reported first, then the lack of anything
      to list; never a warning. */
  function CheckInputErrors(g: Source): (msg: string)
    ensures msg == "" <==> g.token != "" && (|g.groups| > 0 || |g.usernames| > 0)
    ensures !IsWarning(msg)
    ensures g.token == "" ==> msg == TokenMissing
    ensures g.token != "" && |g.groups| == 0 && |g.usernames| == 0 ==> msg == MissingInput
  {
    NotWarning(TokenMissing);
    NotWarning(MissingInput);
    if g.token == "" then TokenMissing
    else if |g.groups| == 0 && |g.usernames| == 0 then MissingInput
    else ""
  }

  /** getGitlabUserID: a username resolves only when the listing holds exactly one user. */
  function UserId(listing: Result<seq<int>>, username: string): (r: Result<int>)
    ensures r.Ok? <==> listing.Ok? && |listing.value| == 1
    ensures r.Ok? ==> r.value == listing.value[0]
    ensures listing.Err? ==> r == Err(listing.error)
  {
    match listing
    case Err(e) => Err(e)
    case Ok(ids) => if |ids| != 1 then Err("Gitlab user not found: " + username) else Ok(ids[0])
  }

  /** `username` resolves to `id`. */
  predicate Resolves(api: Api, username: string, id: int)
  {
    UserId(api.listUsers(username), username) == Ok(id)
  }

  /** `funk.Map` from the members to an ID-to-username map: each member is written in
      turn, so an ID seen twice keeps the username of its last occurrence. */
  function IdMap(members: seq<Member>): map<int, string>
  {
    if members == [] then map[]
    else
      var last := members[|members| - 1];
      IdMap(members[..|members| - 1])[last.id := last.username]
  }

  /** The map holds exactly the members' IDs, each with the username of the last member
      carrying it. */
  lemma {:induction false} IdMapSpec(members: seq<Member>)
    ensures IdMap(members).Keys == set i | 0 <= i < |members| :: members[i].id
    ensures forall i :: 0 <= i < |members| && (forall j :: i < j < |members| ==> members[j].id != members[i].id) ==>
      IdMap(members)[members[i].id] == members[i].username
  {
    IdMapKeys(members);
    IdMapLast(members);
  }

  lemma {:induction false} IdMapKeys(members: seq<Member>)
    ensures IdMap(members).Keys == set i | 0 <= i < |members| :: members[i].id
  {
    if members != [] {
      var prev := members[..|members| - 1];
      IdMapKeys(prev);
      assert forall i :: 0 <= i < |prev| ==> prev[i] == members[i];
      assert (set i | 0 <= i < |members| :: members[i].id) == (set i | 0 <= i < |prev| :: prev[i].id) + {members[|members| - 1].id};
    }
  }

  lemma {:induction false} IdMapLast(members: seq<Member>)
    ensures forall i :: 0 <= i < |members| && (forall j :: i < j < |members| ==> members[j].id != members[i].id) ==>
      members[i].id in IdMap(members) && IdMap(members)[members[i].id] == members[i].username
  {
    if members != [] {
      var prev := members[..|members| - 1];
      IdMapLast(prev);
      IdMapKeys(prev);
      assert forall i :: 0 <= i < |prev| ==> prev[i] == members[i];
    }
  }

  /** The key a `range` loop over a map visits next: any one not yet visited. */
  method Next<K>(rest: set<K>) returns (k: K)
    requires rest != {}
    ensures k in rest
  {
    k :| k in rest;
  }

  /** One `for k, v := range src { c[k] = v }` loop of mapUnion: every entry of `src` is
      written over `c`. */
  method CopyInto(c: map<int, string>, src: map<int, string>) returns (r: map<int, string>)
    ensures r == c + src
  {
    r := c;
    var rest := src.Keys;
    while rest != {}
      invariant rest <= src.Keys
      invariant r == c + (map k | k in src && k !in rest :: src[k])
      decreases |rest|
    {
      var k := Next(rest);
      r := r[k := src[k]];
      rest := rest - {k};
    }
    assert (map k | k in src && k !in rest :: src[k]) == src;
  }

  /** mapUnion: a fresh map holding every key of `a` and `b`; on a shared key the value
      from `b` wins. */
  method MapUnion(a: map<int, string>, b: map<int, string>) returns (c: map<int, string>)
    ensures c == a + b
    ensures c.Keys == a.Keys + b.Keys
    ensures forall k :: k in b ==> c[k] == b[k]
    ensures forall k :: k in a && k !in b ==> c[k] == a[k]
  {
    c := CopyInto(map[], a);
    c := CopyInto(c, b);
  }

  /** The ID map being built, with the warnings and requests issued so far. */
  datatype Resolution = Resolution(ids: map<int, string>, warnings: seq<Warning>, effects: seq<Effect>)

  function GroupPages(group: string, cursors: seq<int>): seq<Effect>
  {
    seq(|cursors|, k requires 0 <= k < |cursors| => ListAllGroupMembers(group, cursors[k]))
  }

  /** What getGitlabGroupMembers yields: the members of the pages received, as a map. */
  function GroupMembers(api: Api, group: string): Resolution
    requires Ends(api.groupMembers(group))
  {
    var rs := api.groupMembers(group);
    Resolution(IdMap(Collected(rs)), WarnIf(Failure(rs), GroupNotFound(group)), GroupPages(group, Cursors(rs)))
  }

  method GetGroupMembers(api: Api, group: string) returns (members: map<int, string>, warnings: seq<Warning>, effects: seq<Effect>)
    requires Ends(api.groupMembers(group))
    ensures Resolution(members, warnings, effects) == GroupMembers(api, group)
  {
    var all, cursors, failure := FetchAll(api.groupMembers(group));
    members := IdMap(all);
    warnings := WarnIf(failure, GroupNotFound(group));
    effects := GroupPages(group, cursors);
  }

  predicate GroupsEnd(api: Api, groups: seq<string>)
  {
    forall gr :: gr in groups ==> Ends(api.groupMembers(gr))
  }

  /** The groups' members merged into `st`, group after group, later groups winning. */
  function AddGroups(st: Resolution, api: Api, groups: seq<string>): Resolution
    requires GroupsEnd(api, groups)
  {
    if groups == [] then st
    else
      var prev := AddGroups(st, api, groups[..|groups| - 1]);
      var m := GroupMembers(api, groups[|groups| - 1]);
      Resolution(prev.ids + m.ids, prev.warnings + m.warnings, prev.effects + m.effects)
  }

  /** The explicit usernames, each looked up and, when it resolves, stored under its ID. */
  function AddUsers(st: Resolution, api: Api, names: seq<string>): Resolution
  {
    if names == [] then st
    else
      var prev := AddUsers(st, api, names[..|names| - 1]);
      var name := names[|names| - 1];
      var effects := prev.effects + [ListUsers(name)];
      match UserId(api.listUsers(name), name)
      case Err(cause) => Resolution(prev.ids, prev.warnings + [Warning(cause, UserNotFound(name))], effects)
      case Ok(id) => Resolution(prev.ids[id := name], prev.warnings, effects)
  }

  /** The excluded usernames, each looked up and, when it resolves, its ID removed. */
  function RemoveExcluded(st: Resolution, api: Api, names: seq<string>): Resolution
  {
    if names == [] then st
    else
      var prev := RemoveExcluded(st, api, names[..|names| - 1]);
      var name := names[|names| - 1];
      var effects := prev.effects + [ListUsers(name)];
      match UserId(api.listUsers(name), name)
      case Err(cause) => Resolution(prev.ids, prev.warnings + [Warning(cause, UserNotFound(name))], effects)
      case Ok(id) => Resolution(prev.ids - {id}, prev.warnings, effects)
  }

  const Start := Resolution(map[], [], [])

  /** The ID map GetKeys fetches keys for: groups, then explicit usernames, then
      exclusions. */
  function Identities(g: Source, api: Api): Resolution
    requires GroupsEnd(api, g.groups)
  {
    RemoveExcluded(AddUsers(AddGroups(Start, api, g.groups), api, g.usernames), api, g.exclude)
  }

  /** getUserSSHKeys: the user's keys tagged `<key> <username>@gitlab`, or a warning. */
  function UserSSHKeys(api: Api, id: int, username: string): Gathered<string, Effect>
  {
    match api.sshKeys(id)
    case Err(e) => Gathered([], [Warning(e, KeysNotFound(username))], [ListSSHKeysForUser(id)])
    case Ok(keys) => Gathered(AnnotateAll(keys, username, Provider), [], [ListSSHKeysForUser(id)])
  }

  /** The keys of the IDs taken in the order `order`, each fetch preceded by a pause. */
  function FetchKeys(api: Api, ids: map<int, string>, order: seq<int>): Gathered<string, Effect>
    requires forall id :: id in order ==> id in ids
  {
    if order == [] then Nothing()
    else
      var prev := FetchKeys(api, ids, order[..|order| - 1]);
      var id := order[|order| - 1];
      var k := UserSSHKeys(api, id, ids[id]);
      Gathered(prev.values + k.values, prev.warnings + k.warnings, prev.requests + [Sleep(SleepMs)] + k.requests)
  }

  /** The groups loop of GetKeys. */
  method GetGroupsMembers(api: Api, groups: seq<string>) returns (userIds: map<int, string>, warnings: seq<Warning>, effects: seq<Effect>)
    requires GroupsEnd(api, groups)
    ensures Resolution(userIds, warnings, effects) == AddGroups(Start, api, groups)
  {
    userIds, warnings, effects := map[], [], [];
    for i := 0 to |groups|
      invariant Resolution(userIds, warnings, effects) == AddGroups(Start, api, groups[..i])
    {
      var members, w, e := GetGroupMembers(api, groups[i]);
      assert groups[..i + 1][..i] == groups[..i];
      userIds := MapUnion(userIds, members);
      warnings, effects := warnings + w, effects + e;
    }
    assert groups[..|groups|] == groups;
  }

  /** The explicit-usernames loop of GetKeys. */
  method AddUsernames(st: Resolution, api: Api, names: seq<string>) returns (r: Resolution)
    ensures r == AddUsers(st, api, names)
  {
    r := st;
    for i := 0 to |names|
      invariant r == AddUsers(st, api, names[..i])
    {
      var name := names[i];
      assert names[..i + 1][..i] == names[..i];
      var lookup := UserId(api.listUsers(name), name);
      if lookup.Err? {
        r := Resolution(r.ids, r.warnings + [Warning(lookup.error, UserNotFound(name))], r.effects + [ListUsers(name)]);
      } else {
        r := Resolution(r.ids[lookup.value := name], r.warnings, r.effects + [ListUsers(name)]);
      }
    }
    assert names[..|names|] == names;
  }

  /** The exclusion loop of GetKeys. */
  method DeleteExcluded(st: Resolution, api: Api, names: seq<string>) returns (r: Resolution)
    ensures r == RemoveExcluded(st, api, names)
  {
    r := st;
    for i := 0 to |names|
      invariant r == RemoveExcluded(st, api, names[..i])
    {
      var name := names[i];
      assert names[..i + 1][..i] == names[..i];
      var lookup := UserId(api.listUsers(name), name);
      if lookup.Err? {
        r := Resolution(r.ids, r.warnings + [Warning(lookup.error, UserNotFound(name))], r.effects + [ListUsers(name)]);
      } else {
        r := Resolution(r.ids - {lookup.value}, r.warnings, r.effects + [ListUsers(name)]);
      }
    }
    assert names[..|names|] == names;
  }

  /** The key loop of GetKeys: every ID of the map once, in an order the map iteration
      picks, a pause before each key request. */
  method FetchAllKeys(api: Api, ids: map<int, string>) returns (keys: seq<string>, fetched: seq<int>, warnings: seq<Warning>, effects: seq<Effect>)
    ensures NoDups(fetched)
    ensures forall id :: id in fetched <==> id in ids
    ensures Gathered(keys, warnings, effects) == FetchKeys(api, ids, fetched)
  {
    keys, fetched, warnings, effects := [], [], [], [];
    var rest := ids.Keys;
    while rest != {}
      invariant rest <= ids.Keys
      invariant NoDups(fetched)
      invariant forall id :: id in fetched <==> id in ids && id !in rest
      invariant Gathered(keys, warnings, effects) == FetchKeys(api, ids, fetched)
      decreases |rest|
    {
      var id := Next(rest);
      effects := effects + [Sleep(SleepMs)];
      var k := UserSSHKeys(api, id, ids[id]);
      keys, warnings, effects := keys + k.values, warnings + k.warnings, effects + k.requests;
      assert (fetched + [id])[..|fetched|] == fetched;
      fetched := fetched + [id];
      rest := rest - {id};
    }
  }

  /** GetKeys. `fetched` is the order in which the map iteration visited the IDs; Go
      leaves that order unspecified, and the key set does not depend on it
      (KeysIndependentOfOrder). */
  method GetKeys(g: Source, api: Api) returns (keys: seq<string>, fetched: seq<int>, warnings: seq<Warning>, effects: seq<Effect>)
    requires GroupsEnd(api, g.groups)
    ensures var st := Identities(g, api);
      && NoDups(fetched)
      && (forall id :: id in fetched <==> id in st.ids)
      && var k := FetchKeys(api, st.ids, fetched);
      && keys == Dedup(k.values)
      && warnings == st.warnings + k.warnings
      && effects == st.effects + k.requests
  {
    var userIds, w, e := GetGroupsMembers(api, g.groups);
    var st := AddUsernames(Resolution(userIds, w, e), api, g.usernames);
    st := DeleteExcluded(st, api, g.exclude);
    var sshKeys, keyWarnings, keyEffects;
    sshKeys, fetched, keyWarnings, keyEffects := FetchAllKeys(api, st.ids);
    keys := Dedup(sshKeys);
    warnings, effects := st.warnings + keyWarnings, st.effects + keyEffects;
  }

  /** Some name in `names` resolves to `id`. */
  predicate ResolvedBy(api: Api, names: seq<string>, id: int)
  {
    exists i :: 0 <= i < |names| && Resolves(api, names[i], id)
  }

  /** Some group in `groups` lists a member with ID `id`. */
  predicate InGroups(api: Api, groups: seq<string>, id: int)
    requires GroupsEnd(api, groups)
  {
    exists i :: 0 <= i < |groups| && id in GroupMembers(api, groups[i]).ids
  }

  /** One username lookup per name, in order. */
  function Lookups(names: seq<string>): (r: seq<Effect>)
    ensures forall e :: e in r ==> e.ListUsers? && e.username in names
  {
    seq(|names|, i requires 0 <= i < |names| => ListUsers(names[i]))
  }

  lemma ResolvedBySnoc(api: Api, names: seq<string>, name: string, id: int)
    ensures ResolvedBy(api, names + [name], id) <==> ResolvedBy(api, names, id) || Resolves(api, name, id)
  {
    var all := names + [name];
    if ResolvedBy(api, all, id) && !Resolves(api, name, id) {
      var i :| 0 <= i < |all| && Resolves(api, all[i], id);
      assert i < |names| && all[i] == names[i];
    }
    if ResolvedBy(api, names, id) {
      var i :| 0 <= i < |names| && Resolves(api, names[i], id);
      assert all[i] == names[i];
    }
    if Resolves(api, name, id) {
      assert all[|names|] == name;
    }
  }

  /** The explicit usernames: every ID one of them resolves to is added and named by a
      username that resolves to it, overriding a group member's name; other entries are
      kept; one lookup per name. */
  lemma {:induction false} AddUsersSpec(st: Resolution, api: Api, names: seq<string>)
    ensures var r := AddUsers(st, api, names);
      && (forall id :: id in r.ids <==> id in st.ids || ResolvedBy(api, names, id))
      && (forall id :: ResolvedBy(api, names, id) ==> r.ids[id] in names && Resolves(api, r.ids[id], id))
      && (forall id :: id in st.ids && !ResolvedBy(api, names, id) ==> r.ids[id] == st.ids[id])
      && r.effects == st.effects + Lookups(names)
  {
    if names != [] {
      var prev, name := names[..|names| - 1], names[|names| - 1];
      assert names == prev + [name];
      AddUsersSpec(st, api, prev);
      forall id {
        ResolvedBySnoc(api, prev, name, id);
      }
      assert Lookups(names) == Lookups(prev) + [ListUsers(name)];
    }
  }

  /** When several usernames resolve to one ID, the last of them names it, as later
      writes to the map overwrite earlier ones. */
  lemma {:induction false} AddUsersLastWins(st: Resolution, api: Api, names: seq<string>, i: int, id: int)
    requires 0 <= i < |names| && Resolves(api, names[i], id)
    requires forall j :: i < j < |names| ==> !Resolves(api, names[j], id)
    ensures var r := AddUsers(st, api, names);
      id in r.ids && r.ids[id] == names[i]
  {
    var prev := names[..|names| - 1];
    if i < |names| - 1 {
      assert prev[i] == names[i];
      AddUsersLastWins(st, api, prev, i, id);
    }
  }

  /** The exclusions: an ID is kept exactly when no excluded name resolves to it, with
      its username unchanged; one lookup per name. */
  lemma {:induction false} RemoveExcludedSpec(st: Resolution, api: Api, names: seq<string>)
    ensures var r := RemoveExcluded(st, api, names);
      && (forall id :: id in r.ids <==> id in st.ids && !ResolvedBy(api, names, id))
      && (forall id :: id in r.ids ==> r.ids[id] == st.ids[id])
      && r.effects == st.effects + Lookups(names)
  {
    if names != [] {
      var prev, name := names[..|names| - 1], names[|names| - 1];
      assert names == prev + [name];
      RemoveExcludedSpec(st, api, prev);
      forall id {
        ResolvedBySnoc(api, prev, name, id);
      }
      assert Lookups(names) == Lookups(prev) + [ListUsers(name)];
    }
  }

  lemma InGroupsSnoc(api: Api, groups: seq<string>, gr: string, id: int)
    requires GroupsEnd(api, groups + [gr])
    ensures GroupsEnd(api, groups)
    ensures InGroups(api, groups + [gr], id) <==> InGroups(api, groups, id) || id in GroupMembers(api, gr).ids
  {
    var all := groups + [gr];
    assert forall x :: x in groups ==> x in all;
    if InGroups(api, all, id) && id !in GroupMembers(api, gr).ids {
      var i :| 0 <= i < |all| && id in GroupMembers(api, all[i]).ids;
      assert i < |groups| && all[i] == groups[i];
    }
    if InGroups(api, groups, id) {
      var i :| 0 <= i < |groups| && id in GroupMembers(api, groups[i]).ids;
      assert all[i] == groups[i];
    }
    if id in GroupMembers(api, gr).ids {
      assert all[|groups|] == gr;
    }
  }

  /** The groups: the map gains the IDs of every group's members, and the only requests
      are member pages of those groups. */
  lemma {:induction false} AddGroupsSpec(st: Resolution, api: Api, groups: seq<string>)
    requires GroupsEnd(api, groups)
    ensures var r := AddGroups(st, api, groups);
      && (forall id :: id in r.ids <==> id in st.ids || InGroups(api, groups, id))
      && (forall e :: e in r.effects ==> e in st.effects || (e.ListAllGroupMembers? && e.group in groups))
  {
    if groups != [] {
      var prev, gr := groups[..|groups| - 1], groups[|groups| - 1];
      assert groups == prev + [gr];
      AddGroupsSpec(st, api, prev);
      forall id {
        InGroupsSnoc(api, prev, gr, id);
      }
    }
  }

  /** The IDs whose keys GetKeys fetches: members of a group or users named explicitly,
      minus every user an exclusion resolves to. Resolving them issues only member-page
      requests and one lookup per username and exclusion: no pause and no key request. */
  lemma IdentitiesSpec(g: Source, api: Api)
    requires GroupsEnd(api, g.groups)
    ensures var st := Identities(g, api);
      && (forall id :: id in st.ids <==>
            (InGroups(api, g.groups, id) || ResolvedBy(api, g.usernames, id)) && !ResolvedBy(api, g.exclude, id))
      && (forall id :: id in st.ids && ResolvedBy(api, g.usernames, id) ==> Resolves(api, st.ids[id], id))
      && (forall e :: e in st.effects ==> !e.Sleep? && !e.ListSSHKeysForUser?)
  {
    var groups := AddGroups(Start, api, g.groups);
    var users := AddUsers(groups, api, g.usernames);
    AddGroupsSpec(Start, api, g.groups);
    AddUsersSpec(groups, api, g.usernames);
    RemoveExcludedSpec(users, api, g.exclude);
    var st := Identities(g, api);
    assert st.effects == groups.effects + Lookups(g.usernames) + Lookups(g.exclude);
  }

  /** The keys of the IDs visited are exactly their tagged `@gitlab` keys. */
  lemma {:induction false} FetchKeysTagged(api: Api, ids: map<int, string>, order: seq<int>)
    requires forall id :: id in order ==> id in ids
    ensures forall x :: x in FetchKeys(api, ids, order).values <==>
      exists id, key :: id in order && id in ids && api.sshKeys(id).Ok? && key in api.sshKeys(id).value && x == Annotate(key, ids[id], Provider)
  {
    if order != [] {
      var prev, id := order[..|order| - 1], order[|order| - 1];
      assert order == prev + [id];
      FetchKeysTagged(api, ids, prev);
      var k := FetchKeys(api, ids, order);
      var p := FetchKeys(api, ids, prev);
      forall x | x in k.values
        ensures exists v, key :: v in order && v in ids && api.sshKeys(v).Ok? && key in api.sshKeys(v).value && x == Annotate(key, ids[v], Provider)
      {
        if x !in p.values {
          var ks := api.sshKeys(id).value;
          var i :| 0 <= i < |ks| && AnnotateAll(ks, ids[id], Provider)[i] == x;
          assert ks[i] in ks && x == Annotate(ks[i], ids[id], Provider);
        }
      }
      forall x, v, key | v in order && v in ids && api.sshKeys(v).Ok? && key in api.sshKeys(v).value && x == Annotate(key, ids[v], Provider)
        ensures x in k.values
      {
        if v != id {
          assert v in prev;
        } else {
          var ks := api.sshKeys(id).value;
          var i :| 0 <= i < |ks| && ks[i] == key;
          assert AnnotateAll(ks, ids[id], Provider)[i] == x;
        }
      }
    }
  }

  /** Every ID visited gets a pause and then one key request. */
  lemma {:induction false} FetchKeysPacing(api: Api, ids: map<int, string>, order: seq<int>)
    requires forall id :: id in order ==> id in ids
    ensures var k := FetchKeys(api, ids, order);
      && |k.requests| == 2 * |order|
      && (forall i :: 0 <= i < |order| ==> k.requests[2 * i] == Sleep(SleepMs) && k.requests[2 * i + 1] == ListSSHKeysForUser(order[i]))
  {
    if order != [] {
      var prev, id := order[..|order| - 1], order[|order| - 1];
      assert order == prev + [id];
      FetchKeysPacing(api, ids, prev);
      var r := FetchKeys(api, ids, order).requests;
      var pr := FetchKeys(api, ids, prev).requests;
      assert r == pr + [Sleep(SleepMs), ListSSHKeysForUser(id)];
      forall i | 0 <= i < |order|
        ensures r[2 * i] == Sleep(SleepMs) && r[2 * i + 1] == ListSSHKeysForUser(order[i])
      {
        if i < |prev| {
          assert order[i] == prev[i];
          assert r[2 * i] == pr[2 * i] && r[2 * i + 1] == pr[2 * i + 1];
        }
      }
    }
  }

  /** A warning is logged exactly when some key request fails. */
  lemma {:induction false} FetchKeysWarnings(api: Api, ids: map<int, string>, order: seq<int>)
    requires forall id :: id in order ==> id in ids
    ensures FetchKeys(api, ids, order).warnings == [] <==> forall id :: id in order ==> api.sshKeys(id).Ok?
  {
    if order != [] {
      var prev, id := order[..|order| - 1], order[|order| - 1];
      assert order == prev + [id];
      FetchKeysWarnings(api, ids, prev);
    }
  }

  /** The key phase: the keys of the IDs visited, tagged with their usernames, and for
      every ID a pause followed by one key request. */
  lemma FetchKeysSpec(api: Api, ids: map<int, string>, order: seq<int>)
    requires forall id :: id in order ==> id in ids
    ensures var k := FetchKeys(api, ids, order);
      && (forall x :: x in k.values <==>
            exists id, key :: id in order && id in ids && api.sshKeys(id).Ok? && key in api.sshKeys(id).value && x == Annotate(key, ids[id], Provider))
      && |k.requests| == 2 * |order|
      && (forall i :: 0 <= i < |order| ==> k.requests[2 * i] == Sleep(SleepMs) && k.requests[2 * i + 1] == ListSSHKeysForUser(order[i]))
      && (k.warnings == [] <==> forall id :: id in order ==> api.sshKeys(id).Ok?)
  {
    FetchKeysTagged(api, ids, order);
    FetchKeysPacing(api, ids, order);
    FetchKeysWarnings(api, ids, order);
  }

  /** Go visits the ID map in an unspecified order; the keys returned, as a set, are the
      same whatever the order. */
  lemma KeysIndependentOfOrder(api: Api, ids: map<int, string>, o1: seq<int>, o2: seq<int>)
    requires forall id :: id in o1 <==> id in ids
    requires forall id :: id in o2 <==> id in ids
    ensures forall x :: x in Dedup(FetchKeys(api, ids, o1).values) <==> x in Dedup(FetchKeys(api, ids, o2).values)
  {
    FetchKeysTagged(api, ids, o1);
    FetchKeysTagged(api, ids, o2);
  }

  /** The keys GetKeys returns: no duplicates, and exactly the keys of the resolved,
      non-excluded users, each tagged with the username the map holds for it. */
  lemma GetKeysResult(g: Source, api: Api, fetched: seq<int>)
    requires GroupsEnd(api, g.groups)
    requires forall id :: id in fetched <==> id in Identities(g, api).ids
    ensures var ids := Identities(g, api).ids;
      var keys := Dedup(FetchKeys(api, ids, fetched).values);
      && NoDups(keys)
      && forall x :: x in keys <==>
        exists id, key :: id in ids && api.sshKeys(id).Ok? && key in api.sshKeys(id).value && x == Annotate(key, ids[id], Provider)
  {
    FetchKeysTagged(api, Identities(g, api).ids, fetched);
  }
}
