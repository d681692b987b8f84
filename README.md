# sync-ssh-keys key aggregation, modelled in Dafny

sync-ssh-keys builds an `authorized_keys` list from key providers. This project models
how each provider turns its configuration and its providers' answers into annotated
key lines:

- the GitHub source (`datasources/github.go`): validates org, team and token flags;
  collects org or team members page by page; appends explicit usernames;
  de-duplicates; drops excluded users; tags every public key `<key> <user>@github`;
  de-duplicates the keys.
- the GitLab source (`sources/gitlab.go`): builds an ID-to-username map from group
  members (right-biased `mapUnion`), explicit usernames and exclusions. Each name is
  resolved with the "exactly one user" rule. The source then pauses and fetches keys
  once per remaining ID, tagging them `@gitlab`.
- the local-file source (`sources/local.go`): the non-empty lines of a file,
  verbatim.
- the original single-provider command (`main.go`): its own flag check (an empty org
  string counts as absent), the same username pipeline, `.keys` pages split into
  lines and tagged `@github-team-ssh-key`, the printed output, and `--Werror`.
  main.go carries its own copies of the member listing functions, with their own
  request and message text, so `Legacy` mirrors them separately. It does not reuse the
  `Github` definitions; where the two agree, the lemmas say so (`CheckFlagsAgreesWithSource`).

Remote services, the file system and the clock are inputs. Each API is a datatype
of total functions (`Api`). A paginated listing is the finite sequence of the
server's answers, each a page of items with its next-page number or a failure. File
contents and `os.Stat` are `Result`/`Stat` values. `time.Sleep` is a `Sleep(100)`
entry in the request trace.

Each source returns its keys together with the warnings it logs (`Warning(cause,
message)`, the error text and then the message, as the logger prints them) and the
requests it issues in order. The imperative parts are methods with loops: the page
loop, `mapUnion`, the append loops of `GetKeys` and `main`. Each is proved equal to
a specification function. The properties are proved as lemmas about those
functions.

Modules: `Wrappers` (Option, Result), `Seqs` (`funk.Uniq` and the exclusion filter),
`Text` (`strings.Split`, `strings.Join`, the empty-line filter, key tagging),
`Effects` (warnings and traces), `Pagination` (the page loop shared by every
listing), `Github`, `Gitlab`, `Local` and `Legacy` (main.go).

## Model

| member | source | states |
|---|---|---|
| Seqs.Dedup | datasources/github.go:101 | `funk.Uniq`: the result has no duplicates, the same elements as the input, and is no longer |
| Seqs.DedupFirstSeen | datasources/github.go:101 | de-duplication keeps the order in which elements were first seen |
| Seqs.DedupOfNoDups | datasources/github.go:115 | de-duplicating a list without duplicates leaves it unchanged |
| Seqs.Without | datasources/github.go:104-108 | the exclusion filter keeps exactly the elements that are not excluded |
| Seqs.WithoutKeepsOrder | datasources/github.go:104-108 | filtering a list in first-seen order keeps it in first-seen order |
| Seqs.SurvivorsSpec | datasources/github.go:100-108 | the username pipeline yields no duplicates and no excluded name, keeps every collected name that is not excluded, and keeps first-seen order |
| Text.Split | sources/local.go:42 | `strings.Split` gives at least one piece, and no piece contains the separator |
| Text.SplitCount | sources/local.go:42 | n separators give n + 1 pieces |
| Text.SplitJoin | sources/local.go:42 | joining the pieces with the separator gives the text back |
| Text.SplitNoSep | sources/local.go:42 | a text without the separator is one piece |
| Text.SplitConcat | sources/local.go:42 | splitting at a separator splits the two sides independently |
| Text.SplitFirstLine | sources/local.go:42 | a first line without the separator is split off on its own |
| Text.JoinSplit | main.go:142 | splitting pieces joined by the separator gives the pieces back |
| Text.DropEmpty | sources/local.go:43-45 | the filter keeps exactly the non-empty lines, and never more lines |
| Text.DropEmptyConcat | sources/local.go:43-45 | the filter distributes over concatenation |
| Text.DropEmptyCons | sources/local.go:43-45 | the filter keeps or drops the first line by its emptiness |
| Text.DropEmptyOfNonEmpty | sources/local.go:43-45 | the filter leaves non-empty lines unchanged |
| Text.NonEmptyLines | main.go:126-131 | every line returned is non-empty and holds no newline |
| Effects.NotWarning | datasources/github.go:74-77 | a message that does not start with `[` is not a warning |
| Pagination.StopAt | datasources/github.go:125-137 | the loop stops at the first answer that is an error or has no next page |
| Pagination.FetchAll | datasources/github.go:124-141 | the page loop returns the items of the pages received up to the stopping answer, in order. It asks for page 0 and then each next page named, and reports the error that stopped it |
| Pagination.FlattenPrefix | datasources/github.go:132 | appending pages only extends what was collected |
| Pagination.CollectedKeepsEarlierPages | datasources/github.go:125-137 | pages received before the stop are all kept; on an error the failed answer adds nothing |
| Pagination.FlattenLength | datasources/github.go:120-122 | full pages of 100 items give 100 items each |
| Pagination.RequestCount | datasources/github.go:120-137 | with full pages of 100, the loop makes ceil(total / 100) requests |
| Github.CheckInputErrors | datasources/github.go:63-79 | fatal exactly for unusable flags, with the missing-input check first; teams without an org always give the without-org message, and teams with an org but no token the without-token message. Only an org without a token gives the `[warning]` message; otherwise "" |
| Github.GetOrgMembers | datasources/github.go:118-142 | the org's members are the pages collected; an error adds one warning; one ListMembers request per page |
| Github.GetTeamMembers | datasources/github.go:144-175 | an unresolved slug gives a warning and no members; otherwise the team's pages |
| Github.GetMembers | datasources/github.go:84-93 | team members team after team when an org and teams are given, org members when only the org is |
| Github.GetKeys | datasources/github.go:81-116 | the keys are the de-duplicated keys of the surviving usernames, with every warning and request of the run |
| Github.KeysOfTagged | datasources/github.go:110-115 | a key is collected exactly when it is a listed user's key tagged `@github` with that user; one ListKeys request per user, in order |
| Github.GetKeysResult | datasources/github.go:110-115 | the returned keys have no duplicates, are exactly the tagged keys of the surviving users, and no excluded user's key appears |
| Github.TeamsRequests | datasources/github.go:85-92 | every team's slug is looked up (exactly once and in order, by `TeamsSlugLookups`); member pages only for resolved teams; no org listing |
| Github.TeamsSlugLookups | datasources/github.go:87-88 | the slug lookups issued for the teams are exactly one `GetTeamBySlug(org, team)` per team, team after team |
| Github.TeamSlugLookup | datasources/github.go:146 | one team issues exactly one slug lookup, whatever pages follow |
| Github.MembersRequests | datasources/github.go:85-98 | org members are listed only with an org and no teams, team members only with an org and teams, nothing without an org; with an org, the slug lookups are exactly one per team in order (none without teams) |
| Github.FailedTeamLookup | datasources/github.go:144-150 | a failed slug lookup gives no member, one warning and no member request |
| Gitlab.CheckInputErrors | sources/gitlab.go:55-65 | "" exactly when a token and a group or username are given; a missing token is reported first; never a warning; a token with no group and no username gives the "must be provided" message |
| Gitlab.UserId | sources/gitlab.go:108-121 | a lookup succeeds exactly when the listing holds one user, with that user's ID; a transport error is passed on |
| Gitlab.IdMapSpec | sources/gitlab.go:146-148 | the group map holds exactly the members' IDs, each with the username of its last member |
| Gitlab.CopyInto | sources/gitlab.go:167-172 | one copy loop writes every entry of the source over the target |
| Gitlab.MapUnion | sources/gitlab.go:164-175 | the union of the key sets; on a shared key `b` wins; keys only in `a` keep `a`'s value |
| Gitlab.GetGroupMembers | sources/gitlab.go:123-149 | a group's map comes from the pages collected; an error adds one warning |
| Gitlab.GetGroupsMembers | sources/gitlab.go:71-73 | the groups' maps merged group after group |
| Gitlab.AddUsernames | sources/gitlab.go:76-85 | the explicit-username loop computes AddUsers |
| Gitlab.DeleteExcluded | sources/gitlab.go:88-97 | the exclusion loop computes RemoveExcluded |
| Gitlab.FetchAllKeys | sources/gitlab.go:100-104 | every ID of the map is visited exactly once, with a pause and a key request each |
| Gitlab.GetKeys | sources/gitlab.go:67-106 | the keys are the de-duplicated keys of the resolved IDs in the order visited, with the warnings and requests of resolution and then of the key phase |
| Gitlab.AddUsersSpec | sources/gitlab.go:76-85 | every ID a username resolves to is added under a username that resolves to it, overriding a group entry; a failed lookup changes nothing; one lookup per name |
| Gitlab.AddUsersLastWins | sources/gitlab.go:76-85 | when several usernames resolve to one ID, the map names it by the last of them |
| Gitlab.RemoveExcludedSpec | sources/gitlab.go:88-97 | an ID is kept exactly when no exclusion resolves to it, with its username unchanged; one lookup per name |
| Gitlab.AddGroupsSpec | sources/gitlab.go:71-73 | the map gains every listed group member's ID; only member pages of those groups are requested |
| Gitlab.IdentitiesSpec | sources/gitlab.go:67-97 | the fetched IDs are the group members and resolved usernames minus every resolved exclusion. Resolution issues no pause and no key request |
| Gitlab.FetchKeysSpec | sources/gitlab.go:100-104 | keys are exactly the tagged `@gitlab` keys of the IDs visited. Each ID gets one 100 ms pause followed by one key request. No warning exactly when every key request succeeds |
| Gitlab.FetchKeysTagged | sources/gitlab.go:159-161 | the keys of the IDs visited are exactly their keys tagged `<key> <username>@gitlab` |
| Gitlab.FetchKeysPacing | sources/gitlab.go:101-104 | each ID visited gets a 100 ms pause followed by one key request, in visiting order |
| Gitlab.FetchKeysWarnings | sources/gitlab.go:153-157 | a warning is logged exactly when some key request fails |
| Gitlab.KeysIndependentOfOrder | sources/gitlab.go:101 | the key set does not depend on the map's iteration order |
| Gitlab.GetKeysResult | sources/gitlab.go:101-105 | the returned keys have no duplicates and are exactly the tagged keys of the resolved, non-excluded users |
| Local.CheckInputErrors | sources/local.go:27-33 | a message exactly when the file does not exist; other stat errors pass |
| Local.GetKeys | sources/local.go:35-46 | a read error gives one warning and no keys; otherwise non-empty lines without newlines |
| Local.LinesVerbatim | sources/local.go:42-45 | the keys are the non-empty pieces between newlines, untagged; the pieces join back to the text |
| Local.GetKeysIdempotent | sources/local.go:43-45 | filtering the result again changes nothing, and re-reading the keys joined by newlines gives them back |
| Local.SplitBlankLine | sources/local.go:42 | a text with a blank line and a trailing newline splits into four pieces |
| Local.BlankLinesDropped | sources/local.go:42-45 | blank lines and the trailing newline are dropped |
| Local.LinesNotTrimmed | sources/local.go:42-45 | a carriage return and surrounding spaces are kept |
| Legacy.CheckFlags | main.go:146-162 | usage error exactly for unusable flags, with the three checks in order and an empty org counted as absent; teams with no org always give the without-org error. An org without a token gives only a notice |
| Legacy.CheckFlagsAgreesWithSource | main.go:146-162 | with "" read as absent, checkFlags and the GitHub source reject the same flags and warn in the same cases |
| Legacy.EmptyOrgDiffers | main.go:148 | an org given as "" passes the GitHub source's check but is a usage error for checkFlags |
| Legacy.GetOrgMembers | main.go:58-83 | the org's members are the pages collected; an error adds one warning |
| Legacy.GetTeamMembers | main.go:85-116 | an unresolved slug gives a warning naming the org and no members; otherwise the team's pages |
| Legacy.GetMembers | main.go:176-185 | team members with a non-empty org and teams, org members with only the org |
| Legacy.CollectKeys | main.go:174-207 | the keys are the de-duplicated keys of the surviving usernames, with every warning and request |
| Legacy.KeysOfTagged | main.go:118-136 | a key is collected exactly when it is a non-empty line of a user's `.keys` page tagged with that user; one GET per user, in order |
| Legacy.UsernamesSpec | main.go:187-200 | no duplicates, no excluded name, every collected name not excluded, first-seen order |
| Legacy.TeamsLookups | main.go:178-181 | the slug lookups among the requests are exactly one per team, in the order of the teams |
| Legacy.TeamSlugLookup | main.go:87 | one team issues exactly one slug lookup, whatever pages follow |
| Legacy.MembersRequests | main.go:177-185 | nothing is listed for an empty org; org pages start at page 0 when no team is given; exactly one slug lookup per team, in order, otherwise |
| Legacy.FailedTeamLookup | main.go:87-91 | a failed slug lookup gives no member and one warning naming the org |
| Legacy.Output | main.go:139-144 | nothing is printed exactly when there are no keys |
| Legacy.BannerIsOneLine | main.go:141 | the header's middle line is a single non-empty line |
| Legacy.JoinedKeysLines | main.go:142 | keys joined by blank lines read back as the keys |
| Legacy.FramedSplit | main.go:141-142 | the header lines, a blank line and the body split into lines independently |
| Legacy.FramedLines | main.go:141-142 | dropping blank lines keeps the three header lines and the body's lines |
| Legacy.OutputLines | main.go:139-144 | the printed output read back line by line, blank lines dropped, is the three header lines and then exactly the keys, in order |
| Legacy.Run | main.go:164-211 | a usage error exactly when checkFlags rejects. Under `--Werror` the first warning ends the run with its message. Otherwise the output is printed with the warnings on standard error |

## Left out

- Client construction and boot code (`NewGithubSource`, `NewGitlabSource`, `githubBootContext`, the endpoint check) only build library clients. `GetName` returns a constant. The interface files `datasources/sources.go` and `sources/sources.go` carry no behaviour.
- logger/logger.go is not part of this model. The adapters return their warnings instead of printing them. `--Werror` escalation is modelled only for main.go (`Legacy.Run`).
- Legacy.Run: it computes all warnings and then aborts on the first one. Go exits inside `log.Fatal` at that warning, so later requests are never made. The outcome carries no request trace, so the model cannot observe the difference.
- Flag parsing (kingpin) and printing are left out. Flags arrive parsed. `checkFlags` returns a verdict, and `output` returns the printed text.
- Network calls (`ListMembers`, `GetTeamBySlug`, `ListTeamMembers`, `ListKeys`, `ListUsers`, `ListAllGroupMembers`, `ListSSHKeysForUser`, `http.Get`) are inputs. The per-user key listings take the first page only, as the source requests no further page.
- The page loops assume the server eventually answers with no next page or an error (`Ends`). A server that never stops would make the Go loop run forever.
- `time.Sleep` is a `Sleep(100)` entry in the request trace; there is no clock.
- Go's map iteration order is random. `Gitlab.GetKeys` returns the order it visited the IDs in, and only set properties of the GitLab keys are proved.
- The body read error of `ioutil.ReadAll` at main.go:125 is ignored by the source, so the model reads the body as given.
- Key material is never parsed or validated; keys are opaque strings.
- Go strings are byte strings; the model's strings are sequences of characters. File contents and `.keys` bodies that are not valid UTF-8 cannot be written down byte for byte. Only the split on `'\n'` and the emptiness test look at the text, and both act the same on bytes and on characters.
