# Verification model of Teams Rehook

Teams Rehook receives webhooks and posts them into Microsoft Teams conversations. A bot registers
routes on command, administrators grant who may do so, and settings, allowlists, sessions and
delivery credentials are managed over an API. This Dafny project models the stateful parts of that
system and proves what every run of them keeps.

`dafny verify dfyconfig.toml` checks the whole project.

## What is modelled

Tables are finite maps or sequences, requests are atomic steps, time is an integer. A function gives
the new tables from the old ones; where the program changes rows in place, a class holds the rows
and each of its methods is proved to compute that function. The theorems are about the functions,
over every state or every run of requests.

- **Conversation references** (`Activities`, `References`). Live activities are captured into a
  reference table in which some fields are overwritten and some only filled. At startup the stored,
  shortened activities are read back and replayed, renaming or merging rows under raw ids. Without
  deletions, and with activities that read back as they were captured, replay and live table agree for
  every run and every retained suffix of the log; for any run at all they agree if and only if, row by
  row, the last retained event writes what the last live one wrote, and the last text retained for
  each filled field, if any, is the row's. Three facts came out of the proofs, each with its exact
  condition. Reading back a stored activity gives what the live handler saw if and only if every
  captured field reads back the same: a field with one source when only blanks were cut off or only
  blanks are left, a name when its first 200 characters are still there, a field with several sources
  when the first one left gives the same text. After a reference was deleted and created again the
  replay can bring back names the live table no longer has: it does if and only if a retained event
  from before the deletion gives a field a text that is not the row's and that no later event
  overrules. And one replay pass reaches a fixed point if and only if the events it skipped, those
  about an id before the event that brings a row under it, agree with that row in the same sense; the
  second pass always does.
- **Bot commands** (`BotAccess`, `BotAuthorization`, `BotCommands`, `BotRoutes`, `BotEffects`,
  `BotPipeline`). Roles, linked and unlinked grants, group membership through a cache that lives ten
  minutes, parsing, dispatch, and the changes to routes, reveal tokens and deliveries. For every
  message, what changes stays inside the sender's effective permissions.
- **Access administration** (`BotAccess`, `AccessStore`). Role and grant requests and both versions
  of the role backfill. The invariant is about effective permissions: a permission patch without
  role fields makes the stored copy of a linked grant drift, and it is the only request that does.
- **Refresh jobs** (`RefreshJobs`). Starters and workers interleave freely; each lock-protected
  section and each publication is one step.
- **Settings** (`Urls`, `Integers`, `SettingValues`, `Settings`, `SettingLaws`). The stored table,
  the cache of the process, the effective settings, values normalized twice on write, and the CORS
  row that follows the frontend URL. Normalizing a URL twice differs from once exactly when a blank
  stands before its trailing slashes, and a list exactly when the location of a written entry ends in
  a blank; a frontend URL whose scheme has capitals decouples the CORS list.
- **Address lists** (`IpNetworks`, `AddressLists`, `ClientIpAllowlist`, `TrustedProxies`). Address
  text is read and printed for both versions: CIDR notation of section 3.1 of RFC 4632, IPv6 text of
  sections 2.2 and 2.3 of RFC 4291, canonical printing of section 4 of RFC 5952.
- **Accounts** (`Accounts`), **monitoring** (`Monitoring`) and the grouping of **abuse buckets** by
  client (`AbuseClients`).

`Text` and `Digits` hold the string and number facts the others use.

What comes from outside is a parameter: identifiers and tokens from the random source (one that is
already taken violates a key and the request is rejected), the clock, the directory's answer to a
membership lookup, the order in which the database lists rows, the answers for blank names, the
cipher for secret settings (which decrypts what it encrypted), the password hash, the number of
digits an integer conversion accepts, and the host check of the URL library.

## Model

| member | source | states |
|---|---|---|
| `Activities.NormalizeIdempotent` | backend/app/routers/bot_messages.py:2127-2128 | cutting the message suffix off a conversation id leaves an id that normalizes to itself |
| `Activities.CapturedFrom` | backend/app/routers/bot_messages.py:491-529 | which fields of an activity the captured conversation, sender and team come from, and which of several places goes first |
| `Activities.CapturedChannel` | backend/app/routers/bot_messages.py:491-529 | the captured channel is the first one the activity names, or the conversation itself when it is a channel |
| `Activities.ExtractionAgreesIff` | backend/app/seed.py:249-288 | reading a stored, shortened activity back gives exactly what the live handler captured, all fields of it, if and only if each field of the activity reads back the same |
| `Activities.FittingRereads` | backend/app/routers/bot_messages.py:2154-2185 | every field reads back the same when nothing but blanks is cut off anywhere |
| `Activities.LongNameRereads` | backend/app/seed.py:275-287 | that is not necessary: a longer name whose first 200 characters are kept reads back the same |
| `Activities.RereadAgreesIff` | backend/app/routers/bot_messages.py:2154-2185 | the service URL agrees if and only if only blanks were cut off, or the kept part is blank and the copied field steps in |
| `Activities.LongUrlDisagrees` | backend/app/routers/bot_messages.py:2176-2185 | it fails for every longer service URL with text at both ends |
| `References.ReferenceTable.UpsertReference` | backend/app/routers/bot_messages.py:356-384 | the live path folds one capture into the table, overwriting some fields and filling others, and reports whether the capture was usable |
| `References.ReferenceTable.BackfillReferenceMetadata` | backend/app/seed.py:86-116 | the startup pass replays the whole log, and an unset change flag means the table is untouched |
| `References.ReferenceTable.ReplayEvent` | backend/app/seed.py:94-112 | one replayed event renames or drops a row under the raw id, then refreshes the row under the normalized id |
| `References.ReferenceTable.DeleteReference` | backend/app/routers/bot_messages.py:271-316 | removes the row of one conversation and no other |
| `References.FoldKeepsIffSettled` | backend/app/seed.py:194-211 | replaying a log leaves a row alone if and only if the row has the last written values and the last non-empty texts of its events |
| `References.FoldSettles` | backend/app/seed.py:194-211 | one replay of a log settles a row with respect to that log |
| `References.UpsertSettles` | backend/app/routers/bot_messages.py:356-384 | the live upsert keeps a row settled with respect to the log so far, whatever the directory answers for blank names |
| `References.ResolveFills` | backend/app/routers/bot_messages.py:356-384 | the directory fills a name only where the row has none and the ids to ask for, each from its own answer |
| `References.ReplayClears` | backend/app/seed.py:86-116 | from any table with unique ids and any log one pass keeps ids unique, adds no id, and leaves no row under the raw id of a usable event |
| `References.ReplayKeepsIff` | backend/app/seed.py:86-116 | on a table without raw rows a pass changes nothing if and only if every row is settled |
| `References.SecondPassSettles` | backend/app/seed.py:86-116 | from the second pass on the table is a fixed point |
| `References.OnePassIff` | backend/app/seed.py:86-116 | one pass reaches a fixed point if and only if, for every event that is the first to bring a row under an id without one, the skipped events about that id give each filled field nothing, or the row's own text, or one that is given again later |
| `References.OnePassWithoutRawRows` | backend/app/seed.py:86-116 | one pass reaches a fixed point on every table without rows under raw ids |
| `References.ReplayTraced` | backend/app/seed.py:86-116 | where every row after one pass comes from: its own row folded over the whole log, or the row the first event with its raw id names, folded from that event on |
| `References.OnePassNotEnough` | backend/app/seed.py:86-116 | one pass need not be: a rename late in the log exposes an event that the pass had skipped |
| `References.SettledWithOlder` | backend/app/seed.py:194-211 | a row settled by newer events is settled by older ones before them if and only if these agree with it, field by field |
| `References.ReplayKeepsRunIff` | backend/app/seed.py:86-116 | after any run of received activities and deletions, whatever the stored activities read back as, replaying any retained suffix of the stored log leaves the table as it is if and only if for every row the last retained event of its conversation writes what the last live one wrote and the last text of each filled field is none or the row's |
| `References.ReplayKeepsLiveIff` | backend/app/seed.py:86-116 | after any run whose activities read back as they were captured, replaying any retained suffix of the stored log leaves the table as it is if and only if the retained events from before a conversation's last deletion agree with its row |
| `References.ReplayKeepsLive` | backend/app/seed.py:86-116 | in particular when no retained event predates the last deletion of its conversation |
| `References.ReplayKeepsLiveWithoutRemovals` | backend/app/seed.py:86-116 | in a run without deletions that holds for every retained suffix |
| `References.RemovedNameReturns` | backend/app/seed.py:194-211 | after a deletion it can fail: an older event refills a name the re-created row does not have |
| `BotAccess.EnsureKeeps` | backend/app/services/bot_access_roles.py:43-82 | ensuring the system roles leaves both in place, keeps grants and every existing role's permissions, and keeps the tables valid |
| `BotAccess.UpdateRoleSyncs` | backend/app/routers/admin.py:519-550 | updating a role patches its permissions, re-synchronises the stored copy of every linked grant, and leaves every other role and grant and its effective permissions unchanged |
| `BotAccess.DeleteRoleKeeps` | backend/app/routers/admin.py:552-577 | a role is deleted only when it is no system role and no grant is linked to it, and nothing else changes |
| `BotAccess.CreateGrantKeeps` | backend/app/routers/admin.py:597-630 | a created grant has the normalized subject and, in its stored copy, exactly its effective permissions; existing grants stay |
| `BotAccess.UpdateGrantKeeps` | backend/app/routers/admin.py:633-678 | updating a grant keeps its subject and organization, every other grant and every role's permissions |
| `BotAccess.CommandKeeps` | backend/app/routers/admin.py:473-826 | every request keeps keys and subjects unique, links inside their organization, and every system role |
| `BotAccess.LinkedGrantsFollowRoles` | backend/app/routers/bot_messages.py:696-700 | over any run a linked grant refers to an existing role of its own organization and has exactly that role's current permissions, whatever its stored copy says |
| `BotAccess.SystemRolesStay` | backend/app/routers/admin.py:552-577 | over any run a system role that exists once exists at every later point |
| `BotAccess.DriftOnlyByPatch` | backend/app/routers/admin.py:648-665 | a stored copy departs from its role if and only if a permission patch without role fields on that very grant changes it |
| `BotAccess.BackfillKeepsEffective` | backend/app/routers/admin.py:960-978 | the role backfill keeps the effective permissions, subject and activity of every grant |
| `BotAccess.BackfillIdempotent` | backend/app/routers/admin.py:960-978 | a second backfill changes nothing |
| `BotAccess.StartupMatchesAdmin` | backend/app/seed.py:155-191 | the startup backfill over all organizations gives each organization what the administrator's version gives it |
| `AccessRequests.CreateGrantGives` | backend/app/routers/admin.py:597-630 | a created grant is to the asked kind of subject with its trimmed lower-case id, and is linked to the very role of a given id, to the organization's system role its label names, or to none; a system role that is new confers viewing and revealing, or everything; an unlinked grant confers exactly the requested permissions |
| `AccessRequests.UpdateGrantGives` | backend/app/routers/admin.py:633-678 | an updated grant has the asked activity and is linked as asked, or keeps its link without role fields; what it stores is patched permission by permission |
| `AccessRequests.PatchRelabels` | backend/app/routers/admin.py:939-957 | an unlinked grant whose permissions are patched is labelled after the system role that has exactly them, and else as custom |
| `AccessRequests.OutcomeIff` | backend/app/routers/admin.py:473-826 | a request is accepted if and only if its rows are in the organization, the names, subjects and ids it needs are free, and a role it deletes is no system role and not in use |
| `AccessRequests.RoleRequestsGive` | backend/app/routers/admin.py:473-577 | the rows that requests about roles, and a deleted grant, change |
| `AccessRequests.BackfillLinks` | backend/app/routers/admin.py:960-978 | the backfill links an unlinked grant if and only if its label names a system role and its permissions are that role's; labels out of use become custom |
| `AccessStore.Tables.EnsureSystemRoles` | backend/app/services/bot_access_roles.py:43-82 | the loop over the definitions computes the specified tables and returns the two roles |
| `AccessStore.Tables.BackfillAssignments` | backend/app/routers/admin.py:960-978 | the loop over unlinked grants computes the specified backfill, or changes nothing |
| `AccessStore.Tables.SyncLinkedGrants` | backend/app/routers/admin.py:981-991 | the loop rewrites exactly the stored copies of the grants linked to a role |
| `AccessStore.Tables.UpdateBotAccessRole` | backend/app/routers/admin.py:519-550 | the handler computes the specified role update, or rejects it and changes nothing |
| `AccessStore.Tables.DeleteBotAccessRole` | backend/app/routers/admin.py:552-577 | the handler computes the specified guarded deletion, or rejects it and changes nothing |
| `AccessStore.Tables.ResolvePayloadRole` | backend/app/routers/admin.py:909-926 | the role a request names by id or by label, creating the system roles where needed |
| `AccessStore.Tables.CreateBotGrant` | backend/app/routers/admin.py:597-630 | the handler computes the specified creation, or rejects it and changes no row |
| `AccessStore.Tables.InferBotRole` | backend/app/routers/admin.py:939-957 | the label inferred for permissions that equal a system role's |
| `AccessStore.Tables.UpdateBotGrant` | backend/app/routers/admin.py:633-678 | the handler computes the specified update, or rejects it and changes nothing |
| `BotAuthorization.AllowedMeansGranted` | backend/app/routers/bot_messages.py:532-611 | everything an allowed sender may do comes from an active grant of the sender or of a group the sender is in, and the required permission is among it |
| `BotAuthorization.AllowedIff` | backend/app/routers/bot_messages.py:532-611 | a command is allowed if and only if the sender is known, some active grant is to the sender or one of the sender's groups, and one of those grants confers the required permission; the permissions it runs with are exactly those they confer |
| `BotAuthorization.DenialReasons` | backend/app/routers/bot_messages.py:532-611 | the reason a command is denied: no sender id, a grant but not the permission, no grant, or none while the groups could not be looked up |
| `BotAuthorization.AuthorizationMonotone` | backend/app/routers/bot_messages.py:532-700 | for the same clock, cache and directory answer, adding or activating grants never turns an allowed command into a denied one |
| `BotAuthorization.SameRightsSameVerdict` | backend/app/routers/bot_messages.py:689-700 | the verdict depends on subjects, activity and effective permissions only |
| `BotAuthorization.BackfillKeepsVerdicts` | backend/app/seed.py:155-191 | hence the role backfill changes no verdict |
| `BotAuthorization.CacheRun` | backend/app/routers/bot_messages.py:637-671 | over any clock-ordered run every cache entry holds the answer of an earlier lookup and expires ten minutes after it |
| `BotAuthorization.MatchesRecentLookup` | backend/app/routers/bot_messages.py:637-686 | over any clock-ordered run the group grants a request matches are exactly those a lookup less than ten minutes old would match; an answer that recent is always used, so that a lookup can only fail without one, and a failed lookup matches nothing |
| `BotCommands.ArgumentTrimmed` | backend/app/routers/bot_messages.py:851-890 | every parsed argument is trimmed |
| `BotCommands.SubmitIsSafe` | backend/app/routers/bot_messages.py:858-877 | a submitted card never yields register, delete or allowlist |
| `BotCommands.SetterIsWrite` | backend/app/routers/bot_messages.py:632-634 | whatever reaches the allowlist setter was classified as a write, for every argument |
| `BotCommands.WriteIffSetter` | backend/app/routers/bot_messages.py:1750-1766 | on parsed arguments the permission check and the dispatcher classify alike, in both directions |
| `CommandTexts.ParsesIff` | backend/app/routers/bot_messages.py:880-890 | a text is a command if and only if it is the command's word in any case, then nothing or white space and the argument |
| `CommandTexts.SubmitGives` | backend/app/routers/bot_messages.py:858-877 | a submitted card with the word of one of the five commands gives that command, with the first name among its fields |
| `CommandTexts.PublicWritten` | backend/app/routers/bot_messages.py:1750-1766 | "public" and a route name opens that route |
| `CommandTexts.RestrictedWritten` | backend/app/routers/bot_messages.py:1862-1866 | "restricted" restricts the route named before the first colon to the entries after it |
| `CommandTexts.RestrictedWithoutName` | backend/app/routers/bot_messages.py:1862-1866 | without a colon everything is entries |
| `CommandOutcomes.ChosenIff` | backend/app/routers/bot_messages.py:1902-1950 | the route a command acts on is, with a name, the first linked route of that name, those of the conversation before those of its channel, and without one the only linked route |
| `CommandOutcomes.HandleAchieves` | backend/app/routers/bot_messages.py:817-848 | what every command does to the tables, told on the tables before and after without its handler: the flag set, the route gone, the route active and delivering here, the reveal tokens issued, the mode and list stored, and nothing else |
| `BotRoutes.HandleWithin` | backend/app/routers/bot_messages.py:817-848 | a command run with its required permission changes at most one route, only in the ways and on the routes its permissions cover, and issues reveal tokens only with that permission |
| `BotRoutes.BotLinksAreInspected` | backend/app/routers/bot_messages.py:426-453 | right after an upsert the routes a command considers linked are a duplicate-free subset of those the inspector shows |
| `BotRoutes.RegisteredIsLinked` | backend/app/routers/bot_messages.py:1414-1505 | a registered route is active and linked to its conversation |
| `BotRoutes.StoredAccess` | backend/app/routers/bot_messages.py:1794-1859 | a restricted route always has a non-empty list, and the stored list admits exactly the clients the written one admits |
| `BotRoutes.DeletionIsClean` | backend/app/routers/bot_messages.py:271-316 | a confirmed deletion leaves no matching route, every other route, no token or delivery that points at a deleted route, and the same deliveries |
| `BotEffects.ResolvesIff` | backend/app/routers/bot_messages.py:1902-1976 | a name finds a linked route of that name whenever there is one; without a name a route is found exactly when a single one is linked |
| `BotEffects.StatusEffect` | backend/app/routers/bot_messages.py:1583-1611 | enabling or disabling sets exactly the flag of exactly the route that is meant |
| `BotEffects.EnableUndoesDisable` | backend/app/routers/bot_messages.py:1583-1611 | enabling after disabling gives back the routes, if the route was enabled |
| `BotEffects.RegisterEffect` | backend/app/routers/bot_messages.py:1414-1505 | afterwards there is exactly one bot route of that name, active and aimed at this conversation; names stay unique and no other route changes |
| `BotEffects.RegisterTwice` | backend/app/routers/bot_messages.py:1414-1505 | registering the same name again from the same conversation changes no route |
| `BotEffects.DeleteEffect` | backend/app/routers/bot_messages.py:1614-1656 | deleting removes exactly the route that is meant with its tokens and detaches its deliveries |
| `BotEffects.DeleteUndoesRegister` | backend/app/routers/bot_messages.py:1614-1656 | deleting a newly registered route by name restores the routes |
| `BotEffects.AccessEffect` | backend/app/routers/bot_messages.py:1794-1859 | the change takes place exactly when a route is meant and a restricted list is well formed and not empty; that route then has the asked mode and the canonical list, a public one no list, and nothing else changes |
| `BotEffects.OpenThenRestrict` | backend/app/routers/bot_messages.py:1794-1859 | opening a restricted route and restricting it again with the same list brings the routes back |
| `RouteStore.RouteTables.IssueWebhookRevealUrl` | backend/app/routers/bot_messages.py:2135-2151 | drops expired tokens and adds one for the route |
| `RouteStore.RouteTables.RegisterRouteFromCommand` | backend/app/routers/bot_messages.py:1414-1505 | the handler computes the specified registration, and succeeds exactly under the stated conditions |
| `RouteStore.RouteTables.SetRouteActive` | backend/app/routers/bot_messages.py:1583-1611 | the handler computes the specified status change |
| `RouteStore.RouteTables.DeleteLinkedRoute` | backend/app/routers/bot_messages.py:1614-1656 | the handler computes the specified deletion, and succeeds exactly when a named route is linked |
| `RouteStore.RouteTables.SetAllowlist` | backend/app/routers/bot_messages.py:1794-1859 | the handler stores the normalized list, and succeeds exactly when the route is found and the list is acceptable |
| `RouteStore.RouteTables.RevealLinked` | backend/app/routers/bot_messages.py:1659-1747 | the loop of the info command reveals every linked route |
| `RouteStore.RouteTables.DeleteReferenceRoutes` | backend/app/routers/bot_messages.py:271-316 | the loop drops exactly the inspected routes, and only when confirmed |
| `BotPipeline.ReceiveWithinPermissions` | backend/app/routers/bot_messages.py:108-211 | for every message or submit payload the tables change only within the union of the sender's effective permissions, and no token or delivery loses its route |
| `BotPipeline.StrangersChangeNothing` | backend/app/routers/bot_messages.py:532-611 | a sender without any permission changes no route and no delivery and gets no token |
| `BotPipeline.ReceiveAchieves` | backend/app/routers/bot_messages.py:108-211 | a message that is a command does exactly what the command says, with the sender's effective permissions, if and only if a grant covers the sender and confers the permission that command needs; otherwise it changes no route, token or delivery |
| `BotPipeline.TextIsCommand` | backend/app/routers/bot_messages.py:851-855 | a message is the command its text writes, unless a submitted card names one; nothing else is a command |
| `BotPipeline.CardIsCommand` | backend/app/routers/bot_messages.py:851-877 | which fields of a submitted card give the command and the route |
| `BotPipeline.RunCaches` | backend/app/routers/bot_messages.py:637-671 | the membership cache after any run of messages is the one after the authorization requests they make |
| `BotPipeline.RunKeepsRefs` | backend/app/routers/bot_messages.py:108-211 | over any run of messages no token and no delivery refers to a missing route |
| `RefreshJobs.OneActiveJobPerOrganization` | backend/app/routers/admin.py:1172-1196 | in every interleaving an organization has at most one queued or running job |
| `RefreshJobs.StepsMoveForward` | backend/app/routers/admin.py:1204-1211 | every step keeps every job, moves a status only forward, and only extends the components |
| `RefreshJobs.JobsAreConsistent` | backend/app/routers/admin.py:1233-1317 | in every interleaving components are a prefix of the four steps; a completed job has all four and is ok exactly when none failed |
| `RefreshJobs.TerminalStatusBeforeEvent` | backend/app/routers/admin.py:1270-1317 | a terminal event is only published once the table shows the terminal status it carries |
| `RefreshJobs.EventsFollowTheScript` | backend/app/routers/admin.py:1233-1317 | the events of one job are queued, started, its components in order and one terminal event, as far as the worker has come |
| `RefreshJobs.WorkersEnd` | backend/app/routers/admin.py:1233-1317 | a started worker has ended after at most 18 of its own turns, however the others interleave |
| `RefreshReports.JobTells` | backend/app/routers/admin.py:1233-1310 | in every interleaving a job shows, in order, exactly what its worker's refreshes returned, up to the first turn that raised; it is completed if and only if no turn raised, then ok if and only if no refresh reported a failure, and failed if and only if one raised |
| `RefreshReports.QuietRunCompletes` | backend/app/routers/admin.py:1233-1310 | a worker that got its 18 turns, none of which raised, has ended and its job is completed with all four components |
| `RefreshReports.RequestServed` | backend/app/routers/admin.py:1172-1201 | a request makes a queued job with a worker if and only if its organization has no active one |
| `RefreshJobs.JobTable.StartRefreshJob` | backend/app/routers/admin.py:1172-1196 | under the lock the active job of the organization is returned, or one new queued job is added |
| `RefreshJobs.JobTable.UpdateJob` | backend/app/routers/admin.py:1204-1211 | under the lock exactly the fields of one existing job are set |
| `Integers.ReadPrintRead` | backend/app/core/settings_overrides.py:132-154 | an integer text that was accepted prints to text that reads as the same number |
| `Integers.ParseIntIff` | backend/app/core/settings_overrides.py:140-160 | text is read as a number if and only if it is an optional sign and digits with single underscores between them, within the digit limit, white space around it aside |
| `Urls.ParseHttpIff` | backend/app/core/settings_overrides.py:174-180 | the parse is the only way to read a text as HTTP scheme, mark, location and rest |
| `Urls.UrlTwiceIff` | backend/app/core/settings_overrides.py:174-180 | a URL normalized twice is the URL normalized once if and only if the written URL has no blank before its trailing slashes |
| `Urls.CorsTwiceIff` | backend/app/core/settings_overrides.py:188-213 | a list normalized twice is the list normalized once if and only if no written entry names a location that ends in a blank |
| `Urls.CorsCopiesIff` | backend/app/core/settings_overrides.py:188-213 | a text is its own CORS list if and only if it consists of distinct clean, bare, lower-case origins with commas between them |
| `Urls.CorsCopiesStrippedIff` | backend/app/core/settings_overrides.py:188-213 | a text that may end in slashes has itself without them as its list if and only if it is such a list but for blanks and one slash at the end of the last origin |
| `Urls.PlainOriginText` | backend/app/core/settings_overrides.py:200-207 | a lower-case scheme, the mark and a host without blanks and delimiters make such an origin |
| `Urls.NormalizeCorsOrigins` | backend/app/core/settings_overrides.py:188-213 | the loop computes the specified list of origins, rejecting what the specification rejects |
| `SettingValues.NormalizeTwiceIff` | backend/app/core/settings_overrides.py:121-185 | storing normalizes once more; the stored text is the checked text for every kind of setting, and for URLs and lists if and only if no blank stands before trailing slashes or ends a location |
| `SettingValues.NormalizedCoerces` | backend/app/core/settings_overrides.py:216-224 | an accepted integer is stored as text that coerces to that integer, inside the bounds of its key; an accepted switch to the value of its word |
| `SettingValues.AcceptedIff` | backend/app/core/settings_overrides.py:121-185 | a text is accepted if and only if it is a number within its bounds, a word for yes or no, a secret that is not blank, an HTTP URL or nothing, a list of origins, or for a free text anything |
| `SettingValues.NormalizedIs` | backend/app/core/settings_overrides.py:121-185 | what is stored for an accepted text: the word for the switch, a text of the same number, the URL without trailing slashes, or the trimmed text |
| `Settings.SettingsStore.LoadOverrides` | backend/app/core/settings_overrides.py:247-256 | the cache becomes the decoded rows of known keys, or stays as it was when one cannot be decrypted |
| `Settings.SettingsStore.GetEffectiveSettings` | backend/app/core/settings_overrides.py:265-293 | both update paths together give the environment overlaid with the cache, key by key; nothing exactly when a cached value does not coerce |
| `Settings.SettingsStore.CoupleCors` | backend/app/core/settings_overrides.py:316-332 | the CORS row is created, follows, or stays, as specified |
| `Settings.SettingsStore.SetOverride` | backend/app/core/settings_overrides.py:296-336 | rows and cache become the specified state, or a rejection leaves both as they were |
| `Settings.SettingsStore.ClearOverride` | backend/app/core/settings_overrides.py:339-349 | the same for clearing |
| `SettingLaws.SetChanges` | backend/app/core/settings_overrides.py:296-336 | for any key, once a value passes its checks nothing else can fail; cache and table stay in agreement and satisfy the dependency, and no row changes but that of the key and a list that follows the frontend URL |
| `SettingLaws.SetFrontend` | backend/app/core/settings_overrides.py:296-336 | a frontend change succeeds if and only if the URL is accepted both times and, where the list follows, as a list too; only the two keys change |
| `SettingLaws.DifferingOriginsKept` | backend/app/core/settings_overrides.py:316-332 | a stored list that differs from the previous frontend URL is never altered by a frontend change |
| `SettingLaws.ClearChangesOneKey` | backend/app/core/settings_overrides.py:339-349 | clearing removes exactly one key and succeeds exactly when the dependency holds without it |
| `SettingLaws.RunKeepsSound` | backend/app/core/settings_overrides.py:362-387 | over every run of sets and clears the cache is the decoded table, effective settings exist, and effective Graph delivery implies effective Graph lookup |
| `SettingLaws.SetTakesEffect` | backend/app/core/settings_overrides.py:296-336 | after a successful set of any key the effective value is what the submitted text means, a list that followed the frontend URL has its origins, and every other effective setting is what it was |
| `SettingLaws.SetAccepted` | backend/app/core/settings_overrides.py:296-336 | a set of any key but the frontend URL, which SetFrontend tells, succeeds if and only if the text is accepted and can be stored and the effective settings with it do not have Graph delivery on without lookup |
| `SettingLaws.SecretStored` | backend/app/core/settings_overrides.py:296-336 | the client secret is stored trimmed and encrypted in a row marked as secret, every other key as its normalized text in a row that is not |
| `SettingLaws.ClearTakesEffect` | backend/app/core/settings_overrides.py:339-349 | after a successful clear the environment's value or default is back, and every other effective setting is what it was |
| `SettingLaws.ClearUndoesSet` | backend/app/core/settings_overrides.py:339-349 | clearing any key that had no row before it was set always succeeds and restores table and cache, but for a list that followed the frontend URL |
| `SettingLaws.OriginsFollowFrontend` | backend/app/core/settings_overrides.py:316-332 | starting without a CORS row, along any run that sets the frontend URL to plain origins and anything else but the list, the stored list is exactly the current frontend URL |
| `SettingLaws.EffectiveOriginsFollow` | backend/app/core/settings_overrides.py:265-336 | so the effective CORS list is exactly the effective frontend URL, the last one set |
| `SettingLaws.FirstOriginsIffPlain` | backend/app/core/settings_overrides.py:316-332 | for every accepted URL the first frontend change writes the stored URL itself as the list if and only if the written one, without its trailing slashes and the blanks before them, is a plain origin, or distinct ones with commas between them, but for blanks and one slash at the end of the last |
| `SettingLaws.CapitalSchemeDecouples` | backend/app/core/settings_overrides.py:205-207 | a frontend URL whose scheme has capitals is accepted, and the list written beside it does not follow the next change |
| `SettingLaws.DefaultsAreSound` | backend/app/core/config.py:22-59 | with the built-in defaults as the environment, the empty table is a sound start and every effective setting is its default, so the results about runs start from a state there is |
| `IpNetworks.ContainsIsInterval` | backend/app/services/client_ip_allowlist.py:45-52 | masked comparison is membership in an aligned interval, for both widths |
| `IpNetworks.ParsePrintedV6` | backend/app/services/client_ip_allowlist.py:18-35 | canonical IPv6 text with a compressed run of zeros is read back as the same groups |
| `IpNetworks.ParsePrintedAddress` | backend/app/services/client_ip_allowlist.py:18-35 | every printed address is read back as itself |
| `IpNetworks.ParsePrintedNetwork` | backend/app/core/proxy_trust.py:6-20 | every printed network is read back as itself |
| `AddressTexts.V4Iff` | backend/app/services/client_ip_allowlist.py:18-35 | IPv4 text is exactly four decimal numbers below 256 without leading zeros, with dots between |
| `AddressTexts.V6Iff` | backend/app/services/client_ip_allowlist.py:18-35 | IPv6 text without a dotted part is exactly eight hextets, or at most seven around one double colon, with colons between |
| `AddressTexts.DottedTail` | backend/app/services/client_ip_allowlist.py:18-35 | a dotted part at the end of IPv6 text means the two hextets with its four bytes |
| `ClientIpAllowlist.NormalizeClientIpAllowlist` | backend/app/services/client_ip_allowlist.py:18-35 | the loop with its list and set computes the specified list, or an error |
| `ClientIpAllowlist.ClientIpAllowlistNetworks` | backend/app/services/client_ip_allowlist.py:38-42 | the networks of a stored list, or an error |
| `ClientIpAllowlist.NormalizeRejects` | backend/app/services/client_ip_allowlist.py:18-35 | a list is rejected if and only if some entry is malformed |
| `ClientIpAllowlist.NormalizeIdempotent` | backend/app/services/client_ip_allowlist.py:18-35 | normalizing a stored list changes nothing |
| `ClientIpAllowlist.AllowedIffCovered` | backend/app/services/client_ip_allowlist.py:45-52 | a client is admitted if and only if its host is an address in the interval of some entry as it was written; a malformed entry is an error, and any other host is not admitted |
| `ClientIpAllowlist.NormalizationKeepsVerdicts` | backend/app/services/client_ip_allowlist.py:18-52 | storing the normalized list instead of the written one changes no verdict |
| `TrustedProxies.NormalizeProxyIpList` | backend/app/core/proxy_trust.py:6-20 | the loop computes the specified list, or an error |
| `TrustedProxies.CombinedTrustedProxyIps` | backend/app/core/proxy_trust.py:23-24 | the two lists joined and normalized |
| `TrustedProxies.CombinedCoversUnion` | backend/app/core/proxy_trust.py:23-24 | the combined list covers exactly the union of what its two lists cover, and fails if and only if an entry of either is malformed |
| `TrustedProxies.NormalizeIdempotent` | backend/app/core/proxy_trust.py:6-20 | normalizing a normalized list changes nothing |
| `Accounts.RunKeeps` | backend/app/routers/auth.py:78-158 | over every run, live sessions belong to active users, emails are unique, and once there was an administrator there is an active one |
| `Accounts.SetupAtMostOnce` | backend/app/routers/auth.py:78-107 | from an empty system first-admin setup succeeds at most once, an administrator exists exactly after it did, and then an active one exists |
| `Accounts.UpdateKeeps` | backend/app/routers/admin.py:395-444 | the acting administrator is still an active administrator after any update it makes |
| `Accounts.LastAdminCheckIdle` | backend/app/routers/admin.py:1057-1078 | the rejection of losing the last active administrator never decides: an update is allowed if and only if it does not demote or deactivate the actor |
| `Accounts.PasswordChangeEndsSessions` | backend/app/routers/admin.py:447-469 | after a password change and any run, an accepted session of that user is the changer's own current one or was issued later |
| `Accounts.DeactivationEndsSessions` | backend/app/routers/admin.py:395-444 | after a deactivation and any run, an accepted session of that user was issued later |
| `Accounts.LogoutEndsSession` | backend/app/routers/auth.py:141-158 | a logged-out session is never accepted again |
| `Accounts.AcceptedMeansActive` | backend/app/deps.py:23-82 | over any run an accepted session belongs to an active user |
| `AccountEffects.RequestIff` | backend/app/routers/auth.py:78-158 | every account request, with the administrator's ones, is accepted if and only if it may be: a login exactly with a free token and a password that fits the stored hash of the active user with that email |
| `AccountEffects.RequestDoes` | backend/app/routers/auth.py:78-158 | the tables after an accepted request: the row made or changed, with the normalized email and the hash of the password, and the sessions opened or ended, and nothing else |
| `AccountEffects.LastPasswordDecides` | backend/app/routers/auth.py:110-138 | after a setup, a creation or a password change, until the next accepted change, a login as that user, when active, succeeds exactly with a password that fits the hash of the one given |
| `AccountEffects.SessionAcceptedIff` | backend/app/deps.py:23-82 | a session opened by a login is accepted until its lifetime is over, unless its logout, a deactivation of its user or a change of the password by another session ended it |
| `Accounts.AccountTables.CreateFirstAdmin` | backend/app/routers/auth.py:78-107 | adds the administrator and its session as specified, or changes nothing |
| `Accounts.AccountTables.Login` | backend/app/routers/auth.py:110-138 | issues a session to the active user with that email and password, or changes nothing |
| `Accounts.AccountTables.Logout` | backend/app/routers/auth.py:141-158 | revokes the accepted session, or changes nothing |
| `Accounts.AccountTables.UpdateUser` | backend/app/routers/admin.py:395-444 | the handler computes the specified update, revoking sessions of a user who is inactive afterwards |
| `Accounts.AccountTables.UpdateUserPassword` | backend/app/routers/admin.py:447-469 | the handler computes the specified password change |
| `Accounts.AccountTables.RevokeUserSessions` | backend/app/routers/admin.py:1081-1089 | the loop revokes exactly the live sessions of a user except possibly one, and counts them |
| `Monitoring.StatusDetails` | backend/app/routers/monitoring.py:231-250 | the list built step by step is the specified list of reasons |
| `Monitoring.RouteProblemDetails` | backend/app/routers/monitoring.py:253-298 | the same for the reasons about routes |
| `Monitoring.NotFineIsExplained` | backend/app/routers/monitoring.py:231-250 | every status but the good one has a reason, although the status counts rows of enabled backends and the reasons all rows |
| `Monitoring.CriticalCauses` | backend/app/routers/monitoring.py:440-466 | a critical status has exactly two possible causes, and its reasons name exactly those that hold |
| `Monitoring.ReasonsIff` | backend/app/routers/monitoring.py:231-298 | for any other status each reason is given if and only if it holds, on all rows |
| `Monitoring.FineLeavesUnsaid` | backend/app/routers/monitoring.py:440-466 | a good status hides reasons if and only if they concern only disabled backends, or a bot that is not ready while deliveries are mocked |
| `Monitoring.FineIff` | backend/app/routers/monitoring.py:440-466 | the status is good if and only if what is switched on is ready, every route on a backend that is on is active, delivered to and not failing, and none of its deliveries of the last five minutes failed or was rejected |
| `Monitoring.RoutesAddUp` | backend/app/routers/monitoring.py:321-349 | active and inactive routes are all routes, and untested ones are active |
| `Monitoring.WindowsNested` | backend/app/routers/monitoring.py:392-413 | the counts of the 5, 15 and 60 minute windows are nested |
| `Monitoring.NamesAddUp` | backend/app/routers/monitoring.py:312-318 | the names shown and the number of others add up to the count, whenever a name is shown, and every shown name belongs to such a route |
| `AbuseClients.GroupBuckets` | frontend/src/App.tsx:9902-9907 | the map filled by the loop holds the buckets of each key in their order, keys in order of appearance |
| `AbuseClients.GroupsConserve` | frontend/src/App.tsx:9902-9907 | any measure summed group by group is its sum over all buckets |
| `AbuseClients.FailuresConserved` | frontend/src/App.tsx:9909-9937 | the clients listed have as many failures as all buckets together |
| `AbuseClients.ListedIff` | frontend/src/App.tsx:9909-9937 | the clients listed are exactly those with a failure or an active block, each holding all buckets of its key |
| `AbuseClients.ClientShows` | frontend/src/App.tsx:9909-9931 | what a listed client shows: host, fingerprint and time of its latest bucket, the latest reason there is, totals, routes and whether it is blocked |
| `AbuseClients.BlockedListed` | frontend/src/App.tsx:9909-9937 | every actively blocked bucket is listed under exactly one client, blocked at least as long |
| `AbuseClients.ListOrdered` | frontend/src/App.tsx:9933-9937 | blocked clients come first, inside each class those seen last; a client was last seen when its latest bucket was |
| `AbuseClients.LatestDate` | frontend/src/App.tsx:9948-9951 | a latest value of the list, nothing exactly when the list is empty |
| `AbuseClients.KeySeparates` | frontend/src/App.tsx:9905 | with colon-free fingerprints two buckets share a key if and only if host and fingerprint are equal |
| `AbuseClients.KeyNeedsColonFree` | frontend/src/App.tsx:9905 | without that an IPv6 host can run into the fingerprint |

## Left out

- Network calls to Graph, the Bot Framework and token endpoints, and token validation: foreign services; a directory lookup is a parameter that answers or fails.
- Password hashing, token hashing and the cipher: only that decryption undoes encryption.
- Cards, reply texts, audit entries and event-log rows: output without effect on the modelled state.
- The forced refresh of Graph names, conversation members, display labels and timestamps of references: the model keeps the fields that decide scope, target and names.
- Removal of HTML and mentions from message text: an arbitrary function; every result about commands holds for any such function.
- Letters and digits outside ASCII in case folding and integers, and IPv6 scope ids: library corners.
- Sessions are named by their token; the separate row id, CSRF tokens and the refresh of them are not part of the model, which only makes more requests pass.
- The organization of users is the default one throughout, as the program only ever creates users there; login reads the one active user with an email, so `Accounts.AccountTables.Login` asks for unique emails, which every run keeps.
- Display names of users: no decision depends on them.
- Settings requests that overlap, several processes, and a commit that fails after the cache was reloaded: the dependency is checked against the cache of one process.
- Resetting the token managers after a settings change: outside the modelled state.
- `event_bus.publish` is taken not to raise; what a refresh step does is only its outcome.
- Schema migrations and the backfill of route targets: dialect-specific statements.
- `_show_allowlist_command` and the help command read only.
- The library's sort is a stable insertion sort in the model; labels of the abuse list are left out.
- Success rates and the last delivery times of the monitoring report: rounding and plain maxima.
