# EvadeGuard moderation core in Dafny

EvadeGuard is a Discord bot that stops members from escaping a timeout by leaving a
server. It keeps one record per member and server, stored under the key
`users_<guild>_<user>`. The record holds a `punishment` object `{ evading, time }`.
Five components act on that record:

- **guildUpdate**: a moderator's timeout is recorded with its expiry.
- **handleLeave**: a member who leaves while timed out has the timeout escalated to
  6 hours, 7 days or 28 days, and the record is marked as evading.
- **handleJoin**: an evader who rejoins has the remaining time reapplied.
- **TimeoutMonitor**: a periodic sweep clears records whose timeout has run out or
  was lifted by hand.
- **Appeals**: a member can submit an appeal through a modal. Moderators accept or
  deny it, either with buttons on the posted appeal or with the `/appeal` slash
  command.

The model also covers the bot's deterministic utilities:

- the per-server settings tree addressed by dot paths;
- the command permission checks, and `canModerate`'s role hierarchy;
- the role, category, channel and thread lookups, each over an in-memory guild
  collection;
- the paginated menu and the member listing of `/find`;
- the modal and action-row builders;
- the JSON user-file helpers;
- the embed builder's text composition.

## How the model is organised

The model has one Dafny module per source file. Four foundation modules are shared:

- `Wrappers`: `Option` and `Result`.
- `Strings`: split, join, lower-casing, trimming, number printing, repetition and
  substring search.
- `JsonValues`: the JavaScript values the stores hold, with truthiness, `??`, `||`,
  property access and object spread.
- `Guilds`: guilds with their roles, channels and members. A missing id stands for
  Discord's "unknown" error.

The store is `Data.Database`, a class whose `entries` map models the sqlite
key-value store. Each event handler works the same way:

- a pure `*Effect` function gives the store after the handler;
- a method that `modifies` the database is proved to leave exactly that store;
- lemmas about the effect state what the handler promises.

`Lifecycle` proves that every handler preserves one invariant: a record marked as
evading always carries a positive expiry. It also proves the leave-then-rejoin
scenario end to end.

External actions and environment values are parameters:

- Discord calls: `member.timeout`, fetches, `interaction.update`.
- The clock: `Date.now()` is `now`, one value per handler.
- The member and guild caches.

Classes model the builders whose source updates fields in place: `Paginator`,
`MenuSession`, `ModalHandler`, `ReaxionRow`, `ReaxionBuilder`, `CommandBuilder`
and `DataFiles`. Their methods state the new fields in terms of the old ones.

Some behaviours of the code are modelled as written, because the model follows the
code:

- Type 0, `GuildText`, is falsy in JavaScript. `getChannelsInCategory` and
  `findChannelByName` therefore skip their type filter when asked for text channels
  (`TextTypeFilterSkipped`).
- `getTextChannel` throws, rather than returning `null`, for a channel outside its
  text types, such as a stage channel (`StageChannelThrows`).
- `createForumPost` passes any auto-archive duration through. `createThread` replaces
  an unsupported one with a day (`ForumDurationUnchecked`).
- `#checkAccess` denies every caller on a command restricted only by Discord
  permissions (`PermissionsOnlyDeniesAll`).
- Keyword style detection matches inside words: "Announcements" is a danger button
  (`SubstringKeywords`).
- `handleLeave` escalates from the live Discord timestamp, not from the stored record.
  The escalated expiry is strictly later than the live one only while less than
  28 days remain (`EscalationLengthens`).
- `handleJoin` leaves an expired evasion untouched.
- `/appeal accept` clears the record without removing the live timeout
  (`AcceptEndsAppeals`).
- The sweep re-derives the key from the split parts. A key with more than three
  `_`-separated parts is therefore written under a different key. A three-part key is
  written under its own name (`ClearsOwnKey`).
- The `/set` command stores the appeal channel in the database settings
  (`updateSetting`). The appeal modal reads it from `servers.json` through `readJSON`.
  The two are separate inputs in the model.
- `serverSettings.js` imports a `servers` model that `data.js` does not export. It is
  modelled as a second `createModel` instance whose default is `null`.

## Model

| member | source | states |
|---|---|---|
| JsonValues.Merge | src/utility/database/data.js:108 | the spread keeps every key of the current object not in the updates and takes the updates' value for the others |
| JsonValues.MergeIdempotent | src/utility/database/data.js:105-109 | merging the same updates twice gives the same record as merging once |
| JsonValues.NonEmpty | src/utility/helpers/embed.js:8-9 | a string option is kept exactly when it is truthy, unchanged; otherwise none (also the `\|\| null` defaults of paginator.js:73-82) |
| JsonValues.Coalesce | src/utility/database/data.js:86 | `v ?? d` is `d` exactly for `null`/`undefined`, `v` otherwise |
| Data.KeyParts | src/utility/database/data.js:74-76 | one part per subkey, each as `join` prints it: a string as itself, `null` as empty |
| Data.Bind | src/utility/database/data.js:66-81 | a non-empty list without `undefined` yields a handle whose docId is the subkeys joined with `_` and whose key is the base, `_`, the docId; anything else throws |
| Data.UsersHandle | src/utility/database/data.js:141-146 | `users([g, u])` names the key `users_g_u` and carries the `{ punishment: { evading: false, time: 0 } }` default |
| Data.ServersHandle | src/utility/serverSettings.js:9 | `servers([g])` names `servers_g` with the default `null` |
| Data.UsersKeySplits | src/utility/database/data.js:74 | splitting a users key on `_` recovers `users`, the guild id and the user id when neither holds `_` |
| Data.UsersKeyRederived | src/services/moderation/TimeoutMonitor.js:11-14 | a stored key that splits into `users`, g, u is exactly the key `users([g, u])` derives |
| Data.UsersPrefixSplit | src/services/moderation/TimeoutMonitor.js:9-11 | a key starting with `users_` splits with `users` first |
| Data.Lookup | src/utility/database/data.js:83-87 | `get` gives the stored non-null value, and the model default when nothing (or null) is stored |
| Data.PunishmentWrite | src/utility/database/data.js:105-109 | writing `{ punishment: p }` makes `get` see `p` as the punishment, keeps every other field of the record and every other record |
| Data.UpdateIsShallowMerge | src/utility/database/data.js:105-109 | supplied top-level keys are replaced wholesale, the other keys of the stored object keep their values |
| Data.UpdateAbsentUsesDefault | src/utility/database/data.js:107 | `update` on an absent users record merges into the punishment default |
| Data.DeleteRestoresDefault | src/utility/database/data.js:121-136 | after `delete` the key is absent (so `has` is false) and `get` gives the default |
| Data.Migrate | src/utility/database/data.js:161-167 | once a migration has modified the record, the flag stays set |
| Data.MigrateStep | src/utility/database/data.js:161-167 | a migration appended to the list sees the data the earlier ones left, replaces it only when it reports a modification, and ORs its report into the flag |
| Data.UnmodifiedMeansNoWrite | src/utility/database/data.js:158-172 | when no migration reports a modification the record and flag are unchanged, so nothing is written |
| Data.MigratedEntries | src/utility/database/data.js:152-173 | the loop keeps the set of keys, and every entry it does not rewrite keeps its value |
| Data.CountRewritten | src/utility/database/data.js:169-172 | the count never exceeds the number of visited keys |
| Data.MigrationStep | src/utility/database/data.js:155-172 | visiting one more key changes at most that key's entry (to the migrated value when rewritten) and adds one to the count exactly when it is rewritten |
| Data.Database.constructor | src/utility/database/data.js:14-18 | an empty store |
| Data.Database.Get | src/utility/database/data.js:83-91 | returns `Lookup`: the stored value or the default |
| Data.Database.Set | src/utility/database/data.js:93-103 | stores the value under the handle's key, nothing else changes |
| Data.Database.Update | src/utility/database/data.js:105-119 | stores the merge of the updates over `get() ?? {}` |
| Data.Database.Delete | src/utility/database/data.js:121-127 | removes only that key |
| Data.Database.Has | src/utility/database/data.js:129-136 | true iff a non-null value is stored |
| Data.Database.MigrateData | src/utility/database/data.js:149-202 | the store after the loop is `MigratedEntries` of the old store and the result is the number of rewritten `users_` records |
| TimeoutManager.MinutesLeft | src/utility/timeoutManager.js:100 | at least one minute; the floor of the minutes from one minute upward |
| TimeoutManager.EscalatedTimeout | src/utility/timeoutManager.js:39-45 | the escalation is always one of 6 h, 7 d, 28 d |
| TimeoutManager.EscalationPolicy | src/utility/timeoutManager.js:39-45 | ≤ 1 h gives 21 600 000 ms, ≤ 1 d gives 604 800 000 ms, more gives 2 419 200 000 ms; ties fall to the lower bucket |
| TimeoutManager.EscalationMonotone | src/utility/timeoutManager.js:43-45 | more time remaining never escalates to a shorter timeout |
| TimeoutManager.EscalationLengthens | src/utility/timeoutManager.js:35-45 | with 0 < remaining < 28 d the escalated timeout is longer than what remained; from 28 d on it is not |
| TimeoutManager.ApplyRecordsExpiry | src/utility/timeoutManager.js:8-27 | after a successful `member.timeout` the record is `{ evading: false, time: now + duration }`; after a failed one the store is untouched; other records never change |
| TimeoutManager.ApplyTimeout | src/utility/timeoutManager.js:8-27 | the store after `applyTimeout` is `ApplyEffect` of the old store |
| TimeoutManager.LeaveExpiry | src/utility/timeoutManager.js:33-52 | an expiry is recorded exactly when the live timeout ends after now, and it is later than the live one below 28 days |
| TimeoutManager.LeaveMarksEvading | src/utility/timeoutManager.js:32-57 | a member not timed out leaves the store as it was; otherwise the punishment becomes `{ evading: true, time: escalated expiry }` and nothing else changes |
| TimeoutManager.HandleLeave | src/utility/timeoutManager.js:32-57 | the store after `handleLeave` is `LeaveEffect` of the old store |
| TimeoutManager.ReapplyDuration | src/utility/timeoutManager.js:69-72 | a reapplication happens iff `evading` is truthy and `time > now`, and its duration is `time - now > 0` |
| TimeoutManager.JoinWritesIffReapplied | src/utility/timeoutManager.js:69-89 | the store changes iff the record is a running evasion and the reapplication succeeded |
| TimeoutManager.ReapplyIsFinal | src/utility/timeoutManager.js:76-81 | after a reapplication the expiry is kept and `evading` is cleared, so a later rejoin reapplies nothing |
| TimeoutManager.HandleJoin | src/utility/timeoutManager.js:62-127 | the store after `handleJoin` is `JoinEffect`; the DM reports a reapplication exactly when one happened, with at least one minute left |
| TimeoutMonitor.ResolveMember | src/services/moderation/TimeoutMonitor.js:22-31 | a member is found iff it is cached or fetchable |
| TimeoutMonitor.KeyIds | src/services/moderation/TimeoutMonitor.js:9-14 | ids are taken exactly from keys starting `users_` that split into at least three parts |
| TimeoutMonitor.ClearTarget | src/services/moderation/TimeoutMonitor.js:9-40 | only a watched `users_` record is ever cleared, and it is written under the key re-derived from its ids |
| TimeoutMonitor.ClearRule | src/services/moderation/TimeoutMonitor.js:15-39 | an unknown guild or unresolvable member never clears; otherwise the record is cleared iff its expiry is not in the future or the live timeout is absent or over |
| TimeoutMonitor.ClearsOwnKey | src/services/moderation/TimeoutMonitor.js:11-40 | a three-part key is cleared under its own name |
| TimeoutMonitor.TargetOf | src/services/moderation/TimeoutMonitor.js:8-47 | one visited entry clears at most one record |
| TimeoutMonitor.ClearAllEffect | src/services/moderation/TimeoutMonitor.js:39-47 | after the tick every cleared record reads `{ evading: false, time: 0 }` whatever the order, and every other record is unchanged |
| TimeoutMonitor.SweepLeavesOthers | src/services/moderation/TimeoutMonitor.js:7-51 | a record the tick does not clear is exactly as before |
| TimeoutMonitor.TargetsStep | src/services/moderation/TimeoutMonitor.js:8 | the targets of a longer prefix of the listing extend those of the shorter one by the new entry's target |
| TimeoutMonitor.ClearAllStep | src/services/moderation/TimeoutMonitor.js:8-51 | clearing one more visit's target equals that visit's effect on the store so far |
| TimeoutMonitor.Visit | src/services/moderation/TimeoutMonitor.js:9-50 | one loop iteration leaves the store `VisitEffect` of the old store |
| TimeoutMonitor.Tick | src/services/moderation/TimeoutMonitor.js:6-52 | one tick visits every stored entry once and leaves the store with exactly the targets of the listing cleared |
| GuildUpdate.DetectsNewOrChanged | src/handlers/events/serverEvents/guildUpdate.js:19-28 | the handler goes on exactly when the new timestamp is set and differs from the old one |
| GuildUpdate.Target | src/handlers/events/serverEvents/guildUpdate.js:13-36 | a record is reached iff both ids are present and a timeout was added or changed |
| GuildUpdate.RecordsNewExpiry | src/handlers/events/serverEvents/guildUpdate.js:39-48 | no target means no change; a write sets the punishment to `{ evading: false, time: new expiry }`; a skipped write means the expiry is already stored; other records are untouched |
| GuildUpdate.DuplicateEventIsNoOp | src/handlers/events/serverEvents/guildUpdate.js:41-48 | handling the same event twice is the same as handling it once |
| GuildUpdate.OnMemberUpdate | src/handlers/events/serverEvents/guildUpdate.js:9-73 | the store is `UpdateEffect`; the outcome tells missing ids, no change, duplicate or logged, and the DM's minutes are at least one |
| AppealModal.PunishedMeaning | src/handlers/modals/appealModal.js:27-28 | for `now ≥ 0` a member is punished iff a punishment exists and it is evading or its time is after now |
| AppealModal.ClearedIsNotPunished | src/handlers/modals/appealModal.js:28 | a record cleared to `{ evading: false, time: 0 }` is not punished |
| AppealModal.ButtonId | src/handlers/modals/appealModal.js:65-69 | every appeal button id starts with `appeal-` |
| AppealModal.ParseId | src/handlers/modals/appealModal.js:86-87 | an id starting with `appeal-` parses with the prefix `appeal` |
| AppealModal.ButtonIdRoundTrip | src/handlers/modals/appealModal.js:65-86 | splitting a button id built from dash-free parts recovers the action, server id and user id |
| AppealModal.SubmitAnswer | src/handlers/modals/appealModal.js:14 | only a modal submission with the id `appealModal` is answered |
| AppealModal.SubmitInputChecks | src/handlers/modals/appealModal.js:15-23 | an input the handler reads that is absent throws for that input, reason first; a present but blank (after trimming) input gives `MissingInput` |
| AppealModal.SubmitDecision | src/handlers/modals/appealModal.js:25-48 | an admitted submission gives `NotPunished` iff the stored punishment does not count, `ChannelInvalid` iff it counts and the configured channel is not a cached text channel, and a posted appeal iff it counts and the channel is valid |
| AppealModal.PostedAppeal | src/handlers/modals/appealModal.js:50-74 | the appeal goes to the configured text channel with the reason, the accept and deny button ids of that server and member, and `max(1, floor((time - now) / 60000))` minutes when `time` is a number |
| AppealModal.SubmitPosted | src/handlers/modals/appealModal.js:15-74 | a posted appeal is the one built from the trimmed inputs and the stored punishment |
| AppealModal.Submit | src/handlers/modals/appealModal.js:14-82 | the answer is `SubmitAnswer` of the store as it is; the store is not changed |
| AppealModal.ButtonRecord | src/handlers/modals/appealModal.js:86-91 | the record lookup throws iff the id lacks a guild or user part |
| AppealModal.AcceptClearsDenyKeeps | src/handlers/modals/appealModal.js:123-170 | deny never writes; accept writes nothing when timeout removal fails and otherwise clears the punishment to `{ evading: false, time: 0 }` |
| AppealModal.OnButton | src/handlers/modals/appealModal.js:85-171 | the store is `ButtonEffect`; only `appeal` ids are handled; both decisions show the disabled row |
| AppealCommand.CommandTarget | src/commands/system/appeal.js:69-85 | accept and deny reach a record iff run in a server by a ManageGuild member |
| AppealCommand.AcceptOnlyWriter | src/commands/system/appeal.js:88-99 | only an admitted accept on a record with a truthy `time` changes the store, and it clears that record, expired ones included; a falsy `time` leaves the store as it was |
| AppealCommand.AcceptEndsAppeals | src/commands/system/appeal.js:98-99 | after an accept the appeal modal no longer sees the member as punished |
| AppealCommand.FormMatchesHandler | src/commands/system/appeal.js:44-64 | a filled-in submission of the form `create` shows is answered by the appeal modal handler and holds both inputs it reads |
| AppealCommand.Execute | src/commands/system/appeal.js:40-129 | the store is `CommandEffect`; `create` only shows the modal; the guild guard comes first, then ManageGuild; a reached record without a truthy `time` gives `NoPunishment`, otherwise accept lifts and deny refuses without writing |
| ServerSettings.ServerConfig | src/utility/serverSettings.js:8-11 | the configuration is always truthy and `{ set: {} }` when nothing is stored |
| ServerSettings.GetServerConfig | src/utility/serverSettings.js:8-11 | returns that configuration |
| ServerSettings.GetSetting | src/utility/serverSettings.js:19-30 | the result is the traversal of the configuration along the split path, `null` at the first nullish level |
| ServerSettings.SetPath | src/utility/serverSettings.js:38-54 | a successful write needs an object and changes no top-level key but the path's first part |
| ServerSettings.ReadYourWrite | src/utility/serverSettings.js:43-54 | reading the written path gives the written value |
| ServerSettings.FreshPathSucceeds | src/utility/serverSettings.js:47-51 | a falsy first level is created as `{}` and the write succeeds |
| ServerSettings.EmptyPathSucceeds | src/utility/serverSettings.js:40-54 | writing any path into `{}` succeeds |
| ServerSettings.OtherPathsKept | src/utility/serverSettings.js:40-57 | a path that leaves the written one below existing levels reads the same before and after |
| ServerSettings.SettingRoundTrip | src/utility/serverSettings.js:38-58 | `getSetting` after a successful `updateSetting` on the same path returns the value |
| ServerSettings.UpdateSetting | src/utility/serverSettings.js:38-58 | the store is `UpdateEffect`; success iff the path write succeeds, and then the result is true |
| Lifecycle.WriteKeeps | src/utility/database/data.js:105-109 | a punishment write that is not an evasion, or has a positive time, keeps every evasion with an expiry |
| Lifecycle.ApplyKeeps | src/utility/timeoutManager.js:19-24 | `applyTimeout` keeps the invariant |
| Lifecycle.LeaveKeeps | src/utility/timeoutManager.js:47-54 | `handleLeave` keeps the invariant |
| Lifecycle.JoinKeeps | src/utility/timeoutManager.js:76-81 | `handleJoin` keeps the invariant |
| Lifecycle.SweepKeeps | src/services/moderation/TimeoutMonitor.js:40-47 | the sweep keeps the invariant |
| Lifecycle.MemberUpdateKeeps | src/handlers/events/serverEvents/guildUpdate.js:43-48 | the member-update handler keeps the invariant |
| Lifecycle.ButtonKeeps | src/handlers/modals/appealModal.js:123-131 | the appeal buttons keep the invariant |
| Lifecycle.CommandKeeps | src/commands/system/appeal.js:98-99 | `/appeal` keeps the invariant |
| Lifecycle.LeaveThenRejoin | src/utility/timeoutManager.js:32-72 | a rejoin before the escalated expiry reapplies exactly the time left until it |
| Lifecycle.ThirtyMinuteEvasion | src/utility/timeoutManager.js:39-82 | 30 minutes left at leaving escalates to 6 hours, and an immediate rejoin reapplies 6 hours and ends the evasion |
| Lifecycle.SweepClearsAfterExpiry | src/services/moderation/TimeoutMonitor.js:33-47 | once the expiry has passed, the sweep clears the record of a member it can resolve |
| Permissions.EveryMeansAll | src/utility/permissions.js:20 | `every` holds iff each listed permission is held |
| Permissions.SomeMeansExists | src/utility/permissions.js:26 | `some` holds iff some listed role is held |
| Permissions.HasPermission | src/utility/permissions.js:15-35 | granted iff every listed permission is held, some listed role is held when roles are listed, and the caller is listed when users are listed |
| Permissions.HasPermissionMeaning | src/utility/permissions.js:15-35 | the early returns are the conjunction of the three checks, so their order does not matter |
| Permissions.EachCheckDenies | src/utility/permissions.js:18-35 | a missing permission, no listed role or an unlisted user each deny; empty lists admit |
| CommandBuilding.CheckAccess | src/utility/commandBuilder.js:32-46 | granted iff the caller is listed, or holds every listed permission and some listed role, or the command lists nothing |
| CommandBuilding.CheckAccessMeaning | src/utility/commandBuilder.js:32-46 | access iff the user is listed, or every listed permission and some listed role are held, or nothing is listed |
| CommandBuilding.PermissionsOnlyDeniesAll | src/utility/commandBuilder.js:39-45 | a command restricted only by Discord permissions admits nobody |
| CommandBuilding.CompareWithHasPermission | src/utility/commandBuilder.js:32-46 | with no users or permissions listed the two checks agree; a listed user passes `#checkAccess` even where `hasPermission` denies |
| CommandBuilding.CommandBuilder.constructor | src/utility/commandBuilder.js:4-11 | all three lists start empty |
| CommandBuilding.CommandBuilder.SetRoles | src/utility/commandBuilder.js:13-16 | replaces the role list only and returns the builder |
| CommandBuilding.CommandBuilder.SetUsers | src/utility/commandBuilder.js:18-21 | replaces the user list only and returns the builder |
| CommandBuilding.CommandBuilder.SetDiscordPermissions | src/utility/commandBuilder.js:23-26 | replaces the permission list only and returns the builder |
| CommandBuilding.CommandBuilder.HasAccess | src/utility/commandBuilder.js:28-46 | the decision is `CheckAccess`; a listed user always passes; otherwise a missing permission denies |
| Paging.OrText | src/utility/interaction/paginator.js:67-72 | a non-empty option is kept, otherwise the fallback |
| Paging.NewPage | src/utility/interaction/paginator.js:64-87 | the page has its id, a title and placeholder, Close unless `showCloseButton === false`, and empty lists by default |
| Paging.CustomButtons | src/utility/interaction/paginator.js:357-374 | one button per configuration, in order |
| Paging.Components | src/utility/interaction/paginator.js:335-401 | custom components are used as given; otherwise at most two rows, and a select row is `page_select` with the page's options |
| Paging.ComponentsLayout | src/utility/interaction/paginator.js:335-401 | a select row iff there are options, first; a button row iff a button is shown, last; custom buttons in order, then Back, then Close |
| Paging.Route | src/utility/interaction/paginator.js:184-253 | a page is shown only when registered, and it becomes the current page; a handler runs only when the current page registered it for the clicked id, and the page stays; only the owner's `page_select` and `goto_` clicks change the current page |
| Paging.RouteRules | src/utility/interaction/paginator.js:184-253 | other users change nothing; Close stops; `page_select` shows the chosen registered page; other ids keep the page and reach its handler |
| Paging.BackButtonReturns | src/utility/interaction/paginator.js:212-229 | pressing a page's Back button shows the page it names |
| Paging.CloseButtonSilencesNotice | src/utility/interaction/paginator.js:232-282 | Close stops with `closed`, which never shows the timed-out notice |
| Paging.Paginator.constructor | src/utility/interaction/paginator.js:23-31 | no pages, start page `main`, timeout 300 000 unless a truthy one is given, ephemeral only when true |
| Paging.Paginator.Init | src/utility/interaction/paginator.js:38-41 | records the interaction and changes nothing else |
| Paging.Paginator.SetOptions | src/utility/interaction/paginator.js:51-56 | only supplied options change; the start page only when truthy |
| Paging.Paginator.AddPage | src/utility/interaction/paginator.js:64-87 | inserts or replaces exactly that page id |
| Paging.Paginator.AddButton | src/utility/interaction/paginator.js:95-103 | throws iff the page is unknown; otherwise appends to that page only |
| Paging.Paginator.AddOption | src/utility/interaction/paginator.js:111-119 | throws iff the page is unknown; otherwise appends to that page only |
| Paging.Paginator.AddHandler | src/utility/interaction/paginator.js:128-136 | throws iff the page is unknown; otherwise sets that handler on that page only |
| Paging.Paginator.Render | src/utility/interaction/paginator.js:142-154 | fails iff there is no interaction or the start page is missing; otherwise shows the start page's rows |
| Paging.BuildComponents | src/utility/interaction/paginator.js:335-401 | the loop builds exactly `Components(page)` |
| Paging.MenuSession.constructor | src/utility/interaction/paginator.js:181-182 | the session starts on the start page, not stopped |
| Paging.MenuSession.OnCollect | src/utility/interaction/paginator.js:181-262 | the new current page and the reaction are `Route`'s; a Close records the stop reason `closed` |
| MemberSearch.TotalPages | src/commands/user/find.js:245-247 | `ceil(n / 10)`: enough pages for n members and no empty last page |
| MemberSearch.PagesPartition | src/commands/user/find.js:264-267 | every page holds 1 to 10 members in list order, and member j is on page j/10+1 at place j%10 |
| MemberSearch.MemberLines | src/commands/user/find.js:323-326 | the i-th member of page p is numbered (p-1)·10+i+1 |
| MemberSearch.CreateMembersEmbed | src/commands/user/find.js:314-331 | an empty page reads `No members found.`; otherwise the description is the page's numbered member lines, one per line |
| MemberSearch.NumberingAcrossPages | src/commands/user/find.js:264-326 | member j of the whole list is numbered j+1 on page j/10+1 |
| MemberSearch.PageIdInjective | src/commands/user/find.js:269 | distinct pages have distinct ids |
| MemberSearch.NavButtons | src/commands/user/find.js:270-291 | at most Previous and Next |
| MemberSearch.ResultsPagesHoldEveryPage | src/commands/user/find.js:264-299 | registering pages 1..k keeps all k pages and nothing else |
| MemberSearch.NeighboursLinked | src/commands/user/find.js:273-291 | Previous appears iff p > 1, Next iff p < total, and pressing one shows that neighbouring page |
| MemberSearch.RegisterPage | src/commands/user/find.js:293-298 | one loop turn registers exactly that results page |
| MemberSearch.DisplayMemberResults | src/commands/user/find.js:239-304 | up to 10 members give one embed and leave every field of the paginator as it was; more initialise it with a 5-minute, non-ephemeral timeout, register every page and render from `members_page_1` |
| MemberSearch.Insert | src/commands/user/find.js:125 | inserting keeps the list sorted by position and adds exactly the role |
| MemberSearch.SortByPosition | src/commands/user/find.js:125 | the sort is a permutation, highest position first |
| MemberSearch.RoleSelection | src/commands/user/find.js:215-230 | the menu `role_select_menu` has one option per offered role, in order |
| MemberSearch.OfferedRoles | src/commands/user/find.js:217 | at most 25 roles, a prefix of the roles sorted by position |
| MemberSearch.OfferedRolesAreHighest | src/commands/user/find.js:217 | min(n, 25) roles, sorted, taken from the input, and none left out outranks one offered |
| Modals.BuildField | src/utility/interaction/modal.js:60-85 | keeps id and label; Short only for `short`; required unless `required === false`; placeholder and value only when truthy; min and max length as given |
| Modals.ValuesOfKeys | src/utility/interaction/modal.js:183-193 | the returned ids are exactly the submitted ids |
| Modals.ValuesOfLastWins | src/utility/interaction/modal.js:183-193 | an id reads the value of its last occurrence |
| Modals.GetValues | src/utility/interaction/modal.js:183-193 | `{}` unless a modal submission, otherwise the submitted values |
| Modals.ModalHandler.constructor | src/utility/interaction/modal.js:15-21 | an empty modal and no handlers |
| Modals.ModalHandler.Reset | src/utility/interaction/modal.js:23-32 | empty modal, handlers dropped |
| Modals.ModalHandler.Create | src/utility/interaction/modal.js:40-45 | reset, then the new id and title |
| Modals.ModalHandler.AddField | src/utility/interaction/modal.js:60-85 | appends the built input, nothing else changes |
| Modals.ModalHandler.AddFields | src/utility/interaction/modal.js:92-95 | the same as `addField` on each, in order |
| Modals.ModalHandler.OnSubmit | src/utility/interaction/modal.js:102-105 | registers or replaces the handler under the current id |
| Modals.ModalHandler.Show | src/utility/interaction/modal.js:112-127 | one row per field, in order, with the modal's id and title |
| Modals.ModalHandler.HandleSubmit | src/utility/interaction/modal.js:134-144 | handled iff a modal submission with a registered handler, which is the one run |
| Modals.CreateForgetsHandlers | src/utility/interaction/modal.js:23-45 | after the next `create`, the previous modal's submission is no longer handled |
| ReaxionRows.DetectButtonStyle | reaxion_modules/Arow.js:283-318 | a Link style only comes from an explicit style named `link` in any case |
| ReaxionRows.ExplicitStyleDecides | reaxion_modules/Arow.js:285-300 | an explicit style decides alone, case-insensitively; an unknown name gives Primary |
| ReaxionRows.KeywordOrder | reaxion_modules/Arow.js:303-318 | danger words win over success words over back words; otherwise Primary; never Link |
| ReaxionRows.SubstringKeywords | reaxion_modules/Arow.js:303-318 | keywords match inside words: "Announcements" and "Notes" are danger buttons |
| ReaxionRows.BuildButton | reaxion_modules/Arow.js:29-76 | the result is a button with the truthy label and emoji and the given disabled flag; with a url it links there; without one its style is `_detectButtonStyle(style, (id \|\| '') + (label \|\| ''))` |
| ReaxionRows.UrlOrCustomId | reaxion_modules/Arow.js:47-55 | a url gives a Link button without custom id; otherwise the custom id is the given truthy id, or `button_<now>` when there is none, and a Link style only comes from an explicit `link` |
| ReaxionRows.ShortcutsForceStyle | reaxion_modules/Arow.js:84-120 | each shortcut gives its own style whatever the text, unless a url makes a link |
| ReaxionRows.ExpandItem | reaxion_modules/Arow.js:185-196 | a string item is both label and value; an object item is kept |
| ReaxionRows.BuildSelect | reaxion_modules/Arow.js:142-201 | the result is a select menu whose custom id is the given truthy id, or `select_<now>` when there is none; the placeholder only when truthy; min and max as given; disabled as given |
| ReaxionRows.ItemsExpanded | reaxion_modules/Arow.js:185-196 | one option per item, in order |
| ReaxionRows.BuildTextInput | reaxion_modules/Arow.js:209-252 | the custom id is the given truthy id, or `input_<now>` when there is none; the label is the given truthy one, else `Input`; Paragraph iff style `paragraph`; required unless `required === false`; placeholder and value only when truthy; min and max length as given |
| ReaxionRows.ReaxionRow.constructor | reaxion_modules/Arow.js:18-21 | an empty row |
| ReaxionRows.ReaxionRow.AddButton | reaxion_modules/Arow.js:29-76 | appends the built button |
| ReaxionRows.ReaxionRow.AddStyled | reaxion_modules/Arow.js:84-120 | appends the button with the forced style |
| ReaxionRows.ReaxionRow.AddLink | reaxion_modules/Arow.js:128-134 | appends a button with the url, a Link button for a non-empty url |
| ReaxionRows.ReaxionRow.AddSelect | reaxion_modules/Arow.js:142-201 | appends the built select menu |
| ReaxionRows.ReaxionRow.AddTextInput | reaxion_modules/Arow.js:209-274 | appends the built text input |
| ReaxionRows.ButtonsRow | reaxion_modules/Arow.js:335-343 | a fresh row with one button per configuration, in order |
| RoleUtils.GetRole | src/utility/helpers/roleUtils.js:12-42 | missing ids throw; a found role is the guild's role with that id; a missing one is `null` with `ignoreNotFound` and thrown otherwise |
| RoleUtils.RoleExists | src/utility/helpers/roleUtils.js:156-163 | true iff both ids are given and the role resolves |
| RoleUtils.PartialMatchMeaning | src/utility/helpers/roleUtils.js:64-75 | a partial match means the folded query occurs at some position of the folded name |
| RoleUtils.ExactIsPartial | src/utility/helpers/roleUtils.js:64-75 | every exact match is a partial match |
| RoleUtils.CaseInsensitiveIgnoresCase | src/utility/helpers/roleUtils.js:64 | without `caseSensitive`, names differing only in case match the same queries |
| RoleUtils.FindRoleByName | src/utility/helpers/roleUtils.js:53-78 | missing arguments or an unknown guild throw; the result is the first matching role, and `null` only when none matches |
| RoleUtils.EditData | src/utility/helpers/roleUtils.js:139-145 | exactly the defined editable properties are copied, with their values |
| RoleUtils.ModifyRole | src/utility/helpers/roleUtils.js:135-148 | succeeds iff the role resolves and `roleData` is neither `null` nor `undefined` (reading `roleData.name` throws); the edit carries exactly the defined editable properties and the given reason or the default one |
| RoleUtils.StageOneFilters | src/utility/helpers/roleUtils.js:184-186 | the first stage drops @everyone unless `excludeEveryone === false` |
| RoleUtils.StageTwoFilters | src/utility/helpers/roleUtils.js:188-190 | the second stage drops managed roles when asked |
| RoleUtils.StageThreeFilters | src/utility/helpers/roleUtils.js:192-194 | the third stage applies the custom filter when one is given |
| RoleUtils.GetAllRoles | src/utility/helpers/roleUtils.js:174-197 | an unknown guild throws; otherwise the guild's roles filtered by the three stages, in order |
| RoleUtils.GetAllRolesKeeps | src/utility/helpers/roleUtils.js:184-194 | a role is returned iff it belongs to the guild and passes every requested filter |
| RoleUtils.HighestPosition | src/utility/helpers/roleUtils.js:357 | the top position is the largest among the member's roles, 0 for none |
| RoleUtils.CanModerate | src/utility/helpers/roleUtils.js:367-387 | throws iff the guild or a member does not resolve |
| RoleUtils.CanModerateRules | src/utility/helpers/roleUtils.js:376-386 | not oneself, never the owner; the owner moderates everyone else; otherwise a strictly higher top role decides |
| RoleUtils.CanModerateAsymmetric | src/utility/helpers/roleUtils.js:376-386 | never both ways between two members |
| RoleUtils.CanModerateTransitive | src/utility/helpers/roleUtils.js:376-386 | the hierarchy is transitive |
| RoleUtils.ColorPrefix | src/utility/helpers/roleUtils.js:301 | the given non-empty prefix, otherwise `color-` |
| RoleUtils.ColorRoleName | src/utility/helpers/roleUtils.js:305 | the name is the prefix followed by the user id |
| RoleUtils.ColorRoleNamesDistinct | src/utility/helpers/roleUtils.js:305 | distinct users get distinct colour roles |
| RoleUtils.OtherColorRoles | src/utility/helpers/roleUtils.js:309-318 | removed are exactly the member's prefixed roles other than the user's own |
| RoleUtils.SetMemberColorRole | src/utility/helpers/roleUtils.js:292-342 | unknown guild or member throws; the plan applies the given colour, to the reused role or to the created one; the role `findRoleByName` finds by exact name prefix+id is reused (never removed), and added exactly when the member lacks it; otherwise one named prefix+id is created; unless `removeOtherColorRoles === false` the removed roles are exactly the member's prefixed roles other than the reused one, and otherwise none |
| CategoryUtils.GetCategory | src/utility/helpers/categoryUtils.js:12-45 | missing ids throw; a result is a category; a non-category or missing one is `null` with `ignoreNotFound`, thrown otherwise |
| CategoryUtils.CategoryExists | src/utility/helpers/categoryUtils.js:211-217 | true iff both ids are given and the id is a category |
| CategoryUtils.FindCategoryByName | src/utility/helpers/categoryUtils.js:55-81 | missing arguments throw; unknown guild gives `null`; the result is a matching category, `null` only when none matches |
| CategoryUtils.GetChannelsInCategory | src/utility/helpers/categoryUtils.js:116-134 | `[]` when the category does not resolve; otherwise its children of the requested type |
| CategoryUtils.TextTypeFilterSkipped | src/utility/helpers/categoryUtils.js:128-131 | asking for type 0 gives every child channel |
| CategoryUtils.MoveChannelToCategory | src/utility/helpers/categoryUtils.js:143-156 | succeeds iff the channel resolves and the target is a category; the channel then has that parent |
| CategoryUtils.CreateCategory | src/utility/helpers/categoryUtils.js:92-106 | needs ids, name and a known guild; a category request with the given position and overwrites, none by default |
| CategoryUtils.PrivateOverwrites | src/utility/helpers/categoryUtils.js:171-196 | @everyone denied ViewChannel first, then one allow per role, then per user, in order; length 1 + roles + users |
| CategoryUtils.CreatePrivateCategory | src/utility/helpers/categoryUtils.js:167-203 | succeeds iff the guild resolves and both arguments are given; the request has the name and position, and its overwrites are, in order, @everyone denied ViewChannel, then each listed role, then each listed user, allowed it |
| ChannelUtils.GetChannel | src/utility/helpers/channelUtils.js:13-47 | missing ids throw; a missing channel is `null` with `ignoreNotFound`; a found channel outside non-empty `requiredTypes` throws |
| ChannelUtils.WrongTypeStillThrows | src/utility/helpers/channelUtils.js:40-44 | a wrong type throws even with `ignoreNotFound`, unlike `getCategory` |
| ChannelUtils.ChannelExists | src/utility/helpers/channelUtils.js:92-99 | true iff both ids are given and the channel resolves |
| ChannelUtils.FindChannelByName | src/utility/helpers/channelUtils.js:58-84 | missing arguments throw; unknown guild gives `null`; the result passes the type and name test, `null` only when none does |
| ChannelUtils.ExactMatchCaseRules | src/utility/helpers/channelUtils.js:70-81 | exact channel matches are case-sensitive, category ones are not; partial matches agree |
| ChannelUtils.TextTypeFilterSkipped | src/utility/helpers/channelUtils.js:72 | looking for type 0 is looking for any type |
| ChannelUtils.GetTextChannel | src/utility/helpers/channelUtils.js:107-119 | a result is a text type that can send; unresolved gives `null`; a resolved non-text channel throws |
| ChannelUtils.StageChannelThrows | src/utility/helpers/channelUtils.js:107-113 | a stage channel throws |
| ThreadUtils.GetThread | src/utility/helpers/threadUtils.js:12-51 | missing ids throw; a result is a thread; a non-thread is `null` with `ignoreNotFound`, thrown otherwise |
| ThreadUtils.StrictGetThreadYieldsThread | src/utility/helpers/threadUtils.js:12-51 | without `ignoreNotFound` it succeeds iff the id is a thread, and then returns it |
| ThreadUtils.AutoArchiveDuration | src/utility/helpers/threadUtils.js:83-86 | a valid duration is kept, anything else becomes 1440 |
| ThreadUtils.CreateThread | src/utility/helpers/threadUtils.js:65-106 | succeeds iff ids, name and a text or announcement parent; from the given message (its id) when one is given, else private or public as asked; the request carries the name, the validated duration and the reason |
| ThreadUtils.MessageOptions | src/utility/helpers/threadUtils.js:119-121 | a string becomes `{ content }`, anything else passes through |
| ThreadUtils.MessageOptionsRoundTrip | src/utility/helpers/threadUtils.js:119-121 | the wrapped text reads back as `content`, and wrapping twice changes nothing |
| ThreadUtils.SendThreadMessage | src/utility/helpers/threadUtils.js:115-124 | succeeds iff the id is a thread, which receives the wrapped content |
| ThreadUtils.CreateForumPost | src/utility/helpers/threadUtils.js:226-256 | succeeds iff ids, name, message and a forum parent; wrapped message, tags default to none, duration to a day when falsy |
| ThreadUtils.ForumDurationUnchecked | src/utility/helpers/threadUtils.js:254 | a 7-minute duration reaches a forum post unchanged, while a thread gets 1440 |
| FileHelpers.FullFilePath | src/utility/helpers/file.js:18-23 | an absolute path is kept; a relative one is placed under the data directory |
| FileHelpers.FullFilePathIdempotent | src/utility/helpers/file.js:18-23 | resolving twice gives the same absolute path |
| FileHelpers.Ensured | src/utility/helpers/file.js:10-16 | a missing file is created as `{}`, other files are unchanged |
| FileHelpers.GetUserEffect | src/utility/helpers/file.js:37-45 | fails iff the file is not an object or `users` is a truthy non-object |
| FileHelpers.GetUserEffectMeaning | src/utility/helpers/file.js:37-45 | the user ends with its entry or a copy of the template; the file changes only when it was missing; other users and properties are kept |
| FileHelpers.GetUserEffectIdempotent | src/utility/helpers/file.js:40-44 | a second call finds the entry and writes nothing |
| FileHelpers.UpdateEffect | src/utility/helpers/file.js:47-54 | fails iff the file is not an object |
| FileHelpers.UpdateEffectMeaning | src/utility/helpers/file.js:47-54 | a missing user writes nothing; otherwise only that user's entry is replaced by the callback's result |
| FileHelpers.DataFiles.constructor | src/utility/helpers/file.js:8 | the data directory is absolute |
| FileHelpers.DataFiles.ReadJSON | src/utility/helpers/file.js:25-29 | the file after creating it as `{}` when missing |
| FileHelpers.DataFiles.WriteJSON | src/utility/helpers/file.js:31-35 | replaces that file only |
| FileHelpers.DataFiles.GetUserData | src/utility/helpers/file.js:37-45 | returns the entry `GetUserEffect` leaves and stores that file |
| FileHelpers.DataFiles.UpdateUserData | src/utility/helpers/file.js:47-54 | false and no write for a missing user, otherwise true with the updated file stored |
| Embeds.FooterOf | src/utility/helpers/embed.js:11-13 | no footer only for `null`; "Reaxion" for absent or empty; the text otherwise |
| Embeds.SubEntryTwoLines | src/utility/helpers/embed.js:45-56 | the sub-entry value reads back as exactly the role line and the description line |
| Embeds.BulletEntryLines | src/utility/helpers/embed.js:58-66 | a bullet entry appends the bullet line, the sub-entry line and an empty line to the description's lines |
| Embeds.Divider | src/utility/helpers/embed.js:68-69 | the divider is the emoji repeated `repeat` times |
| Embeds.DividerIsLastLine | src/utility/helpers/embed.js:68-74 | the divider is the last line, after the lines of a non-empty description |
| Embeds.PresetOf | src/utility/helpers/embed.js:84-91 | a theme exists exactly for error, success, info and warning |
| Embeds.ReaxionBuilder.constructor | src/utility/helpers/embed.js:4-14 | title, description and colour only when truthy; the footer as `FooterOf`; no fields |
| Embeds.ReaxionBuilder.AddField | src/utility/helpers/embed.js:17-20 | appends one field, nothing else changes |
| Embeds.ReaxionBuilder.AddFieldsArray | src/utility/helpers/embed.js:23-26 | appends the fields in order |
| Embeds.ReaxionBuilder.UseLevelStyle | src/utility/helpers/embed.js:29-33 | sets the description and the blurple colour |
| Embeds.ReaxionBuilder.AddTreeHeader | src/utility/helpers/embed.js:36-40 | appends a bold, non-inline header field with the spacer value, under the given emoji or the default one |
| Embeds.ReaxionBuilder.AddSubEntryField | src/utility/helpers/embed.js:45-56 | appends a bold-named field whose value is the two-line sub-entry |
| Embeds.ReaxionBuilder.AddBulletEntry | src/utility/helpers/embed.js:58-66 | the description becomes the current one plus the bullet entry |
| Embeds.ReaxionBuilder.AddDescriptionDivider | src/utility/helpers/embed.js:68-74 | the description gains the divider (by default 27 copies of emoji `1360508812263690240`) on its own last line |
| Embeds.ReaxionBuilder.SetPreset | src/utility/helpers/embed.js:83-97 | a known theme sets `<theme> \| <content>` and its colour; an unknown one changes nothing |

## Left out

- Discord transport: only "unknown" ids are modelled as errors. Rate limits, permission errors and network failures are not. Replies, edits and the embed styling of replies are not modelled either.
- Direct messages: a DM that fails is caught by the source. The model does not track DMs at all.
- Concurrency: `setInterval` overlap, the collector timeout and races between handlers on the same record are not modelled. Each handler runs as one sequential step with one `now`.
- JavaScript coercion: relational comparisons see only numbers, `null` and booleans. Numeric strings in `time` are treated as NaN, and floating-point numbers are not modelled.
- Storage backends: only the sqlite path of data.js is modelled. The MongoDB path, `initializeDatabase` and `backupDatabase` are not.
- ServerSettings.UpdateSetting: the source mutates the configuration object in place. The model computes the new configuration as a value. Both store the same result, but the aliasing is not captured.
- FileHelpers.UpdateEffect: the source's callback mutates the entry in place. The model takes the callback as a function from the old entry to the new one.
- FileHelpers.FullFilePath: `.` and `..` segments are not normalised as `path.resolve` would, and an empty relative path resolves to the data directory.
- FileHelpers: only files whose contents are JSON objects keep their `users` map. Arrays are not modelled.
- RoleUtils.HighestPosition: Discord's `roles.highest` compares position and then id. The model takes the maximum position, which is all `canModerate` and `getHighestRolePosition` compare.
- Thin wrappers over a single Discord call that the model has no state for: `createRole`, `deleteRole`, `addRoleToMember`, `removeRoleFromMember`, `memberHasRole`, `getMembersWithRole`, `getHighestRolePosition`, `setThreadArchived`, `setThreadLocked`, `addThreadMember`, `removeThreadMember`, `isThreadMember`, `getThreadMembers` and `listActiveThreads`.
- RoleUtils.FindRoleByName: `toLowerCase` is modelled by `Strings.ToLower`, which folds ASCII, Latin-1 and basic Cyrillic capitals only. Names in other scripts, Greek final sigma and mappings to several characters (such as `İ`) may compare differently from the source.
- CategoryUtils.FindCategoryByName: case-insensitive matching uses the same partial `Strings.ToLower`, with the same gaps as FindRoleByName.
- ChannelUtils.FindChannelByName: case-insensitive matching uses the same partial `Strings.ToLower`, with the same gaps as FindRoleByName.
- ReaxionRows.DetectButtonStyle: the keyword search lower-cases the text with the same partial `Strings.ToLower`, so a keyword hidden behind an unmodelled case mapping is not seen.
- Embeds.ReaxionBuilder: colours are integers only, so colour strings are not modelled. A negative divider `repeat`, which throws in JavaScript, is excluded by the `nat` type, and a `null` one (an empty divider) is not modelled. The model does not check discord.js's `EmbedBuilder` limits: an empty description or field name, a field value over 1024 characters, a 26th field or a description over 4096 characters, all of which that library rejects, are accepted here.
- `createMenu` and `_buildEmbed` in paginator.js are not modelled. Page embeds are kept as given.
- `ModalHandler.register` in modal.js is not modelled: it attaches the listener to the client.
- The `row`, `button`, `select` and `textInput` factory functions in Arow.js are not modelled separately. Each is the row constructor followed by the method of the same name.
- Prototype property lookups are not modelled: a page id, handler id, style name or preset name such as `constructor` or `toString` would find an inherited property in the source.
- Sort stability: `SortByPosition` is a sorted permutation, but its order among equal positions need not match the engine's.
- In find.js, the role-select handler closure and the collector set-up are not modelled.
- MemberSearch.DisplayMemberResults: with more than 10 members the select interaction has already been answered by `i.update` (src/commands/user/find.js:168) when `paginator.render` answers it again with `interaction.reply` (src/utility/interaction/paginator.js:160). Discord refuses a second reply, so the catch at src/commands/user/find.js:188-194 would show the error text instead of the pages. Replies are not modelled: the contract describes the paginator's state, not what the user sees.
- CategoryUtils.MoveChannelToCategory: `setParent(categoryId)` (src/utility/helpers/categoryUtils.js:155) also synchronises the channel's permission overwrites with the category's by default. The model records only the new parent, not the overwrite change.
- ReaxionRows.BuildSelect: `select()` deletes `options` from the caller's configuration object (reaxion_modules/Arow.js:157). The model takes the configuration as a value, so this change to the caller's object is not captured.
- Data.Migrate: a migration receives the live record object (src/utility/database/data.js:161-166), so it can change it in place while reporting `modified: false`, and that change reaches the store when a later migration reports a modification. The model's migrations are functions from a record to a result, so such in-place changes are not captured: an unmodified result keeps the record as it was.
- RoleUtils.SetMemberColorRole: the role edit and creation themselves, and their audit-log reasons, are Discord calls. The plan records the colour they apply, not the resulting role.
- Graphics, image.js, dataEditor.js, the command UIs and the startup and event wiring are not part of this model.
