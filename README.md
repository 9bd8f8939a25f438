# Campfire lobbies: a verified model

Campfire is a Discord bot.  Its central feature is the *lobby*, a temporary
voice channel:

- A guild registers some voice channels as *templates*.
- When a member joins a template, the bot clones it into a new voice channel
  (a *clone*), records the member as the clone's owner and moves the member
  into it.
- When the last member leaves a clone, the bot deletes it.
- The owner can rename, lock, unlock, kick, ban and unban through sub-commands
  of `/lobby`.  Guild administrators can disable each sub-command.
- On start-up, when the bot leaves a guild and when a channel is deleted, the
  bot removes stored records of channels and guilds that no longer exist.

The repository holds several generations of this subsystem:

- the per-guild document schema of `extensions/lobbies.py` and
  `campfire/extensions/lobbies.py`;
- the flat record schema of `lib/channels.py` and `bot/lib/channels.py`, with
  the listeners and commands in `src/extensions/temporary_channels.py` and
  `bot/extensions/temporary_channels.py`;
- the channel-clone helper `clone_channel`.

This project models all of them, together with these smaller helpers:

- the birthday argument converters and their midnight-hour table;
- reputation voting and the profile's reputation string;
- the tag command guards and tag list pagination;
- the three variants of `evaluate_exception`.

Modules, one file each:

- `Common` (common.dfy): ids, `Option`/`Result`, decimal rendering, `str.strip`, the command replies.
- `Overwrites` (overwrites.dfy): permission overwrites, and the in-place loops of `lock_lobby`, `unlock_lobby`, `ban_member` and `unban_member`.
- `ChatPlatform` (platform.dfy): the chat platform as a value: channels by id, each connected member's channel, and the next snowflake to issue.
- `ChannelCopy` (clone.dfy): `clone_channel` in `utils/channels.py` and `utils.py`.
- `LobbyChannels` (channels.dfy): the flat `channels` collection as a class `Registry`, plus channel creation and deletion.
- `TemporaryChannels` (temporary_channels.dfy): the listeners and owner commands over the flat collection, as a class `TempChannelsBot`.
- `Keyed` (keyed.dfy): collections with one document per key (`find_one`, `delete_one`, purges).
- `LobbyStore` (lobby_store.dfy): the `lobby_channels` and `lobby_disabled_commands` documents and their updates.
- `Lobbies` (lobbies.dfy): the lobby extension as a class `LobbyBot`: listeners, start-up sweeps and every `/lobby` command.
- `Birthday`, `Reputation`, `Profile`, `Tags`, `Exceptions`: the smaller helpers.

State that the source updates in place is a class whose methods say what
they change:

- the record collections;
- the bot's collections and platform;
- the reputations collection.

Loops are methods with invariants:

- `clear_database`'s fetch and pull loops;
- the purge loops;
- the start-up sweeps;
- the overwrite edits;
- tag pagination.

The pure helpers are functions with lemmas.

Two points where the source is not uniform:

- The docstring of `lock_lobby` (`extensions/lobbies.py:204-209`) says a
  denying `@everyone` overwrite is created whenever the role has none.  The
  code (`extensions/lobbies.py:227-242`) creates one only when the list is
  empty.  `/lobby lock` is modelled with the code as written; the docstring's
  lock is modelled beside it, and the difference is the one entry under
  Findings.
- `extensions/lobbies.py:50-56` names a new clone "`<user>`'s Lobby", while
  `bot/extensions/temporary_channels.py` and
  `src/extensions/temporary_channels.py` name it "Lobby".  Each part of the
  model uses the name of the file it models.

## Model

| member | source | states |
|---|---|---|
| Common.NatToString | extensions/profile.py:46-48 | str(n) of a non-negative int: all digits, no leading zero unless n is 0 |
| Common.ParseNatToString | extensions/profile.py:46-48 | int(str(n)) == n for every natural n |
| Common.Strip | extensions/lobbies.py:747 | str.strip(): the result is s without exactly its leading and trailing whitespace |
| Common.StripIdempotent | extensions/lobbies.py:747-749 | stripping a stripped name changes nothing, so the length check sees the name that is stored |
| Common.StripEmpty | extensions/lobbies.py:749 | a name strips to the empty string exactly when it is all whitespace |
| Overwrites.FindFirst | extensions/lobbies.py:338-349 | the index of the first overwrite carrying the id, None exactly when no entry carries it |
| Overwrites.IsDenied | extensions/lobbies.py:291-318 | lobby_is_locked / member_is_banned: true exactly when the first entry for the id denies CONNECT |
| Overwrites.FindOverwrite | extensions/lobbies.py:338-349 | the search loop returns the first entry carrying the id, or None when there is none |
| Overwrites.LockLobby | extensions/lobbies.py:221-244 | the loop as written: an empty list gets one @everyone entry denying CONNECT; otherwise the first @everyone entry is edited, and a list without one comes back unchanged |
| Overwrites.UnlockLobby | extensions/lobbies.py:264-288 | unlock_lobby's loop: the first @everyone entry gets CONNECT moved from deny to allow, or an allowing entry is created for an empty list |
| Overwrites.BanMember | extensions/lobbies.py:321-360 | ban_member: the member's first entry denies CONNECT, or a denying member entry is appended |
| Overwrites.UnbanMember | extensions/lobbies.py:363-402 | unban_member: the member's first entry allows CONNECT, or an allowing member entry is appended |
| Overwrites.LockLobbyFixed | extensions/lobbies.py:204-209 | the lock the docstring describes: edit the @everyone entry, or append a denying one whenever there is none |
| Overwrites.DenyDenies | extensions/lobbies.py:321-360 | after a deny edit the id is denied CONNECT, and the list grows by at most one entry |
| Overwrites.AllowAllows | extensions/lobbies.py:363-402 | after an allow edit the id is not denied CONNECT |
| Overwrites.DenyFrame | extensions/lobbies.py:352-358 | a deny edit leaves every other id's denied status and entries as they were |
| Overwrites.AllowFrame | extensions/lobbies.py:394-400 | an allow edit leaves every other id's denied status and entries as they were; the edited entry keeps its id, kind and every permission other than CONNECT |
| Overwrites.UnlockedAsWrittenFrame | extensions/lobbies.py:264-288 | unlock_lobby leaves a non-empty list without an @everyone entry as it was; otherwise only the first @everyone entry changes, in CONNECT alone, which it then allows |
| Overwrites.OtherIdUnaffected | extensions/lobbies.py:405-423 | entries of other ids keep their positions, so member_is_banned for them is unchanged |
| Overwrites.LockedAsWrittenLocks | extensions/lobbies.py:227-242 | on an empty list, or one with an @everyone entry, lock_lobby as written locks and agrees with the intended lock |
| Overwrites.LockedAsWrittenMissesEveryone | extensions/lobbies.py:235-242 | on a non-empty list without an @everyone entry, lock_lobby as written returns the list unchanged and the lobby stays unlocked |
| Overwrites.LockAfterBanDoesNotLock | extensions/lobbies.py:227-244 | a lobby whose only overwrite is a member ban is still unlocked after lock_lobby |
| Overwrites.LockFixedLocks | extensions/lobbies.py:204-209 | the corrected lock always leaves @everyone denied CONNECT |
| Overwrites.UnlockedAsWrittenUnlocks | extensions/lobbies.py:247-288 | after unlock_lobby @everyone is never denied CONNECT |
| Overwrites.LockThenUnlock | extensions/lobbies.py:201-288 | locking then unlocking leaves the lobby unlocked, with either lock |
| Overwrites.BanThenUnban | extensions/lobbies.py:321-402 | banning then unbanning leaves the member not banned, and the unban adds no entry |
| ChatPlatform.IsEmptyNoOccupants | lib/channels.py:66-72 | is_empty holds exactly when the voice-state view of the channel is empty |
| ChannelCopy.ClonedChannel | utils/channels.py:4-32 | the clone is a voice channel in the template's guild |
| ChannelCopy.CloneChannel | utils.py:66-96 | clone_channel creates the cloned channel under a fresh id and touches nothing else |
| ChannelCopy.OverridesWin | utils/channels.py:19-31 | every attribute passed as a keyword is the clone's |
| ChannelCopy.DefaultsFromTemplate | utils/channels.py:19-31 | every attribute not passed comes from the template: name, position, user limit, bitrate, video quality, region, overwrites, category |
| ChannelCopy.CloneOfVoiceTemplate | lib/channels.py:139-148 | a clone given only a name equals the template except for its name |
| LobbyChannels.FindOne | lib/channels.py:348-364 | find_one: the first record of that kind for the id, None exactly when no such record exists |
| LobbyChannels.WithoutGuild | lib/channels.py:333-345 | delete_many by guild keeps exactly the records of other guilds |
| LobbyChannels.WithoutChannels | src/extensions/temporary_channels.py:56-59 | the records whose channel id is not dropped, and no others |
| LobbyChannels.Registry.constructor | src/extensions/temporary_channels.py:20 | a new collection holds no record |
| LobbyChannels.Registry.RegisterTemplate | lib/channels.py:249-270 | register_template inserts exactly one template record |
| LobbyChannels.Registry.RegisterClone | lib/channels.py:273-300 | register_clone inserts exactly one clone record carrying guild, template, id and owner |
| LobbyChannels.Registry.DeregisterTemplate | lib/channels.py:303-315 | deregister_template deletes the first template record for the id |
| LobbyChannels.Registry.DeregisterClone | lib/channels.py:318-330 | deregister_clone deletes the first clone record for the id |
| LobbyChannels.Registry.DeleteGuildData | lib/channels.py:333-345 | delete_guild_data deletes every record of the guild |
| LobbyChannels.Registry.SetOwner | lib/channels.py:86-91 | set_owner updates the first record carrying the channel id, whatever its kind |
| LobbyChannels.Registry.TemplateExists | lib/channels.py:348-364 | template_exists is true exactly when some template record holds the id |
| LobbyChannels.Registry.CloneExists | lib/channels.py:367-383 | clone_exists is true exactly when some clone record holds the id |
| LobbyChannels.Registry.GetTemplate | lib/channels.py:157-172 | get_template is None exactly when no template record holds the id, else the given channel |
| LobbyChannels.Registry.GetClone | lib/channels.py:175-190 | get_clone is None exactly when no clone record holds the id, else the given channel |
| LobbyChannels.Registry.GetOwner | lib/channels.py:78-84 | get_owner reads the owner of the first clone record for the id; when there is none the source raises, and the model answers nothing (see Left out) |
| LobbyChannels.LeavingMirrorsJoining | lib/channels.py:225-246 | joined_a_channel and left_a_channel: an old state counts as leaving exactly when, as a new state, it would count as joining a channel; a missing old state never counts |
| LobbyChannels.IsInLobby | lib/channels.py:386-407 | is_in_lobby: false without a voice state or channel, else true exactly when that channel is a registered clone |
| LobbyChannels.CreateTemplate | lib/channels.py:102-119 | create_template creates a voice channel under a fresh id, then registers exactly that id as a template |
| LobbyChannels.CreateClone | lib/channels.py:122-154 | create_clone copies the template under the new name, then registers one clone record with the template's guild, template id, new id and owner |
| LobbyChannels.DeleteTemplate | lib/channels.py:193-206 | delete_template deletes the channel and then its template record; a channel already gone leaves everything as it was |
| LobbyChannels.DeleteClone | lib/channels.py:209-222 | delete_clone deletes the channel and then its clone record; a channel already gone leaves everything as it was |
| LobbyChannels.RemoveFirstRemovesFirstMatch | lib/channels.py:303-330 | delete_one removes exactly the first matching record, keeps the order of the rest, and with no match changes nothing |
| LobbyChannels.DeregisterRemovesRegistration | tests/lib/test_channels.py:418-443 | with unique ids, after deregistration the id is no longer registered with that kind, and every other record survives |
| LobbyChannels.DeregisterKeepsOtherKind | lib/channels.py:303-330 | deregistering one kind never removes a record of the other kind with the same id |
| LobbyChannels.RegisterThenExists | lib/channels.py:249-300 | after registration the id exists with the inserted kind, and a fresh clone's owner reads back |
| LobbyChannels.DeleteGuildDataSeparates | tests/lib/test_channels.py:381-415 | delete_guild_data removes every record of the guild and keeps every record of other guilds |
| LobbyChannels.SetOwnerTransfers | lib/channels.py:78-91 | after set_owner, get_owner yields the new owner, other channels keep their owners, and registrations are unchanged |
| LobbyChannels.SetOwnerPointwise | lib/channels.py:86-91 | set_owner changes only the owner of the first record carrying the id |
| LobbyChannels.KeepLive | bot/extensions/temporary_channels.py:11-21 | the records whose channel still exists, and no others |
| LobbyChannels.DistinctChannels | src/extensions/temporary_channels.py:21 | distinct("channel_id") lists exactly the stored channel ids |
| LobbyChannels.DeregisterBothDrops | src/extensions/temporary_channels.py:58-59 | deleting the template and then the clone record of an id drops every record with that id |
| LobbyChannels.DroppingDeadKeepsLive | src/extensions/temporary_channels.py:23-28 | dropping exactly the ids that no longer exist keeps exactly the live records |
| LobbyChannels.WithoutGuildUnique | lib/channels.py:333-345 | delete_many keeps channel ids unique |
| TemporaryChannels.TempChannelsBot.RemoveOldChannelData | src/extensions/temporary_channels.py:11-28 | the start-up sweep over distinct ids leaves exactly the records whose channel exists |
| TemporaryChannels.TempChannelsBot.RemoveOldData | bot/extensions/temporary_channels.py:11-21 | the record-by-record sweep leaves the same live records |
| TemporaryChannels.TempChannelsBot.RemoveAllGuildChannelData | src/extensions/temporary_channels.py:32-43 | leaving a guild deletes exactly that guild's records |
| TemporaryChannels.TempChannelsBot.RemoveChannelData | src/extensions/temporary_channels.py:47-59 | a deleted channel loses its template and clone records, and nothing else changes |
| TemporaryChannels.TempChannelsBot.CreateTemplateChannel | src/extensions/temporary_channels.py:63-84 | a member joining a registered template gets a "Lobby" clone owned by them and is moved into it; otherwise nothing changes |
| TemporaryChannels.TempChannelsBot.DeleteCloneChannel | src/extensions/temporary_channels.py:88-108 | a registered clone left empty is deleted along with its record; otherwise nothing changes |
| TemporaryChannels.TempChannelsBot.Create | src/extensions/temporary_channels.py:130-152 | /lobby create adds a voice channel under a fresh id and registers exactly it as a template |
| TemporaryChannels.TempChannelsBot.OwnedLobby | src/extensions/temporary_channels.py:167-178 | the owner guard: "not in a lobby" exactly when is_in_lobby fails, "not owner" when the clone's owner differs, else the caller's channel |
| TemporaryChannels.TempChannelsBot.Rename | src/extensions/temporary_channels.py:155-198 | after the owner checks, a stripped name of 1 to 100 characters renames the lobby; otherwise InvalidName, and a throttled edit of a valid name RateLimited; every failure changes nothing |
| TemporaryChannels.TempChannelsBot.Kick | src/extensions/temporary_channels.py:205-246 | after the guard, a target in the caller's lobby is disconnected; otherwise nothing changes |
| TemporaryChannels.TempChannelsBot.Owner | src/extensions/temporary_channels.py:249-286 | after the guard, a target in the caller's lobby becomes its owner; otherwise the records are unchanged |
| TemporaryChannels.UniqueCloneIsNoTemplate | lib/channels.py:386-407 | with unique ids, a registered clone is never also a template |
| Keyed.FindKey | extensions/lobbies.py:76-105 | find_one on the key: the first document with it, None exactly when there is none |
| Keyed.DropKeys | campfire/extensions/lobbies.py:506-519 | the documents whose key is not dropped, and no others |
| Keyed.KeepKeys | campfire/extensions/lobbies.py:473-503 | the documents whose guild can still be fetched, and no others |
| Keyed.DeleteFirstKeyDrops | campfire/extensions/lobbies.py:518-519 | with one document per guild, delete_one on the guild removes every document of that guild |
| Keyed.DropKeysUnique | campfire/extensions/lobbies.py:489-503 | dropping documents keeps one document per guild |
| Keyed.DroppingDeadKeysKeepsLive | campfire/extensions/lobbies.py:489-503 | dropping exactly the guilds that cannot be fetched keeps exactly the live ones |
| LobbyStore.HasTemplate | extensions/lobbies.py:108-123 | valid_template is true exactly when some document lists the id as a template |
| LobbyStore.CloneDocument | extensions/lobbies.py:76-105 | get_clone_document: an entry for the channel exactly when some document lists it as a clone; the entry is the one listed |
| LobbyStore.WithoutIds | extensions/lobbies.py:462-464 | $pull with $in keeps exactly the ids not pulled |
| LobbyStore.WithoutEntries | extensions/lobbies.py:465-468 | $pull on clone_id keeps exactly the entries whose clone is not pulled |
| LobbyStore.PullTemplates | extensions/lobbies.py:462-464 | update_many on the guild: each document of the guild keeps exactly its template ids not pulled, and its clones; every other document is unchanged |
| LobbyStore.PullClones | extensions/lobbies.py:465-468 | update_many on the guild: each document of the guild keeps exactly its clone entries not pulled, and its templates; every other document is unchanged |
| LobbyStore.SweepDocument | extensions/lobbies.py:440-468 | what the sweep should leave of a document: same guild, exactly the live templates and clones |
| LobbyStore.WithoutDeadIds | extensions/lobbies.py:448-464 | pulling exactly the ids whose fetch fails keeps exactly the live template ids |
| LobbyStore.WithoutDeadEntries | extensions/lobbies.py:454-468 | pulling exactly the clones whose fetch fails keeps exactly the live clone entries |
| LobbyStore.WithoutCommand | extensions/lobbies.py:144-159 | $pull removes every occurrence of the command and keeps the rest |
| LobbyStore.IsDisabledIn | extensions/lobbies.py:182-198 | command_is_disabled is true exactly when a document of the guild lists the command |
| LobbyStore.UpsertsKeepKeysUnique | extensions/lobbies.py:11-73 | the upserting pushes keep one document per guild |
| LobbyStore.DisableDisables | extensions/lobbies.py:162-179 | after disable_command the command is disabled in the guild, and no other guild and command pair changes |
| LobbyStore.EnableEnables | extensions/lobbies.py:144-159 | after enable_command the command is not disabled in the guild, and no other pair changes |
| LobbyStore.PushTemplate | extensions/lobbies.py:29-35 | the upserting push: the guild's first document ends with the id, a document is added only when the guild has none, and no other document or clone list changes |
| LobbyStore.PushClone | extensions/lobbies.py:59-73 | the upserting push: the guild's first document ends with the entry, a document is added only when the guild has none, and no other document or template list changes |
| LobbyStore.DisableIn | extensions/lobbies.py:162-179 | the upserting push: the guild's first document lists exactly its old commands and the new one, a document is added only when the guild has none, and no other document changes |
| LobbyStore.EnableIn | extensions/lobbies.py:144-159 | the pull without upsert: no document is added; the guild's first document lists exactly its old commands other than this one, and no other document changes |
| LobbyStore.PushTemplateRegisters | extensions/lobbies.py:11-35 | after create_template's push the id is a template, and every template and clone entry stays |
| LobbyStore.PushCloneRegisters | extensions/lobbies.py:38-73 | after create_clone's push the new id is a clone with exactly the pushed entry, and templates are unchanged |
| LobbyStore.PullChannelForgets | extensions/lobbies.py:472-493 | after the channel-delete pull no document of the guild lists the id, and documents of other guilds are unchanged |
| LobbyStore.SweepAll | extensions/lobbies.py:440-468 | every document swept, in order, with guilds unchanged |
| LobbyStore.SweepAllKeepsLive | extensions/lobbies.py:427-468 | after the sweep an id is still a template, or still a clone, exactly when it was one and its channel exists |
| LobbyStore.SweepAllKeepsInvariant | extensions/lobbies.py:427-468 | the sweep keeps one document per guild and lists only issued ids |
| LobbyStore.PushKeepsIssued | extensions/lobbies.py:11-73 | pushes of issued ids keep one document per guild and list only issued ids |
| LobbyStore.PullKeepsInvariant | extensions/lobbies.py:472-493 | the channel-delete pull keeps the invariant |
| LobbyStore.FreshIdUnlisted | extensions/lobbies.py:38-73 | an id the platform has not issued is listed neither as template nor as clone |
| Lobbies.LobbyName | extensions/lobbies.py:50-56 | the clone's name starts with the member's name followed by the 8-character suffix "'s Lobby" |
| Lobbies.PurgeCollection | campfire/extensions/lobbies.py:489-503 | the purge loop over one collection leaves exactly the documents of guilds that can still be fetched |
| Lobbies.LobbyBot.constructor | extensions/lobbies.py:29 | a new bot over a well-formed platform with empty collections is valid |
| Lobbies.LobbyBot.CreateTemplate | extensions/lobbies.py:11-35 | a voice channel under a fresh id, pushed onto the guild's templates; it is then a template and no clone entry changes |
| Lobbies.LobbyBot.CreateClone | extensions/lobbies.py:38-73 | the template cloned under the member's lobby name; get_clone_document for the new id is exactly the pushed entry |
| Lobbies.LobbyBot.Gate | extensions/lobbies.py:708-745 | the owner guard: disabled first, then not in a lobby, then not owner; it succeeds exactly when all three pass, with the caller's lobby |
| Lobbies.LobbyBot.OnJoinTemplate | extensions/lobbies.py:497-522 | joining a listed template that exists creates the clone under the next id, moves the member in, pushes exactly the clone entry onto the guild's document (PushClone), and opens the guard for every enabled command; otherwise nothing changes |
| Lobbies.LobbyBot.OnLeaveClone | extensions/lobbies.py:526-560 | a listed clone left empty is deleted; otherwise nothing changes |
| Lobbies.LobbyBot.OnChannelDelete | extensions/lobbies.py:472-493 | a deleted voice channel is pulled from its guild's templates and clones; other guilds and non-voice deletions change nothing |
| Lobbies.LobbyBot.FetchFailures | extensions/lobbies.py:448-458 | the fetch loop collects exactly the ids whose channel cannot be fetched |
| Lobbies.LobbyBot.ClearDatabase | extensions/lobbies.py:427-468 | after the start-up sweep each document keeps exactly its live templates and clones |
| Lobbies.LobbyBot.PurgeGuildDocuments | campfire/extensions/lobbies.py:473-503 | both collections keep exactly the documents of guilds that can still be fetched |
| Lobbies.LobbyBot.DeleteGuildDocument | campfire/extensions/lobbies.py:507-519 | leaving a guild removes its document from both collections |
| Lobbies.LobbyBot.Create | extensions/lobbies.py:585-605 | /lobby create: a template "New Lobby - Edit me!" under the next id, with voice states unchanged; the collection becomes PushTemplate of the old one, so the id is a template and every clone lookup is unchanged |
| Lobbies.LobbyBot.Enable | extensions/lobbies.py:613-646 | refused exactly when the command is not disabled; afterwards it is enabled and no other pair changes |
| Lobbies.LobbyBot.Disable | extensions/lobbies.py:654-687 | refused exactly when the command is already disabled; afterwards it is disabled and no other pair changes |
| Lobbies.LobbyBot.SetOverwrites | extensions/lobbies.py:244 | lobby.edit(permission_overwrites=...) replaces only the lobby's overwrites |
| Lobbies.LobbyBot.Rename | extensions/lobbies.py:694-782 | after the guard, a stripped name of 1 to 100 characters renames the lobby; otherwise InvalidName, and a throttled edit of a valid name RateLimited; every failure changes nothing |
| Lobbies.LobbyBot.Lock | extensions/lobbies.py:788-859 | after the guard, refused when already locked; otherwise lock_lobby as written replaces the overwrites and success is reported: the lobby is locked when its list was empty or held an @everyone entry, and a non-empty list without one stays as it was, so the lobby stays open |
| Lobbies.LobbyBot.Unlock | extensions/lobbies.py:865-936 | after the guard, refused when not locked; otherwise CONNECT is allowed and the lobby is unlocked |
| Lobbies.LobbyBot.Kick | extensions/lobbies.py:943-1016 | after the guard, a target in the caller's lobby is disconnected; otherwise nothing changes |
| Lobbies.LobbyBot.Ban | extensions/lobbies.py:1023-1103 | after the guard, refused when already banned; otherwise the target is out of the lobby and denied CONNECT |
| Lobbies.LobbyBot.Unban | extensions/lobbies.py:1110-1183 | after the guard, refused when not banned; otherwise the target is allowed CONNECT and no longer banned |
| Birthday.Split | cogs/birthday.py:33 | str.split: one more part than separators, no part containing the separator |
| Birthday.JoinSplit | cogs/birthday.py:33 | joining the parts of a split gives back the argument |
| Birthday.ConvertDate | cogs/birthday.py:29-39 | unpacking fails exactly when there is not exactly one '/'; an accepted date is the argument's month and day, with a known month and a day within its length |
| Birthday.DateAcceptance | cogs/birthday.py:36-39 | for month/day without a further '/', accepted exactly when the month is a key, the day all digits and within the month's length |
| Birthday.FebruaryHas28Days | cogs/birthday.py:16 | "02/28" is accepted and "02/29" is not |
| Birthday.DayZeroAccepted | cogs/birthday.py:36 | only an upper bound is checked, so "01/0" is accepted |
| Birthday.OneDigitMonthRejected | cogs/birthday.py:14-27 | the month must be typed with two digits: "1/05" is refused |
| Birthday.Upper | cogs/birthday.py:76 | str.upper on ASCII, character by character |
| Birthday.ConvertTimezone | cogs/birthday.py:73-79 | accepted exactly when the upper-cased argument is a label; the result is that label |
| Birthday.TimezoneCaseInsensitive | cogs/birthday.py:76-77 | arguments equal up to case convert alike, and converting a result again changes nothing |
| Birthday.TimezonesAreOffsetLabels | cogs/birthday.py:44-71 | the labels are those of the offsets -11 to +14, in order |
| Birthday.MidnightTableKeys | cogs/birthday.py:87-114 | the midnight table has an entry for exactly the labels the converter accepts |
| Birthday.MidnightTableIsOffsetTable | cogs/birthday.py:87-114 | the table maps the label of offset k to (-k) mod 24 |
| Reputation.Votes | FIX/reputation.py:11-36 | get_upvotes and get_downvotes give [] when the member has no document |
| Reputation.WithoutVoter | FIX/reputation.py:54-57 | $pull keeps exactly the ids other than the voter |
| Reputation.WithoutVoterCount | FIX/reputation.py:54-57 | pulling from a list without duplicates removes one id when the voter is in it, none otherwise, and leaves no duplicates |
| Reputation.Pull | FIX/reputation.py:53-56 | $pull without upsert: no document is added or re-keyed, and documents of other members are unchanged |
| Reputation.Push | FIX/reputation.py:58-62 | $push with upsert: a document is added, keyed by the target, only when the target has none; documents of other members are unchanged |
| Reputation.CastVote | FIX/reputation.py:39-90 | upvote_member / downvote_member: a document is added, keyed by the target, only when the target had none; no document is re-keyed and documents of other members are unchanged |
| Reputation.CastVoteMoves | FIX/reputation.py:39-90 | after a vote the voter is last in the voted list, in no position of the opposite list, and every other member's lists are unchanged |
| Reputation.ReputationStore.constructor | FIX/reputation.py:20 | an empty collection satisfies the invariant |
| Reputation.ReputationStore.UpvoteMember | FIX/reputation.py:39-63 | upvote_member: the voter pulled from downvotes, then pushed onto upvotes with upsert |
| Reputation.ReputationStore.DownvoteMember | FIX/reputation.py:66-90 | downvote_member: the voter pulled from upvotes, then pushed onto downvotes with upsert |
| Reputation.ReputationStore.CastVoteCommand | FIX/reputation.py:98-160 | upvote and downvote: a self-vote is refused with SelfVote and a repeated vote with AlreadyVoted, with no change; otherwise the voted list grows by one and the opposite list loses the voter; lists stay duplicate-free and disjoint |
| Reputation.CastVoteKeepsValid | FIX/reputation.py:113-125 | a guarded vote keeps every list duplicate-free and a document's two lists disjoint |
| Profile.GetReputation | extensions/profile.py:11-30 | (0, 0) without a document, else the lengths of the two lists, each defaulting to empty |
| Profile.ReputationString | extensions/profile.py:33-52 | "-" exactly when the net is zero; a leading '+' and digits when positive; '-' and digits when negative |
| Profile.ReputationRoundTrip | extensions/profile.py:43-52 | the string reads back as upvotes minus downvotes |
| Profile.ReputationStringInjective | extensions/profile.py:43 | two strings are equal exactly when the nets are equal |
| Profile.VoteShiftsReputation | FIX/reputation.py:39-90 | a vote shifts the net by one, or by two when the voter had voted the other way |
| Tags.FindTag | cogs/tags.py:36-37 | the first row of that name in the guild, None exactly when there is none |
| Tags.TagText | cogs/tags.py:29-44 | the tag command: nothing exactly when no row of the guild has that name, else the text of the first such row |
| Tags.CreateTag | cogs/tags.py:48-95 | names over 54 characters and duplicates are refused; otherwise the row is appended and the tag reads back with its text |
| Tags.RemoveTag | cogs/tags.py:99-131 | no such tag, and callers who neither wrote it nor manage messages, are refused; otherwise every row of that name goes and no other |
| Tags.DeleteTagRows | cogs/tags.py:116 | DELETE keeps exactly the rows not of that name in the guild |
| Tags.SetTagText | cogs/tags.py:170 | UPDATE changes the text of exactly the rows of that name in the guild |
| Tags.EditTag | cogs/tags.py:135-186 | the same refusals as remove; otherwise the tag reads back with the new text and no row changes its guild, author or name |
| Tags.Paginate | cogs/tags.py:266-295 | tag_count // 10 + 1 pages of at most ten names, the slices of the list in order, concatenating to the list, titled "Page i/n" |
| Tags.TrailingEmptyPage | cogs/tags.py:271 | when the count is a non-zero multiple of ten the last page is empty |
| Tags.ListTags | cogs/tags.py:221-299 | an empty selection is an error with no pages; otherwise the pages concatenate to the selected names |
| Tags.SelectNames | cogs/tags.py:235-251 | the names of exactly the guild's rows, or of those the given member wrote |
| Exceptions.SomeCauseOfType | campfire/utils/exceptions.py:24-27 | the cause loop finds a cause whose exact type is the target exactly when one exists |
| Exceptions.SomeCauseIsClass | lib/exceptions.py:20-23 | the cause loop finds a cause equal to the target class exactly when one exists |
| Exceptions.ExactMatch | campfire/utils/exceptions.py:21-29 | true exactly when the error's own class is the target or some cause is an instance of exactly the target |
| Exceptions.InstanceMatch | lib/exceptions.py:17-25 | true exactly when the error is an instance of the target or of a subclass, or some cause is the target class object |
| Exceptions.SubclassOnlyMatchesInstance | bot/campfire/exceptions.py:17-22 | a subclass instance matches with isinstance but not by exact type |
| Exceptions.ClassCauseOnlyMatchesInstance | lib/exceptions.py:22 | a class-object cause matches with == but never by exact type |
| Exceptions.InstanceCauseOnlyMatchesExactly | bot/campfire/exceptions.py:20-23 | an instance cause matches by exact type but never with == |
| Exceptions.VariantsAgreeWithoutCauses | lib/exceptions.py:17-18 | without causes an exact match is an isinstance match, and the two agree when the target is no proper base |
| Exceptions.LibraryTestCases | tests/lib/test_exceptions.py:7-36 | the four cases of the test file hold for the isinstance variant |

## Left out

- Concurrency: each listener runs as its own task, and two listeners fire on the same voice-state event.  Events are modelled as sequential steps.  The un-awaited `update_one` calls in `FIX/reputation.py` are treated as completed in order.
- The chat platform library, the database drivers and SQL: the platform is a value of channels, voice states and the next id; each collection is a sequence of documents or rows.  A failed fetch is modelled as an id absent from the platform.  Mongo's aggregation pipeline in `get_clone_document` is modelled by its result.
- Snowflakes stored as strings in the flat collection (`str(channel.id)`): since `str` is injective on ids, records hold the ids themselves.
- Response embeds, message text, `delete_after` delays and `datetime.now()` stamps: each command ends with a `Reply` naming the response.
- The seconds in rate-limit errors are a floating-point platform value.  A throttled rename is a boolean parameter, and its only effect is an error with no rename.
- Framework permission and guild checks, the lookup of the `@everyone` role by name, and the manage-messages permission are not modelled as checks.  The everyone role id and the permission are parameters.
- The bare `except:` in `campfire/extensions/lobbies.py` and `src/extensions/temporary_channels.py` catches every failure, whereas `hikari.NotFoundError` catches only "not found".  Both are modelled as "the id is not on the platform".
- Character classes: `str.isdigit`, `str.upper` and `str.strip` are modelled for ASCII only.
- The platform's default settings for a channel created with only a name: they are a constant.
- `get_owner` returns a member object; the model returns the stored owner id.
- LobbyChannels.Registry.GetOwner: when no clone record holds the id, `get_owner` (`lib/channels.py:80-84`, `bot/lib/channels.py:199-203`) indexes the missing document and raises; the model answers `None` instead.  Every caller checks `is_in_lobby` first, so the case does not arise from the commands.
- `bot/extensions/temporary_channels.py`: the stub sub-commands, the `mongo_databse` misspelling and the calls to helpers that do not exist.  Only the intended behaviour of its listeners is modelled.
- Tag CRUD in the other tag modules, the profanity filter and `extensions/reputation.py` are not part of this model.  Neither is the tag `info` command, which only reads a row.
- The hourly `announce_bday` task of `cogs/birthday.py` is not part of this model.
- Reputation.ReputationStore.CastVoteCommand: one method models both the upvote and the downvote command, chosen by its vote argument.
- Exceptions.ExactMatch: also models `bot/campfire/exceptions.py:17-25`, which is the same code.

## Findings

| source | as written | input that shows it | evidently intended | confidence | as-written member | corrected member |
|---|---|---|---|---|---|---|
| extensions/lobbies.py:227-244 | a new `@everyone` entry denying CONNECT is created only when the overwrite list is empty; a non-empty list without an `@everyone` entry is sent back unchanged | a lobby whose only overwrite is a member ban (after `/lobby ban`): `/lobby lock` reports success, but the lobby stays open | create the denying `@everyone` entry whenever the list has none, as the function's docstring says (lines 204-209) | high; not executed | Overwrites.LockLobby (used by Lobbies.LobbyBot.Lock; shown by Overwrites.LockAfterBanDoesNotLock) | Overwrites.LockLobbyFixed (proved by Overwrites.LockFixedLocks) |
