/** The lobby extension (extensions/lobbies.py, and its variant
    campfire/extensions/lobbies.py): a member who joins a template voice
    channel gets a clone of it that the member owns; an empty clone is
    deleted; the owner manages the lobby with /lobby sub-commands that a
    guild's administrators can disable. */
module Lobbies {
  import opened Common
  import opened Overwrites
  import opened ChatPlatform
  import opened ChannelCopy
  import opened Keyed
  import opened LobbyStore

  /** The name /lobby create gives a new template. */
  const TemplateName := "New Lobby - Edit me!"

  /** The longest name /lobby rename accepts. */
  const MaxNameLength := 100

  /** The name of the lobby cloned for a member. */
  function LobbyName(username: string): (name: string)
    ensures |name| == |username| + 8 && name[..|username|] == username
  {
    username + "'s Lobby"
  }

  /** The loop of purge_guild_documents over one collection: every document
      whose guild can no longer be fetched is deleted with delete_one. */
  method PurgeCollection<T(!new)>(docs: seq<T>, key: T -> Id, live: set<Id>) returns (r: seq<T>)
    requires UniqueKeys(docs, key)
    ensures r == KeepKeys(docs, key, live)
  {
    r := docs;
    ghost var gone: set<Id> := {};
    NoKeysDropped(docs, key);
    var k := 0;
    while k < |docs|
      invariant 0 <= k <= |docs|
      invariant r == DropKeys(docs, key, gone)
      invariant forall g :: g in gone ==> g !in live
      invariant forall i :: 0 <= i < k && key(docs[i]) !in live ==> key(docs[i]) in gone
    {
      var guild := key(docs[k]);
      if guild !in live {
        DropKeysUnique(docs, key, gone);
        DeleteFirstKeyDrops(r, key, guild);
        DropKeysCompose(docs, key, gone, guild);
        r := DeleteFirstKey(r, key, guild);
        gone := gone + {guild};
      }
      k := k + 1;
    }
    forall d | d in docs ensures key(d) in gone <==> key(d) !in live {
      var i :| 0 <= i < |docs| && docs[i] == d;
    }
    DroppingDeadKeysKeepsLive(docs, key, gone, live);
  }

  class LobbyBot {
    /** The lobby_channels collection. */
    var lobbies: seq<LobbyDocument>
    /** The lobby_disabled_commands collection. */
    var disabled: seq<DisabledDocument>
    /** The platform as the bot reaches it. */
    var platform: Platform

    /** One document per guild in each collection, a well-formed platform,
        and every listed channel id one the platform has issued. */
    predicate Valid()
      reads this
    {
      UniqueKeys(lobbies, LobbyGuild) && UniqueKeys(disabled, DisabledGuild) &&
      ChatPlatform.Valid(platform) && IdsIssued(lobbies, platform.nextId)
    }

    constructor(p: Platform)
      requires ChatPlatform.Valid(p)
      ensures Valid() && lobbies == [] && disabled == [] && platform == p
    {
      lobbies := [];
      disabled := [];
      platform := p;
    }

    /** create_template: a voice channel under a fresh id, pushed onto the
        guild's templates list. */
    method CreateTemplate(guild: Id, name: string) returns (id: Id)
      requires Valid()
      modifies this
      ensures Valid() && disabled == old(disabled)
      ensures (platform, id) == CreateChannel(old(platform), NewVoiceChannel(guild, name))
      ensures lobbies == PushTemplate(old(lobbies), guild, id)
      ensures HasTemplate(lobbies, id)
      ensures forall c :: CloneDocument(lobbies, c) == CloneDocument(old(lobbies), c)
    {
      var created := CreateChannel(platform, NewVoiceChannel(guild, name));
      platform, id := created.0, created.1;
      UpsertsKeepKeysUnique(lobbies, disabled, guild, id, CloneEntry(id, id, id), RenameCommand);
      PushKeepsIssued(lobbies, guild, id, CloneEntry(id, id, id), old(platform.nextId), platform.nextId);
      PushTemplateRegisters(lobbies, guild, id);
      lobbies := PushTemplate(lobbies, guild, id);
    }

    /** create_clone: clone the template under the owner's lobby name and
        push an entry {clone, template, owner} onto the clone's guild document.
        The new channel is no clone yet, so get_clone_document then answers
        exactly this entry. */
    method CreateClone(template: Id, owner: Id, username: string) returns (id: Id)
      requires Valid() && template in platform.channels
      modifies this
      ensures Valid() && disabled == old(disabled)
      ensures (platform, id) == CloneChannel(old(platform), old(platform.channels[template]), NameOnly(LobbyName(username)))
      ensures lobbies == PushClone(old(lobbies), old(platform.channels[template].guild), CloneEntry(id, template, owner))
      ensures CloneDocument(lobbies, id) == Some(CloneEntry(id, template, owner))
      ensures forall c :: HasTemplate(lobbies, c) == HasTemplate(old(lobbies), c)
    {
      var source := platform.channels[template];
      var cloned := CloneChannel(platform, source, NameOnly(LobbyName(username)));
      platform, id := cloned.0, cloned.1;
      var entry := CloneEntry(id, template, owner);
      FreshIdUnlisted(lobbies, id);
      UpsertsKeepKeysUnique(lobbies, disabled, source.guild, id, entry, RenameCommand);
      PushKeepsIssued(lobbies, source.guild, id, entry, old(platform.nextId), platform.nextId);
      PushCloneRegisters(lobbies, source.guild, entry);
      lobbies := PushClone(lobbies, source.guild, entry);
    }

    /** The guard every owner command runs first: the command must not be
        disabled in the guild; the caller must have a voice state in the
        guild whose channel is a clone; the clone's entry must name the
        caller as owner.  On success, the caller's lobby. */
    function Gate(guild: Id, caller: Id, command: SubCommand): (r: Result<Id, Reply>)
      reads this
      ensures r.Success? <==>
        !IsDisabledIn(disabled, guild, command) &&
        VoiceChannelIn(platform, guild, caller).Some? &&
        CloneDocument(lobbies, VoiceChannelIn(platform, guild, caller).value).Some? &&
        CloneDocument(lobbies, VoiceChannelIn(platform, guild, caller).value).value.owner == caller
      ensures r.Success? ==> Some(r.value) == VoiceChannelIn(platform, guild, caller) && r.value in platform.channels
      ensures IsDisabledIn(disabled, guild, command) ==> r == Failure(CommandDisabled)
      ensures !IsDisabledIn(disabled, guild, command) && VoiceChannelIn(platform, guild, caller).None? ==>
        r == Failure(NotInLobby)
      ensures r.Failure? && r.error == NotOwner ==>
        CloneDocument(lobbies, VoiceChannelIn(platform, guild, caller).value).Some?
    {
      if IsDisabledIn(disabled, guild, command) then Failure(CommandDisabled)
      else match VoiceChannelIn(platform, guild, caller)
        case None => Failure(NotInLobby)
        case Some(c) =>
          match CloneDocument(lobbies, c)
          case None => Failure(NotInLobby)
          case Some(e) => if e.owner != caller then Failure(NotOwner) else Success(c)
    }

    /** on_join_template: a member whose new voice state names a listed
        template that can be fetched gets a clone named after them, becomes
        its owner, and is moved into it; the owner commands then pass their
        guard for the member in every command the guild has not disabled. */
    method OnJoinTemplate(state: VoiceState, username: string)
      requires Valid()
      modifies this
      ensures Valid() && disabled == old(disabled)
      ensures
        var spawn := state.channel.Some? && old(HasTemplate(lobbies, state.channel.value)) &&
                     state.channel.value in old(platform.channels);
        (spawn ==>
           var t := state.channel.value;
           var id := old(platform.nextId);
           id !in old(platform.channels) &&
           platform.channels == old(platform.channels)[id := ClonedChannel(old(platform.channels[t]), NameOnly(LobbyName(username)))] &&
           platform.voice == old(platform.voice)[state.member := id] &&
           platform.nextId == old(platform.nextId) + 1 &&
           lobbies == PushClone(old(lobbies), old(platform.channels[t].guild), CloneEntry(id, t, state.member)) &&
           CloneDocument(lobbies, id) == Some(CloneEntry(id, t, state.member)) &&
           forall cmd :: Gate(old(platform.channels[t].guild), state.member, cmd).Success? <==>
                         !IsDisabledIn(disabled, old(platform.channels[t].guild), cmd)) &&
        (!spawn ==> lobbies == old(lobbies) && platform == old(platform))
    {
      if state.channel.None? {
        return;
      }
      var t := state.channel.value;
      if !HasTemplate(lobbies, t) {
        return;
      }
      if t !in platform.channels {
        return;
      }
      var id := CreateClone(t, state.member, username);
      platform := MoveMember(platform, state.member, id);
      assert VoiceChannelIn(platform, platform.channels[t].guild, state.member) == Some(id);
    }

    /** on_leave_clone: when the old voice state names a listed clone that the
        voice-state cache shows empty, the channel is fetched and deleted.  The
        collections are cleaned by the channel-delete event that follows. */
    method OnLeaveClone(oldState: Option<VoiceState>)
      requires Valid()
      modifies this
      ensures Valid() && lobbies == old(lobbies) && disabled == old(disabled)
      ensures
        var remove := oldState.Some? && oldState.value.channel.Some? &&
                      CloneDocument(lobbies, oldState.value.channel.value).Some? &&
                      old(IsEmpty(platform, oldState.value.channel.value)) &&
                      oldState.value.channel.value in old(platform.channels);
        (remove ==> platform == DeleteChannel(old(platform), oldState.value.channel.value)) &&
        (!remove ==> platform == old(platform))
    {
      if oldState.None? || oldState.value.channel.None? {
        return;
      }
      var c := oldState.value.channel.value;
      if CloneDocument(lobbies, c).None? {
        return;
      }
      if !IsEmpty(platform, c) {
        return;
      }
      if c !in platform.channels {
        return;
      }
      platform := DeleteChannel(platform, c);
    }

    /** on_channel_delete: a deleted voice channel is pulled from the
        templates and clones lists of its guild's documents. */
    method OnChannelDelete(channel: Id, guild: Id, isVoice: bool)
      requires Valid()
      modifies this
      ensures Valid() && disabled == old(disabled) && platform == old(platform)
      ensures !isVoice ==> lobbies == old(lobbies)
      ensures isVoice ==> lobbies == PullClones(PullTemplates(old(lobbies), guild, {channel}), guild, {channel})
      ensures isVoice ==>
        |lobbies| == |old(lobbies)| &&
        (forall i :: 0 <= i < |lobbies| && lobbies[i].guild == guild ==>
           channel !in lobbies[i].templates && !ListsClone(lobbies[i], channel)) &&
        (forall i :: 0 <= i < |lobbies| && old(lobbies[i].guild) != guild ==> lobbies[i] == old(lobbies[i]))
    {
      if !isVoice {
        return;
      }
      PullChannelForgets(lobbies, guild, channel);
      PullKeepsInvariant(lobbies, guild, {channel}, platform.nextId);
      lobbies := PullTemplates(lobbies, guild, {channel});
      lobbies := PullClones(lobbies, guild, {channel});
    }

    /** The fetch loop of clear_database over one list of ids: the ids whose
        channel cannot be fetched. */
    method FetchFailures(ids: seq<Id>) returns (dead: seq<Id>)
      ensures forall x :: x in dead <==> x in ids && x !in platform.channels
    {
      dead := [];
      var j := 0;
      while j < |ids|
        invariant 0 <= j <= |ids|
        invariant forall x :: x in dead <==> x in ids[..j] && x !in platform.channels
      {
        if ids[j] !in platform.channels {
          dead := dead + [ids[j]];
        }
        assert ids[..j + 1] == ids[..j] + [ids[j]];
        j := j + 1;
      }
      assert ids[..j] == ids;
    }

    /** clear_database: for every document, the templates and clones whose
        channel can no longer be fetched are pulled from the guild's
        documents; what is left is exactly the live part of each document. */
    method ClearDatabase()
      requires Valid()
      modifies this
      ensures Valid() && disabled == old(disabled) && platform == old(platform)
      ensures lobbies == SweepAll(old(lobbies), platform.channels.Keys)
    {
      var docs := lobbies;
      ghost var live := platform.channels.Keys;
      var k := 0;
      while k < |docs|
        invariant 0 <= k <= |docs|
        invariant |lobbies| == |docs| && disabled == old(disabled) && platform == old(platform)
        invariant forall i :: 0 <= i < k ==> lobbies[i] == SweepDocument(docs[i], live)
        invariant forall i :: k <= i < |docs| ==> lobbies[i] == docs[i]
      {
        var document := docs[k];
        var cloneIds := seq(|document.clones|, i requires 0 <= i < |document.clones| => document.clones[i].clone);
        var deleteTemplates := FetchFailures(document.templates);
        var deleteClones := FetchFailures(cloneIds);
        var goneTemplates := set x | x in deleteTemplates;
        var goneClones := set x | x in deleteClones;
        WithoutDeadIds(document.templates, goneTemplates, set x | x in document.templates && x !in live);
        forall e | e in document.clones ensures e.clone in goneClones <==> e.clone !in live {
          var i :| 0 <= i < |document.clones| && document.clones[i] == e;
          assert cloneIds[i] == e.clone;
        }
        WithoutDeadEntries(document.clones, goneClones, set e | e in document.clones && e.clone !in live :: e.clone);
        forall i | 0 <= i < |docs| && i != k ensures lobbies[i].guild != document.guild {
          assert LobbyGuild(docs[i]) != LobbyGuild(docs[k]) by {
            if i < k {
              assert UniqueKeys(docs, LobbyGuild);
            }
          }
        }
        lobbies := PullTemplates(lobbies, document.guild, goneTemplates);
        lobbies := PullClones(lobbies, document.guild, goneClones);
        k := k + 1;
      }
      SweepAllKeepsInvariant(docs, live, platform.nextId);
    }

    /** purge_guild_documents: the documents of guilds the bot can no longer
        fetch are deleted from both collections. */
    method PurgeGuildDocuments(liveGuilds: set<Id>)
      requires Valid()
      modifies this
      ensures Valid() && platform == old(platform)
      ensures lobbies == KeepKeys(old(lobbies), LobbyGuild, liveGuilds)
      ensures disabled == KeepKeys(old(disabled), DisabledGuild, liveGuilds)
    {
      var keptLobbies := PurgeCollection(lobbies, LobbyGuild, liveGuilds);
      var keptDisabled := PurgeCollection(disabled, DisabledGuild, liveGuilds);
      ghost var dead := set d | d in lobbies && d.guild !in liveGuilds :: d.guild;
      DroppingDeadKeysKeepsLive(lobbies, LobbyGuild, dead, liveGuilds);
      DropKeysUnique(lobbies, LobbyGuild, dead);
      DropKeepsIssued(lobbies, dead, platform.nextId);
      ghost var deadDisabled := set d | d in disabled && d.guild !in liveGuilds :: d.guild;
      DroppingDeadKeysKeepsLive(disabled, DisabledGuild, deadDisabled, liveGuilds);
      DropKeysUnique(disabled, DisabledGuild, deadDisabled);
      lobbies, disabled := keptLobbies, keptDisabled;
    }

    /** delete_guild_document: when the bot leaves a guild, delete_one on each
        collection removes the guild's one document. */
    method DeleteGuildDocument(guild: Id)
      requires Valid()
      modifies this
      ensures Valid() && platform == old(platform)
      ensures lobbies == DropKeys(old(lobbies), LobbyGuild, {guild})
      ensures disabled == DropKeys(old(disabled), DisabledGuild, {guild})
      ensures forall d :: d in lobbies ==> d.guild != guild
      ensures forall d :: d in disabled ==> d.guild != guild
    {
      DeleteFirstKeyDrops(lobbies, LobbyGuild, guild);
      DeleteFirstKeyDrops(disabled, DisabledGuild, guild);
      DropKeysUnique(lobbies, LobbyGuild, {guild});
      DropKeysUnique(disabled, DisabledGuild, {guild});
      DropKeepsIssued(lobbies, {guild}, platform.nextId);
      lobbies := DeleteFirstKey(lobbies, LobbyGuild, guild);
      disabled := DeleteFirstKey(disabled, DisabledGuild, guild);
    }

    /** /lobby create: a template named "New Lobby - Edit me!" in the guild. */
    method Create(guild: Id) returns (id: Id)
      requires Valid()
      modifies this
      ensures Valid() && disabled == old(disabled)
      ensures id == old(platform.nextId) && id !in old(platform.channels)
      ensures platform.channels == old(platform.channels)[id := NewVoiceChannel(guild, TemplateName)]
      ensures platform.voice == old(platform.voice) && platform.nextId == old(platform.nextId) + 1
      ensures lobbies == PushTemplate(old(lobbies), guild, id)
      ensures HasTemplate(lobbies, id)
      ensures forall c :: CloneDocument(lobbies, c) == CloneDocument(old(lobbies), c)
    {
      id := CreateTemplate(guild, TemplateName);
    }

    /** /lobby enable: an error when the command is not disabled; otherwise
        it is pulled from the guild's list and is no longer disabled. */
    method Enable(guild: Id, command: SubCommand) returns (reply: Reply)
      requires Valid()
      modifies this
      ensures Valid() && lobbies == old(lobbies) && platform == old(platform)
      ensures reply == Done <==> old(IsDisabledIn(disabled, guild, command))
      ensures reply != Done ==> reply == AlreadyEnabled && disabled == old(disabled)
      ensures !IsDisabledIn(disabled, guild, command)
      ensures forall g: Id, c :: (g, c) != (guild, command) ==>
        IsDisabledIn(disabled, g, c) == old(IsDisabledIn(disabled, g, c))
    {
      if !IsDisabledIn(disabled, guild, command) {
        return AlreadyEnabled;
      }
      UpsertsKeepKeysUnique(lobbies, disabled, guild, 0, CloneEntry(0, 0, 0), command);
      EnableEnables(disabled, guild, command);
      disabled := EnableIn(disabled, guild, command);
      reply := Done;
    }

    /** /lobby disable: an error when the command is already disabled;
        otherwise it is pushed onto the guild's list and is disabled. */
    method Disable(guild: Id, command: SubCommand) returns (reply: Reply)
      requires Valid()
      modifies this
      ensures Valid() && lobbies == old(lobbies) && platform == old(platform)
      ensures reply == Done <==> !old(IsDisabledIn(disabled, guild, command))
      ensures reply != Done ==> reply == AlreadyDisabled && disabled == old(disabled)
      ensures IsDisabledIn(disabled, guild, command)
      ensures forall g: Id, c :: (g, c) != (guild, command) ==>
        IsDisabledIn(disabled, g, c) == old(IsDisabledIn(disabled, g, c))
    {
      if IsDisabledIn(disabled, guild, command) {
        return AlreadyDisabled;
      }
      UpsertsKeepKeysUnique(lobbies, disabled, guild, 0, CloneEntry(0, 0, 0), command);
      DisableDisables(disabled, guild, command);
      disabled := DisableIn(disabled, guild, command);
      reply := Done;
    }

    /** The overwrites of the caller's lobby, replaced. */
    method SetOverwrites(c: Id, os: seq<Overwrite>)
      requires Valid() && c in platform.channels
      modifies this
      ensures Valid() && lobbies == old(lobbies) && disabled == old(disabled)
      ensures platform == EditChannel(old(platform), c, old(platform.channels[c]).(overwrites := os))
    {
      platform := EditChannel(platform, c, platform.channels[c].(overwrites := os));
    }

    /** /lobby rename: after the guard, the stripped name must be 1 to 100
        characters long; a rate-limited edit fails without renaming. */
    method Rename(guild: Id, caller: Id, name: string, throttled: bool) returns (reply: Reply)
      requires Valid()
      modifies this
      ensures Valid() && lobbies == old(lobbies) && disabled == old(disabled)
      ensures reply == Done <==>
        old(Gate(guild, caller, RenameCommand)).Success? &&
                                 1 <= |Strip(name)| <= MaxNameLength && !throttled
      ensures old(Gate(guild, caller, RenameCommand)).Failure? ==> reply == old(Gate(guild, caller, RenameCommand)).error
      ensures old(Gate(guild, caller, RenameCommand)).Success? && !(1 <= |Strip(name)| <= MaxNameLength) ==>
        reply == InvalidName
      ensures old(Gate(guild, caller, RenameCommand)).Success? && 1 <= |Strip(name)| <= MaxNameLength && throttled ==>
        reply == RateLimited
      ensures reply == Done ==>
        var c := old(Gate(guild, caller, RenameCommand)).value;
        platform == EditChannel(old(platform), c, old(platform.channels[c]).(name := Strip(name)))
      ensures reply != Done ==> platform == old(platform)
    {
      var lobby := Gate(guild, caller, RenameCommand);
      if lobby.Failure? {
        return lobby.error;
      }
      var c := lobby.value;
      var cleanName := Strip(name);
      if !(1 <= |cleanName| <= MaxNameLength) {
        return InvalidName;
      }
      if throttled {
        return RateLimited;
      }
      platform := EditChannel(platform, c, platform.channels[c].(name := cleanName));
      reply := Done;
    }

    /** /lobby lock: after the guard, an error when the role everyone is
        already denied CONNECT; otherwise lock_lobby as written is applied
        and the command reports success.  The lobby is then locked when its
        list was empty or held an @everyone entry; a non-empty list without
        one is left as it was, so the lobby stays open (see LockLobby). */
    method Lock(guild: Id, caller: Id, everyone: Id) returns (reply: Reply)
      requires Valid()
      modifies this
      ensures Valid() && lobbies == old(lobbies) && disabled == old(disabled)
      ensures old(Gate(guild, caller, LockCommand)).Failure? ==> reply == old(Gate(guild, caller, LockCommand)).error
      ensures reply == Done <==>
        old(Gate(guild, caller, LockCommand)).Success? &&
        !IsDenied(old(platform.channels[Gate(guild, caller, LockCommand).value].overwrites), everyone)
      ensures reply == Done ==>
        var c := old(Gate(guild, caller, LockCommand)).value;
        var os := old(platform.channels[c].overwrites);
        platform == EditChannel(old(platform), c, old(platform.channels[c]).(overwrites := LockedAsWritten(os, everyone))) &&
        ((os == [] || FindFirst(os, everyone).Some?) ==> IsDenied(platform.channels[c].overwrites, everyone)) &&
        ((os != [] && FindFirst(os, everyone).None?) ==>
           platform.channels[c].overwrites == os && !IsDenied(platform.channels[c].overwrites, everyone))
      ensures reply != Done ==> platform == old(platform)
      ensures old(Gate(guild, caller, LockCommand)).Success? && reply != Done ==> reply == AlreadyLocked
    {
      var lobby := Gate(guild, caller, LockCommand);
      if lobby.Failure? {
        return lobby.error;
      }
      var c := lobby.value;
      if IsDenied(platform.channels[c].overwrites, everyone) {
        return AlreadyLocked;
      }
      var before := platform.channels[c].overwrites;
      var os := LockLobby(before, everyone);
      if before == [] || FindFirst(before, everyone).Some? {
        LockedAsWrittenLocks(before, everyone);
      } else {
        LockedAsWrittenMissesEveryone(before, everyone);
      }
      SetOverwrites(c, os);
      reply := Done;
    }

    /** /lobby unlock: after the guard, an error when the role everyone is not
        denied CONNECT; otherwise CONNECT is allowed to it, and the lobby is
        then unlocked. */
    method Unlock(guild: Id, caller: Id, everyone: Id) returns (reply: Reply)
      requires Valid()
      modifies this
      ensures Valid() && lobbies == old(lobbies) && disabled == old(disabled)
      ensures old(Gate(guild, caller, UnlockCommand)).Failure? ==> reply == old(Gate(guild, caller, UnlockCommand)).error
      ensures reply == Done <==>
        old(Gate(guild, caller, UnlockCommand)).Success? &&
        IsDenied(old(platform.channels[Gate(guild, caller, UnlockCommand).value].overwrites), everyone)
      ensures reply == Done ==>
        var c := old(Gate(guild, caller, UnlockCommand)).value;
        var os := old(platform.channels[c].overwrites);
        platform == EditChannel(old(platform), c, old(platform.channels[c]).(overwrites := UnlockedAsWritten(os, everyone))) &&
        !IsDenied(platform.channels[c].overwrites, everyone)
      ensures reply != Done ==> platform == old(platform)
      ensures old(Gate(guild, caller, UnlockCommand)).Success? && reply != Done ==> reply == AlreadyUnlocked
    {
      var lobby := Gate(guild, caller, UnlockCommand);
      if lobby.Failure? {
        return lobby.error;
      }
      var c := lobby.value;
      if !IsDenied(platform.channels[c].overwrites, everyone) {
        return AlreadyUnlocked;
      }
      var os := UnlockLobby(platform.channels[c].overwrites, everyone);
      UnlockedAsWrittenUnlocks(platform.channels[c].overwrites, everyone);
      SetOverwrites(c, os);
      reply := Done;
    }

    /** /lobby kick: after the guard, the target must have a voice state in
        the guild naming the caller's lobby; it is then disconnected. */
    method Kick(guild: Id, caller: Id, target: Id) returns (reply: Reply)
      requires Valid()
      modifies this
      ensures Valid() && lobbies == old(lobbies) && disabled == old(disabled)
      ensures old(Gate(guild, caller, KickCommand)).Failure? ==> reply == old(Gate(guild, caller, KickCommand)).error
      ensures reply == Done <==>
        old(Gate(guild, caller, KickCommand)).Success? &&
        old(VoiceChannelIn(platform, guild, target)) == Some(old(Gate(guild, caller, KickCommand)).value)
      ensures old(Gate(guild, caller, KickCommand)).Success? && reply != Done ==> reply == TargetNotInLobby
      ensures reply == Done ==> platform == Disconnect(old(platform), target) && target !in platform.voice
      ensures reply != Done ==> platform == old(platform)
    {
      var lobby := Gate(guild, caller, KickCommand);
      if lobby.Failure? {
        return lobby.error;
      }
      if VoiceChannelIn(platform, guild, target) != Some(lobby.value) {
        return TargetNotInLobby;
      }
      platform := Disconnect(platform, target);
      reply := Done;
    }

    /** /lobby ban: after the guard, an error when the target is already
        denied CONNECT; otherwise a target inside the lobby is disconnected
        and CONNECT is denied to the target's overwrite. */
    method Ban(guild: Id, caller: Id, target: Id) returns (reply: Reply)
      requires Valid()
      modifies this
      ensures Valid() && lobbies == old(lobbies) && disabled == old(disabled)
      ensures old(Gate(guild, caller, BanCommand)).Failure? ==> reply == old(Gate(guild, caller, BanCommand)).error
      ensures reply == Done <==>
        old(Gate(guild, caller, BanCommand)).Success? &&
        !IsDenied(old(platform.channels[Gate(guild, caller, BanCommand).value].overwrites), target)
      ensures old(Gate(guild, caller, BanCommand)).Success? && reply != Done ==> reply == AlreadyBanned
      ensures reply == Done ==>
        var c := old(Gate(guild, caller, BanCommand)).value;
        var os := old(platform.channels[c].overwrites);
        var left := if old(VoiceChannelIn(platform, guild, target)) == Some(c) then Disconnect(old(platform), target) else old(platform);
        platform == EditChannel(left, c, old(platform.channels[c]).(overwrites := Deny(os, target, MemberOverwrite))) &&
        IsDenied(platform.channels[c].overwrites, target) &&
        VoiceChannelIn(platform, guild, target) != Some(c)
      ensures reply != Done ==> platform == old(platform)
    {
      var lobby := Gate(guild, caller, BanCommand);
      if lobby.Failure? {
        return lobby.error;
      }
      var c := lobby.value;
      if IsDenied(platform.channels[c].overwrites, target) {
        return AlreadyBanned;
      }
      if VoiceChannelIn(platform, guild, target) == Some(c) {
        platform := Disconnect(platform, target);
      }
      var os := BanMember(platform.channels[c].overwrites, target);
      DenyDenies(platform.channels[c].overwrites, target, MemberOverwrite);
      SetOverwrites(c, os);
      reply := Done;
    }

    /** /lobby unban: after the guard, an error when the target is not denied
        CONNECT; otherwise CONNECT is allowed to the target's overwrite. */
    method Unban(guild: Id, caller: Id, target: Id) returns (reply: Reply)
      requires Valid()
      modifies this
      ensures Valid() && lobbies == old(lobbies) && disabled == old(disabled)
      ensures old(Gate(guild, caller, UnbanCommand)).Failure? ==> reply == old(Gate(guild, caller, UnbanCommand)).error
      ensures reply == Done <==>
        old(Gate(guild, caller, UnbanCommand)).Success? &&
        IsDenied(old(platform.channels[Gate(guild, caller, UnbanCommand).value].overwrites), target)
      ensures old(Gate(guild, caller, UnbanCommand)).Success? && reply != Done ==> reply == NotBanned
      ensures reply == Done ==>
        var c := old(Gate(guild, caller, UnbanCommand)).value;
        var os := old(platform.channels[c].overwrites);
        platform == EditChannel(old(platform), c, old(platform.channels[c]).(overwrites := Allow(os, target, MemberOverwrite))) &&
        !IsDenied(platform.channels[c].overwrites, target)
      ensures reply != Done ==> platform == old(platform)
    {
      var lobby := Gate(guild, caller, UnbanCommand);
      if lobby.Failure? {
        return lobby.error;
      }
      var c := lobby.value;
      if !IsDenied(platform.channels[c].overwrites, target) {
        return NotBanned;
      }
      var os := UnbanMember(platform.channels[c].overwrites, target);
      AllowAllows(platform.channels[c].overwrites, target, MemberOverwrite);
      SetOverwrites(c, os);
      reply := Done;
    }
  }
}
