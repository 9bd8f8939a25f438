/** The temporary-channel extension over the flat registry
    (src/extensions/temporary_channels.py, and its earlier form
    bot/extensions/temporary_channels.py): event handlers that keep the
    registry in step with the platform, and the owner-only lobby commands. */
module TemporaryChannels {
  import opened Common
  import opened ChatPlatform
  import opened ChannelCopy
  import opened LobbyChannels

  /** The name a lobby spawned from a template gets. */
  const CloneName := "Lobby"

  /** The name /lobby create gives a new template. */
  const TemplateName := "New Lobby - Edit Me!"

  /** The longest lobby name rename accepts. */
  const MaxNameLength := 100

  class TempChannelsBot {
    const registry: Registry
    var platform: Platform

    /** The registry's ids are unique and issued by the platform. */
    predicate Valid()
      reads this, registry
    {
      Consistent(registry.records, platform)
    }

    constructor(p: Platform)
      requires ChatPlatform.Valid(p)
      ensures Valid() && fresh(registry) && registry.records == [] && platform == p
    {
      registry := new Registry();
      platform := p;
    }

    /** Drop the template and clone records of one id. */
    method ForgetChannel(channel: Id, ghost gone: set<Id>, ghost start: seq<Record>)
      requires Valid() && registry.records == WithoutChannels(start, gone)
      modifies registry
      ensures Valid() && registry.records == WithoutChannels(start, gone + {channel})
    {
      DeregisterBothDrops(registry.records, channel);
      WithoutChannelsCompose(start, gone, channel);
      registry.DeregisterTemplate(channel);
      registry.DeregisterClone(channel);
      WithoutChannelsUnique(old(registry.records), {channel});
    }

    /** remove_old_channel_data: on start-up, for each distinct stored id whose
        fetch fails, delete its template record and its clone record. */
    method RemoveOldChannelData()
      requires Valid()
      modifies registry
      ensures Valid()
      ensures registry.records == KeepLive(old(registry.records), platform.channels.Keys)
    {
      ghost var start := registry.records;
      var ids := DistinctChannels(registry.records);
      ghost var gone: set<Id> := {};
      assert WithoutChannels(start, {}) == start by { NothingGone(start); }
      var i := 0;
      while i < |ids|
        invariant 0 <= i <= |ids|
        invariant Valid() && registry.records == WithoutChannels(start, gone)
        invariant forall c :: c in gone <==> c in ids[..i] && c !in platform.channels
      {
        if ids[i] !in platform.channels {
          ForgetChannel(ids[i], gone, start);
          gone := gone + {ids[i]};
        }
        i := i + 1;
      }
      assert ids[..i] == ids;
      DroppingDeadKeepsLive(start, gone, platform.channels.Keys);
    }

    /** remove_old_data: the earlier sweep, which walks every stored record
        instead of the distinct ids; the outcome is the same. */
    method RemoveOldData()
      requires Valid()
      modifies registry
      ensures Valid()
      ensures registry.records == KeepLive(old(registry.records), platform.channels.Keys)
    {
      var documents := registry.records;
      ghost var gone: set<Id> := {};
      assert WithoutChannels(documents, {}) == documents by { NothingGone(documents); }
      var i := 0;
      while i < |documents|
        invariant 0 <= i <= |documents|
        invariant Valid() && registry.records == WithoutChannels(documents, gone)
        invariant forall c :: c in gone ==> c !in platform.channels
        invariant forall k :: 0 <= k < i ==> (documents[k].channel in gone <==> documents[k].channel !in platform.channels)
      {
        var channel := documents[i].channel;
        if channel !in platform.channels {
          ForgetChannel(channel, gone, documents);
          gone := gone + {channel};
        }
        i := i + 1;
      }
      assert forall x :: x in documents ==> (x.channel in gone <==> x.channel !in platform.channels);
      DroppingDeadKeepsLive(documents, gone, platform.channels.Keys);
    }

    /** remove_all_guild_channel_data / remove_guild_data: the bot left the guild. */
    method RemoveAllGuildChannelData(guild: Id)
      requires Valid()
      modifies registry
      ensures Valid()
      ensures registry.records == WithoutGuild(old(registry.records), guild)
    {
      WithoutGuildUnique(registry.records, guild);
      registry.DeleteGuildData(guild);
    }

    /** remove_channel_data / remove_guild_channel_data: a channel was deleted;
        its template and clone records go whatever kind of channel it was. */
    method RemoveChannelData(channel: Id)
      requires Valid()
      modifies registry
      ensures Valid()
      ensures registry.records == WithoutChannels(old(registry.records), {channel})
    {
      NothingGone(registry.records);
      ForgetChannel(channel, {}, registry.records);
      assert {} + {channel} == {channel};
    }

    /** create_template_channel / template_member_join: a member joined a
        channel; when it exists and is a registered template, spawn a clone
        named "Lobby" owned by the member and move the member into it. */
    method CreateTemplateChannel(state: VoiceState)
      requires Valid()
      modifies this, registry
      ensures Valid()
      ensures var spawns := JoinedAChannel(state) && state.channel.value in old(platform.channels) &&
                            Registered(old(registry.records), state.channel.value, TemplateKind);
        (spawns ==>
          var c := state.channel.value;
          var template := old(platform.channels)[c];
          var id := old(platform.nextId);
          registry.records == old(registry.records) + [CloneRecord(template.guild, c, id, state.member)] &&
          platform.channels == old(platform.channels)[id := ClonedChannel(template, NameOnly(CloneName))] &&
          platform.voice == old(platform.voice)[state.member := id] &&
          id !in old(platform.channels)) &&
        (!spawns ==> registry.records == old(registry.records) && platform == old(platform))
    {
      if !JoinedAChannel(state) {
        return;
      }
      var c := state.channel.value;
      if c !in platform.channels {
        return;
      }
      if registry.GetTemplate(c).None? {
        return;
      }
      var q, id := CreateClone(registry, platform, c, platform.channels[c], state.member, CloneName);
      platform := MoveMember(q, state.member, id);
    }

    /** delete_clone_channel / lobby_member_leave: a member left a channel; when
        it exists, is a registered clone and is now empty, delete it and its
        clone record. */
    method DeleteCloneChannel(oldState: Option<VoiceState>)
      requires Valid()
      modifies this, registry
      ensures Valid()
      ensures var deletes := LeftAChannel(oldState) && oldState.value.channel.value in old(platform.channels) &&
                             Registered(old(registry.records), oldState.value.channel.value, CloneKind) &&
                             IsEmpty(old(platform), oldState.value.channel.value);
        (deletes ==>
          var c := oldState.value.channel.value;
          platform == DeleteChannel(old(platform), c) &&
          registry.records == RemoveFirst(old(registry.records), c, CloneKind) &&
          !Registered(registry.records, c, CloneKind)) &&
        (!deletes ==> registry.records == old(registry.records) && platform == old(platform))
    {
      if !LeftAChannel(oldState) {
        return;
      }
      var c := oldState.value.channel.value;
      if c !in platform.channels {
        return;
      }
      if registry.GetClone(c).None? {
        return;
      }
      if IsEmpty(platform, c) {
        DeregisterRemovesRegistration(registry.records, c, CloneKind);
        platform := DeleteClone(registry, platform, c);
      }
    }

    /** /lobby create: a new template named "New Lobby - Edit Me!". */
    method Create(guild: Id) returns (id: Id)
      requires Valid()
      modifies this, registry
      ensures Valid()
      ensures id == old(platform.nextId) && id !in old(platform.channels)
      ensures platform.channels == old(platform.channels)[id := NewVoiceChannel(guild, TemplateName)]
      ensures platform.voice == old(platform.voice)
      ensures registry.records == old(registry.records) + [TemplateRecord(guild, id)]
    {
      platform, id := CreateTemplate(registry, platform, guild, TemplateName);
    }

    /** The checks every owner command makes first: the caller has a voice
        state in the guild naming a channel registered as a clone, and is that
        clone's owner.  On success, the caller's channel. */
    function OwnedLobby(guild: Id, caller: Id): (r: Result<Id, Reply>)
      reads this, registry
      ensures r.Success? <==> IsInLobby(registry, platform, guild, caller) &&
                              registry.GetOwner(VoiceChannelIn(platform, guild, caller).value) == Some(caller)
      ensures r.Success? ==> Some(r.value) == VoiceChannelIn(platform, guild, caller) && r.value in platform.channels
      ensures r.Failure? ==> r.error == if IsInLobby(registry, platform, guild, caller) then NotOwner else NotInLobby
    {
      if !IsInLobby(registry, platform, guild, caller) then Failure(NotInLobby)
      else
        var channel := VoiceChannelIn(platform, guild, caller).value;
        if registry.GetOwner(channel) != Some(caller) then Failure(NotOwner)
        else Success(channel)
    }

    /** /lobby rename: after the owner checks, the stripped name must be 1 to
        100 characters long; a throttled edit fails without renaming. */
    method Rename(guild: Id, caller: Id, name: string, throttled: bool) returns (reply: Reply)
      requires Valid()
      modifies this
      ensures Valid() && registry.records == old(registry.records)
      ensures reply == Done <==> old(OwnedLobby(guild, caller)).Success? &&
                                 1 <= |Strip(name)| <= MaxNameLength && !throttled
      ensures old(OwnedLobby(guild, caller)).Failure? ==> reply == old(OwnedLobby(guild, caller)).error
      ensures old(OwnedLobby(guild, caller)).Success? && !(1 <= |Strip(name)| <= MaxNameLength) ==>
        reply == InvalidName
      ensures old(OwnedLobby(guild, caller)).Success? && 1 <= |Strip(name)| <= MaxNameLength && throttled ==>
        reply == RateLimited
      ensures reply == Done ==>
        var c := old(OwnedLobby(guild, caller)).value;
        platform.channels == old(platform.channels)[c := old(platform.channels[c]).(name := Strip(name))] &&
        platform.voice == old(platform.voice) && platform.nextId == old(platform.nextId)
      ensures reply != Done ==> platform == old(platform)
    {
      var lobby := OwnedLobby(guild, caller);
      if lobby.Failure? {
        return lobby.error;
      }
      var c := lobby.value;
      var channelName := Strip(name);
      if |channelName| == 0 || |channelName| > MaxNameLength {
        return InvalidName;
      }
      if throttled {
        return RateLimited;
      }
      platform := EditChannel(platform, c, platform.channels[c].(name := channelName));
      reply := Done;
    }

    /** /lobby kick: after the owner checks, the target must have a voice
        state in the guild naming the caller's channel; it is then disconnected. */
    method Kick(guild: Id, caller: Id, target: Id) returns (reply: Reply)
      requires Valid()
      modifies this
      ensures Valid() && registry.records == old(registry.records)
      ensures reply == Done <==> old(OwnedLobby(guild, caller)).Success? &&
                                 old(VoiceChannelIn(platform, guild, target)) == Some(old(OwnedLobby(guild, caller)).value)
      ensures old(OwnedLobby(guild, caller)).Failure? ==> reply == old(OwnedLobby(guild, caller)).error
      ensures old(OwnedLobby(guild, caller)).Success? && reply != Done ==> reply == TargetNotInLobby
      ensures reply == Done ==> platform == Disconnect(old(platform), target) && target !in platform.voice
      ensures reply != Done ==> platform == old(platform)
    {
      var lobby := OwnedLobby(guild, caller);
      if lobby.Failure? {
        return lobby.error;
      }
      if VoiceChannelIn(platform, guild, target) != Some(lobby.value) {
        return TargetNotInLobby;
      }
      platform := Disconnect(platform, target);
      reply := Done;
    }

    /** /lobby owner: after the owner checks, the target must have a voice
        state in the guild naming the caller's channel; it then becomes the
        lobby's owner.  The platform is not touched. */
    method Owner(guild: Id, caller: Id, target: Id) returns (reply: Reply)
      requires Valid()
      modifies registry
      ensures Valid()
      ensures reply == Done <==> old(OwnedLobby(guild, caller)).Success? &&
                                 VoiceChannelIn(platform, guild, target) == Some(old(OwnedLobby(guild, caller)).value)
      ensures old(OwnedLobby(guild, caller)).Failure? ==> reply == old(OwnedLobby(guild, caller)).error
      ensures old(OwnedLobby(guild, caller)).Success? && reply != Done ==> reply == TargetNotInLobby
      ensures reply == Done ==>
        var c := old(OwnedLobby(guild, caller)).value;
        registry.records == SetOwnerFirst(old(registry.records), c, target) &&
        registry.GetOwner(c) == Some(target)
      ensures reply != Done ==> registry.records == old(registry.records)
    {
      var lobby := OwnedLobby(guild, caller);
      if lobby.Failure? {
        return lobby.error;
      }
      if VoiceChannelIn(platform, guild, target) != Some(lobby.value) {
        return TargetNotInLobby;
      }
      UniqueCloneIsNoTemplate(registry.records, lobby.value);
      SetOwnerTransfers(registry.records, lobby.value, target);
      SetOwnerKeepsChannels(registry.records, lobby.value, target);
      registry.SetOwner(lobby.value, target);
      reply := Done;
    }
  }

  /** Dropping no id changes nothing. */
  lemma {:induction false} NothingGone(rs: seq<Record>)
    ensures WithoutChannels(rs, {}) == rs
  {
    if |rs| > 0 {
      NothingGone(rs[1..]);
    }
  }

  /** With unique ids, a channel registered as a clone is not also a template. */
  lemma UniqueCloneIsNoTemplate(rs: seq<Record>, channel: Id)
    requires Unique(rs) && Registered(rs, channel, CloneKind)
    ensures !Registered(rs, channel, TemplateKind)
  {
    var i :| 0 <= i < |rs| && Holds(rs[i], channel, CloneKind);
    forall j | 0 <= j < |rs| ensures !Holds(rs[j], channel, TemplateKind) {
      if j < i {
        assert rs[j].channel != rs[i].channel;
      } else if j > i {
        assert rs[i].channel != rs[j].channel;
      }
    }
  }
}
