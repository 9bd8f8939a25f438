/** The chat platform as the bot sees it through its REST client and its
    voice-state cache: the guild channels that exist, and the voice channel
    each member is connected to.  Fetching a channel fails exactly when its id
    is absent. */
module ChatPlatform {
  import opened Common
  import opened Overwrites

  /** The voice-channel settings a clone copies from its template. */
  datatype VoiceSettings = VoiceSettings(
    position: int,
    userLimit: nat,
    bitrate: nat,
    videoQuality: nat,
    region: Option<string>)

  /** A guild channel: its guild, name, whether it is a voice channel, its
      voice settings, its permission overwrites and its parent category. */
  datatype Channel = Channel(
    guild: Id,
    name: string,
    isVoice: bool,
    settings: VoiceSettings,
    overwrites: seq<Overwrite>,
    category: Option<Id>)

  /** The platform: channels by id, the voice channel of each connected member
      (a member is connected to at most one voice channel), and the next
      snowflake the platform will hand out. */
  datatype Platform = Platform(channels: map<Id, Channel>, voice: map<Id, Id>, nextId: Id)

  /** Every issued id is below nextId and every member is in a channel that exists. */
  predicate Valid(p: Platform) {
    (forall c :: c in p.channels ==> c < p.nextId) &&
    (forall m :: m in p.voice ==> p.voice[m] in p.channels)
  }

  /** The members connected to channel c, as the voice-state cache reports them. */
  function Occupants(p: Platform, c: Id): set<Id> {
    set m | m in p.voice && p.voice[m] == c
  }

  /** The voice-state view of channel c is empty. */
  predicate IsEmpty(p: Platform, c: Id) {
    forall m :: m in p.voice ==> p.voice[m] != c
  }

  lemma IsEmptyNoOccupants(p: Platform, c: Id)
    ensures IsEmpty(p, c) <==> Occupants(p, c) == {}
  {
    if !IsEmpty(p, c) {
      var m :| m in p.voice && p.voice[m] == c;
      assert m in Occupants(p, c);
    }
  }

  /** guild.get_voice_state(member): the voice channel of the member's voice
      state in that guild, if it has one. */
  function VoiceChannelIn(p: Platform, guild: Id, member: Id): Option<Id> {
    if member in p.voice && p.voice[member] in p.channels && p.channels[p.voice[member]].guild == guild
    then Some(p.voice[member]) else None
  }

  /** create_voice_channel: the channel is stored under a fresh id. */
  function CreateChannel(p: Platform, ch: Channel): (r: (Platform, Id))
    ensures r.1 == p.nextId && r.0.nextId == p.nextId + 1
    ensures Valid(p) ==> r.1 !in p.channels && Valid(r.0)
    ensures r.0.channels == p.channels[r.1 := ch] && r.0.voice == p.voice
  {
    (Platform(p.channels[p.nextId := ch], p.voice, p.nextId + 1), p.nextId)
  }

  /** channel.delete(): the channel is gone and its occupants are disconnected. */
  function DeleteChannel(p: Platform, c: Id): (r: Platform)
    ensures c !in r.channels && IsEmpty(r, c) && r.nextId == p.nextId
    ensures forall d :: d != c ==> (d in r.channels <==> d in p.channels)
    ensures forall m :: m in r.voice <==> m in p.voice && p.voice[m] != c
    ensures Valid(p) ==> Valid(r)
  {
    Platform(p.channels - {c}, map m | m in p.voice && p.voice[m] != c :: p.voice[m], p.nextId)
  }

  /** member.edit(voice_channel=c): the member is now connected to c. */
  function MoveMember(p: Platform, m: Id, c: Id): (r: Platform)
    ensures r.voice == p.voice[m := c] && r.channels == p.channels && r.nextId == p.nextId
    ensures Valid(p) && c in p.channels ==> Valid(r)
  {
    p.(voice := p.voice[m := c])
  }

  /** member.edit(voice_channel=None): the member is disconnected. */
  function Disconnect(p: Platform, m: Id): (r: Platform)
    ensures m !in r.voice && r.channels == p.channels && r.nextId == p.nextId
    ensures forall n :: n != m ==> (n in r.voice <==> n in p.voice)
    ensures Valid(p) ==> Valid(r)
  {
    p.(voice := p.voice - {m})
  }

  /** channel.edit(...): replace an existing channel's data. */
  function EditChannel(p: Platform, c: Id, ch: Channel): (r: Platform)
    requires c in p.channels
    ensures r.channels == p.channels[c := ch] && r.voice == p.voice && r.nextId == p.nextId
    ensures Valid(p) ==> Valid(r)
  {
    p.(channels := p.channels[c := ch])
  }

  /** A voice state: the member, its guild and the channel it is connected
      to, if any. */
  datatype VoiceState = VoiceState(member: Id, guild: Id, channel: Option<Id>)

  /** The settings the platform gives a voice channel created with a name only;
      their values are the platform's business. */
  const PlatformDefaults := VoiceSettings(0, 0, 64000, 1, None)

  /** A voice channel created with only a name. */
  function NewVoiceChannel(guild: Id, name: string): Channel {
    Channel(guild, name, true, PlatformDefaults, [], None)
  }
}
