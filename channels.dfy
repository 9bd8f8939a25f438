/** The flat lobby registry of lib/channels.py and bot/lib/channels.py.

    One collection holds one record per registered channel, typed "template" or
    "clone"; a clone record also names its template and its owner.  The
    module-level methods pair each platform call with the registry write that
    follows it. */
module LobbyChannels {
  import opened Common
  import opened Overwrites
  import opened ChatPlatform
  import opened ChannelCopy

  datatype Kind = TemplateKind | CloneKind

  /** A stored record.  Only clone records carry a template and an owner. */
  datatype Record = Record(kind: Kind, guild: Id, channel: Id, template: Option<Id>, owner: Option<Id>)

  function TemplateRecord(guild: Id, channel: Id): Record {
    Record(TemplateKind, guild, channel, None, None)
  }

  function CloneRecord(guild: Id, template: Id, clone: Id, owner: Id): Record {
    Record(CloneKind, guild, clone, Some(template), Some(owner))
  }

  /** The filter {"channel_id": channel, "type": kind}. */
  predicate Holds(r: Record, channel: Id, kind: Kind) {
    r.channel == channel && r.kind == kind
  }

  /** Some record of that kind holds the channel id. */
  predicate Registered(rs: seq<Record>, channel: Id, kind: Kind) {
    exists i :: 0 <= i < |rs| && Holds(rs[i], channel, kind)
  }

  /** No two records carry the same channel id. */
  predicate Unique(rs: seq<Record>) {
    forall i, j :: 0 <= i < j < |rs| ==> rs[i].channel != rs[j].channel
  }

  /** find_one: the position of the first record matching the filter. */
  function FindOne(rs: seq<Record>, channel: Id, kind: Kind): (r: Option<nat>)
    ensures r.Some? ==> r.value < |rs| && Holds(rs[r.value], channel, kind)
    ensures r.Some? ==> forall j :: 0 <= j < r.value ==> !Holds(rs[j], channel, kind)
    ensures r.None? <==> !Registered(rs, channel, kind)
  {
    if |rs| == 0 then None
    else if Holds(rs[0], channel, kind) then Some(0)
    else match FindOne(rs[1..], channel, kind)
      case None =>
        assert forall j :: 1 <= j < |rs| ==> rs[j] == rs[1..][j - 1];
        None
      case Some(k) => Some(k + 1)
  }

  /** delete_one: the first record matching the filter is removed. */
  function RemoveFirst(rs: seq<Record>, channel: Id, kind: Kind): seq<Record> {
    if |rs| == 0 then []
    else if Holds(rs[0], channel, kind) then rs[1..]
    else [rs[0]] + RemoveFirst(rs[1..], channel, kind)
  }

  /** delete_many({"guild_id": guild}). */
  function WithoutGuild(rs: seq<Record>, guild: Id): (r: seq<Record>)
    ensures forall x :: x in r <==> x in rs && x.guild != guild
    ensures |r| <= |rs|
  {
    if |rs| == 0 then []
    else if rs[0].guild == guild then WithoutGuild(rs[1..], guild)
    else [rs[0]] + WithoutGuild(rs[1..], guild)
  }

  /** The records whose channel id is not in gone, in their stored order. */
  function WithoutChannels(rs: seq<Record>, gone: set<Id>): (r: seq<Record>)
    ensures forall x :: x in r <==> x in rs && x.channel !in gone
    ensures |r| <= |rs|
  {
    if |rs| == 0 then []
    else if rs[0].channel in gone then WithoutChannels(rs[1..], gone)
    else [rs[0]] + WithoutChannels(rs[1..], gone)
  }

  /** update_one({"channel_id": channel}, {"$set": {"owner_id": owner}}): the
      filter names no type, so the first record with that channel id is
      updated whatever its kind. */
  function SetOwnerFirst(rs: seq<Record>, channel: Id, owner: Id): (r: seq<Record>)
    ensures |r| == |rs|
  {
    if |rs| == 0 then []
    else if rs[0].channel == channel then [rs[0].(owner := Some(owner))] + rs[1..]
    else [rs[0]] + SetOwnerFirst(rs[1..], channel, owner)
  }

  /** get_owner: the owner id of the first clone record for the channel. */
  function OwnerOf(rs: seq<Record>, channel: Id): Option<Id> {
    match FindOne(rs, channel, CloneKind)
    case None => None
    case Some(i) => rs[i].owner
  }

  // ---------------------------------------------------------------------
  // The collection

  /** The "channels" collection. */
  class Registry {
    var records: seq<Record>

    constructor()
      ensures records == []
    {
      records := [];
    }

    /** register_template / add_template: insert a template record. */
    method RegisterTemplate(guild: Id, channel: Id)
      modifies this
      ensures records == old(records) + [TemplateRecord(guild, channel)]
    {
      records := records + [TemplateRecord(guild, channel)];
    }

    /** register_clone / add_clone: insert a clone record. */
    method RegisterClone(guild: Id, template: Id, clone: Id, owner: Id)
      modifies this
      ensures records == old(records) + [CloneRecord(guild, template, clone, owner)]
    {
      records := records + [CloneRecord(guild, template, clone, owner)];
    }

    /** deregister_template / delete_template: delete_one with the template type. */
    method DeregisterTemplate(channel: Id)
      modifies this
      ensures records == RemoveFirst(old(records), channel, TemplateKind)
    {
      records := RemoveFirst(records, channel, TemplateKind);
    }

    /** deregister_clone / delete_clone: delete_one with the clone type. */
    method DeregisterClone(channel: Id)
      modifies this
      ensures records == RemoveFirst(old(records), channel, CloneKind)
    {
      records := RemoveFirst(records, channel, CloneKind);
    }

    /** delete_guild_data: delete_many by guild. */
    method DeleteGuildData(guild: Id)
      modifies this
      ensures records == WithoutGuild(old(records), guild)
    {
      records := WithoutGuild(records, guild);
    }

    /** CloneChannel.set_owner. */
    method SetOwner(channel: Id, owner: Id)
      modifies this
      ensures records == SetOwnerFirst(old(records), channel, owner)
    {
      records := SetOwnerFirst(records, channel, owner);
    }

    /** template_exists: a template record holds the id. */
    function TemplateExists(channel: Id): (b: bool)
      reads this
      ensures b <==> Registered(records, channel, TemplateKind)
    {
      FindOne(records, channel, TemplateKind).Some?
    }

    /** clone_exists: a clone record holds the id. */
    function CloneExists(channel: Id): (b: bool)
      reads this
      ensures b <==> Registered(records, channel, CloneKind)
    {
      FindOne(records, channel, CloneKind).Some?
    }

    /** get_template / TemplateChannel.get: the channel itself when it is
        registered as a template, None otherwise. */
    function GetTemplate(channel: Id): (r: Option<Id>)
      reads this
      ensures r.None? <==> !Registered(records, channel, TemplateKind)
      ensures r.Some? ==> r.value == channel
    {
      if TemplateExists(channel) then Some(channel) else None
    }

    /** get_clone / CloneChannel.get. */
    function GetClone(channel: Id): (r: Option<Id>)
      reads this
      ensures r.None? <==> !Registered(records, channel, CloneKind)
      ensures r.Some? ==> r.value == channel
    {
      if CloneExists(channel) then Some(channel) else None
    }

    /** CloneChannel.get_owner: the owner stored on the channel's clone record. */
    function GetOwner(channel: Id): (r: Option<Id>)
      reads this
      ensures r.Some? ==> exists i :: 0 <= i < |records| && Holds(records[i], channel, CloneKind) &&
                                      records[i].owner == r
      ensures !Registered(records, channel, CloneKind) ==> r.None?
      ensures FindOne(records, channel, CloneKind).Some? ==> r == records[FindOne(records, channel, CloneKind).value].owner
    {
      OwnerOf(records, channel)
    }
  }

  // ---------------------------------------------------------------------
  // Voice-state predicates

  /** joined_a_channel: the new state names a channel. */
  predicate JoinedAChannel(s: VoiceState) {
    s.channel.Some?
  }

  /** left_a_channel: there was an old state and it named a channel. */
  predicate LeftAChannel(s: Option<VoiceState>) {
    s.Some? && s.value.channel.Some?
  }

  /** The state a member joins a channel in is the state a later event
      leaves that channel from: an old state counts as leaving exactly when,
      as a new state, it would have counted as joining; no old state never
      counts. */
  lemma LeavingMirrorsJoining(s: VoiceState)
    ensures LeftAChannel(Some(s)) <==> JoinedAChannel(s)
    ensures !LeftAChannel(None)
  {
  }

  /** is_in_lobby: the member has a voice state in the guild naming a channel,
      and that channel is registered as a clone. */
  function IsInLobby(reg: Registry, p: Platform, guild: Id, member: Id): (b: bool)
    reads reg
    ensures b <==> VoiceChannelIn(p, guild, member).Some? &&
                   Registered(reg.records, VoiceChannelIn(p, guild, member).value, CloneKind)
  {
    match VoiceChannelIn(p, guild, member)
    case None => false
    case Some(c) => reg.GetClone(c).Some?
  }

  // ---------------------------------------------------------------------
  // Platform calls followed by registry writes


  /** The registry agrees with the platform: ids unique, and every registered
      id was issued by the platform. */
  predicate Consistent(rs: seq<Record>, p: Platform) {
    ChatPlatform.Valid(p) && Unique(rs) && forall x :: x in rs ==> x.channel < p.nextId
  }

  /** create_template / TemplateChannel.create: create the voice channel in the
      guild, then register it as a template. */
  method CreateTemplate(reg: Registry, p: Platform, guild: Id, name: string) returns (q: Platform, id: Id)
    modifies reg
    ensures (q, id) == CreateChannel(p, NewVoiceChannel(guild, name))
    ensures reg.records == old(reg.records) + [TemplateRecord(guild, id)]
    ensures Consistent(old(reg.records), p) ==> Consistent(reg.records, q)
  {
    q, id := CreateChannel(p, NewVoiceChannel(guild, name)).0, p.nextId;
    reg.RegisterTemplate(guild, id);
    FreshRecordKeepsConsistent(old(reg.records), p, TemplateRecord(guild, id), q);
  }

  /** create_clone / CloneChannel.create: create a voice channel in the
      template's guild that copies the template's position, user limit,
      bitrate, video quality, overwrites, region and category under the given
      name, then register it as a clone of the template owned by owner. */
  method CreateClone(reg: Registry, p: Platform, templateId: Id, template: Channel, owner: Id, name: string)
    returns (q: Platform, id: Id)
    modifies reg
    ensures (q, id) == CloneChannel(p, template, NameOnly(name))
    ensures template.isVoice ==> q.channels[id] == template.(name := name)
    ensures reg.records == old(reg.records) + [CloneRecord(template.guild, templateId, id, owner)]
    ensures Consistent(old(reg.records), p) ==> Consistent(reg.records, q)
  {
    var created := CloneChannel(p, template, NameOnly(name));
    q, id := created.0, created.1;
    if template.isVoice {
      CloneOfVoiceTemplate(template, name);
    }
    reg.RegisterClone(template.guild, templateId, id, owner);
    FreshRecordKeepsConsistent(old(reg.records), p, CloneRecord(template.guild, templateId, id, owner), q);
  }

  /** delete_template / TemplateChannel.delete: delete the channel, then remove
      its template record.  A channel that is already gone makes the delete
      call fail, and the record is then left in place. */
  method DeleteTemplate(reg: Registry, p: Platform, channel: Id) returns (q: Platform)
    modifies reg
    ensures channel in p.channels ==>
      q == DeleteChannel(p, channel) && reg.records == RemoveFirst(old(reg.records), channel, TemplateKind)
    ensures channel !in p.channels ==> q == p && reg.records == old(reg.records)
    ensures Consistent(old(reg.records), p) ==> Consistent(reg.records, q)
  {
    if channel !in p.channels {
      return p;
    }
    q := DeleteChannel(p, channel);
    reg.DeregisterTemplate(channel);
    RemoveFirstSubset(old(reg.records), channel, TemplateKind);
  }

  /** delete_clone / CloneChannel.delete. */
  method DeleteClone(reg: Registry, p: Platform, channel: Id) returns (q: Platform)
    modifies reg
    ensures channel in p.channels ==>
      q == DeleteChannel(p, channel) && reg.records == RemoveFirst(old(reg.records), channel, CloneKind)
    ensures channel !in p.channels ==> q == p && reg.records == old(reg.records)
    ensures Consistent(old(reg.records), p) ==> Consistent(reg.records, q)
  {
    if channel !in p.channels {
      return p;
    }
    q := DeleteChannel(p, channel);
    reg.DeregisterClone(channel);
    RemoveFirstSubset(old(reg.records), channel, CloneKind);
  }

  // ---------------------------------------------------------------------
  // Properties

  /** delete_one removes exactly the first matching record and keeps the order
      of the rest; with no match the collection is unchanged. */
  lemma {:induction false} RemoveFirstRemovesFirstMatch(rs: seq<Record>, channel: Id, kind: Kind)
    ensures FindOne(rs, channel, kind).None? ==> RemoveFirst(rs, channel, kind) == rs
    ensures FindOne(rs, channel, kind).Some? ==>
      var i := FindOne(rs, channel, kind).value;
      RemoveFirst(rs, channel, kind) == rs[..i] + rs[i + 1..]
  {
    if |rs| > 0 && !Holds(rs[0], channel, kind) {
      RemoveFirstRemovesFirstMatch(rs[1..], channel, kind);
      match FindOne(rs[1..], channel, kind)
      case None =>
      case Some(k) =>
        assert FindOne(rs, channel, kind) == Some(k + 1);
        assert rs[..k + 1] == [rs[0]] + rs[1..][..k];
        assert rs[k + 2..] == rs[1..][k + 1..];
    }
  }

  /** Removing a record keeps the rest unique and issued. */
  lemma RemoveFirstSubset(rs: seq<Record>, channel: Id, kind: Kind)
    ensures forall x :: x in RemoveFirst(rs, channel, kind) ==> x in rs
    ensures Unique(rs) ==> Unique(RemoveFirst(rs, channel, kind))
  {
    RemoveFirstRemovesFirstMatch(rs, channel, kind);
    var r := RemoveFirst(rs, channel, kind);
    match FindOne(rs, channel, kind)
    case None =>
    case Some(i) =>
      assert forall j :: 0 <= j < |r| ==> r[j] == if j < i then rs[j] else rs[j + 1];
  }

  /** After deregistration no record of that kind holds the id, provided at
      most one did before (as the registry's unique ids ensure); every other
      record survives. */
  lemma DeregisterRemovesRegistration(rs: seq<Record>, channel: Id, kind: Kind)
    requires Unique(rs)
    ensures !Registered(RemoveFirst(rs, channel, kind), channel, kind)
    ensures forall x :: x in RemoveFirst(rs, channel, kind) <==> x in rs && !Holds(x, channel, kind)
  {
    RemoveFirstRemovesFirstMatch(rs, channel, kind);
    match FindOne(rs, channel, kind)
    case None =>
    case Some(i) =>
      RemovedOnlyTheMatch(rs, channel, kind, i);
      KeptEveryOther(rs, channel, kind, i);
  }

  lemma RemovedOnlyTheMatch(rs: seq<Record>, channel: Id, kind: Kind, i: nat)
    requires Unique(rs) && FindOne(rs, channel, kind) == Some(i)
    ensures forall x :: x in rs[..i] + rs[i + 1..] ==> x in rs && !Holds(x, channel, kind)
  {
    forall x | x in rs[..i] + rs[i + 1..] ensures x in rs && !Holds(x, channel, kind) {
      if x in rs[..i] {
        var j :| 0 <= j < i && rs[..i][j] == x;
        assert rs[j] == x;
      } else {
        var j :| 0 <= j < |rs| - i - 1 && rs[i + 1..][j] == x;
        assert rs[i + 1 + j] == x;
      }
    }
  }

  lemma KeptEveryOther(rs: seq<Record>, channel: Id, kind: Kind, i: nat)
    requires FindOne(rs, channel, kind) == Some(i)
    ensures forall x :: x in rs && !Holds(x, channel, kind) ==> x in rs[..i] + rs[i + 1..]
  {
    forall x | x in rs && !Holds(x, channel, kind) ensures x in rs[..i] + rs[i + 1..] {
      var j :| 0 <= j < |rs| && rs[j] == x;
      if j < i {
        assert rs[..i][j] == x;
      } else {
        assert rs[i + 1..][j - i - 1] == x;
      }
    }
  }

  /** Deregistering one kind never removes a record of the other kind: a
      clone record with the same id survives deregister_template. */
  lemma DeregisterKeepsOtherKind(rs: seq<Record>, channel: Id, kind: Kind, other: Kind)
    requires other != kind && Registered(rs, channel, other)
    ensures Registered(RemoveFirst(rs, channel, kind), channel, other)
  {
    RemoveFirstRemovesFirstMatch(rs, channel, kind);
    var j :| 0 <= j < |rs| && Holds(rs[j], channel, other);
    var r := RemoveFirst(rs, channel, kind);
    match FindOne(rs, channel, kind)
    case None =>
    case Some(i) =>
      if j < i {
        assert r[j] == rs[j];
      } else {
        assert j != i;
        assert r[j - 1] == rs[j];
      }
  }

  /** Registration then lookup: the id is registered with the inserted kind. */
  lemma RegisterThenExists(rs: seq<Record>, guild: Id, template: Id, channel: Id, owner: Id)
    ensures Registered(rs + [TemplateRecord(guild, channel)], channel, TemplateKind)
    ensures Registered(rs + [CloneRecord(guild, template, channel, owner)], channel, CloneKind)
    ensures OwnerOf(rs + [CloneRecord(guild, template, channel, owner)], channel) ==
      if Registered(rs, channel, CloneKind) then OwnerOf(rs, channel) else Some(owner)
  {
    var t := rs + [TemplateRecord(guild, channel)];
    assert Holds(t[|rs|], channel, TemplateKind);
    var c := rs + [CloneRecord(guild, template, channel, owner)];
    assert Holds(c[|rs|], channel, CloneKind);
    match FindOne(rs, channel, CloneKind)
    case Some(i) =>
      assert c[i] == rs[i];
      assert FindOne(c, channel, CloneKind) == Some(i) by {
        FirstCloneAt(c, channel, i);
      }
    case None =>
      assert forall j :: 0 <= j < |rs| ==> c[j] == rs[j];
      FirstCloneAt(c, channel, |rs|);
  }

  /** find_one's answer is the first matching position. */
  lemma FirstCloneAt(rs: seq<Record>, channel: Id, i: nat)
    requires i < |rs| && Holds(rs[i], channel, CloneKind)
    requires forall j :: 0 <= j < i ==> !Holds(rs[j], channel, CloneKind)
    ensures FindOne(rs, channel, CloneKind) == Some(i)
  {
  }

  /** delete_guild_data removes every record of the guild and keeps every
      record of every other guild. */
  lemma DeleteGuildDataSeparates(rs: seq<Record>, guild: Id, channel: Id, kind: Kind)
    ensures !Registered(rs, channel, kind) ==> !Registered(WithoutGuild(rs, guild), channel, kind)
    ensures forall i :: 0 <= i < |WithoutGuild(rs, guild)| ==> WithoutGuild(rs, guild)[i].guild != guild
    ensures forall i :: 0 <= i < |rs| && rs[i].guild != guild ==> rs[i] in WithoutGuild(rs, guild)
  {
    var r := WithoutGuild(rs, guild);
    assert forall i :: 0 <= i < |r| ==> r[i] in r;
    assert forall i :: 0 <= i < |rs| ==> rs[i] in rs;
  }

  /** set_owner then get_owner yields the new owner, provided no template
      record carries the same id (fresh ids guarantee this); every other
      channel keeps its owner and every registration is unchanged. */
  lemma {:induction false} SetOwnerTransfers(rs: seq<Record>, channel: Id, owner: Id)
    requires Registered(rs, channel, CloneKind) && !Registered(rs, channel, TemplateKind)
    ensures OwnerOf(SetOwnerFirst(rs, channel, owner), channel) == Some(owner)
    ensures forall d :: d != channel ==> OwnerOf(SetOwnerFirst(rs, channel, owner), d) == OwnerOf(rs, d)
    ensures forall d, k :: Registered(SetOwnerFirst(rs, channel, owner), d, k) <==> Registered(rs, d, k)
  {
    var r := SetOwnerFirst(rs, channel, owner);
    SetOwnerPointwise(rs, channel, owner);
    var i := FindOne(rs, channel, CloneKind).value;
    assert forall j :: 0 <= j < i ==> rs[j].channel != channel by {
      forall j | 0 <= j < i ensures rs[j].channel != channel {
        assert !Holds(rs[j], channel, TemplateKind);
      }
    }
    assert r[i] == rs[i].(owner := Some(owner));
    FirstCloneAt(r, channel, i);
    SetOwnerKeepsRegistrations(rs, channel, owner);
    SetOwnerKeepsOtherOwners(rs, channel, owner);
  }

  /** set_owner changes no channel id and no kind. */
  lemma SetOwnerKeepsRegistrations(rs: seq<Record>, channel: Id, owner: Id)
    ensures forall d, k :: Registered(SetOwnerFirst(rs, channel, owner), d, k) <==> Registered(rs, d, k)
  {
    var r := SetOwnerFirst(rs, channel, owner);
    SetOwnerPointwise(rs, channel, owner);
    forall d, k ensures Registered(r, d, k) <==> Registered(rs, d, k) {
      if Registered(r, d, k) {
        var j :| 0 <= j < |r| && Holds(r[j], d, k);
        assert Holds(rs[j], d, k);
      }
      if Registered(rs, d, k) {
        var j :| 0 <= j < |rs| && Holds(rs[j], d, k);
        assert Holds(r[j], d, k);
      }
    }
  }

  /** set_owner leaves the owner of every other channel as it was. */
  lemma SetOwnerKeepsOtherOwners(rs: seq<Record>, channel: Id, owner: Id)
    ensures forall d :: d != channel ==> OwnerOf(SetOwnerFirst(rs, channel, owner), d) == OwnerOf(rs, d)
  {
    var r := SetOwnerFirst(rs, channel, owner);
    SetOwnerPointwise(rs, channel, owner);
    forall d | d != channel ensures OwnerOf(r, d) == OwnerOf(rs, d) {
      match FindOne(rs, d, CloneKind)
      case None =>
        assert !Registered(r, d, CloneKind);
      case Some(k) =>
        assert r[k] == rs[k];
        FirstCloneAt(r, d, k);
    }
  }

  /** set_owner touches only the owner field of the first record with the id. */
  lemma {:induction false} SetOwnerPointwise(rs: seq<Record>, channel: Id, owner: Id)
    ensures forall j :: 0 <= j < |rs| ==>
      SetOwnerFirst(rs, channel, owner)[j] ==
        if rs[j].channel == channel && forall l :: 0 <= l < j ==> rs[l].channel != channel
        then rs[j].(owner := Some(owner)) else rs[j]
  {
    if |rs| > 0 && rs[0].channel != channel {
      SetOwnerPointwise(rs[1..], channel, owner);
      var r := SetOwnerFirst(rs, channel, owner);
      forall j | 0 < j < |rs|
        ensures r[j] == if rs[j].channel == channel && forall l :: 0 <= l < j ==> rs[l].channel != channel
                        then rs[j].(owner := Some(owner)) else rs[j]
      {
        assert r[j] == SetOwnerFirst(rs[1..], channel, owner)[j - 1];
        assert rs[j] == rs[1..][j - 1];
        assert (forall l :: 0 <= l < j ==> rs[l].channel != channel) <==>
               (forall l :: 0 <= l < j - 1 ==> rs[1..][l].channel != channel);
      }
    }
  }

  /** A record for a freshly issued id keeps the registry consistent with the
      grown platform. */
  lemma FreshRecordKeepsConsistent(rs: seq<Record>, p: Platform, x: Record, q: Platform)
    requires Consistent(rs, p) ==> x.channel == p.nextId && q.nextId == p.nextId + 1 && ChatPlatform.Valid(q)
    ensures Consistent(rs, p) ==> Consistent(rs + [x], q)
  {
  }

  /** Filtering keeps the registry unique. */
  lemma {:induction false} WithoutChannelsUnique(rs: seq<Record>, gone: set<Id>)
    requires Unique(rs)
    ensures Unique(WithoutChannels(rs, gone))
  {
    if |rs| > 0 {
      assert Unique(rs[1..]) by {
        forall i, j | 0 <= i < j < |rs[1..]| ensures rs[1..][i].channel != rs[1..][j].channel {
          assert rs[1..][i] == rs[i + 1] && rs[1..][j] == rs[j + 1];
        }
      }
      WithoutChannelsUnique(rs[1..], gone);
      var t := WithoutChannels(rs[1..], gone);
      if rs[0].channel !in gone {
        forall j | 0 <= j < |t| ensures t[j].channel != rs[0].channel {
          assert t[j] in rs[1..];
          var k :| 0 <= k < |rs[1..]| && rs[1..][k] == t[j];
          assert rs[k + 1] == t[j];
        }
        assert forall i :: 0 < i < |[rs[0]] + t| ==> ([rs[0]] + t)[i] == t[i - 1];
      }
    }
  }

  /** The records whose channel still exists on the platform, in stored order:
      what the startup sweeps should leave behind. */
  function KeepLive(rs: seq<Record>, live: set<Id>): (r: seq<Record>)
    ensures forall x :: x in r <==> x in rs && x.channel in live
  {
    if |rs| == 0 then []
    else if rs[0].channel in live then [rs[0]] + KeepLive(rs[1..], live)
    else KeepLive(rs[1..], live)
  }

  /** The channel ids of the records without repetition (distinct("channel_id")). */
  function DistinctChannels(rs: seq<Record>): (ids: seq<Id>)
    ensures forall c :: c in ids <==> exists x :: x in rs && x.channel == c
  {
    if |rs| == 0 then []
    else
      var rest := DistinctChannels(rs[1..]);
      assert forall x :: x in rs <==> x == rs[0] || x in rs[1..];
      if rs[0].channel in rest then rest else [rs[0].channel] + rest
  }

  lemma UniqueTail(rs: seq<Record>)
    requires Unique(rs) && |rs| > 0
    ensures Unique(rs[1..])
    ensures forall x :: x in rs[1..] ==> x.channel != rs[0].channel
  {
    forall i, j | 0 <= i < j < |rs[1..]| ensures rs[1..][i].channel != rs[1..][j].channel {
      assert rs[1..][i] == rs[i + 1] && rs[1..][j] == rs[j + 1];
    }
    forall x | x in rs[1..] ensures x.channel != rs[0].channel {
      var k :| 0 <= k < |rs[1..]| && rs[1..][k] == x;
      assert rs[k + 1] == x;
    }
  }

  /** Deletions for an id no record carries change nothing. */
  lemma {:induction false} NotCarried(rs: seq<Record>, channel: Id)
    requires forall x :: x in rs ==> x.channel != channel
    ensures RemoveFirst(rs, channel, TemplateKind) == rs
    ensures RemoveFirst(rs, channel, CloneKind) == rs
    ensures WithoutChannels(rs, {channel}) == rs
  {
    if |rs| > 0 {
      assert forall x :: x in rs[1..] ==> x in rs;
      NotCarried(rs[1..], channel);
    }
  }

  /** Deregistering an id as a template and then as a clone, as the channel
      delete handler and the startup sweeps do, drops every record with that
      id when ids are unique. */
  lemma {:induction false} DeregisterBothDrops(rs: seq<Record>, channel: Id)
    requires Unique(rs)
    ensures RemoveFirst(RemoveFirst(rs, channel, TemplateKind), channel, CloneKind) == WithoutChannels(rs, {channel})
  {
    if |rs| > 0 {
      UniqueTail(rs);
      if rs[0].channel == channel {
        NotCarried(rs[1..], channel);
      } else {
        DeregisterBothDrops(rs[1..], channel);
      }
    }
  }

  /** Dropping ids in two rounds is dropping them all at once. */
  lemma {:induction false} WithoutChannelsCompose(rs: seq<Record>, gone: set<Id>, channel: Id)
    ensures WithoutChannels(WithoutChannels(rs, gone), {channel}) == WithoutChannels(rs, gone + {channel})
  {
    if |rs| > 0 {
      WithoutChannelsCompose(rs[1..], gone, channel);
    }
  }

  /** Dropping exactly the ids that no longer exist keeps exactly the live records. */
  lemma {:induction false} DroppingDeadKeepsLive(rs: seq<Record>, gone: set<Id>, live: set<Id>)
    requires forall x :: x in rs ==> (x.channel in gone <==> x.channel !in live)
    ensures WithoutChannels(rs, gone) == KeepLive(rs, live)
  {
    if |rs| > 0 {
      assert forall x :: x in rs[1..] ==> x in rs;
      DroppingDeadKeepsLive(rs[1..], gone, live);
    }
  }

  /** delete_many keeps the registry unique. */
  lemma {:induction false} WithoutGuildUnique(rs: seq<Record>, guild: Id)
    requires Unique(rs)
    ensures Unique(WithoutGuild(rs, guild))
  {
    if |rs| > 0 {
      UniqueTail(rs);
      WithoutGuildUnique(rs[1..], guild);
      var t := WithoutGuild(rs[1..], guild);
      if rs[0].guild != guild {
        assert forall j :: 0 <= j < |t| ==> t[j] in rs[1..];
        assert forall i :: 0 < i < |[rs[0]] + t| ==> ([rs[0]] + t)[i] == t[i - 1];
      }
    }
  }

  /** set_owner keeps every record's channel id, so the registry stays unique
      and issued. */
  lemma SetOwnerKeepsChannels(rs: seq<Record>, channel: Id, owner: Id)
    ensures forall j :: 0 <= j < |rs| ==> SetOwnerFirst(rs, channel, owner)[j].channel == rs[j].channel
    ensures Unique(rs) ==> Unique(SetOwnerFirst(rs, channel, owner))
    ensures forall x :: x in SetOwnerFirst(rs, channel, owner) ==> exists y :: y in rs && y.channel == x.channel
  {
    SetOwnerPointwise(rs, channel, owner);
    var r := SetOwnerFirst(rs, channel, owner);
    forall x | x in r ensures exists y :: y in rs && y.channel == x.channel {
      var j :| 0 <= j < |r| && r[j] == x;
      assert rs[j] in rs;
    }
  }
}
