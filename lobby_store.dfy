/** The per-guild document schema of extensions/lobbies.py and
    campfire/extensions/lobbies.py.

    lobby_channels holds, per guild, the ids of its template channels and an
    entry {clone_id, template_id, owner_id} per live lobby;
    lobby_disabled_commands holds, per guild, the lobby sub-commands disabled
    there.  Both are written with upserts keyed on guild_id, so each guild has
    at most one document in each collection. */
module LobbyStore {
  import opened Common
  import opened Keyed

  /** The sub-commands that can be disabled (the CHOICES list). */
  datatype SubCommand = RenameCommand | LockCommand | UnlockCommand | KickCommand | BanCommand | UnbanCommand

  datatype CloneEntry = CloneEntry(clone: Id, template: Id, owner: Id)

  /** A lobby_channels document; a list the document lacks reads as empty. */
  datatype LobbyDocument = LobbyDocument(guild: Id, templates: seq<Id>, clones: seq<CloneEntry>)

  /** A lobby_disabled_commands document. */
  datatype DisabledDocument = DisabledDocument(guild: Id, commands: seq<SubCommand>)

  function LobbyGuild(d: LobbyDocument): Id { d.guild }

  function DisabledGuild(d: DisabledDocument): Id { d.guild }

  // ---------------------------------------------------------------------
  // lobby_channels

  /** update_one({"guild_id": guild}, {"$push": {"templates": id}}, upsert=True):
      the guild's first document gets id as its last template; a document is
      added only when the guild has none; no other document and no clone
      list changes. */
  function PushTemplate(docs: seq<LobbyDocument>, guild: Id, id: Id): (r: seq<LobbyDocument>)
    ensures |r| == |docs| + (if FindKey(docs, LobbyGuild, guild).None? then 1 else 0)
    ensures forall j :: 0 <= j < |docs| ==> r[j].guild == docs[j].guild && r[j].clones == docs[j].clones
    ensures forall j :: 0 <= j < |docs| && docs[j].guild != guild ==> r[j] == docs[j]
    ensures var k := if FindKey(docs, LobbyGuild, guild).Some? then FindKey(docs, LobbyGuild, guild).value else |docs|;
      k < |r| && r[k].guild == guild && |r[k].templates| > 0 && r[k].templates[|r[k].templates| - 1] == id
  {
    match FindKey(docs, LobbyGuild, guild)
    case None => docs + [LobbyDocument(guild, [id], [])]
    case Some(i) => docs[i := docs[i].(templates := docs[i].templates + [id])]
  }

  /** update_one({"guild_id": guild}, {"$push": {"clones": entry}}, upsert=True):
      the guild's first document gets the entry as its last clone; a document
      is added only when the guild has none; no other document and no
      template list changes. */
  function PushClone(docs: seq<LobbyDocument>, guild: Id, entry: CloneEntry): (r: seq<LobbyDocument>)
    ensures |r| == |docs| + (if FindKey(docs, LobbyGuild, guild).None? then 1 else 0)
    ensures forall j :: 0 <= j < |docs| ==> r[j].guild == docs[j].guild && r[j].templates == docs[j].templates
    ensures forall j :: 0 <= j < |docs| && docs[j].guild != guild ==> r[j] == docs[j]
    ensures var k := if FindKey(docs, LobbyGuild, guild).Some? then FindKey(docs, LobbyGuild, guild).value else |docs|;
      k < |r| && r[k].guild == guild && |r[k].clones| > 0 && r[k].clones[|r[k].clones| - 1] == entry
  {
    match FindKey(docs, LobbyGuild, guild)
    case None => docs + [LobbyDocument(guild, [], [entry])]
    case Some(i) => docs[i := docs[i].(clones := docs[i].clones + [entry])]
  }

  /** The document lists a clone entry for the channel. */
  predicate ListsClone(d: LobbyDocument, channel: Id) {
    exists e :: e in d.clones && e.clone == channel
  }

  /** valid_template: find_one({"templates": channel}) finds a document. */
  function HasTemplate(docs: seq<LobbyDocument>, channel: Id): (b: bool)
    ensures b <==> exists i :: 0 <= i < |docs| && channel in docs[i].templates
  {
    if |docs| == 0 then false
    else if channel in docs[0].templates then true
    else
      assert forall i :: 1 <= i < |docs| ==> docs[i] == docs[1..][i - 1];
      HasTemplate(docs[1..], channel)
  }

  /** The first entry for the channel in a clones list. */
  function FindEntry(es: seq<CloneEntry>, channel: Id): (r: Option<CloneEntry>)
    ensures r.Some? ==> r.value in es && r.value.clone == channel
    ensures r.None? <==> forall e :: e in es ==> e.clone != channel
  {
    if |es| == 0 then None
    else if es[0].clone == channel then Some(es[0])
    else
      assert forall e :: e in es <==> e == es[0] || e in es[1..];
      FindEntry(es[1..], channel)
  }

  /** get_clone_document: the clone entry for the channel in the first
      document listing it (the aggregate's $match, $unwind, $match, $limit 1),
      or None; valid_clone is the same search asking only whether it succeeds. */
  function CloneDocument(docs: seq<LobbyDocument>, channel: Id): (r: Option<CloneEntry>)
    ensures r.Some? <==> exists i :: 0 <= i < |docs| && ListsClone(docs[i], channel)
    ensures r.Some? ==> r.value.clone == channel &&
                        exists i :: 0 <= i < |docs| && r.value in docs[i].clones
  {
    if |docs| == 0 then None
    else match FindEntry(docs[0].clones, channel)
      case Some(e) => Some(e)
      case None =>
        assert forall i :: 1 <= i < |docs| ==> docs[i] == docs[1..][i - 1];
        CloneDocument(docs[1..], channel)
  }

  /** The ids not in gone ({"$pull": {"templates": {"$in": gone}}}). */
  function WithoutIds(ids: seq<Id>, gone: set<Id>): (r: seq<Id>)
    ensures forall x :: x in r <==> x in ids && x !in gone
  {
    if |ids| == 0 then []
    else if ids[0] in gone then WithoutIds(ids[1..], gone)
    else [ids[0]] + WithoutIds(ids[1..], gone)
  }

  /** The entries whose clone is not in gone ({"$pull": {"clones": {"clone_id": {"$in": gone}}}}). */
  function WithoutEntries(es: seq<CloneEntry>, gone: set<Id>): (r: seq<CloneEntry>)
    ensures forall e :: e in r <==> e in es && e.clone !in gone
  {
    if |es| == 0 then []
    else if es[0].clone in gone then WithoutEntries(es[1..], gone)
    else [es[0]] + WithoutEntries(es[1..], gone)
  }

  /** update_many on guild_id pulling template ids: every document of the
      guild keeps exactly its templates not in gone, and its guild and clones;
      every other document is unchanged. */
  function PullTemplates(docs: seq<LobbyDocument>, guild: Id, gone: set<Id>): (r: seq<LobbyDocument>)
    ensures |r| == |docs|
    ensures forall i :: 0 <= i < |docs| && docs[i].guild != guild ==> r[i] == docs[i]
    ensures forall i :: 0 <= i < |docs| && docs[i].guild == guild ==>
      r[i].guild == guild && r[i].clones == docs[i].clones &&
      forall x :: x in r[i].templates <==> x in docs[i].templates && x !in gone
  {
    seq(|docs|, i requires 0 <= i < |docs| =>
      if docs[i].guild == guild then docs[i].(templates := WithoutIds(docs[i].templates, gone)) else docs[i])
  }

  /** update_many on guild_id pulling clone entries: every document of the
      guild keeps exactly its entries whose clone is not in gone, and its
      guild and templates; every other document is unchanged. */
  function PullClones(docs: seq<LobbyDocument>, guild: Id, gone: set<Id>): (r: seq<LobbyDocument>)
    ensures |r| == |docs|
    ensures forall i :: 0 <= i < |docs| && docs[i].guild != guild ==> r[i] == docs[i]
    ensures forall i :: 0 <= i < |docs| && docs[i].guild == guild ==>
      r[i].guild == guild && r[i].templates == docs[i].templates &&
      forall e :: e in r[i].clones <==> e in docs[i].clones && e.clone !in gone
  {
    seq(|docs|, i requires 0 <= i < |docs| =>
      if docs[i].guild == guild then docs[i].(clones := WithoutEntries(docs[i].clones, gone)) else docs[i])
  }

  /** What the start-up sweep should leave of a document: the templates and
      clones whose channels still exist. */
  function SweepDocument(d: LobbyDocument, live: set<Id>): (r: LobbyDocument)
    ensures r.guild == d.guild
    ensures forall x :: x in r.templates <==> x in d.templates && x in live
    ensures forall e :: e in r.clones <==> e in d.clones && e.clone in live
  {
    d.(templates := WithoutIds(d.templates, set x | x in d.templates && x !in live),
       clones := WithoutEntries(d.clones, set e | e in d.clones && e.clone !in live :: e.clone))
  }

  /** Pulling exactly the dead ids leaves what the sweep should. */
  lemma {:induction false} WithoutDeadIds(ids: seq<Id>, gone: set<Id>, dead: set<Id>)
    requires forall x :: x in ids ==> (x in gone <==> x in dead)
    ensures WithoutIds(ids, gone) == WithoutIds(ids, dead)
  {
    if |ids| > 0 {
      assert forall x :: x in ids[1..] ==> x in ids;
      WithoutDeadIds(ids[1..], gone, dead);
    }
  }

  lemma {:induction false} WithoutDeadEntries(es: seq<CloneEntry>, gone: set<Id>, dead: set<Id>)
    requires forall e :: e in es ==> (e.clone in gone <==> e.clone in dead)
    ensures WithoutEntries(es, gone) == WithoutEntries(es, dead)
  {
    if |es| > 0 {
      assert forall e :: e in es[1..] ==> e in es;
      WithoutDeadEntries(es[1..], gone, dead);
    }
  }

  // ---------------------------------------------------------------------
  // lobby_disabled_commands

  /** disable_command: update_one with $push and upsert: the guild's first
      document gets the command appended; a document is added only when the
      guild has none; no other document changes. */
  function DisableIn(docs: seq<DisabledDocument>, guild: Id, command: SubCommand): (r: seq<DisabledDocument>)
    ensures |r| == |docs| + (if FindKey(docs, DisabledGuild, guild).None? then 1 else 0)
    ensures forall j :: 0 <= j < |docs| ==> r[j].guild == docs[j].guild
    ensures forall j :: 0 <= j < |docs| && docs[j].guild != guild ==> r[j] == docs[j]
    ensures var k := if FindKey(docs, DisabledGuild, guild).Some? then FindKey(docs, DisabledGuild, guild).value else |docs|;
      k < |r| && r[k].guild == guild && forall c :: c in r[k].commands <==> c == command || (k < |docs| && c in docs[k].commands)
  {
    match FindKey(docs, DisabledGuild, guild)
    case None => docs + [DisabledDocument(guild, [command])]
    case Some(i) => docs[i := docs[i].(commands := docs[i].commands + [command])]
  }

  /** The list without any occurrence of the command ($pull). */
  function WithoutCommand(cs: seq<SubCommand>, command: SubCommand): (r: seq<SubCommand>)
    ensures forall c :: c in r <==> c in cs && c != command
  {
    if |cs| == 0 then []
    else if cs[0] == command then WithoutCommand(cs[1..], command)
    else [cs[0]] + WithoutCommand(cs[1..], command)
  }

  /** enable_command: update_one with $pull and no upsert: the guild's first
      document loses every occurrence of the command and keeps the others;
      no document is added and no other document changes. */
  function EnableIn(docs: seq<DisabledDocument>, guild: Id, command: SubCommand): (r: seq<DisabledDocument>)
    ensures |r| == |docs|
    ensures forall j :: 0 <= j < |docs| ==> r[j].guild == docs[j].guild
    ensures forall j :: 0 <= j < |docs| && docs[j].guild != guild ==> r[j] == docs[j]
    ensures FindKey(docs, DisabledGuild, guild).None? ==> r == docs
    ensures FindKey(docs, DisabledGuild, guild).Some? ==>
      var k := FindKey(docs, DisabledGuild, guild).value;
      forall c :: c in r[k].commands <==> c in docs[k].commands && c != command
  {
    match FindKey(docs, DisabledGuild, guild)
    case None => docs
    case Some(i) => docs[i := docs[i].(commands := WithoutCommand(docs[i].commands, command))]
  }

  /** command_is_disabled: find_one({"guild_id": guild, "disabled_commands": command}). */
  function IsDisabledIn(docs: seq<DisabledDocument>, guild: Id, command: SubCommand): (b: bool)
    ensures b <==> exists i :: 0 <= i < |docs| && docs[i].guild == guild && command in docs[i].commands
  {
    if |docs| == 0 then false
    else if docs[0].guild == guild && command in docs[0].commands then true
    else
      assert forall i :: 1 <= i < |docs| ==> docs[i] == docs[1..][i - 1];
      IsDisabledIn(docs[1..], guild, command)
  }

  // ---------------------------------------------------------------------
  // Properties

  /** The upserts keep one document per guild. */
  lemma UpsertsKeepKeysUnique(docs: seq<LobbyDocument>, dis: seq<DisabledDocument>, guild: Id,
                              id: Id, entry: CloneEntry, command: SubCommand)
    ensures UniqueKeys(docs, LobbyGuild) ==> UniqueKeys(PushTemplate(docs, guild, id), LobbyGuild)
    ensures UniqueKeys(docs, LobbyGuild) ==> UniqueKeys(PushClone(docs, guild, entry), LobbyGuild)
    ensures UniqueKeys(dis, DisabledGuild) ==> UniqueKeys(DisableIn(dis, guild, command), DisabledGuild)
    ensures UniqueKeys(dis, DisabledGuild) ==> UniqueKeys(EnableIn(dis, guild, command), DisabledGuild)
  {
  }

  /** After disable_command the command is disabled in the guild, and no
      other (command, guild) pair changes. */
  lemma DisableDisables(docs: seq<DisabledDocument>, guild: Id, command: SubCommand)
    ensures IsDisabledIn(DisableIn(docs, guild, command), guild, command)
    ensures forall g: Id, c :: (g, c) != (guild, command) ==>
      IsDisabledIn(DisableIn(docs, guild, command), g, c) == IsDisabledIn(docs, g, c)
  {
    var r := DisableIn(docs, guild, command);
    match FindKey(docs, DisabledGuild, guild)
    case None =>
      assert r[|docs|].guild == guild && command in r[|docs|].commands;
      forall g: Id, c | (g, c) != (guild, command)
        ensures IsDisabledIn(r, g, c) == IsDisabledIn(docs, g, c)
      {
        if IsDisabledIn(docs, g, c) {
          var i :| 0 <= i < |docs| && docs[i].guild == g && c in docs[i].commands;
          assert r[i] == docs[i];
        }
      }
    case Some(k) =>
      assert command in r[k].commands;
      forall g: Id, c | (g, c) != (guild, command)
        ensures IsDisabledIn(r, g, c) == IsDisabledIn(docs, g, c)
      {
        if IsDisabledIn(docs, g, c) {
          var i :| 0 <= i < |docs| && docs[i].guild == g && c in docs[i].commands;
          assert c in r[i].commands;
        }
        if IsDisabledIn(r, g, c) {
          var i :| 0 <= i < |r| && r[i].guild == g && c in r[i].commands;
          if i == k {
            assert c in docs[k].commands || c == command;
          }
        }
      }
  }

  /** After enable_command the command is no longer disabled in the guild
      (every occurrence is pulled from the guild's one document), and no
      other (command, guild) pair changes. */
  lemma EnableEnables(docs: seq<DisabledDocument>, guild: Id, command: SubCommand)
    requires UniqueKeys(docs, DisabledGuild)
    ensures !IsDisabledIn(EnableIn(docs, guild, command), guild, command)
    ensures forall g: Id, c :: (g, c) != (guild, command) ==>
      IsDisabledIn(EnableIn(docs, guild, command), g, c) == IsDisabledIn(docs, g, c)
  {
    var r := EnableIn(docs, guild, command);
    match FindKey(docs, DisabledGuild, guild)
    case None =>
    case Some(k) =>
      assert forall i :: 0 <= i < |r| && i != k ==> DisabledGuild(docs[i]) != guild;
      forall g: Id, c | (g, c) != (guild, command)
        ensures IsDisabledIn(r, g, c) == IsDisabledIn(docs, g, c)
      {
        PullKeepsOtherPairs(docs, k, command, g, c);
      }
  }

  /** Pulling a command from one document changes command_is_disabled for no
      other guild and command pair. */
  lemma PullKeepsOtherPairs(docs: seq<DisabledDocument>, k: nat, command: SubCommand, g: Id, c: SubCommand)
    requires k < |docs| && (g, c) != (docs[k].guild, command)
    ensures IsDisabledIn(docs[k := docs[k].(commands := WithoutCommand(docs[k].commands, command))], g, c)
         == IsDisabledIn(docs, g, c)
  {
    var r := docs[k := docs[k].(commands := WithoutCommand(docs[k].commands, command))];
    if IsDisabledIn(docs, g, c) {
      var i :| 0 <= i < |docs| && docs[i].guild == g && c in docs[i].commands;
      assert c in r[i].commands;
    }
    if IsDisabledIn(r, g, c) {
      var i :| 0 <= i < |r| && r[i].guild == g && c in r[i].commands;
      assert c in docs[i].commands;
    }
  }

  /** After create_template's push the channel is a template; every template
      and every clone entry stays. */
  lemma PushTemplateRegisters(docs: seq<LobbyDocument>, guild: Id, id: Id)
    ensures HasTemplate(PushTemplate(docs, guild, id), id)
    ensures forall c :: HasTemplate(docs, c) ==> HasTemplate(PushTemplate(docs, guild, id), c)
    ensures forall c :: CloneDocument(PushTemplate(docs, guild, id), c) == CloneDocument(docs, c)
  {
    var r := PushTemplate(docs, guild, id);
    match FindKey(docs, LobbyGuild, guild)
    case None =>
      assert id in r[|docs|].templates;
      forall c | HasTemplate(docs, c) ensures HasTemplate(r, c) {
        var i :| 0 <= i < |docs| && c in docs[i].templates;
        assert r[i] == docs[i];
      }
      SameClonesAppended(docs, LobbyDocument(guild, [id], []));
    case Some(k) =>
      assert id in r[k].templates;
      forall c | HasTemplate(docs, c) ensures HasTemplate(r, c) {
        var i :| 0 <= i < |docs| && c in docs[i].templates;
        assert c in r[i].templates;
      }
      SameClonesUpdated(docs, k, r[k]);
  }

  /** After create_clone's push the channel is a clone, and when it was not
      one before, get_clone_document answers the pushed entry, whose owner is
      the member who joined. */
  lemma PushCloneRegisters(docs: seq<LobbyDocument>, guild: Id, entry: CloneEntry)
    ensures CloneDocument(PushClone(docs, guild, entry), entry.clone).Some?
    ensures CloneDocument(docs, entry.clone).None? ==>
      CloneDocument(PushClone(docs, guild, entry), entry.clone) == Some(entry)
    ensures forall c :: HasTemplate(PushClone(docs, guild, entry), c) == HasTemplate(docs, c)
  {
    var r := PushClone(docs, guild, entry);
    match FindKey(docs, LobbyGuild, guild)
    case None =>
      assert entry in r[|docs|].clones;
      assert ListsClone(r[|docs|], entry.clone);
      if CloneDocument(docs, entry.clone).None? {
        CloneDocumentAfterAppend(docs, LobbyDocument(guild, [], [entry]), entry.clone);
      }
      forall c ensures HasTemplate(r, c) == HasTemplate(docs, c) {
        if HasTemplate(r, c) {
          var i :| 0 <= i < |r| && c in r[i].templates;
          assert i < |docs|;
        }
        if HasTemplate(docs, c) {
          var i :| 0 <= i < |docs| && c in docs[i].templates;
          assert r[i] == docs[i];
        }
      }
    case Some(k) =>
      assert entry in r[k].clones;
      assert ListsClone(r[k], entry.clone);
      if CloneDocument(docs, entry.clone).None? {
        CloneDocumentAfterPush(docs, k, entry);
      }
      forall c ensures HasTemplate(r, c) == HasTemplate(docs, c) {
        if HasTemplate(r, c) {
          var i :| 0 <= i < |r| && c in r[i].templates;
          assert c in docs[i].templates;
        }
        if HasTemplate(docs, c) {
          var i :| 0 <= i < |docs| && c in docs[i].templates;
          assert c in r[i].templates;
        }
      }
  }

  lemma {:induction false} SameClonesAppended(docs: seq<LobbyDocument>, d: LobbyDocument)
    requires d.clones == []
    ensures forall c :: CloneDocument(docs + [d], c) == CloneDocument(docs, c)
  {
    if |docs| == 0 {
      assert forall c :: FindEntry(d.clones, c).None?;
    } else {
      SameClonesAppended(docs[1..], d);
      assert (docs + [d])[1..] == docs[1..] + [d];
    }
  }

  lemma {:induction false} SameClonesUpdated(docs: seq<LobbyDocument>, k: nat, d: LobbyDocument)
    requires k < |docs| && d.clones == docs[k].clones
    ensures forall c :: CloneDocument(docs[k := d], c) == CloneDocument(docs, c)
  {
    if k > 0 {
      SameClonesUpdated(docs[1..], k - 1, d);
      assert docs[k := d][1..] == docs[1..][k - 1 := d];
    }
  }

  lemma {:induction false} CloneDocumentAfterAppend(docs: seq<LobbyDocument>, d: LobbyDocument, channel: Id)
    requires CloneDocument(docs, channel).None?
    ensures CloneDocument(docs + [d], channel) == FindEntry(d.clones, channel)
  {
    if |docs| > 0 {
      CloneDocumentAfterAppend(docs[1..], d, channel);
      assert (docs + [d])[1..] == docs[1..] + [d];
    }
  }

  lemma {:induction false} CloneDocumentAfterPush(docs: seq<LobbyDocument>, k: nat, entry: CloneEntry)
    requires k < |docs| && CloneDocument(docs, entry.clone).None?
    ensures CloneDocument(docs[k := docs[k].(clones := docs[k].clones + [entry])], entry.clone) == Some(entry)
  {
    var d := docs[k].(clones := docs[k].clones + [entry]);
    if k == 0 {
      EntryAfterPush(docs[0].clones, entry);
    } else {
      CloneDocumentAfterPush(docs[1..], k - 1, entry);
      assert docs[k := d][1..] == docs[1..][k - 1 := d];
    }
  }

  lemma {:induction false} EntryAfterPush(es: seq<CloneEntry>, entry: CloneEntry)
    requires FindEntry(es, entry.clone).None?
    ensures FindEntry(es + [entry], entry.clone) == Some(entry)
  {
    if |es| > 0 {
      EntryAfterPush(es[1..], entry);
      assert (es + [entry])[1..] == es[1..] + [entry];
    }
  }

  /** The channel-delete pull: afterwards no document of the guild lists the
      id as a template or a clone, and documents of other guilds are as they were. */
  lemma PullChannelForgets(docs: seq<LobbyDocument>, guild: Id, channel: Id)
    ensures var r := PullClones(PullTemplates(docs, guild, {channel}), guild, {channel});
      |r| == |docs| &&
      (forall i :: 0 <= i < |r| && r[i].guild == guild ==>
         channel !in r[i].templates && !ListsClone(r[i], channel)) &&
      (forall i :: 0 <= i < |r| && docs[i].guild != guild ==> r[i] == docs[i])
  {
  }

  // ---------------------------------------------------------------------
  // The start-up sweep and the issued-id invariant

  /** The start-up sweep applied to every document. */
  function SweepAll(docs: seq<LobbyDocument>, live: set<Id>): (r: seq<LobbyDocument>)
    ensures |r| == |docs|
    ensures forall i :: 0 <= i < |r| ==> r[i].guild == docs[i].guild
  {
    seq(|docs|, i requires 0 <= i < |docs| => SweepDocument(docs[i], live))
  }

  /** Every channel id the document lists is below n. */
  predicate ListedBelow(d: LobbyDocument, n: nat) {
    (forall x :: x in d.templates ==> x < n) && (forall e :: e in d.clones ==> e.clone < n)
  }

  /** Every listed channel id was issued before the platform's next id. */
  predicate IdsIssued(docs: seq<LobbyDocument>, n: nat) {
    forall d :: d in docs ==> ListedBelow(d, n)
  }

  /** After the sweep a channel is still a template, or still a clone,
      exactly when it was one before and its channel still exists. */
  lemma SweepAllKeepsLive(docs: seq<LobbyDocument>, live: set<Id>, channel: Id)
    ensures HasTemplate(SweepAll(docs, live), channel) <==> HasTemplate(docs, channel) && channel in live
    ensures CloneDocument(SweepAll(docs, live), channel).Some? <==>
            CloneDocument(docs, channel).Some? && channel in live
  {
    var r := SweepAll(docs, live);
    if CloneDocument(docs, channel).Some? && channel in live {
      var i :| 0 <= i < |docs| && ListsClone(docs[i], channel);
      var e :| e in docs[i].clones && e.clone == channel;
      assert e in r[i].clones;
    }
    if CloneDocument(r, channel).Some? {
      var i :| 0 <= i < |r| && ListsClone(r[i], channel);
      var e :| e in r[i].clones && e.clone == channel;
      assert e in docs[i].clones;
    }
    if HasTemplate(docs, channel) && channel in live {
      var i :| 0 <= i < |docs| && channel in docs[i].templates;
      assert channel in r[i].templates;
    }
  }

  /** The sweep keeps one document per guild and lists no new id. */
  lemma SweepAllKeepsInvariant(docs: seq<LobbyDocument>, live: set<Id>, n: nat)
    ensures UniqueKeys(docs, LobbyGuild) ==> UniqueKeys(SweepAll(docs, live), LobbyGuild)
    ensures IdsIssued(docs, n) ==> IdsIssued(SweepAll(docs, live), n)
  {
    var r := SweepAll(docs, live);
    if IdsIssued(docs, n) {
      forall d | d in r ensures ListedBelow(d, n) {
        var i :| 0 <= i < |r| && r[i] == d;
        assert docs[i] in docs;
      }
    }
  }

  /** Pushing an id below n keeps the invariant. */
  lemma PushKeepsIssued(docs: seq<LobbyDocument>, guild: Id, id: Id, entry: CloneEntry, n: nat, m: nat)
    requires IdsIssued(docs, n) && n <= m
    ensures id < m ==> IdsIssued(PushTemplate(docs, guild, id), m)
    ensures entry.clone < m ==> IdsIssued(PushClone(docs, guild, entry), m)
  {
    forall d | d in docs ensures ListedBelow(d, m) {
      assert ListedBelow(d, n);
    }
    if id < m {
      var r := PushTemplate(docs, guild, id);
      forall d | d in r ensures ListedBelow(d, m) {
        var i :| 0 <= i < |r| && r[i] == d;
        if i < |docs| {
          assert docs[i] in docs;
        }
      }
    }
    if entry.clone < m {
      var r := PushClone(docs, guild, entry);
      forall d | d in r ensures ListedBelow(d, m) {
        var i :| 0 <= i < |r| && r[i] == d;
        if i < |docs| {
          assert docs[i] in docs;
        }
      }
    }
  }

  /** The channel-delete pull keeps one document per guild and lists no new id. */
  lemma PullKeepsInvariant(docs: seq<LobbyDocument>, guild: Id, gone: set<Id>, n: nat)
    ensures var r := PullClones(PullTemplates(docs, guild, gone), guild, gone);
      (UniqueKeys(docs, LobbyGuild) ==> UniqueKeys(r, LobbyGuild)) &&
      (IdsIssued(docs, n) ==> IdsIssued(r, n))
  {
    var r := PullClones(PullTemplates(docs, guild, gone), guild, gone);
    if IdsIssued(docs, n) {
      forall d | d in r ensures ListedBelow(d, n) {
        var i :| 0 <= i < |r| && r[i] == d;
        assert docs[i] in docs;
      }
    }
  }

  /** Dropping documents keeps the invariant. */
  lemma DropKeepsIssued(docs: seq<LobbyDocument>, gone: set<Id>, n: nat)
    requires IdsIssued(docs, n)
    ensures IdsIssued(DropKeys(docs, LobbyGuild, gone), n)
  {
  }

  /** An id not yet issued is listed neither as a template nor as a clone. */
  lemma FreshIdUnlisted(docs: seq<LobbyDocument>, n: nat)
    requires IdsIssued(docs, n)
    ensures !HasTemplate(docs, n) && CloneDocument(docs, n).None?
  {
    forall i | 0 <= i < |docs| ensures n !in docs[i].templates && !ListsClone(docs[i], n) {
      assert ListedBelow(docs[i], n) by {
        assert docs[i] in docs;
      }
    }
  }
}
