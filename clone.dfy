/** clone_channel (utils/channels.py and utils.py): create a voice channel in
    the template's guild whose every attribute is taken from the keyword
    override when one was given, and from the template otherwise. */
module ChannelCopy {
  import opened Common
  import opened Overwrites
  import opened ChatPlatform

  /** The keyword arguments clone_channel understands; None means the keyword
      was not passed.  region and category are themselves optional values,
      so passing region=None is distinguished from not passing region. */
  datatype CloneOverrides = CloneOverrides(
    name: Option<string>,
    position: Option<int>,
    userLimit: Option<nat>,
    bitrate: Option<nat>,
    videoQuality: Option<nat>,
    overwrites: Option<seq<Overwrite>>,
    region: Option<Option<string>>,
    category: Option<Option<Id>>)

  /** No keyword passed. */
  const NoOverrides := CloneOverrides(None, None, None, None, None, None, None, None)

  /** Only the name passed, as the lobby extensions call it. */
  function NameOnly(name: string): CloneOverrides {
    NoOverrides.(name := Some(name))
  }

  /** The channel clone_channel asks the platform to create. */
  function ClonedChannel(template: Channel, kw: CloneOverrides): (c: Channel)
    ensures c.guild == template.guild && c.isVoice
  {
    Channel(
      template.guild,
      kw.name.GetOr(template.name),
      true,
      VoiceSettings(
        kw.position.GetOr(template.settings.position),
        kw.userLimit.GetOr(template.settings.userLimit),
        kw.bitrate.GetOr(template.settings.bitrate),
        kw.videoQuality.GetOr(template.settings.videoQuality),
        kw.region.GetOr(template.settings.region)),
      kw.overwrites.GetOr(template.overwrites),
      kw.category.GetOr(template.category))
  }

  /** clone_channel: create the cloned channel under a fresh id. */
  function CloneChannel(p: Platform, template: Channel, kw: CloneOverrides): (r: (Platform, Id))
    ensures r.1 == p.nextId && r.0.channels == p.channels[r.1 := ClonedChannel(template, kw)]
    ensures r.0.voice == p.voice
    ensures Valid(p) ==> r.1 !in p.channels && Valid(r.0)
  {
    CreateChannel(p, ClonedChannel(template, kw))
  }

  /** Every attribute passed as a keyword is the clone's. */
  lemma OverridesWin(template: Channel, kw: CloneOverrides)
    ensures var c := ClonedChannel(template, kw);
      (kw.name.Some? ==> c.name == kw.name.value) &&
      (kw.position.Some? ==> c.settings.position == kw.position.value) &&
      (kw.userLimit.Some? ==> c.settings.userLimit == kw.userLimit.value) &&
      (kw.bitrate.Some? ==> c.settings.bitrate == kw.bitrate.value) &&
      (kw.videoQuality.Some? ==> c.settings.videoQuality == kw.videoQuality.value) &&
      (kw.overwrites.Some? ==> c.overwrites == kw.overwrites.value) &&
      (kw.region.Some? ==> c.settings.region == kw.region.value) &&
      (kw.category.Some? ==> c.category == kw.category.value)
  {
  }

  /** Every attribute not passed is the template's: the name, the settings,
      the overwrite list and the parent category. */
  lemma DefaultsFromTemplate(template: Channel, kw: CloneOverrides)
    ensures var c := ClonedChannel(template, kw);
      (kw.name.None? ==> c.name == template.name) &&
      (kw.position.None? ==> c.settings.position == template.settings.position) &&
      (kw.userLimit.None? ==> c.settings.userLimit == template.settings.userLimit) &&
      (kw.bitrate.None? ==> c.settings.bitrate == template.settings.bitrate) &&
      (kw.videoQuality.None? ==> c.settings.videoQuality == template.settings.videoQuality) &&
      (kw.overwrites.None? ==> c.overwrites == template.overwrites) &&
      (kw.region.None? ==> c.settings.region == template.settings.region) &&
      (kw.category.None? ==> c.category == template.category)
  {
  }

  /** With no keyword a voice template is copied exactly; with only a name,
      the copy differs from the template in its name alone. */
  lemma CloneOfVoiceTemplate(template: Channel, name: string)
    requires template.isVoice
    ensures ClonedChannel(template, NoOverrides) == template
    ensures ClonedChannel(template, NameOnly(name)) == template.(name := name)
  {
  }
}
