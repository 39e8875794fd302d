/**
  `loadCharacter` once the YAML file has been read and parsed: check the two
  required sections, fill a default for every optional field, and rewrap any
  error with the character's name. Reading and parsing are the oracle
  `readConfig`, given the configuration path.
*/
module Characters {
  import opened Wrappers

  datatype ContentTypes = ContentTypes(text: bool, polls: bool, threads: bool, spaces: bool)

  datatype Tokenomics = Tokenomics(
    isMintable: bool, isBurnable: bool, isPausable: bool, totalSupply: string,
    circulatingSupply: Option<string>, marketCap: Option<string>, price: Option<string>)

  datatype Metadata = Metadata(website: string, telegram: string, discord: string, chain: string,
                               contractAddress: string)

  datatype TeamMember = TeamMember(name: string, role: string, socials: map<string, string>)

  datatype RoadmapItem = RoadmapItem(title: string, description: string, date: string, completed: bool)

  /** The YAML `communication_rules` section; `None` is a key that is absent. */
  datatype RawCommunicationRules = RawCommunicationRules(
    rules: Option<seq<string>>,
    wordsToAvoid: Option<seq<string>>,       // words_to_avoid
    allowedTopics: Option<seq<string>>,      // allowed_topics
    bannedTopics: Option<seq<string>>,       // banned_topics
    moderationLevel: Option<string>,         // moderation_level
    languagePreference: Option<string>)      // language_preference

  /** The YAML `twitter_profile` section. */
  datatype RawTwitterProfile = RawTwitterProfile(
    username: Option<string>,
    trendFocus: Option<seq<string>>,         // trend_focus
    contentFocus: Option<seq<string>>,       // content_focus
    engagementCriteria: Option<seq<string>>, // engagement_criteria
    replyStyle: Option<seq<string>>,         // reply_style
    contentTypes: Option<ContentTypes>,      // content_types
    postFrequency: Option<string>,           // post_frequency
    tone: Option<string>)

  /** What `load(yamlContent)` yields for a character file. */
  datatype RawCharacterConfig = RawCharacterConfig(
    name: Option<string>,
    description: Option<string>,
    personality: Option<seq<string>>,
    expertise: Option<seq<string>>,
    communicationRules: Option<RawCommunicationRules>, // communication_rules
    twitterProfile: Option<RawTwitterProfile>,         // twitter_profile
    tokenomics: Option<Tokenomics>,
    metadata: Option<Metadata>,
    team: Option<seq<TeamMember>>,
    roadmap: Option<seq<RoadmapItem>>)

  datatype CommunicationRules = CommunicationRules(
    rules: seq<string>, wordsToAvoid: seq<string>, allowedTopics: seq<string>, bannedTopics: seq<string>,
    moderationLevel: string, languagePreference: string)

  datatype TwitterProfile = TwitterProfile(
    username: Option<string>, trendFocus: seq<string>, contentFocus: seq<string>,
    engagementCriteria: seq<string>, replyStyle: seq<string>, contentTypes: ContentTypes,
    postFrequency: string, tone: string)

  /** The loaded character. `name`, `description` and the username are copied as found, possibly absent. */
  datatype Character = Character(
    name: Option<string>,
    description: Option<string>,
    characterPath: string,
    personality: seq<string>,
    expertise: seq<string>,
    communicationRules: CommunicationRules,
    twitterProfile: TwitterProfile,
    tokenomics: Tokenomics,
    metadata: Metadata,
    team: seq<TeamMember>,
    roadmap: seq<RoadmapItem>)

  const MissingCommunicationRules := "Missing communication_rules in character config"
  const MissingTwitterProfile := "Missing twitter_profile in character config"
  /** The `TypeError` message for an empty YAML document, which `load` turns into `undefined`. */
  const EmptyConfig := "Cannot read properties of undefined (reading 'communication_rules')"

  const DefaultModerationLevel := "medium"
  const DefaultLanguagePreference := "english"
  const DefaultPostFrequency := "regular"
  const DefaultTone := "positive"
  const DefaultContentTypes := ContentTypes(text := true, polls := false, threads := true, spaces := false)
  const DefaultTokenomics := Tokenomics(false, false, false, "0", None, None, None)
  const DefaultMetadata := Metadata("", "", "", "", "")

  /** `list || []`: a present list is kept as it is. */
  function ListOr<T>(list: Option<seq<T>>): (r: seq<T>)
    ensures list.Some? ==> r == list.value
    ensures list.None? ==> r == []
  {
    list.GetOr([])
  }

  /** `s || d` on a string: an absent or empty string takes the default. */
  function StringOr(s: Option<string>, d: string): (r: string)
    ensures s.Some? && s.value != "" ==> r == s.value
    ensures s.None? || s == Some("") ==> r == d
  {
    if s.Some? && s.value != "" then s.value else d
  }

  /** `join(cwd, 'characters', name)`, without `path.join`'s normalisation. */
  function CharacterPath(cwd: string, characterName: string): (path: string)
    ensures cwd + "/characters/" <= path
    ensures path[|cwd| + 12..] == characterName
  {
    cwd + "/characters/" + characterName
  }

  /** `join(characterPath, 'config', name + '.yaml')`. */
  function ConfigPath(cwd: string, characterName: string): (path: string)
    ensures CharacterPath(cwd, characterName) + "/config/" <= path
    ensures path == CharacterPath(cwd, characterName) + "/config/" + characterName + ".yaml"
  {
    CharacterPath(cwd, characterName) + "/config/" + characterName + ".yaml"
  }

  /** The message `loadCharacter` throws for any error met while loading. */
  function LoadFailure(characterName: string, message: string): (m: string)
    ensures |m| == 37 + |characterName| + 3 + |message|
    ensures "Failed to load character config for '" <= m
    ensures m[37..37 + |characterName|] == characterName
    ensures m[|m| - |message|..] == message
  {
    "Failed to load character config for '" + characterName + "': " + message
  }

  /**
    The validation and defaults applied to a parsed config: it fails exactly
    when `communication_rules` or `twitter_profile` is missing (checked in that
    order); otherwise every list defaults to `[]`, the four strings to their
    defaults, and the three optional sections to their default objects.
  */
  function NormalizeCharacter(raw: RawCharacterConfig, characterPath: string): (r: Result<Character, string>)
    ensures raw.communicationRules.None? ==> r == Err(MissingCommunicationRules)
    ensures raw.communicationRules.Some? && raw.twitterProfile.None? ==> r == Err(MissingTwitterProfile)
    ensures r.Ok? <==> raw.communicationRules.Some? && raw.twitterProfile.Some?
    ensures r.Ok? ==>
              var c := r.value;
              var rules := raw.communicationRules.value;
              var profile := raw.twitterProfile.value;
              && c.name == raw.name && c.description == raw.description
              && c.characterPath == characterPath
              && c.personality == ListOr(raw.personality) && c.expertise == ListOr(raw.expertise)
              && c.communicationRules.rules == ListOr(rules.rules)
              && c.communicationRules.wordsToAvoid == ListOr(rules.wordsToAvoid)
              && c.communicationRules.allowedTopics == ListOr(rules.allowedTopics)
              && c.communicationRules.bannedTopics == ListOr(rules.bannedTopics)
              && c.communicationRules.moderationLevel == StringOr(rules.moderationLevel, DefaultModerationLevel)
              && c.communicationRules.languagePreference == StringOr(rules.languagePreference, DefaultLanguagePreference)
              && c.twitterProfile.username == profile.username
              && c.twitterProfile.trendFocus == ListOr(profile.trendFocus)
              && c.twitterProfile.contentFocus == ListOr(profile.contentFocus)
              && c.twitterProfile.engagementCriteria == ListOr(profile.engagementCriteria)
              && c.twitterProfile.replyStyle == ListOr(profile.replyStyle)
              && c.twitterProfile.contentTypes == profile.contentTypes.GetOr(DefaultContentTypes)
              && c.twitterProfile.postFrequency == StringOr(profile.postFrequency, DefaultPostFrequency)
              && c.twitterProfile.tone == StringOr(profile.tone, DefaultTone)
              && c.tokenomics == raw.tokenomics.GetOr(DefaultTokenomics)
              && c.metadata == raw.metadata.GetOr(DefaultMetadata)
              && c.team == ListOr(raw.team) && c.roadmap == ListOr(raw.roadmap)
  {
    if raw.communicationRules.None? then Err(MissingCommunicationRules)
    else if raw.twitterProfile.None? then Err(MissingTwitterProfile)
    else
      var rules := raw.communicationRules.value;
      var profile := raw.twitterProfile.value;
      Ok(Character(
        name := raw.name,
        description := raw.description,
        characterPath := characterPath,
        personality := ListOr(raw.personality),
        expertise := ListOr(raw.expertise),
        communicationRules := CommunicationRules(
          rules := ListOr(rules.rules),
          wordsToAvoid := ListOr(rules.wordsToAvoid),
          allowedTopics := ListOr(rules.allowedTopics),
          bannedTopics := ListOr(rules.bannedTopics),
          moderationLevel := StringOr(rules.moderationLevel, DefaultModerationLevel),
          languagePreference := StringOr(rules.languagePreference, DefaultLanguagePreference)),
        twitterProfile := TwitterProfile(
          username := profile.username,
          trendFocus := ListOr(profile.trendFocus),
          contentFocus := ListOr(profile.contentFocus),
          engagementCriteria := ListOr(profile.engagementCriteria),
          replyStyle := ListOr(profile.replyStyle),
          contentTypes := profile.contentTypes.GetOr(DefaultContentTypes),
          postFrequency := StringOr(profile.postFrequency, DefaultPostFrequency),
          tone := StringOr(profile.tone, DefaultTone)),
        tokenomics := raw.tokenomics.GetOr(DefaultTokenomics),
        metadata := raw.metadata.GetOr(DefaultMetadata),
        team := ListOr(raw.team),
        roadmap := ListOr(raw.roadmap)))
  }

  /**
    `loadCharacter(characterName)`, with `readConfig(path)` standing for
    `load(readFileSync(path, 'utf8'))`: `Err(message)` when the read or the
    parse throws, `Ok(None)` for an empty document. Every failure comes back
    as `LoadFailure(characterName, message)`.
  */
  function LoadCharacter(cwd: string, characterName: string,
                         readConfig: string -> Result<Option<RawCharacterConfig>, string>)
    : (r: Result<Character, string>)
    ensures var loaded := readConfig(ConfigPath(cwd, characterName));
            && (loaded.Err? ==> r == Err(LoadFailure(characterName, loaded.error)))
            && (loaded == Ok(None) ==> r == Err(LoadFailure(characterName, EmptyConfig)))
            && (loaded.Ok? && loaded.value.Some? ==>
                  var n := NormalizeCharacter(loaded.value.value, CharacterPath(cwd, characterName));
                  && (n.Ok? ==> r == n)
                  && (n.Err? ==> r == Err(LoadFailure(characterName, n.error))))
    ensures r.Ok? ==> r.value.characterPath == CharacterPath(cwd, characterName)
  {
    var characterPath := CharacterPath(cwd, characterName);
    match readConfig(ConfigPath(cwd, characterName))
    case Err(message) => Err(LoadFailure(characterName, message))
    case Ok(None) => Err(LoadFailure(characterName, EmptyConfig))
    case Ok(Some(raw)) =>
      match NormalizeCharacter(raw, characterPath)
      case Err(message) => Err(LoadFailure(characterName, message))
      case Ok(character) => Ok(character)
  }

  /** The raw config that spells out every field of a loaded character. */
  function ToRaw(c: Character): RawCharacterConfig {
    RawCharacterConfig(
      c.name, c.description, Some(c.personality), Some(c.expertise),
      Some(RawCommunicationRules(
        Some(c.communicationRules.rules), Some(c.communicationRules.wordsToAvoid),
        Some(c.communicationRules.allowedTopics), Some(c.communicationRules.bannedTopics),
        Some(c.communicationRules.moderationLevel), Some(c.communicationRules.languagePreference))),
      Some(RawTwitterProfile(
        c.twitterProfile.username, Some(c.twitterProfile.trendFocus), Some(c.twitterProfile.contentFocus),
        Some(c.twitterProfile.engagementCriteria), Some(c.twitterProfile.replyStyle),
        Some(c.twitterProfile.contentTypes), Some(c.twitterProfile.postFrequency), Some(c.twitterProfile.tone))),
      Some(c.tokenomics), Some(c.metadata), Some(c.team), Some(c.roadmap))
  }

  /** A character whose four defaulted strings are non-empty, as every loaded character's are. */
  predicate Normalized(c: Character) {
    && c.communicationRules.moderationLevel != ""
    && c.communicationRules.languagePreference != ""
    && c.twitterProfile.postFrequency != ""
    && c.twitterProfile.tone != ""
  }

  /** Normalising writes nothing over a fully spelled-out character: `ToRaw` is its inverse. */
  lemma NormalizeToRaw(c: Character)
    requires Normalized(c)
    ensures NormalizeCharacter(ToRaw(c), c.characterPath) == Ok(c)
  {
  }

  /** Every loaded character is normalised, so loading its own spelled-out config gives it back unchanged. */
  lemma NormalizeIdempotent(raw: RawCharacterConfig, characterPath: string)
    requires NormalizeCharacter(raw, characterPath).Ok?
    ensures Normalized(NormalizeCharacter(raw, characterPath).value)
    ensures NormalizeCharacter(ToRaw(NormalizeCharacter(raw, characterPath).value), characterPath)
            == NormalizeCharacter(raw, characterPath)
  {
    NormalizeToRaw(NormalizeCharacter(raw, characterPath).value);
  }

  /** A config that leaves every optional field out yields exactly the documented defaults. */
  lemma AllDefaults(name: Option<string>, description: Option<string>, username: Option<string>, characterPath: string)
    ensures var raw := RawCharacterConfig(
              name, description, None, None,
              Some(RawCommunicationRules(None, None, None, None, None, None)),
              Some(RawTwitterProfile(username, None, None, None, None, None, None, None)),
              None, None, None, None);
            NormalizeCharacter(raw, characterPath) == Ok(Character(
              name, description, characterPath, [], [],
              CommunicationRules([], [], [], [], "medium", "english"),
              TwitterProfile(username, [], [], [], [], ContentTypes(true, false, true, false), "regular", "positive"),
              Tokenomics(false, false, false, "0", None, None, None),
              Metadata("", "", "", "", ""),
              [], []))
  {
  }
}
