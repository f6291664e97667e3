/**
 * The per-player decision engine. A PlayerServer holds the session a game start assigns
 * (game id, player id, role, teammates) and answers speak, vote and night-ability requests.
 * Without a role, or without a usable credential, speak and vote answer with fixed
 * placeholders and the night ability fails; otherwise the engine builds the prompt, picks the
 * response schema and asks the language model, whose answer must pass that schema.
 */
module Engine {
  import opened Wrappers
  import opened Types
  import opened JsText
  import opened Prompts

  /** A structured-generation call: model, credential, schema, prompt and sampling limits. */
  datatype GenerationRequest = GenerationRequest(
    model: string,
    apiKey: string,
    schema: Schema,
    prompt: string,
    maxOutputTokens: int,
    temperature: real)

  /**
   * What the engine needs from outside its own code: the process-wide fallback credential,
   * the personality catalogue, and the model call, which returns the model's raw JSON object
   * or the text of a transport failure.
   */
  datatype Host = Host(
    envApiKey: Option<string>,
    describePersonality: string -> string,
    generate: GenerationRequest -> Result<JsonObject, string>)

  datatype GenerationCause = BackendFailure(detail: string) | SchemaMismatch(answer: JsonObject)

  /** The errors a player raises. */
  datatype PlayerError =
    | RoleNotAssigned
    | NoCredential
    | VillagerHasNoNightAction
    | UnknownRole(role: string)
    | GenerationFailure(cause: GenerationCause)

  const NoRoleSpeech: string := "我还没有确定自己的角色。"
  const NoCredentialSpeech: string := "我需要仔细思考一下当前的情况。"
  const NoRoleVote: VotingResponse := VotingResponse(1, "角色未设置，默认投票")
  const NoCredentialVote: VotingResponse := VotingResponse(1, "API密钥未配置，默认投票")
  const LastWordsLine: string := "很遗憾要离开游戏了，希望好人阵营能够获胜！"

  /** The configured key when it is non-empty, else the process-wide one. */
  function ResolveApiKey(configKey: string, envKey: Option<string>): (key: Option<string>)
    ensures configKey != "" ==> key == Some(configKey)
    ensures configKey == "" ==> key == envKey
  {
    if configKey != "" then Some(configKey) else envKey
  }

  /**
   * No usable credential: the resolved key is absent or blank. A configured key made only of
   * white space is not replaced by the process-wide key; it makes the credential missing.
   */
  function CredentialMissing(configKey: string, envKey: Option<string>): (missing: bool)
    ensures missing <==>
      if configKey == "" then envKey.None? || forall i :: 0 <= i < |envKey.value| ==> IsJsWhitespace(envKey.value[i])
      else forall i :: 0 <= i < |configKey| ==> IsJsWhitespace(configKey[i])
  {
    var key := ResolveApiKey(configKey, envKey);
    key.None? || Trim(key.value) == ""
  }

  /** The night-action schema registry, keyed by the role's name; only Werewolf, Seer and Witch have one. */
  function SchemaFor(roleName: string): (schema: Option<NightSchema>)
    ensures schema.Some? <==> roleName in {"werewolf", "seer", "witch"}
    ensures roleName == "werewolf" ==> schema == Some(WerewolfNightActionSchema)
    ensures roleName == "seer" ==> schema == Some(SeerNightActionSchema)
    ensures roleName == "witch" ==> schema == Some(WitchNightActionSchema)
  {
    match ParseRole(roleName)
    case Some(Werewolf) => Some(WerewolfNightActionSchema)
    case Some(Seer) => Some(SeerNightActionSchema)
    case Some(Witch) => Some(WitchNightActionSchema)
    case _ => None
  }

  /** A speech from the model; a transport failure or an answer without a `speech` string fails. */
  function GenerateSpeech(host: Host, req: GenerationRequest): (r: Result<string, PlayerError>)
    ensures r.Err? ==> r.error.GenerationFailure?
    ensures host.generate(req).Err? ==> r == Err(GenerationFailure(BackendFailure(host.generate(req).error)))
    ensures r.Ok? <==> host.generate(req).Ok? && ValidateSpeech(host.generate(req).value).Some?
    ensures r.Ok? ==> ValidateSpeech(host.generate(req).value) == Some(SpeechResponse(r.value))
    ensures host.generate(req).Ok? && ValidateSpeech(host.generate(req).value).None? ==>
      r == Err(GenerationFailure(SchemaMismatch(host.generate(req).value)))
  {
    match host.generate(req)
    case Err(detail) => Err(GenerationFailure(BackendFailure(detail)))
    case Ok(answer) =>
      match ValidateSpeech(answer)
      case Some(speech) => Ok(speech.speech)
      case None => Err(GenerationFailure(SchemaMismatch(answer)))
  }

  /** A vote from the model, under the same failure rules. */
  function GenerateVote(host: Host, req: GenerationRequest): (r: Result<VotingResponse, PlayerError>)
    ensures r.Err? ==> r.error.GenerationFailure?
    ensures host.generate(req).Err? ==> r == Err(GenerationFailure(BackendFailure(host.generate(req).error)))
    ensures r.Ok? <==> host.generate(req).Ok? && ValidateVote(host.generate(req).value).Some?
    ensures r.Ok? ==> ValidateVote(host.generate(req).value) == Some(r.value)
    ensures host.generate(req).Ok? && ValidateVote(host.generate(req).value).None? ==>
      r == Err(GenerationFailure(SchemaMismatch(host.generate(req).value)))
  {
    match host.generate(req)
    case Err(detail) => Err(GenerationFailure(BackendFailure(detail)))
    case Ok(answer) =>
      match ValidateVote(answer)
      case Some(vote) => Ok(vote)
      case None => Err(GenerationFailure(SchemaMismatch(answer)))
  }

  /** A night action from the model; a success always has the shape of the requested schema. */
  function GenerateNightAction(host: Host, schema: NightSchema, req: GenerationRequest): (r: Result<NightAction, PlayerError>)
    ensures r.Err? ==> r.error.GenerationFailure?
    ensures host.generate(req).Err? ==> r == Err(GenerationFailure(BackendFailure(host.generate(req).error)))
    ensures r.Ok? ==> SchemaOf(r.value) == schema
    ensures r.Ok? <==> host.generate(req).Ok? && ValidateNight(schema, host.generate(req).value).Some?
    ensures r.Ok? ==> ValidateNight(schema, host.generate(req).value) == Some(r.value)
    ensures host.generate(req).Ok? && ValidateNight(schema, host.generate(req).value).None? ==>
      r == Err(GenerationFailure(SchemaMismatch(host.generate(req).value)))
  {
    match host.generate(req)
    case Err(detail) => Err(GenerationFailure(BackendFailure(detail)))
    case Ok(answer) =>
      match ValidateNight(schema, answer)
      case Some(action) => Ok(action)
      case None => Err(GenerationFailure(SchemaMismatch(answer)))
  }

  /** What `getStatus` reports. */
  datatype Status = Status(
    gameId: Option<string>,
    playerId: Option<int>,
    role: Option<string>,
    teammates: Option<seq<int>>,
    isAlive: bool,
    personality: string)

  class PlayerServer {
    var gameId: Option<string>
    var playerId: Option<int>
    var role: Option<string>
    var teammates: Option<seq<int>>
    const config: PlayerConfig

    /** A player with a configuration and no session yet. */
    constructor (config: PlayerConfig)
      ensures this.config == config
      ensures Identity() == Session(None, None, None, None)
    {
      this.config := config;
      gameId, playerId, role, teammates := None, None, None, None;
    }

    function Identity(): Session
      reads this
    {
      Session(gameId, playerId, role, teammates)
    }

    /** A role is set: present and non-empty. */
    predicate HasRole()
      reads this
    {
      role.Some? && role.value != ""
    }

    /** Assigns the whole session from the start parameters; nothing of an earlier session survives. */
    method StartGame(params: StartGameParams)
      modifies this
      ensures Identity() == Session(Some(params.gameId), Some(params.playerId), Some(params.role), params.teammates)
    {
      gameId := Some(params.gameId);
      role := Some(params.role);
      teammates := params.teammates;
      playerId := Some(params.playerId);
    }

    /** The session's role as the last game start set it; unset before any start. */
    function GetRole(): (r: Option<string>)
      reads this
      ensures r == Identity().role
    {
      role
    }

    /** The session's playerId as the last game start set it; unset before any start. */
    function GetPlayerId(): (r: Option<int>)
      reads this
      ensures r == Identity().playerId
    {
      playerId
    }

    /** The session's teammates as the last game start set it; unset before any start. */
    function GetTeammates(): (r: Option<seq<int>>)
      reads this
      ensures r == Identity().teammates
    {
      teammates
    }

    /** The session's gameId as the last game start set it; unset before any start. */
    function GetGameId(): (r: Option<string>)
      reads this
      ensures r == Identity().gameId
    {
      gameId
    }

    /** The personality preamble of this player's configuration; empty exactly when no personality is set. */
    function GetPersonalityPrompt(describe: string -> string): (r: string)
      ensures r == "" <==> config.game.personality == ""
      ensures r != "" ==> r == describe(PersonalityType(config.game.strategy)) + "\n\n"
    {
      PersonalityPrompt(config, describe)
    }

    /** The request for a prompt under a schema, with this player's model, credential and limits. */
    function Request(host: Host, schema: Schema, prompt: string): (req: GenerationRequest)
      requires !CredentialMissing(config.ai.apiKey, host.envApiKey)
      ensures req.schema == schema && req.prompt == prompt && req.model == config.ai.model
      ensures req.apiKey == ResolveApiKey(config.ai.apiKey, host.envApiKey).value
    {
      GenerationRequest(config.ai.model, ResolveApiKey(config.ai.apiKey, host.envApiKey).value, schema, prompt,
                        config.ai.maxTokens, config.ai.temperature)
    }

    /** A spoken statement; the role check comes first, then the credential check, and only then the model. */
    method Speak(ctx: PlayerContext, host: Host) returns (r: Result<string, PlayerError>)
      ensures !HasRole() ==> r == Ok(NoRoleSpeech)
      ensures HasRole() && CredentialMissing(config.ai.apiKey, host.envApiKey) ==> r == Ok(NoCredentialSpeech)
      ensures HasRole() && !CredentialMissing(config.ai.apiKey, host.envApiKey) ==>
        r == GenerateSpeech(host, Request(host, SpeechResponseSchema, SpeechPrompt(Identity(), config, host.describePersonality, ctx)))
      ensures r.Err? ==> r.error.GenerationFailure?
    {
      if !HasRole() {
        return Ok(NoRoleSpeech);
      }
      if CredentialMissing(config.ai.apiKey, host.envApiKey) {
        return Ok(NoCredentialSpeech);
      }
      var prompt := SpeechPrompt(Identity(), config, host.describePersonality, ctx);
      r := GenerateSpeech(host, Request(host, SpeechResponseSchema, prompt));
    }

    /** A vote; without a role or a credential, a vote for player 1 that gives the reason. */
    method Vote(ctx: PlayerContext, host: Host) returns (r: Result<VotingResponse, PlayerError>)
      ensures !HasRole() ==> r == Ok(NoRoleVote)
      ensures HasRole() && CredentialMissing(config.ai.apiKey, host.envApiKey) ==> r == Ok(NoCredentialVote)
      ensures HasRole() && !CredentialMissing(config.ai.apiKey, host.envApiKey) ==>
        r == GenerateVote(host, Request(host, VotingResponseSchema, VotePrompt(Identity(), config, host.describePersonality, ctx)))
      ensures r.Err? ==> r.error.GenerationFailure?
    {
      if !HasRole() {
        return Ok(NoRoleVote);
      }
      if CredentialMissing(config.ai.apiKey, host.envApiKey) {
        return Ok(NoCredentialVote);
      }
      var prompt := VotePrompt(Identity(), config, host.describePersonality, ctx);
      r := GenerateVote(host, Request(host, VotingResponseSchema, prompt));
    }

    /**
     * The night ability. Every failure surfaces: no role, no credential, a Villager, a role
     * without a schema, or a failed generation. A success has the shape of the role's schema.
     */
    method UseAbility(actx: AbilityContext, host: Host) returns (r: Result<NightAction, PlayerError>)
      ensures !HasRole() ==> r == Err(RoleNotAssigned)
      ensures HasRole() && CredentialMissing(config.ai.apiKey, host.envApiKey) ==> r == Err(NoCredential)
      ensures HasRole() && !CredentialMissing(config.ai.apiKey, host.envApiKey) && role.value == "villager" ==>
        r == Err(VillagerHasNoNightAction)
      ensures HasRole() && !CredentialMissing(config.ai.apiKey, host.envApiKey) ==>
        role.value != "villager" && SchemaFor(role.value).None? ==> r == Err(UnknownRole(role.value))
      ensures HasRole() && !CredentialMissing(config.ai.apiKey, host.envApiKey) && SchemaFor(role.value).Some? ==>
        r == GenerateNightAction(host, SchemaFor(role.value).value,
               Request(host, NightActionSchema(SchemaFor(role.value).value),
                       AbilityPrompt(Identity(), config, host.describePersonality, actx)))
      ensures r.Ok? ==> role.Some? && SchemaFor(role.value) == Some(SchemaOf(r.value))
      ensures r.Ok? && role == Some("werewolf") ==> r.value.Action() == "kill"
      ensures r.Ok? && role == Some("seer") ==> r.value.Action() == "investigate"
      ensures r.Ok? && role == Some("witch") ==> r.value.Action() in {"use_antidote", "use_poison", "skip"}
    {
      if !HasRole() {
        return Err(RoleNotAssigned);
      }
      if CredentialMissing(config.ai.apiKey, host.envApiKey) {
        return Err(NoCredential);
      }
      if role.value == RoleName(Villager) {
        return Err(VillagerHasNoNightAction);
      }
      var schema := SchemaFor(role.value);
      if schema.None? {
        return Err(UnknownRole(role.value));
      }
      var prompt := AbilityPrompt(Identity(), config, host.describePersonality, actx);
      r := GenerateNightAction(host, schema.value, Request(host, NightActionSchema(schema.value), prompt));
      if r.Ok? {
        ActionNamesShape(r.value);
      }
    }

    /** The farewell line; it reads no state and calls no model. */
    function LastWords(): (words: string)
      ensures words == LastWordsLine
    {
      LastWordsLine
    }

    /** The session, reported as alive, with the configured personality. */
    function GetStatus(): (st: Status)
      reads this
      ensures st.isAlive
      ensures Session(st.gameId, st.playerId, st.role, st.teammates) == Identity()
      ensures st.personality == config.game.personality
    {
      Status(gameId, playerId, role, teammates, true, config.game.personality)
    }
  }
}
