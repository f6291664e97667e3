/**
 * The shared vocabulary of the player service: roles, game phases, the game-state snapshot a
 * caller hands to a player, the parameters of a game start, the player configuration, and the
 * structured responses a language model must return. The response schemas are checked on a
 * JSON object (the model's raw answer) by the Validate functions below, which play the part of
 * the schema validation that happens inside structured generation.
 */
module Types {
  import opened Wrappers

  /** The four roles; the wire form of each is its lower-case name. */
  datatype Role = Werewolf | Villager | Seer | Witch

  function RoleName(r: Role): string {
    match r
    case Werewolf => "werewolf"
    case Villager => "villager"
    case Seer => "seer"
    case Witch => "witch"
  }

  /** The role whose wire form is exactly `s`, if any. */
  function ParseRole(s: string): (r: Option<Role>)
    ensures r.Some? <==> s in {"werewolf", "villager", "seer", "witch"}
    ensures r.Some? ==> RoleName(r.value) == s
  {
    if s == "werewolf" then Some(Werewolf)
    else if s == "villager" then Some(Villager)
    else if s == "seer" then Some(Seer)
    else if s == "witch" then Some(Witch)
    else None
  }

  /** Every role is recognised from its own name, so the four names are pairwise distinct. */
  lemma ParseRoleName(r: Role)
    ensures ParseRole(RoleName(r)) == Some(r)
  {
  }

  datatype GamePhase = Waiting | Day | Night | Ended

  function PhaseName(p: GamePhase): string {
    match p
    case Waiting => "waiting"
    case Day => "day"
    case Night => "night"
    case Ended => "ended"
  }

  function ParsePhase(s: string): (r: Option<GamePhase>)
    ensures r.Some? <==> s in {"waiting", "day", "night", "ended"}
    ensures r.Some? ==> PhaseName(r.value) == s
  {
    if s == "waiting" then Some(Waiting)
    else if s == "day" then Some(Day)
    else if s == "night" then Some(Night)
    else if s == "ended" then Some(Ended)
    else None
  }

  lemma ParsePhaseName(p: GamePhase)
    ensures ParsePhase(PhaseName(p)) == Some(p)
  {
  }

  /** One line of the discussion history. */
  datatype Utterance = Utterance(playerId: int, message: string)

  /** The game-state snapshot a caller supplies with every request. */
  datatype PlayerContext = PlayerContext(
    gameId: string,
    playerId: int,
    phase: GamePhase,
    day: int,
    alivePlayers: seq<int>,
    deadPlayers: seq<int>,
    lastNightDeaths: seq<int>,
    discussionHistory: seq<Utterance>,
    votes: Option<map<int, int>>)

  /** One Seer investigation: who was checked and whether they are on the good side. */
  datatype Investigation = Investigation(target: int, isGood: bool)

  /**
   * The context of an ability request: a plain snapshot, or one extended with the Witch's
   * potion state, or with the Seer's investigations (keyed by round).
   */
  datatype AbilityContext =
    | PlainContext(ctx: PlayerContext)
    | WitchContext(ctx: PlayerContext, hasUsedPoison: bool, hasUsedAntidote: bool, lastNightKill: Option<int>)
    | SeerContext(ctx: PlayerContext, investigatedPlayers: map<int, Investigation>)

  /** What a game start assigns to a player; `role` is free text on the wire. */
  datatype StartGameParams = StartGameParams(gameId: string, playerId: int, role: string, teammates: Option<seq<int>>)

  datatype AiConfig = AiConfig(apiKey: string, model: string, maxTokens: int, temperature: real)

  /** `personality` is one of aggressive/conservative/witty/cunning, `strategy` one of aggressive/conservative/balanced. */
  datatype GameConfig = GameConfig(
    personality: string,
    strategy: string,
    speechStyle: string,
    aggressiveness: int,
    deceptionLevel: int,
    cooperationLevel: int)

  datatype LoggingConfig = LoggingConfig(enabled: bool, level: string)

  datatype PlayerConfig = PlayerConfig(name: string, ai: AiConfig, game: GameConfig, logging: LoggingConfig)

  // ---------------------------------------------------------------------------------------
  // Responses and their schemas

  datatype SpeechResponse = SpeechResponse(speech: string)

  datatype VotingResponse = VotingResponse(target: int, reason: string)

  datatype WitchChoice = UseAntidote | UsePoison | Skip

  /** A night action is exactly one of the three role shapes. */
  datatype NightAction =
    | WerewolfAction(target: int, reason: string)
    | SeerAction(target: int, reason: string)
    | WitchAction(choice: WitchChoice, potionTarget: Option<int>, reason: string)
  {
    /** The `action` field of the wire form. */
    function Action(): string {
      match this
      case WerewolfAction(_, _) => "kill"
      case SeerAction(_, _) => "investigate"
      case WitchAction(c, _, _) => WitchChoiceName(c)
    }
  }

  function WitchChoiceName(c: WitchChoice): string {
    match c
    case UseAntidote => "use_antidote"
    case UsePoison => "use_poison"
    case Skip => "skip"
  }

  function ParseWitchChoice(s: string): (r: Option<WitchChoice>)
    ensures r.Some? <==> s in {"use_antidote", "use_poison", "skip"}
    ensures r.Some? ==> WitchChoiceName(r.value) == s
  {
    if s == "use_antidote" then Some(UseAntidote)
    else if s == "use_poison" then Some(UsePoison)
    else if s == "skip" then Some(Skip)
    else None
  }

  /** The `action` field names the shape: "kill" only for a Werewolf action, "investigate" only for a Seer's. */
  lemma ActionNamesShape(a: NightAction)
    ensures a.Action() == "kill" <==> a.WerewolfAction?
    ensures a.Action() == "investigate" <==> a.SeerAction?
    ensures a.Action() in {"use_antidote", "use_poison", "skip"} <==> a.WitchAction?
  {
  }

  datatype NightSchema = WerewolfNightActionSchema | SeerNightActionSchema | WitchNightActionSchema

  datatype Schema = SpeechResponseSchema | VotingResponseSchema | NightActionSchema(night: NightSchema)

  /** The schema a night action satisfies. */
  function SchemaOf(a: NightAction): NightSchema {
    match a
    case WerewolfAction(_, _) => WerewolfNightActionSchema
    case SeerAction(_, _) => SeerNightActionSchema
    case WitchAction(_, _, _) => WitchNightActionSchema
  }

  /** A JSON value as a model may return it; numbers are integral here. */
  datatype JsonValue = JNumber(n: int) | JString(s: string) | JBool(b: bool) | JNull

  type JsonObject = map<string, JsonValue>

  function StringField(o: JsonObject, key: string): (r: Option<string>)
    ensures r.Some? <==> key in o && o[key].JString?
    ensures r.Some? ==> o[key] == JString(r.value)
  {
    if key in o && o[key].JString? then Some(o[key].s) else None
  }

  function NumberField(o: JsonObject, key: string): (r: Option<int>)
    ensures r.Some? <==> key in o && o[key].JNumber?
    ensures r.Some? ==> o[key] == JNumber(r.value)
  {
    if key in o && o[key].JNumber? then Some(o[key].n) else None
  }

  /** `{speech: string}`; other keys are ignored. */
  function ValidateSpeech(o: JsonObject): (r: Option<SpeechResponse>)
    ensures r.Some? <==> "speech" in o && o["speech"].JString?
    ensures r.Some? ==> o["speech"] == JString(r.value.speech)
  {
    match StringField(o, "speech")
    case Some(s) => Some(SpeechResponse(s))
    case None => None
  }

  /** `{target: number, reason: string}`. */
  function ValidateVote(o: JsonObject): (r: Option<VotingResponse>)
    ensures r.Some? <==> NumberField(o, "target").Some? && StringField(o, "reason").Some?
    ensures r.Some? ==> o["target"] == JNumber(r.value.target) && o["reason"] == JString(r.value.reason)
  {
    match (NumberField(o, "target"), StringField(o, "reason"))
    case (Some(t), Some(why)) => Some(VotingResponse(t, why))
    case _ => None
  }

  /**
   * The three night-action schemas: `action` must be the literal "kill" (Werewolf) or
   * "investigate" (Seer) with a numeric `target`, or one of the three Witch choices with an
   * optional numeric `target`; `reason` is a string in every case.
   */
  function ValidateNight(schema: NightSchema, o: JsonObject): (r: Option<NightAction>)
    ensures r.Some? ==> SchemaOf(r.value) == schema
    ensures r.Some? ==> StringField(o, "action") == Some(r.value.Action()) && StringField(o, "reason") == Some(r.value.reason)
    ensures r.Some? && !r.value.WitchAction? ==> NumberField(o, "target") == Some(r.value.target)
    ensures r.Some? && r.value.WitchAction? ==>
      (r.value.potionTarget.None? <==> "target" !in o)
      && (r.value.potionTarget.Some? ==> o["target"] == JNumber(r.value.potionTarget.value))
    ensures schema == WerewolfNightActionSchema ==>
      (r.Some? <==> StringField(o, "action") == Some("kill") && NumberField(o, "target").Some? && StringField(o, "reason").Some?)
    ensures schema == SeerNightActionSchema ==>
      (r.Some? <==> StringField(o, "action") == Some("investigate") && NumberField(o, "target").Some? && StringField(o, "reason").Some?)
    ensures schema == WitchNightActionSchema ==>
      (r.Some? <==> StringField(o, "action").Some? && StringField(o, "action").value in {"use_antidote", "use_poison", "skip"}
                    && ("target" in o ==> o["target"].JNumber?) && StringField(o, "reason").Some?)
  {
    match (StringField(o, "action"), StringField(o, "reason"))
    case (Some(action), Some(why)) =>
      (match schema
       case WerewolfNightActionSchema =>
         if action == "kill" && NumberField(o, "target").Some?
         then Some(WerewolfAction(o["target"].n, why)) else None
       case SeerNightActionSchema =>
         if action == "investigate" && NumberField(o, "target").Some?
         then Some(SeerAction(o["target"].n, why)) else None
       case WitchNightActionSchema =>
         var target := if "target" !in o then Some(None)
                       else if o["target"].JNumber? then Some(Some(o["target"].n))
                       else None;
         if ParseWitchChoice(action).Some? && target.Some?
         then Some(WitchAction(ParseWitchChoice(action).value, target.value, why)) else None)
    case _ => None
  }

  /** The wire form of a night action. */
  function EncodeNight(a: NightAction): JsonObject {
    match a
    case WerewolfAction(t, why) => map["action" := JString("kill"), "target" := JNumber(t), "reason" := JString(why)]
    case SeerAction(t, why) => map["action" := JString("investigate"), "target" := JNumber(t), "reason" := JString(why)]
    case WitchAction(c, t, why) =>
      var base := map["action" := JString(WitchChoiceName(c)), "reason" := JString(why)];
      if t.Some? then base["target" := JNumber(t.value)] else base
  }

  /** Every night action passes its own schema unchanged, and no other schema. */
  lemma ValidateEncodeNight(a: NightAction, schema: NightSchema)
    ensures ValidateNight(schema, EncodeNight(a)) == if schema == SchemaOf(a) then Some(a) else None
  {
    match a
    case WitchAction(c, t, why) =>
      assert ParseWitchChoice(WitchChoiceName(c)) == Some(c) by { match c case _ => }
    case _ =>
  }
}
