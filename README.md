# AI Werewolf player service — a Dafny model

This project models the player side of the AI Werewolf game (the `frontend` package). A
**PlayerServer** is one AI player. A game start assigns it a session (game id, player id, role,
teammates). It then answers three requests from the game master: a daytime speech, a vote and a
night ability. For each answer it builds a Chinese-language prompt from its personality, the
game-state snapshot and its session, and asks a language model for a structured answer of a
fixed shape. A **PlayerManager** keeps the registered players in a map keyed by id. The process
starts it once with eight default players and remembers a "current" player. The players endpoint
lists the registered players and creates new ones under the id one above the largest registered id.

Modules: three small support modules, then one per component of the player service:

- `Wrappers`: `Option` and `Result`.
- `Seqs`: removing a set of ids from a list, and distinctness.
- `JsText`: the JavaScript built-ins the prompts and the credential check rely on. The prompts
  use `${n}` for integers and `join(', ')` over ids; the credential check uses
  `String.prototype.trim`. The module also holds decoders that read the renderings back.
- `Types`: roles, phases, the snapshot and context shapes, the configuration, and the response
  schemas. The schemas are checked on a JSON object by `Validate*` functions.
- `Prompts`: the prompt builders, as pure functions of the session, the configuration and the
  snapshot.
- `Engine`: the `PlayerServer` class, the night-schema registry and the generation gateway.
- `Registry`: the `PlayerManager` and `ManagedPlayer` classes, and the process-wide state
  (`Globals`) with its one-time bootstrap.
- `PlayersApi`: the listing and the creation done by the players endpoint.

Everything the player needs from outside its own code is passed in as a `Host` value:

- the process-wide fallback API key;
- the personality catalogue;
- the model call, which returns the model's raw JSON object or a transport failure.

In the source, `undefined` and `null` are modelled as `None`. A role is kept as the free string
the game start supplied; the source casts it to the role enum without checking it.

Behaviour worth noting:

- **Credential fallback.** The configured key is used when it is non-empty. Otherwise the
  process-wide key is used. Only then is the chosen key checked for being blank. So a configured
  key made only of white space is never replaced by the process-wide key: it counts as a missing
  credential (`Engine.CredentialMissing`).
- **No investigation results in the vote prompt.** The vote prompt of a Seer does not include
  earlier investigation results. The Seer's investigations are carried in the context but never
  rendered.
- **Empty history.** An empty discussion history renders as an empty section, not as a
  placeholder.
- **Personality preamble.** The preamble is empty only when no personality is configured. Any
  other strategy than `balanced` is passed through to the catalogue unchanged.
- **Witch answer shape.** The Witch's answer is `{action, target?, reason}`, with `action` one of
  `use_antidote`, `use_poison` or `skip`. It is not a pair of heal and poison fields.
- **Kill id 0.** A night kill of id `0` renders as `无`, like a missing kill, because the
  template uses `||`.

## Model

| member | source | states |
|---|---|---|
| Types.ParseRole | packages/frontend/src/types/index.ts:4-9 | A string names a role exactly when it is one of the four wire names, and the role read back renders to that same string |
| Types.ParsePhase | packages/frontend/src/types/index.ts:12-17 | A string names a phase exactly when it is one of the four wire names, and it renders back to itself |
| Types.ParseWitchChoice | packages/frontend/src/types/index.ts:84-88 | The Witch's action is recognised exactly when it is one of `use_antidote`, `use_poison` or `skip`, and it renders back to itself |
| Types.ValidateSpeech | packages/frontend/src/types/index.ts:62-64 | An answer passes the speech schema exactly when `speech` is a string, and the result carries that string |
| Types.ValidateVote | packages/frontend/src/types/index.ts:66-69 | An answer passes the vote schema exactly when `target` is a number and `reason` a string, and the result carries both |
| Types.ValidateNight | packages/frontend/src/types/index.ts:71-91 | Under each night schema an answer is accepted exactly when it has that schema's fields: `action` the literal `kill` or `investigate`, or one of the three Witch choices; a numeric `target`, optional for the Witch; a string `reason`. The accepted action carries the answer's `action`, `target` and `reason`, and a Witch action has no target exactly when the answer has none |
| Types.ValidateEncodeNight | packages/frontend/src/types/index.ts:95-98 | Every night action passes its own schema unchanged, and fails the other two schemas |
| Seqs.Exclude | packages/frontend/src/lib/PlayerServer.ts:227 | Filtering keeps exactly the ids outside the banned set, each as often as in the input, in the input order |
| JsText.IntToString | packages/frontend/src/lib/PlayerServer.ts:278 | An integer renders as a minus sign exactly when it is negative, followed by a non-empty run of digits with no leading zero (`0` itself renders as `0`) |
| JsText.ParseIntToString | packages/frontend/src/lib/PlayerServer.ts:278 | Reading a rendered integer back gives the same integer |
| JsText.JoinIds | packages/frontend/src/lib/PlayerServer.ts:279 | The `, `-joined rendering is empty exactly when the list is empty |
| JsText.ParseJoinIds | packages/frontend/src/lib/PlayerServer.ts:279 | A `, `-joined id list reads back as exactly the same list |
| JsText.Trim | packages/frontend/src/lib/PlayerServer.ts:64 | A trimmed string is empty exactly when every character is ECMAScript white space, and otherwise starts and ends with a non-white character |
| Prompts.OthersAlive | packages/frontend/src/lib/PlayerServer.ts:227 | The vote candidates are exactly the alive players other than the voter, with their multiplicities and in order |
| Prompts.KillTargets | packages/frontend/src/lib/PlayerServer.ts:240 | The kill candidates are exactly the alive players other than the Werewolf and its teammates, with their multiplicities and in order |
| Prompts.KillTargetsWithinOthers | packages/frontend/src/lib/PlayerServer.ts:240-245 | The kill candidates are the Seer-style candidates minus the teammates, and are the same list when there are no teammates |
| Prompts.YesNo | packages/frontend/src/lib/PlayerServer.ts:251-252 | A potion flag shows `是` exactly when the potion was used and `否` exactly when it was not |
| Prompts.KillText | packages/frontend/src/lib/PlayerServer.ts:253 | The Witch sees `无` exactly when there is no kill or the kill is the falsy id 0, and the rendered id otherwise |
| Prompts.DeathsText | packages/frontend/src/lib/PlayerServer.ts:281 | Last night's deaths read `无` exactly when there were none, and the joined ids otherwise |
| Prompts.TeammatesLine | packages/frontend/src/lib/PlayerServer.ts:289 | The teammates line is present exactly when the teammate list is present and non-empty, and then lists them |
| Prompts.HistoryText | packages/frontend/src/lib/PlayerServer.ts:284 | The discussion section is empty exactly when the history is empty |
| Prompts.PersonalityType | packages/frontend/src/lib/PlayerServer.ts:311 | A `balanced` strategy selects the `cunning` personality, and any other strategy passes through unchanged |
| Prompts.PersonalityPrompt | packages/frontend/src/lib/PlayerServer.ts:306-314 | The preamble is empty exactly when no personality is configured, and is otherwise the selected personality's description followed by a blank line |
| Prompts.GameContextTeammates | packages/frontend/src/lib/PlayerServer.ts:273-290 | The game-context block ends with a teammates line exactly when the session has a non-empty teammate list, and that line reads back as exactly those ids, in order |
| Prompts.PromptsListTeammates | packages/frontend/src/lib/PlayerServer.ts:202-271 | In the speech, vote and night prompts, the game-context block that follows the preamble lists exactly the current session's teammates, and none when the session has no non-empty teammate list, so no earlier session's team is carried into a prompt |
| Prompts.VotePromptOffers | packages/frontend/src/lib/PlayerServer.ts:216-228 | The candidate list that closes a vote prompt reads back as exactly the alive players other than the voter |
| Prompts.AbilityPromptOffers | packages/frontend/src/lib/PlayerServer.ts:230-271 | The last candidate list of a night prompt reads back as exactly that role's candidates: kill targets, others alive, or all alive players |
| Engine.ResolveApiKey | packages/frontend/src/lib/PlayerServer.ts:63 | The configured key wins when it is non-empty, and otherwise the process-wide key is used |
| Engine.CredentialMissing | packages/frontend/src/lib/PlayerServer.ts:63-64 | The credential is missing exactly when the chosen key is absent or made only of white space |
| Engine.SchemaFor | packages/frontend/src/lib/PlayerServer.ts:25-29 | Only `werewolf`, `seer` and `witch` have a night schema, and each gets its own |
| Engine.GenerateSpeech | packages/frontend/src/lib/PlayerServer.ts:135-173 | The call succeeds exactly when the model answers and the answer passes the speech schema, and then yields that answer's `speech`. A transport failure surfaces with its text, and an answer that fails the schema surfaces as a mismatch |
| Engine.GenerateVote | packages/frontend/src/lib/PlayerServer.ts:135-182 | The call succeeds exactly when the model answers and the answer passes the vote schema, and then yields that vote. A transport failure surfaces with its text, and an answer that fails the schema surfaces as a mismatch |
| Engine.GenerateNightAction | packages/frontend/src/lib/PlayerServer.ts:135-200 | The call succeeds exactly when the model answers and the answer passes the requested night schema, and then yields that validated action, which has the schema's shape. A transport failure surfaces with its text, and an answer that fails the schema surfaces as a mismatch |
| Engine.PlayerServer.constructor | packages/frontend/src/lib/PlayerServer.ts:38-40 | A new engine keeps its configuration and has no session: game id, player id, role and teammates are all unset |
| Engine.PlayerServer.Request | packages/frontend/src/lib/PlayerServer.ts:149-155 | A generation request carries the schema, the prompt, the configured model and the resolved key |
| Engine.PlayerServer.StartGame | packages/frontend/src/lib/PlayerServer.ts:42-46 | A game start replaces the whole session with the start parameters; nothing of an earlier session survives |
| Engine.PlayerServer.Speak | packages/frontend/src/lib/PlayerServer.ts:58-70 | Without a role the player gives the fixed no-role line. With a role but no credential it gives the fixed thinking line. Only then is the model asked, with the speech prompt |
| Engine.PlayerServer.Vote | packages/frontend/src/lib/PlayerServer.ts:72-83 | Without a role, and then without a credential, the player votes for player 1 with the matching reason. Otherwise it returns the model's vote on the vote prompt |
| Engine.PlayerServer.UseAbility | packages/frontend/src/lib/PlayerServer.ts:85-200 | The checks fail in order: no role, no credential, a Villager, then a role without a schema. Otherwise the result is the model's answer under the role's schema, and a success is a kill, an investigation or a Witch choice as the role demands |
| Engine.PlayerServer.LastWords | packages/frontend/src/lib/PlayerServer.ts:98-100 | The last words are the fixed farewell line |
| Engine.PlayerServer.GetStatus | packages/frontend/src/lib/PlayerServer.ts:102-113 | The status reports the session as it is, the player as alive, and the configured personality |
| Engine.PlayerServer.GetRole | packages/frontend/src/lib/PlayerServer.ts:115-117 | The role is the one the last game start set, and is unset before any start |
| Engine.PlayerServer.GetPlayerId | packages/frontend/src/lib/PlayerServer.ts:119-121 | The player id is the one the last game start set |
| Engine.PlayerServer.GetTeammates | packages/frontend/src/lib/PlayerServer.ts:123-125 | The teammates are the ones the last game start set |
| Engine.PlayerServer.GetGameId | packages/frontend/src/lib/PlayerServer.ts:131-133 | The game id is the one the last game start set |
| Engine.PlayerServer.GetPersonalityPrompt | packages/frontend/src/lib/PlayerServer.ts:127-129 | The player's preamble is empty exactly when it has no personality |
| Registry.PlayerManager.AddPlayer | packages/frontend/src/lib/playerManager.ts:15-26 | Registers a fresh, stopped record with a fresh, session-less engine under the id. It replaces an earlier record, and a replaced id keeps its place in the listing order |
| Registry.PlayerManager.RemovePlayer | packages/frontend/src/lib/playerManager.ts:28-30 | Reports whether the id was registered, and removes exactly it from the map and the order |
| Registry.PlayerManager.GetPlayer | packages/frontend/src/lib/playerManager.ts:32-34 | Finds a record exactly when the id is registered, and then it is that id's record |
| Registry.PlayerManager.GetAllPlayers | packages/frontend/src/lib/playerManager.ts:36-38 | Lists every registered record exactly once, in insertion order |
| Registry.PlayerManager.UpdatePlayerConfig | packages/frontend/src/lib/playerManager.ts:40-47 | Fails for an unknown id and changes nothing. Otherwise it replaces the configuration and the engine, and keeps the running flag and the port |
| Registry.PlayerManager.StartPlayer | packages/frontend/src/lib/playerManager.ts:49-55 | Fails for an unknown id and changes nothing. Otherwise the player is running, and only its running flag changed |
| Registry.PlayerManager.StopPlayer | packages/frontend/src/lib/playerManager.ts:57-63 | Fails for an unknown id and changes nothing. Otherwise the player is stopped, and only its running flag changed |
| Registry.RegisterAll | packages/frontend/src/lib/playerManager.ts:105-108 | Adding the configurations one by one registers ids 1, 2, ... in order. Each record is stopped, has no port, and carries its configuration and an engine for it that holds no session |
| Registry.Globals.Bootstrap | packages/frontend/src/lib/playerManager.ts:73-108 | Registers exactly the ids 1 to 8 in order, each stopped with its default configuration (name `智能分析师` followed by the id, the environment key or the empty string) and a session-less engine, and sets no current player |
| Registry.DefaultConfig | packages/frontend/src/lib/playerManager.ts:78-98 | A default configuration carries the process-wide key, or the empty string when it is unset, and a cunning personality with a balanced strategy |
| Registry.DefaultNamesDistinct | packages/frontend/src/lib/playerManager.ts:100-103 | Default players with different ids have different names, since each name ends with its id |
| Registry.DefaultCredential | packages/frontend/src/lib/playerManager.ts:81 | A default player lacks a credential exactly when the process-wide key is unset or blank |
| Registry.DefaultConfigs | packages/frontend/src/lib/playerManager.ts:100-103 | There are eight default configurations, the one at position `i` being the default for id `i + 1` |
| Registry.Globals.SetCurrentPlayerId | packages/frontend/src/lib/playerManager.ts:116-118 | The current player id becomes the given id |
| Registry.Globals.GetCurrentPlayerId | packages/frontend/src/lib/playerManager.ts:121-123 | The current player id is the one last set, and none after the bootstrap |
| Registry.Globals.GetPlayerServer | packages/frontend/src/lib/playerManager.ts:131-134 | Finds an engine exactly when the id is registered, and then it is that record's engine |
| Registry.Globals.GetCurrentPlayerServer | packages/frontend/src/lib/playerManager.ts:126-129 | Finds an engine exactly when a current id is set and registered, and then it is that record's engine |
| PlayersApi.MaxOr | packages/frontend/src/pages/api/players/index.ts:28 | The maximum is at least the floor and every element, and is one of them |
| PlayersApi.NextId | packages/frontend/src/pages/api/players/index.ts:28 | The next id is at least 1 and above every registered id. It is 1 for an empty registry, and otherwise one above a registered id |
| PlayersApi.ListPlayers | packages/frontend/src/pages/api/players/index.ts:11-19 | Lists one summary per registered player in insertion order, carrying its id, name, personality, strategy, running flag and port |
| PlayersApi.CreatePlayer | packages/frontend/src/pages/api/players/index.ts:26-37 | Registers a fresh, stopped player under an id above every registered id (1 when none), and leaves the other records alone. The answer echoes the id, the name, the personality, the strategy and the stopped flag |

## Left out

- The model call, the OpenRouter client and the `ai` SDK are left out. They are the `Host.generate` parameter, and its answer is a raw JSON object.
- The personality catalogue is left out. It is the `Host.describePersonality` parameter, and `prompts.ts` is not part of this model.
- The `OPENROUTER_API_KEY` environment variable is a parameter (`Host.envApiKey`, and the bootstrap's argument).
- Sampling parameters are carried as opaque values. The model does not interpret them: `maxTokens` is an integer and `temperature` a real.
- Logging (`console.log`) and the `logging.enabled` switch are left out. They have no effect on results.
- Promises and `async` are left out. Every operation is modelled as completing in one step.
- Concurrent requests and the `globalThis` reuse across hot reloads are left out. The process state is one `Globals` object created once.
- Engine.PlayerServer.UseAbility: errors are modelled by kind (`PlayerError`). The Chinese and English message texts of the thrown errors are not modelled.
- Engine.SchemaFor: the lookup matches the three role names exactly. The source indexes a plain object, where a role string naming an inherited property such as `toString` would find a non-schema value. That case is not modelled.
- Numbers are integers. Fractional ids or days, `NaN`, and the exponent form of very large numbers are not modelled, and neither is a JSON number in a model's answer that is not an integer.
- The request parsing, HTTP status codes and method switch of the API routes are left out, as is the `try`/`catch` around creation, since no modelled step can fail there. The React pages are left out too.
- Runtime validation of the incoming player configuration is left out. The body is taken to be a well-formed configuration.
- Registry.Globals.Bootstrap: it does not restate that the eight records and their engines are new, distinct objects. Each `AddPlayer` call promises that for its own record.
- Prompts.AbilityPromptOffers: it is proved only for the three roles with a night block. A Villager never reaches prompt building.
