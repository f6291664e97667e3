/**
 * The prompt builders of a player: pure functions from the player's session, its configuration
 * and the caller's game-state snapshot to the instruction text sent to the language model.
 * Every action prompt is: personality preamble, blank line, game-context block, blank line,
 * action block. The candidate lists that close the vote and night-action blocks are computed by
 * the Targets functions; OfferedTargets reads such a list back from a finished prompt.
 */
module Prompts {
  import opened Wrappers
  import opened Types
  import opened Seqs
  import opened JsText

  /** What the prompt builders read of a player's session; every field is unset before a game starts. */
  datatype Session = Session(gameId: Option<string>, playerId: Option<int>, role: Option<string>, teammates: Option<seq<int>>)

  function OptionSet(o: Option<int>): set<int> {
    if o.Some? then {o.value} else {}
  }

  function TeamSet(t: Option<seq<int>>): set<int> {
    if t.Some? then set x | x in t.value else {}
  }

  // ---------------------------------------------------------------------------------------
  // Candidate lists

  /** The vote and Seer candidates: the alive players other than the player itself, in order. */
  function OthersAlive(alive: seq<int>, self: Option<int>): (r: seq<int>)
    ensures forall x :: x in r <==> x in alive && Some(x) != self
    ensures forall x :: multiset(r)[x] == if Some(x) == self then 0 else multiset(alive)[x]
  {
    Exclude(alive, OptionSet(self))
  }

  /** The Werewolf kill candidates: the alive players other than the player and its teammates, in order. */
  function KillTargets(alive: seq<int>, self: Option<int>, teammates: Option<seq<int>>): (r: seq<int>)
    ensures forall x :: x in r <==> x in alive && Some(x) != self && !(teammates.Some? && x in teammates.value)
    ensures forall x :: multiset(r)[x] == if x in OptionSet(self) + TeamSet(teammates) then 0 else multiset(alive)[x]
  {
    Exclude(alive, OptionSet(self) + TeamSet(teammates))
  }

  /** Kill candidates are vote candidates with the teammates removed as well. */
  lemma KillTargetsWithinOthers(alive: seq<int>, self: Option<int>, teammates: Option<seq<int>>)
    ensures KillTargets(alive, self, teammates) == Exclude(OthersAlive(alive, self), TeamSet(teammates))
    ensures teammates.None? || teammates.value == [] ==> KillTargets(alive, self, teammates) == OthersAlive(alive, self)
  {
    ExcludeTwice(alive, OptionSet(self), TeamSet(teammates));
    if teammates.None? || teammates.value == [] {
      assert TeamSet(teammates) == {};
      ExcludeNothing(OthersAlive(alive, self));
    }
  }

  lemma {:induction false} ExcludeTwice(xs: seq<int>, a: set<int>, b: set<int>)
    ensures Exclude(xs, a + b) == Exclude(Exclude(xs, a), b)
  {
    if xs != [] {
      ExcludeTwice(xs[1..], a, b);
    }
  }

  // ---------------------------------------------------------------------------------------
  // Small renderings

  /** A used-potion flag. */
  function YesNo(b: bool): (r: string)
    ensures r == "是" <==> b
    ensures r == "否" <==> !b
  {
    if b then "是" else "否"
  }

  /** The night's kill as the Witch sees it; a missing kill, like the falsy id 0, reads "无". */
  function KillText(kill: Option<int>): (r: string)
    ensures r == "无" <==> kill.None? || kill.value == 0
    ensures r != "无" ==> r == IntToString(kill.value)
  {
    if kill.None? || kill.value == 0 then "无"
    else
      var t := IntToString(kill.value);
      assert t != "无" by { assert IdListChar(t[0]); }
      t
  }

  /** Last night's deaths, or "无" exactly when there were none. */
  function DeathsText(deaths: seq<int>): (r: string)
    ensures r == "无" <==> deaths == []
    ensures deaths != [] ==> r == JoinIds(deaths)
  {
    var joined := JoinIds(deaths);
    if joined == "" then "无"
    else
      assert joined != "无" by { assert IdListChar(joined[0]); }
      joined
  }

  /** The teammates line, present only for a non-empty teammate list. */
  function TeammatesLine(teammates: Option<seq<int>>): (r: string)
    ensures r == "" <==> teammates.None? || teammates.value == []
    ensures r != "" ==> r == "- 队友: " + JoinIds(teammates.value)
  {
    if teammates.Some? && |teammates.value| > 0 then "- 队友: " + JoinIds(teammates.value) else ""
  }

  function UtteranceLine(u: Utterance): string {
    "玩家" + IntToString(u.playerId) + ": " + u.message
  }

  /** The discussion history, one line per utterance; an empty history renders as nothing. */
  function HistoryText(history: seq<Utterance>): (r: string)
    ensures r == "" <==> history == []
  {
    if history == [] then ""
    else if |history| == 1 then UtteranceLine(history[0])
    else UtteranceLine(history[0]) + "\n" + HistoryText(history[1..])
  }

  /** `${x}` of a possibly unset number or string. */
  function NumberText(o: Option<int>): string {
    if o.Some? then IntToString(o.value) else "undefined"
  }

  function StringText(o: Option<string>): string {
    if o.Some? then o.value else "undefined"
  }

  // ---------------------------------------------------------------------------------------
  // Prompt fragments

  /** The personality the strategy selects: a balanced strategy plays as cunning. */
  function PersonalityType(strategy: string): (r: string)
    ensures strategy == "balanced" ==> r == "cunning"
    ensures strategy != "balanced" ==> r == strategy
  {
    if strategy == "balanced" then "cunning" else strategy
  }

  /**
   * The personality preamble: nothing when no personality is configured, otherwise the
   * description of the personality the strategy selects, followed by a blank line.
   * `describe` is the personality catalogue, which is not part of this model.
   */
  function PersonalityPrompt(config: PlayerConfig, describe: string -> string): (r: string)
    ensures r == "" <==> config.game.personality == ""
    ensures config.game.personality != "" ==> r == describe(PersonalityType(config.game.strategy)) + "\n\n"
  {
    if config.game.personality == "" then "" else describe(PersonalityType(config.game.strategy)) + "\n\n"
  }

  /** The game-context block up to the player's role line. */
  function GameFacts(s: Session, ctx: PlayerContext): string {
    "\n## 游戏情况\n- 游戏ID: " + ctx.gameId
    + "\n- 当前阶段: " + PhaseName(ctx.phase)
    + "\n- 游戏天数: " + IntToString(ctx.day)
    + "\n- 存活玩家: " + JoinIds(ctx.alivePlayers)
    + "\n- 死亡玩家: " + JoinIds(ctx.deadPlayers)
    + "\n- 昨夜死亡: " + DeathsText(ctx.lastNightDeaths)
    + "\n\n## 讨论历史\n" + HistoryText(ctx.discussionHistory)
    + "\n\n## 你的信息\n- 玩家ID: " + NumberText(s.playerId)
    + "\n- 角色: " + StringText(s.role)
  }

  /** The game-context block: the snapshot, the discussion, the player's id and role, and the teammates line last. */
  function GameContextPrompt(s: Session, ctx: PlayerContext): string {
    GameFacts(s, ctx) + "\n" + TeammatesLine(s.teammates)
  }

  /** The closing line of a candidate list: its caption, a full-width colon, the ids. */
  function TargetLine(caption: string, ids: seq<int>): string {
    caption + "：" + JoinIds(ids)
  }

  function SpeechPrompt(s: Session, config: PlayerConfig, describe: string -> string, ctx: PlayerContext): string {
    PromptHead(s, config, describe, ctx) + SpeechBlock(s.role)
  }

  /** The vote request, closing on the list of players the voter may vote for. */
  function VoteBlock(s: Session, ctx: PlayerContext): string {
    VoteIntro(s.role) + TargetLine("可投票的玩家", OthersAlive(ctx.alivePlayers, s.playerId))
  }

  function VoteIntro(role: Option<string>): string {
    "## 投票要求\n作为" + StringText(role)
    + "，你需要选择一个玩家投票淘汰。请根据你的角色目标和当前游戏情况，选择最合适的投票目标并说明理由。\n\n"
  }

  function VotePrompt(s: Session, config: PlayerConfig, describe: string -> string, ctx: PlayerContext): string {
    PromptHead(s, config, describe, ctx) + VoteBlock(s, ctx)
  }

  /** The Witch's potion state; a context without it reads as nothing used and no kill. */
  function WitchView(actx: AbilityContext): (bool, bool, Option<int>) {
    match actx
    case WitchContext(_, poison, antidote, kill) => (antidote, poison, kill)
    case _ => (false, false, None)
  }

  /** The text of a night block before its candidate list. */
  function NightIntro(role: Role, actx: AbilityContext): string {
    match role
    case Werewolf =>
      "\n## 夜间行动 - 狼人击杀\n作为狼人，你需要选择一个目标击杀。请选择对狼人阵营威胁最大的玩家。\n"
    case Seer =>
      "\n## 夜间行动 - 预言家查验\n作为预言家，你需要选择一个玩家查验身份。请选择最可疑或最需要确认身份的玩家。\n"
    case Witch =>
      var (antidote, poison, kill) := WitchView(actx);
      "\n## 夜间行动 - 女巫使用药剂\n作为女巫，你有解药和毒药各一瓶。\n- 解药已使用：" + YesNo(antidote)
      + "\n- 毒药已使用：" + YesNo(poison)
      + "\n- 昨夜死亡玩家：" + KillText(kill)
      + "\n\n你可以选择：\n1. 使用解药救人（如果还有解药且有人被杀）\n2. 使用毒药杀人（如果还有毒药）\n3. 什么都不做\n\n"
    case Villager => ""
  }

  function NightCaption(role: Role): string {
    match role
    case Werewolf => "可击杀的玩家"
    case Seer => "可查验的玩家"
    case Witch => "可作用的玩家"
    case Villager => ""
  }

  /** The ids a night block offers: kill candidates, investigation candidates, or every alive player. */
  function NightCandidates(role: Role, s: Session, alive: seq<int>): seq<int> {
    match role
    case Werewolf => KillTargets(alive, s.playerId, s.teammates)
    case Seer => OthersAlive(alive, s.playerId)
    case _ => alive
  }

  /** The session's role, when its name is one of the four. */
  function SessionRole(s: Session): Option<Role> {
    if s.role.Some? then ParseRole(s.role.value) else None
  }

  /** The role-specific night block for a Werewolf, Seer or Witch; empty for any other role. */
  function RoleBlock(s: Session, actx: AbilityContext): string {
    match SessionRole(s)
    case Some(role) =>
      if role == Villager then ""
      else NightIntro(role, actx) + TargetLine(NightCaption(role), NightCandidates(role, s, actx.ctx.alivePlayers))
    case None => ""
  }

  /** The speech request that follows the shared opening of the speech prompt. */
  function SpeechBlock(role: Option<string>): string {
    "## 发言要求\n作为" + StringText(role)
    + "，你需要在白天讨论阶段发言。请根据你的角色和性格特点，结合当前游戏情况，给出合适的发言。\n\n注意：发言内容控制在30-80字，语言自然，像真人玩家。"
  }

  const ResponseFormat: string := "\n\n## 响应格式\n请以JSON格式返回你的决策。"

  /** What every action prompt opens with: the personality preamble and the game-context block, each followed by a blank line. */
  function PromptHead(s: Session, config: PlayerConfig, describe: string -> string, ctx: PlayerContext): string {
    PersonalityPrompt(config, describe) + "\n\n" + GameContextPrompt(s, ctx) + "\n\n"
  }

  function AbilityPrompt(s: Session, config: PlayerConfig, describe: string -> string, actx: AbilityContext): string {
    PromptHead(s, config, describe, actx.ctx) + RoleBlock(s, actx) + ResponseFormat
  }

  // ---------------------------------------------------------------------------------------
  // Reading a prompt back

  /** The ids of the last candidate list in a prompt: the text after its last full-width colon, up to the line end. */
  function OfferedTargets(prompt: string): seq<int> {
    ParseIds(BeforeFirst(AfterLast(prompt, '：'), '\n'))
  }

  /** A rendered id list has neither a full-width colon nor a line break. */
  lemma JoinIdsPlain(ids: seq<int>)
    ensures '：' !in JoinIds(ids) && '\n' !in JoinIds(ids)
  {
    var j := JoinIds(ids);
    assert forall i :: 0 <= i < |j| ==> IdListChar(j[i]);
  }

  /** Text up to the first line break, when the line break (if any) immediately follows `j`. */
  lemma UpToLineEnd(j: string, q: string)
    requires '\n' !in j
    requires q == [] || q[0] == '\n'
    ensures BeforeFirst(j + q, '\n') == j
  {
    if q == [] {
      assert j + q == j;
      assert IndexOf(j, '\n') == |j|;
    } else {
      assert j + q == j + ['\n'] + q[1..];
      BeforeFirstAppend(j, '\n', q[1..]);
    }
  }

  lemma ReadTargetLine(p: string, caption: string, ids: seq<int>, q: string)
    requires '：' !in q
    requires q == [] || q[0] == '\n'
    ensures OfferedTargets(p + TargetLine(caption, ids) + q) == ids
  {
    var j := JoinIds(ids);
    assert p + TargetLine(caption, ids) + q == (p + caption) + ['：'] + (j + q);
    JoinIdsPlain(ids);
    AfterLastAppend(p + caption, '：', j + q);
    UpToLineEnd(j, q);
    ParseJoinIds(ids);
  }

  /** The vote prompt offers exactly the alive players other than the voter, in order. */
  lemma VotePromptOffers(s: Session, config: PlayerConfig, describe: string -> string, ctx: PlayerContext)
    ensures OfferedTargets(VotePrompt(s, config, describe, ctx)) == OthersAlive(ctx.alivePlayers, s.playerId)
  {
    var ids := OthersAlive(ctx.alivePlayers, s.playerId);
    var p := PromptHead(s, config, describe, ctx) + VoteIntro(s.role);
    assert VotePrompt(s, config, describe, ctx) == p + TargetLine("可投票的玩家", ids) + [];
    ReadTargetLine(p, "可投票的玩家", ids, []);
  }

  /** A prompt that ends with a block closing on a candidate line, then the response-format footer, offers that line's ids. */
  lemma ReadBeforeFooter(head: string, block: string, intro: string, caption: string, ids: seq<int>)
    requires block == intro + TargetLine(caption, ids)
    ensures OfferedTargets(head + block + ResponseFormat) == ids
  {
    assert head + block + ResponseFormat == (head + intro) + TargetLine(caption, ids) + ResponseFormat;
    ReadTargetLine(head + intro, caption, ids, ResponseFormat);
  }

  /** The night block of a Werewolf, Seer or Witch session: its introduction, then its candidate line. */
  lemma RoleBlockShape(s: Session, actx: AbilityContext, role: Role)
    requires s.role == Some(RoleName(role)) && role != Villager
    ensures RoleBlock(s, actx) == NightIntro(role, actx) + TargetLine(NightCaption(role), NightCandidates(role, s, actx.ctx.alivePlayers))
  {
    ParseRoleName(role);
    assert SessionRole(s) == Some(role);
  }

  /** A Werewolf, Seer or Witch night prompt offers exactly that role's candidates, in order. */
  lemma AbilityPromptOffers(s: Session, config: PlayerConfig, describe: string -> string, actx: AbilityContext, role: Role)
    requires s.role == Some(RoleName(role)) && role != Villager
    ensures OfferedTargets(AbilityPrompt(s, config, describe, actx)) == NightCandidates(role, s, actx.ctx.alivePlayers)
  {
    RoleBlockShape(s, actx, role);
    ReadBeforeFooter(PromptHead(s, config, describe, actx.ctx), RoleBlock(s, actx), NightIntro(role, actx),
                     NightCaption(role), NightCandidates(role, s, actx.ctx.alivePlayers));
  }

  const TeammatesCaption: string := "- 队友: "

  /** The teammates a game-context block lists on its last line, if that line is a teammates line. */
  function ListedTeammates(block: string): Option<seq<int>> {
    var last := AfterLast(block, '\n');
    if |last| >= |TeammatesCaption| && last[..|TeammatesCaption|] == TeammatesCaption
    then Some(ParseIds(last[|TeammatesCaption|..]))
    else None
  }

  /**
   * The game-context block lists teammates exactly when the session has a non-empty teammate
   * list, and then lists exactly those ids, in order.
   */
  lemma GameContextTeammates(s: Session, ctx: PlayerContext)
    ensures ListedTeammates(GameContextPrompt(s, ctx)) ==
      if s.teammates.Some? && s.teammates.value != [] then Some(s.teammates.value) else None
  {
    ReadLastLine(GameFacts(s, ctx), s.teammates);
  }

  /** Whatever precedes it, a closing teammates line reads back as its teammates. */
  lemma ReadLastLine(p: string, teammates: Option<seq<int>>)
    ensures ListedTeammates(p + "\n" + TeammatesLine(teammates)) ==
      if teammates.Some? && teammates.value != [] then Some(teammates.value) else None
  {
    var line := TeammatesLine(teammates);
    TeammatesLinePlain(teammates);
    AfterLastAppend(p, '\n', line);
    if line != "" {
      assert line[..|TeammatesCaption|] == TeammatesCaption;
      assert line[|TeammatesCaption|..] == JoinIds(teammates.value);
      ParseJoinIds(teammates.value);
    }
  }

  lemma TeammatesLinePlain(teammates: Option<seq<int>>)
    ensures '\n' !in TeammatesLine(teammates)
  {
    var line := TeammatesLine(teammates);
    if line != "" {
      var j := JoinIds(teammates.value);
      JoinIdsPlain(teammates.value);
      assert line == TeammatesCaption + j;
      forall i | 0 <= i < |line| ensures line[i] != '\n' {
        if i >= |TeammatesCaption| {
          assert line[i] == j[i - |TeammatesCaption|];
        }
      }
    }
  }

  /** Where the game-context block starts in a prompt: after the preamble and its blank line. */
  function ContextStart(config: PlayerConfig, describe: string -> string): nat {
    |PersonalityPrompt(config, describe)| + 2
  }

  /** The teammates a session's prompts list: its teammate list when present and non-empty, else none. */
  function SessionTeam(s: Session): Option<seq<int>> {
    if s.teammates.Some? && s.teammates.value != [] then Some(s.teammates.value) else None
  }

  /** The game-context block that follows the preamble of `prompt`, when the block is `n` characters long. */
  function ContextBlock(prompt: string, config: PlayerConfig, describe: string -> string, n: nat): string {
    var k := ContextStart(config, describe);
    if k + n <= |prompt| then prompt[k..k + n] else ""
  }

  lemma SliceOfMiddle(p: string, g: string, rest: string)
    ensures |p| + |g| <= |p + g + rest| && (p + g + rest)[|p|..|p| + |g|] == g
  {
  }

  lemma Assoc(a: string, b: string, c: string)
    ensures a + b + c == a + (b + c)
  {
  }

  lemma Regroup(a: string, b: string, c: string, d: string, t: string)
    ensures a + b + c + d + t == (a + b) + c + (d + t)
  {
  }

  /** Whatever follows it, the game-context block inside a prompt head lists exactly the session's teammates. */
  lemma ReadHeadTeammates(s: Session, config: PlayerConfig, describe: string -> string, ctx: PlayerContext, tail: string)
    ensures ListedTeammates(ContextBlock(PromptHead(s, config, describe, ctx) + tail, config, describe, |GameContextPrompt(s, ctx)|))
      == SessionTeam(s)
  {
    var pp := PersonalityPrompt(config, describe);
    var g := GameContextPrompt(s, ctx);
    Regroup(pp, "\n\n", g, "\n\n", tail);
    SliceOfMiddle(pp + "\n\n", g, "\n\n" + tail);
    GameContextTeammates(s, ctx);
  }

  lemma SpeechPromptTeammates(s: Session, config: PlayerConfig, describe: string -> string, ctx: PlayerContext)
    ensures ListedTeammates(ContextBlock(SpeechPrompt(s, config, describe, ctx), config, describe, |GameContextPrompt(s, ctx)|)) == SessionTeam(s)
  {
    ReadHeadTeammates(s, config, describe, ctx, SpeechBlock(s.role));
  }

  lemma VotePromptTeammates(s: Session, config: PlayerConfig, describe: string -> string, ctx: PlayerContext)
    ensures ListedTeammates(ContextBlock(VotePrompt(s, config, describe, ctx), config, describe, |GameContextPrompt(s, ctx)|)) == SessionTeam(s)
  {
    ReadHeadTeammates(s, config, describe, ctx, VoteBlock(s, ctx));
  }

  lemma AbilityPromptTeammates(s: Session, config: PlayerConfig, describe: string -> string, actx: AbilityContext)
    ensures ListedTeammates(ContextBlock(AbilityPrompt(s, config, describe, actx), config, describe, |GameContextPrompt(s, actx.ctx)|)) == SessionTeam(s)
  {
    Assoc(PromptHead(s, config, describe, actx.ctx), RoleBlock(s, actx), ResponseFormat);
    ReadHeadTeammates(s, config, describe, actx.ctx, RoleBlock(s, actx) + ResponseFormat);
  }

  /**
   * The speech, vote and night prompts each carry the game-context block right after the
   * preamble, and that block lists exactly the current session's teammates: none when the
   * session has no non-empty teammate list, so nothing of an earlier session's team survives.
   */
  lemma PromptsListTeammates(s: Session, config: PlayerConfig, describe: string -> string, actx: AbilityContext)
    ensures var n := |GameContextPrompt(s, actx.ctx)|;
      && ListedTeammates(ContextBlock(SpeechPrompt(s, config, describe, actx.ctx), config, describe, n)) == SessionTeam(s)
      && ListedTeammates(ContextBlock(VotePrompt(s, config, describe, actx.ctx), config, describe, n)) == SessionTeam(s)
      && ListedTeammates(ContextBlock(AbilityPrompt(s, config, describe, actx), config, describe, n)) == SessionTeam(s)
  {
    SpeechPromptTeammates(s, config, describe, actx.ctx);
    VotePromptTeammates(s, config, describe, actx.ctx);
    AbilityPromptTeammates(s, config, describe, actx);
  }
}
