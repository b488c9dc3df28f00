/**
 * NPCConversationManager: the per-player conversation state machine. Players
 * are keyed by UUID; for each the manager keeps the NPC talked to, the chat
 * history list, the active marker, the last accepted message time and the
 * conversation timeout.
 */
module NpcConversationManager {
  import opened Wrappers
  import opened JavaStrings
  import opened History
  import opened Game
  import opened ArchGptConfig
  import Json
  import CRH = ChatRequestHandler

  const SYSTEM_MESSAGE_BODY := ", a resident of the vibrant world of Minecraft. "
    + "You interact with players in a casual manner, making them feel part of an ongoing adventure. "
    + "Engage them with stories, observations, and comments that reflect your unique personality and knowledge. "
    + "Offer help or guidance only when they seek it, making your interactions feel natural and integral to their experience. "
    + "You're not just an NPC, you're a living, breathing part of this world with your own thoughts and feelings. "
    + "Here's whats going on: "

  /** createSystemMessage: the NPC's character sheet; the combined context is supplied by the caller. */
  function CreateSystemMessage(npcName: string, combinedContext: string): (t: Turn)
    ensures t.role == SYSTEM
    ensures "You are " + npcName <= t.content
    ensures |combinedContext| <= |t.content| && t.content[|t.content| - |combinedContext|..] == combinedContext
  {
    Turn(SYSTEM, "You are " + npcName + SYSTEM_MESSAGE_BODY + combinedContext)
  }

  /** The instruction of a greeting request, on the line after the prompt. */
  function GreetingInstruction(playerName: string, maxTokens: int): string {
    "A player known as " + playerName + " approaches you. "
    + "Greet them naturally in-character, and by name. Keep it under " + IntToString(maxTokens)
    + " completion_tokens. Tell them to right click on you to continue this conversation."
  }

  /**
   * The prompt a greeting starts with: the NPC's combined prompt, or the loaded
   * default prompt when the NPC is not configured or its combined prompt is
   * blank, which happens exactly when the default and the NPC's entries both are.
   */
  function GreetingPromptSource(settings: Settings, file: ConfigFile, npcName: string): (p: Option<string>)
    ensures npcName !in file.npcPrompts ==> p == settings.defaultPrompt
    ensures npcName in file.npcPrompts
      && !(IsBlank(file.defaultPromptEntry.GetOr(FALLBACK_DEFAULT_PROMPT)) && IsBlank(file.npcPrompts[npcName]))
      ==> p == GetNpcPrompt(file, npcName)
    ensures npcName in file.npcPrompts
      && IsBlank(file.defaultPromptEntry.GetOr(FALLBACK_DEFAULT_PROMPT)) && IsBlank(file.npcPrompts[npcName])
      ==> p == settings.defaultPrompt
  {
    var own := GetNpcPrompt(file, npcName);
    if own.None? then settings.defaultPrompt
    else
      GetNpcPromptBlank(file, npcName);
      if IsBlank(own.value) then settings.defaultPrompt else own
  }

  /** A request the manager hands to the reply pipeline. */
  datatype ChatCall = ChatCall(npc: Npc, message: string, kind: CRH.RequestType, history: TurnList?)

  /** Why processPlayerMessage sends nothing, or the request it sends. */
  datatype MessageOutcome =
    | TooShort                 // rejected before anything else
    | CoolingDown              // dropped: within the cooldown window
    | MissingNpc               // the NPE at npc.getName(), after the cooldown update
    | Requested(call: ChatCall)

  datatype Gate = RejectTooShort | RejectCooldown | Admit

  /** The two checks of processPlayerMessage, in order: minimum length, then cooldown. */
  function GateMessage(minLength: int, cooldown: int, last: Option<int>, length: int, now: int): Gate {
    if length < minLength then RejectTooShort
    else if last.Some? && now - last.value < cooldown then RejectCooldown
    else Admit
  }

  /**
   * A message is admitted exactly when it is long enough and no accepted message
   * lies within the cooldown window; once one is admitted at t, every message
   * before t + cooldown is dropped.
   */
  lemma GateCases(minLength: int, cooldown: int, last: Option<int>, length: int, now: int, later: int, length2: int)
    ensures GateMessage(minLength, cooldown, last, length, now) == Admit <==>
      length >= minLength && (last.None? || now - last.value >= cooldown)
    ensures length < minLength ==> GateMessage(minLength, cooldown, last, length, now) == RejectTooShort
    ensures length2 >= minLength && later - now < cooldown ==>
      GateMessage(minLength, cooldown, Some(now), length2, later) == RejectCooldown
  {
  }

  class NpcConversationManager {
    const settings: Settings
    const configFile: ConfigFile
    var playerNpc: map<Uuid, Npc>             // playerNPCMap
    var chatStates: map<Uuid, TurnList>       // npcChatStatesCache
    var activeConversations: set<Uuid>        // the plugin's active-conversations map
    var playerCooldowns: map<Uuid, int>       // last accepted message, in milliseconds
    var timeouts: map<Uuid, nat>              // armed timeouts, with the number of resets since arming

    /** A player has a history exactly while active; an armed timeout or an active player has an NPC. */
    ghost predicate Valid()
      reads this
    {
      && chatStates.Keys == activeConversations
      && timeouts.Keys <= activeConversations
      && activeConversations <= playerNpc.Keys
    }

    constructor (settings: Settings, configFile: ConfigFile)
      ensures this.settings == settings && this.configFile == configFile
      ensures playerNpc == map[] && chatStates == map[] && activeConversations == {}
      ensures playerCooldowns == map[] && timeouts == map[]
      ensures Valid()
    {
      this.settings := settings;
      this.configFile := configFile;
      playerNpc := map[];
      chatStates := map[];
      activeConversations := {};
      playerCooldowns := map[];
      timeouts := map[];
    }

    /** playerInConversation. */
    function PlayerInConversation(uuid: Uuid): (r: bool)
      reads this
      ensures Valid() ==> (r <==> uuid in chatStates)
    {
      uuid in activeConversations
    }

    /**
     * startConversation: binds the NPC, stores a fresh history holding only the
     * system message and marks the player active, overwriting earlier entries.
     * The timeout is armed only when the end phrase is configured: without it
     * the announcement throws first, and completed is false.
     */
    method StartConversation(player: Player, npc: Npc, combinedContext: string) returns (completed: bool)
      requires Valid()
      modifies this
      ensures Valid()
      ensures playerNpc == old(playerNpc)[player.uuid := npc]
      ensures player.uuid in chatStates && fresh(chatStates[player.uuid])
      ensures chatStates == old(chatStates)[player.uuid := chatStates[player.uuid]]
      ensures chatStates[player.uuid].turns == [CreateSystemMessage(npc.name, combinedContext)]
      ensures activeConversations == old(activeConversations) + {player.uuid}
      ensures playerCooldowns == old(playerCooldowns)
      ensures completed <==> configFile.endPhrase.Some?
      ensures timeouts == if completed then old(timeouts)[player.uuid := 0] else old(timeouts)
    {
      var uuid := player.uuid;
      playerNpc := playerNpc[uuid := npc];
      var initialConversationState := new TurnList([]);
      var systemMessageJson := CreateSystemMessage(npc.name, combinedContext);
      initialConversationState.turns := initialConversationState.turns + [systemMessageJson];
      chatStates := chatStates[uuid := initialConversationState];
      activeConversations := activeConversations + {uuid};
      if configFile.endPhrase.None? {
        return false;
      }
      timeouts := timeouts[uuid := 0];
      completed := true;
    }

    /** endConversation: drops the history, the active marker and the timeout; the NPC binding stays. */
    method EndConversation(uuid: Uuid)
      requires Valid()
      modifies this
      ensures Valid()
      ensures chatStates == old(chatStates) - {uuid}
      ensures activeConversations == old(activeConversations) - {uuid}
      ensures timeouts == old(timeouts) - {uuid}
      ensures playerNpc == old(playerNpc) && playerCooldowns == old(playerCooldowns)
    {
      chatStates := chatStates - {uuid};
      activeConversations := activeConversations - {uuid};
      timeouts := timeouts - {uuid};
    }

    /** The phrase that ends a conversation: the configured one, or "cancel". */
    function EndPhrase(): string {
      configFile.endPhrase.GetOr("cancel")
    }

    /** handleCancelCommand: the whole message must equal the phrase up to case, untrimmed. */
    method HandleCancelCommand(player: Player, message: string) returns (ended: bool)
      requires Valid()
      modifies this
      ensures Valid()
      ensures ended <==> EqualsIgnoreCase(message, EndPhrase())
      ensures ended ==>
        && chatStates == old(chatStates) - {player.uuid}
        && activeConversations == old(activeConversations) - {player.uuid}
        && timeouts == old(timeouts) - {player.uuid}
        && playerNpc == old(playerNpc) && playerCooldowns == old(playerCooldowns)
      ensures !ended ==> unchanged(this)
    {
      if EqualsIgnoreCase(message, EndPhrase()) {
        EndConversation(player.uuid);
        return true;
      }
      return false;
    }

    /**
     * getGreeting: a GREETING request with no history, whose message is the
     * selected prompt (rendered "null" when absent) and the greeting instruction.
     */
    function GetGreeting(player: Player, npc: Npc): (call: ChatCall)
      ensures call.kind == CRH.Greeting && call.history == null && call.npc == npc
      ensures JavaString(GreetingPromptSource(settings, configFile, npc.name)) + "\n" <= call.message
      ensures var suffix := GreetingInstruction(player.name, settings.maxResponseLength);
        |suffix| <= |call.message| && call.message[|call.message| - |suffix|..] == suffix
      ensures |call.message| == |JavaString(GreetingPromptSource(settings, configFile, npc.name))| + 1
                                + |GreetingInstruction(player.name, settings.maxResponseLength)|
    {
      var head := JavaString(GreetingPromptSource(settings, configFile, npc.name)) + "\n";
      var instruction := GreetingInstruction(player.name, settings.maxResponseLength);
      var message := head + instruction;
      assert message[..|head|] == head && message[|head|..] == instruction;
      ChatCall(npc, message, CRH.Greeting, null)
    }

    /**
     * processPlayerMessage: the length gate, then the cooldown gate; an admitted
     * message stamps the cooldown and, when the player has an NPC, becomes a
     * CONVERSATION request carrying the stored history (null when none).
     */
    method ProcessPlayerMessage(player: Player, text: string, now: int) returns (outcome: MessageOutcome)
      requires Valid()
      modifies this
      ensures Valid()
      ensures var gate := GateMessage(settings.minCharLength, settings.chatCooldownMillis,
                                      if player.uuid in old(playerCooldowns) then Some(old(playerCooldowns)[player.uuid]) else None,
                                      |text|, now);
        && (gate == RejectTooShort ==> outcome == TooShort && unchanged(this))
        && (gate == RejectCooldown ==> outcome == CoolingDown && unchanged(this))
        && (gate == Admit ==> playerCooldowns == old(playerCooldowns)[player.uuid := now])
        && (gate == Admit && player.uuid !in playerNpc ==> outcome == MissingNpc)
        && (gate == Admit && player.uuid in playerNpc ==>
              outcome == Requested(ChatCall(playerNpc[player.uuid], text, CRH.Conversation,
                                            if player.uuid in chatStates then chatStates[player.uuid] else null)))
      ensures playerNpc == old(playerNpc) && chatStates == old(chatStates)
      ensures activeConversations == old(activeConversations) && timeouts == old(timeouts)
    {
      var uuid := player.uuid;
      if |text| < settings.minCharLength {
        return TooShort;
      }
      if uuid in playerCooldowns {
        var lastTriggerTimeMillis := playerCooldowns[uuid];
        if now - lastTriggerTimeMillis < settings.chatCooldownMillis {
          return CoolingDown;
        }
      }
      playerCooldowns := playerCooldowns[uuid := now];
      if uuid !in playerNpc {
        return MissingNpc;
      }
      var conversationState: TurnList? := if uuid in chatStates then chatStates[uuid] else null;
      outcome := Requested(ChatCall(playerNpc[uuid], text, CRH.Conversation, conversationState));
    }

    /**
     * processNpcResponse: a conversation reply for an active player replaces the
     * stored history with the reply's list and resets the timeout; anything else
     * changes nothing.
     */
    method ProcessNpcResponse(player: Player, result: CRH.ChatResult) returns (committed: bool)
      requires Valid()
      modifies this
      ensures Valid()
      ensures committed <==> player.uuid in old(activeConversations) && result.ConversationResult?
      ensures committed ==>
        && chatStates == old(chatStates)[player.uuid := result.history]
        && timeouts == old(timeouts)[player.uuid := if player.uuid in old(timeouts) then old(timeouts)[player.uuid] + 1 else 0]
        && playerNpc == old(playerNpc) && activeConversations == old(activeConversations)
        && playerCooldowns == old(playerCooldowns)
      ensures !committed ==> unchanged(this)
    {
      var uuid := player.uuid;
      if uuid !in activeConversations {
        return false;
      }
      if !result.ConversationResult? {
        return false;
      }
      chatStates := chatStates[uuid := result.history];
      timeouts := timeouts[uuid := if uuid in timeouts then timeouts[uuid] + 1 else 0];
      committed := true;
    }
  }

  /** The cancel phrase matches in any case but not with surrounding spaces. */
  lemma CancelPhraseUntrimmed()
    ensures EqualsIgnoreCase("CaNcEl", "cancel")
    ensures !EqualsIgnoreCase(" cancel", "cancel") && !EqualsIgnoreCase("cancel ", "cancel")
  {
    assert forall i :: 0 <= i < 6 ==> CharEqualsIgnoreCase("CaNcEl"[i], "cancel"[i]);
  }

  /** Ending twice is the same as ending once. */
  method EndConversationTwice(m: NpcConversationManager, uuid: Uuid)
    requires m.Valid()
    modifies m
    ensures m.Valid()
    ensures m.chatStates == old(m.chatStates) - {uuid} && m.activeConversations == old(m.activeConversations) - {uuid}
    ensures m.timeouts == old(m.timeouts) - {uuid} && m.playerNpc == old(m.playerNpc)
  {
    m.EndConversation(uuid);
    m.EndConversation(uuid);
  }

  /** A second message inside the cooldown window after an accepted one is dropped and changes nothing. */
  method SecondMessageWithinCooldown(m: NpcConversationManager, player: Player, first: string, second: string, t1: int, t2: int)
    returns (o1: MessageOutcome, o2: MessageOutcome)
    requires m.Valid()
    requires |first| >= m.settings.minCharLength && |second| >= m.settings.minCharLength
    requires player.uuid !in m.playerCooldowns
    requires t2 - t1 < m.settings.chatCooldownMillis
    modifies m
    ensures o1 != TooShort && o1 != CoolingDown && o2 == CoolingDown
    ensures m.playerCooldowns == old(m.playerCooldowns)[player.uuid := t1]
  {
    o1 := m.ProcessPlayerMessage(player, first, t1);
    o2 := m.ProcessPlayerMessage(player, second, t2);
  }

  /** A reply that arrives after the conversation ended is discarded; the history is not restored. */
  method ReplyAfterTeardownIsDiscarded(m: NpcConversationManager, player: Player, npc: Npc, combinedContext: string, text: string,
                                      now: int, context: Option<CRH.Context>, exchange: CRH.Exchange,
                                      locale: Option<string>, translation: CRH.Translation)
    returns (committed: bool)
    requires m.Valid() && player.uuid !in m.playerCooldowns && |text| >= m.settings.minCharLength
    modifies m
    ensures !committed
    ensures !m.PlayerInConversation(player.uuid) && player.uuid !in m.chatStates && player.uuid !in m.timeouts
  {
    var _ := m.StartConversation(player, npc, combinedContext);
    var outcome := m.ProcessPlayerMessage(player, text, now);
    assert outcome.Requested?;
    m.EndConversation(player.uuid);
    var call := outcome.call;
    var sent, result := CRH.ProcessMcpRequest(m.settings, context, call.message, call.kind, call.history, exchange, locale, translation);
    committed := m.ProcessNpcResponse(player, result);
  }

  /** Opening a conversation and sending a first message yields a request over the stored one-turn history. */
  method OpenFirstTurn(m: NpcConversationManager, player: Player, npc: Npc, combinedContext: string, text: string, now: int)
    returns (call: ChatCall)
    requires m.Valid() && player.uuid !in m.playerCooldowns && |text| >= m.settings.minCharLength
    modifies m
    ensures m.Valid() && player.uuid in m.activeConversations
    ensures call.message == text && call.kind == CRH.Conversation
    ensures call.history != null && player.uuid in m.chatStates && call.history == m.chatStates[player.uuid]
    ensures fresh(call.history) && call.history.turns == [CreateSystemMessage(npc.name, combinedContext)]
  {
    var _ := m.StartConversation(player, npc, combinedContext);
    var outcome := m.ProcessPlayerMessage(player, text, now);
    call := outcome.call;
  }

  /** A direct-mode conversation reply over a one-turn history, appended in place to that history. */
  method DirectReplyToFirstMessage(settings: Settings, ctx: CRH.Context, list: TurnList, system: Turn, text: string,
                                   body: Option<Json.Json>, locale: Option<string>, translation: CRH.Translation)
    returns (sent: Option<CRH.Outbound>, result: CRH.ChatResult)
    requires !settings.useMcp && CRH.HasApiKey(settings.apiKey) && settings.maxConversationStateSize >= 1
    requires CRH.ContextText(ctx).Some? && list.turns == [system]
    modifies list
    ensures sent.Some? && sent.value.OpenAiPost?
    ensures var messages := sent.value.openAi.messages;
      |messages| == 3 && messages[0].role == SYSTEM && messages[1] == system && messages[2] == Turn(USER, text)
    ensures result.ConversationResult? && result.history == list
    ensures |list.turns| == 3 && list.turns[0] == system && list.turns[1] == Turn(USER, text)
    ensures list.turns[2].role == ASSISTANT && IsTrimmed(list.turns[2].content) && list.turns[2].content != ""
  {
    CRH.DirectOutboundOfOneTurn(settings, ctx, text, CRH.Conversation, system);
    sent, result := CRH.ProcessMcpRequest(settings, Some(ctx), text, CRH.Conversation, list,
                                          CRH.Response(200, body), locale, translation);
    var reply := CRH.ReplyText(settings, ctx, text, CRH.Conversation, [system], CRH.Response(200, body), locale, translation);
    CRH.AppendPairToOneTurn(system, text, reply, settings.maxConversationStateSize);
  }

  /**
   * The first player message of a direct-mode conversation: the request carries
   * two system turns (the synthesized one and the stored character sheet) and
   * the message; the stored history becomes system, user, assistant.
   */
  method DirectFirstTurn(m: NpcConversationManager, player: Player, npc: Npc, combinedContext: string, text: string,
                         now: int, ctx: CRH.Context, body: Option<Json.Json>, locale: Option<string>, translation: CRH.Translation)
    returns (sent: Option<CRH.Outbound>, stored: seq<Turn>)
    requires m.Valid() && player.uuid !in m.playerCooldowns && |text| >= m.settings.minCharLength
    requires !m.settings.useMcp && CRH.HasApiKey(m.settings.apiKey) && m.settings.maxConversationStateSize >= 1
    requires CRH.ContextText(ctx).Some?
    modifies m
    ensures sent.Some? && sent.value.OpenAiPost?
    ensures var messages := sent.value.openAi.messages;
      && |messages| == 3
      && messages[0].role == SYSTEM && messages[1] == CreateSystemMessage(npc.name, combinedContext)
      && messages[2] == Turn(USER, text)
    ensures |stored| == 3 && stored[0] == CreateSystemMessage(npc.name, combinedContext) && stored[1] == Turn(USER, text)
    ensures stored[2].role == ASSISTANT && IsTrimmed(stored[2].content) && stored[2].content != ""
    ensures m.Valid() && player.uuid in m.chatStates && m.chatStates[player.uuid].turns == stored
  {
    var call := OpenFirstTurn(m, player, npc, combinedContext, text, now);
    var result;
    sent, result := DirectReplyToFirstMessage(m.settings, ctx, call.history, CreateSystemMessage(npc.name, combinedContext),
                                              text, body, locale, translation);
    var committed := m.ProcessNpcResponse(player, result);
    stored := m.chatStates[player.uuid].turns;
  }
}
