/**
 * The browser-side conversation record (client/src/services/conversationStorage.ts): a message
 * list, usage counters and a query budget of 25 that user messages, edits and regenerations
 * spend. Every transition returns a new state; the clock and the random ids are parameters.
 */
module ConversationStorage {
  import opened Wrappers

  datatype Role = User | Assistant

  /** A chat message; `edited` and `editCount` are absent until the first edit. */
  datatype Message = Message(id: string, role: Role, content: string, timestamp: string, edited: Option<bool>, editCount: Option<int>)

  datatype Metadata = Metadata(
    totalQueries: int,
    totalEdits: int,
    totalRefreshes: int,
    totalRegenerations: int,
    sessionStartTime: string,
    lastActivityTime: string,
    fingerprint: string)

  datatype ConversationState = ConversationState(
    id: string,
    messages: seq<Message>,
    metadata: Metadata,
    queryLimit: int,
    queriesRemaining: int)

  const DefaultQueryLimit := 25

  /** `Math.max(0, remaining - 1)`: one query spent, never below zero. */
  function Spend(remaining: int): (r: int)
    ensures r >= 0
    ensures remaining > 0 ==> r == remaining - 1
    ensures remaining <= 0 ==> r == 0
  {
    if remaining - 1 > 0 then remaining - 1 else 0
  }

  /** The queries spent so far: user messages, edits and regenerations. */
  function Used(s: ConversationState): int {
    s.metadata.totalQueries + s.metadata.totalEdits + s.metadata.totalRegenerations
  }

  /**
   * The invariant every state built by these transitions keeps: counters are non-negative, the
   * limit is non-negative, and the remaining budget is the limit less what was used, floored at 0.
   */
  predicate Consistent(s: ConversationState) {
    && s.metadata.totalQueries >= 0 && s.metadata.totalEdits >= 0
    && s.metadata.totalRefreshes >= 0 && s.metadata.totalRegenerations >= 0
    && s.queryLimit >= 0
    && s.queriesRemaining == (if s.queryLimit - Used(s) > 0 then s.queryLimit - Used(s) else 0)
  }

  /** `createNewConversation()` with the conversation id, the device fingerprint and the time given. */
  function NewConversation(id: string, fingerprint: string, now: string): (s: ConversationState)
    ensures s.messages == [] && s.id == id && s.metadata.fingerprint == fingerprint
    ensures s.metadata.totalQueries == 0 && s.metadata.totalEdits == 0
    ensures s.metadata.totalRefreshes == 0 && s.metadata.totalRegenerations == 0
    ensures s.queryLimit == DefaultQueryLimit && s.queriesRemaining == DefaultQueryLimit
    ensures Consistent(s)
  {
    ConversationState(id, [], Metadata(0, 0, 0, 0, now, now, fingerprint), DefaultQueryLimit, DefaultQueryLimit)
  }

  /**
   * The decision of `loadConversation()`, where `started` is the conversation `createNewConversation`
   * would build: no stored text (or an empty one) gives `started`; text that does not decode to a
   * state gives it as well (the catch); so does a state saved under another fingerprint; otherwise
   * the stored state comes back with one more refresh.
   */
  function LoadConversation(stored: Option<string>, decode: string -> Option<ConversationState>,
                            fingerprint: string, started: ConversationState, now: string): (s: ConversationState)
    ensures s == started || (stored.Some? && decode(stored.value).Some?)
  {
    if stored.None? || stored.value == "" then started
    else match decode(stored.value)
      case None => started
      case Some(state) =>
        if state.metadata.fingerprint != fingerprint then started
        else state.(metadata := state.metadata.(totalRefreshes := state.metadata.totalRefreshes + 1, lastActivityTime := now))
  }

  /** A stored state of this device is resumed with only its refresh count and activity time changed. */
  lemma ResumeSameDevice(text: string, decode: string -> Option<ConversationState>, state: ConversationState,
                         started: ConversationState, now: string)
    requires text != "" && decode(text) == Some(state)
    ensures var s := LoadConversation(Some(text), decode, state.metadata.fingerprint, started, now);
            s.id == state.id && s.messages == state.messages && s.queryLimit == state.queryLimit &&
            s.queriesRemaining == state.queriesRemaining &&
            s.metadata == state.metadata.(totalRefreshes := state.metadata.totalRefreshes + 1, lastActivityTime := now)
  {
  }

  /** A state saved under another fingerprint is never resumed. */
  lemma OtherDeviceStartsOver(text: string, decode: string -> Option<ConversationState>, state: ConversationState,
                              fingerprint: string, started: ConversationState, now: string)
    requires decode(text) == Some(state) && state.metadata.fingerprint != fingerprint
    ensures LoadConversation(Some(text), decode, fingerprint, started, now) == started
  {
  }

  /** Loading keeps the invariant when the started state and any stored state keep it. */
  lemma LoadKeepsConsistent(stored: Option<string>, decode: string -> Option<ConversationState>,
                            fingerprint: string, started: ConversationState, now: string)
    requires Consistent(started)
    requires stored.Some? && decode(stored.value).Some? ==> Consistent(decode(stored.value).value)
    ensures Consistent(LoadConversation(stored, decode, fingerprint, started, now))
  {
  }

  /** `addUserMessage(state, content)`: append a user message, count the query, spend one from the budget. */
  function AddUserMessage(s: ConversationState, content: string, messageId: string, now: string): (r: ConversationState)
    ensures r.messages == s.messages + [Message(messageId, User, content, now, None, None)]
    ensures r.metadata == s.metadata.(totalQueries := s.metadata.totalQueries + 1, lastActivityTime := now)
    ensures r.id == s.id && r.queryLimit == s.queryLimit
    ensures r.queriesRemaining == Spend(s.queriesRemaining)
  {
    s.(messages := s.messages + [Message(messageId, User, content, now, None, None)],
       metadata := s.metadata.(totalQueries := s.metadata.totalQueries + 1, lastActivityTime := now),
       queriesRemaining := Spend(s.queriesRemaining))
  }

  /** `addAssistantMessage(state, content)`: append an assistant message; no counter and no budget change. */
  function AddAssistantMessage(s: ConversationState, content: string, messageId: string, now: string): (r: ConversationState)
    ensures r.messages == s.messages + [Message(messageId, Assistant, content, now, None, None)]
    ensures r.metadata == s.metadata.(lastActivityTime := now)
    ensures r.id == s.id && r.queryLimit == s.queryLimit && r.queriesRemaining == s.queriesRemaining
  {
    s.(messages := s.messages + [Message(messageId, Assistant, content, now, None, None)],
       metadata := s.metadata.(lastActivityTime := now))
  }

  /** `messages.findIndex(msg => msg.id === messageId)`: None stands for -1. */
  function FindIndex(messages: seq<Message>, messageId: string): (r: Option<nat>)
    ensures r.Some? ==> r.value < |messages| && messages[r.value].id == messageId &&
                        forall j :: 0 <= j < r.value ==> messages[j].id != messageId
    ensures r.None? <==> forall j :: 0 <= j < |messages| ==> messages[j].id != messageId
  {
    if |messages| == 0 then None
    else if messages[0].id == messageId then Some(0)
    else match FindIndex(messages[1..], messageId)
      case None => None
      case Some(i) => Some(i + 1)
  }

  /** The edited copy of a message: new content, marked edited, one more edit counted from 0. */
  function Edited(m: Message, newContent: string): Message {
    m.(content := newContent, edited := Some(true), editCount := Some(m.editCount.GetOr(0) + 1))
  }

  /**
   * `editMessage(state, messageId, newContent)`: an unknown id leaves the state as it is;
   * otherwise the first message with that id is rewritten, the edit is counted and one query spent.
   */
  function EditMessage(s: ConversationState, messageId: string, newContent: string, now: string): (r: ConversationState)
    ensures FindIndex(s.messages, messageId).None? ==> r == s
    ensures FindIndex(s.messages, messageId).Some? ==>
              var i := FindIndex(s.messages, messageId).value;
              && |r.messages| == |s.messages|
              && r.messages[i] == Edited(s.messages[i], newContent)
              && (forall j :: 0 <= j < |s.messages| && j != i ==> r.messages[j] == s.messages[j])
              && r.metadata == s.metadata.(totalEdits := s.metadata.totalEdits + 1, lastActivityTime := now)
              && r.id == s.id && r.queryLimit == s.queryLimit
              && r.queriesRemaining == Spend(s.queriesRemaining)
  {
    match FindIndex(s.messages, messageId)
    case None => s
    case Some(i) =>
      s.(messages := s.messages[i := Edited(s.messages[i], newContent)],
         metadata := s.metadata.(totalEdits := s.metadata.totalEdits + 1, lastActivityTime := now),
         queriesRemaining := Spend(s.queriesRemaining))
  }

  /** Only the first message with a duplicated id is edited; a later one keeps its content. */
  lemma FirstDuplicateEdited(a: Message, b: Message, s: ConversationState, newContent: string, now: string)
    requires a.id == b.id && s.messages == [a, b]
    ensures EditMessage(s, a.id, newContent, now).messages == [Edited(a, newContent), b]
  {
  }

  /** `trackRegeneration(state)`: messages untouched, one more regeneration, one query spent. */
  function TrackRegeneration(s: ConversationState, now: string): (r: ConversationState)
    ensures r.messages == s.messages && r.id == s.id && r.queryLimit == s.queryLimit
    ensures r.metadata == s.metadata.(totalRegenerations := s.metadata.totalRegenerations + 1, lastActivityTime := now)
    ensures r.queriesRemaining == Spend(s.queriesRemaining)
  {
    s.(metadata := s.metadata.(totalRegenerations := s.metadata.totalRegenerations + 1, lastActivityTime := now),
       queriesRemaining := Spend(s.queriesRemaining))
  }

  /** Each transition keeps the invariant: the budget always equals the limit less the queries used, floored at 0. */
  lemma TransitionsKeepConsistent(s: ConversationState, content: string, messageId: string, newContent: string, now: string)
    requires Consistent(s)
    ensures Consistent(AddUserMessage(s, content, messageId, now))
    ensures Consistent(AddAssistantMessage(s, content, messageId, now))
    ensures Consistent(EditMessage(s, messageId, newContent, now))
    ensures Consistent(TrackRegeneration(s, now))
  {
  }

  /** `hasReachedQueryLimit(state)`. */
  function HasReachedQueryLimit(s: ConversationState): (b: bool)
    ensures Consistent(s) ==> (b <==> Used(s) >= s.queryLimit)
  {
    s.queriesRemaining <= 0
  }

  /** On a consistent state the limit is reached exactly when the queries used reach it. */
  lemma LimitReachedIffBudgetUsed(s: ConversationState)
    requires Consistent(s)
    ensures HasReachedQueryLimit(s) <==> Used(s) >= s.queryLimit
    ensures 0 <= s.queriesRemaining <= s.queryLimit
  {
  }

  /** With the default limit and only user messages spent, the limit is reached at the 25th query and not before. */
  lemma TwentyFiveQueries(s: ConversationState, n: nat)
    requires Consistent(s) && s.queryLimit == DefaultQueryLimit
    requires s.metadata.totalQueries == n && s.metadata.totalEdits == 0 && s.metadata.totalRegenerations == 0
    ensures HasReachedQueryLimit(s) <==> n >= 25
  {
  }

  /** `filter(msg => msg.role === role).length`. */
  function CountRole(messages: seq<Message>, role: Role): (n: nat)
    ensures n <= |messages|
  {
    if |messages| == 0 then 0
    else (if messages[0].role == role then 1 else 0) + CountRole(messages[1..], role)
  }

  /** Every message is either the user's or the assistant's. */
  lemma {:induction false} RolesPartition(messages: seq<Message>)
    ensures CountRole(messages, User) + CountRole(messages, Assistant) == |messages|
  {
    if |messages| > 0 {
      RolesPartition(messages[1..]);
    }
  }

  datatype Stats = Stats(
    messageCount: nat, userMessageCount: nat, assistantMessageCount: nat,
    totalQueries: int, totalEdits: int, totalRefreshes: int, totalRegenerations: int,
    queriesRemaining: int, queryLimit: int)

  /** `getConversationStats(state)`: the user and assistant counts add up to the message count. */
  function ConversationStats(s: ConversationState): (r: Stats)
    ensures r.messageCount == |s.messages|
    ensures r.userMessageCount + r.assistantMessageCount == r.messageCount
    ensures r.queriesRemaining == s.queriesRemaining && r.queryLimit == s.queryLimit
  {
    RolesPartition(s.messages);
    Stats(|s.messages|, CountRole(s.messages, User), CountRole(s.messages, Assistant),
          s.metadata.totalQueries, s.metadata.totalEdits, s.metadata.totalRefreshes, s.metadata.totalRegenerations,
          s.queriesRemaining, s.queryLimit)
  }

  /** A user message adds one to the user count; an assistant message leaves it as it is. */
  lemma {:induction false} CountAppend(messages: seq<Message>, m: Message, role: Role)
    ensures CountRole(messages + [m], role) == CountRole(messages, role) + (if m.role == role then 1 else 0)
  {
    if |messages| > 0 {
      assert (messages + [m])[1..] == messages[1..] + [m];
      CountAppend(messages[1..], m, role);
    } else {
      assert (messages + [m])[1..] == [];
    }
  }

  /** In a state built only by user and assistant messages, the user count equals the queries counted. */
  lemma UserMessagesCounted(s: ConversationState, content: string, messageId: string, now: string)
    requires CountRole(s.messages, User) == s.metadata.totalQueries
    ensures var r := AddUserMessage(s, content, messageId, now);
            CountRole(r.messages, User) == r.metadata.totalQueries
    ensures var r := AddAssistantMessage(s, content, messageId, now);
            CountRole(r.messages, User) == r.metadata.totalQueries
  {
    CountAppend(s.messages, Message(messageId, User, content, now, None, None), User);
    CountAppend(s.messages, Message(messageId, Assistant, content, now, None, None), User);
  }
}
