/**
 * The module-level state of src/lib/socketio.ts: one observable cell per
 * `writable`, the `socket.on` reducer bound to each inbound event, and the
 * command functions that turn user intents into emissions.
 *
 * The reducer is specified on values (`Cells`, `Step`, `Run`) and the
 * stateful client (`Client`) is proved to follow it event by event.
 */
module SocketIO {
  import opened Events
  import opened Text

  /** One entry of the `songs` cell. */
  datatype Song = Song(value: string, labelText: string)

  /** A JavaScript number that may be the result of a division by zero. */
  datatype Percent = Finite(value: real) | PosInfinity | NegInfinity | NaN

  /** The value of every cell the module exports. */
  datatype Cells = Cells(
    chineseMessage: string,
    chineseResponse: string,
    vtuberStatus: map<string, bool>,
    currentMessage: string,
    nextMessage: string,
    aiThinking: bool,
    aiSpeaking: bool,
    humanSpeaking: bool,
    patiencePercent: Percent,
    totalTime: real,
    twitchChat: string,
    twitchChatEnabled: bool,
    llmEnabled: bool,
    ttsEnabled: bool,
    sttEnabled: bool,
    movementEnabled: bool,
    multimodalEnabled: bool,
    selectedAudio: Json,
    songs: seq<Song>,
    lobotomy: string,
    priority: real,
    customPrompt: string,
    memories: seq<Json>,
    searchQuery: string,
    blacklist: string,
    hotkeys: seq<Json>)

  /** The cells by name, to say which of them an event may change. */
  datatype CellName =
    | ChineseMessageCell | ChineseResponseCell | VtuberStatusCell | CurrentMessageCell
    | NextMessageCell | AIThinkingCell | AISpeakingCell | HumanSpeakingCell
    | PatiencePercentCell | TotalTimeCell | TwitchChatCell | TwitchChatEnabledCell
    | LLMEnabledCell | TTSEnabledCell | STTEnabledCell | MovementEnabledCell
    | MultimodalEnabledCell | SelectedAudioCell | SongsCell | LobotomyCell
    | PriorityCell | CustomPromptCell | MemoriesCell | SearchQueryCell
    | BlacklistCell | HotkeysCell

  /** The default value each `writable` is created with. */
  const Initial := Cells(
    chineseMessage := "",
    chineseResponse := "",
    vtuberStatus := map["blink" := false, "nod" := false, "shake_head" := false],
    currentMessage := "",
    nextMessage := "",
    aiThinking := false,
    aiSpeaking := false,
    humanSpeaking := false,
    patiencePercent := Finite(0.0),
    totalTime := 0.0,
    twitchChat := "",
    twitchChatEnabled := true,
    llmEnabled := true,
    ttsEnabled := true,
    sttEnabled := true,
    movementEnabled := true,
    multimodalEnabled := true,
    selectedAudio := JNull,
    songs := [Song("", "Loading...")],
    lobotomy := "",
    priority := 200.0,
    customPrompt := "",
    memories := [],
    searchQuery := "",
    blacklist := "",
    hotkeys := [])

  // ---------------------------------------------------------------------
  // The transforms inside the reducers
  // ---------------------------------------------------------------------

  /**
   * `(crr_time / total_time) * 100` with JavaScript division: there is no
   * guard, so a zero total yields NaN (zero elapsed) or an infinity.
   */
  function PatiencePercent(crrTime: real, totalTime: real): (p: Percent)
    ensures p.Finite? <==> totalTime != 0.0
    ensures p.Finite? ==> p.value * totalTime == 100.0 * crrTime
    ensures totalTime == 0.0 ==> (p == NaN <==> crrTime == 0.0)
    ensures totalTime == 0.0 ==> (p == PosInfinity <==> crrTime > 0.0)
  {
    if totalTime != 0.0 then Finite(crrTime / totalTime * 100.0)
    else if crrTime == 0.0 then NaN
    else if crrTime > 0.0 then PosInfinity
    else NegInfinity
  }

  /** `message.map(song => ({value: song, label: song}))`: the label is the raw file name. */
  function SongsOf(files: seq<string>): (songs: seq<Song>)
    ensures |songs| == |files|
    ensures forall i :: 0 <= i < |files| ==> songs[i].value == files[i] && songs[i].labelText == files[i]
  {
    if files == [] then [] else [Song(files[0], files[0])] + SongsOf(files[1..])
  }

  /** The localized labels of `actionMap` and their canonical tokens. */
  const ActionLabels: map<string, string> := map[
    "\U{7728}\U{773C}" := "blink",       // 眨眼
    "\U{9EDE}\U{982D}" := "nod",         // 點頭
    "\U{6416}\U{982D}" := "shake_head"]  // 搖頭

  const CanonicalActions: set<string> := {"blink", "nod", "shake_head"}

  /**
   * The intended `actionMap[action] || action`: a label of the map becomes
   * its canonical token, any other label passes through unchanged.
   */
  function Normalize(action: string): (command: string)
    ensures action in ActionLabels ==> command in CanonicalActions
    ensures action !in ActionLabels ==> command == action
  {
    if action in ActionLabels then ActionLabels[action] else action
  }

  /** The three localized labels resolve to the three canonical tokens. */
  lemma NormalizeLabels()
    ensures Normalize("\U{7728}\U{773C}") == "blink"
    ensures Normalize("\U{9EDE}\U{982D}") == "nod"
    ensures Normalize("\U{6416}\U{982D}") == "shake_head"
  {
  }

  /** Normalizing twice is normalizing once: canonical tokens are not labels. */
  lemma NormalizeIdempotent(action: string)
    ensures Normalize(Normalize(action)) == Normalize(action)
  {
    if action in ActionLabels {
      assert ActionLabels.Keys == {"\U{7728}\U{773C}", "\U{9EDE}\U{982D}", "\U{6416}\U{982D}"};
      assert "blink" !in ActionLabels && "nod" !in ActionLabels && "shake_head" !in ActionLabels;
    }
  }

  /** Names an object literal inherits from `Object.prototype`; each is truthy. */
  const ObjectPrototypeMembers: set<string> := {
    "constructor", "hasOwnProperty", "isPrototypeOf", "propertyIsEnumerable",
    "toLocaleString", "toString", "valueOf", "__proto__",
    "__defineGetter__", "__defineSetter__", "__lookupGetter__", "__lookupSetter__"}

  /**
   * `actionMap[action] || action` as written: the lookup on an object literal
   * also finds the members every object inherits, and those are truthy.
   */
  function LookupAsWritten(action: string): (command: Command)
    ensures command.InheritedMember? <==> action in ObjectPrototypeMembers
  {
    if action in ActionLabels then Token(ActionLabels[action])
    else if action in ObjectPrototypeMembers then InheritedMember(action)
    else Token(action)
  }

  /** The written lookup agrees with `Normalize` except on inherited member names. */
  lemma LookupAsWrittenAgrees(action: string)
    ensures action !in ObjectPrototypeMembers ==> LookupAsWritten(action) == Token(Normalize(action))
    ensures action in ObjectPrototypeMembers ==> LookupAsWritten(action) != Token(Normalize(action))
  {
    assert forall l :: l in ActionLabels ==> l !in ObjectPrototypeMembers;
  }

  /** "toString" is not passed through: the emitted argument is a function. */
  lemma LookupAsWrittenToString()
    ensures LookupAsWritten("toString") == InheritedMember("toString")
    ensures Normalize("toString") == "toString"
  {
  }

  // ---------------------------------------------------------------------
  // The reducer
  // ---------------------------------------------------------------------

  /**
   * The new cells after the `socket.on` handler of `e` has run, cell by cell:
   * each cell is rewritten by the events bound to it and kept otherwise, so
   * an event without a handler changes nothing.
   */
  function Step(c: Cells, e: Inbound): (d: Cells)
    // no server event writes a cell the user owns
    ensures d.chineseMessage == c.chineseMessage && d.selectedAudio == c.selectedAudio
    ensures d.searchQuery == c.searchQuery
  {
    var next := Cells(
      chineseMessage := c.chineseMessage,
      chineseResponse := if e.ChineseResponse? then e.text else c.chineseResponse,
      vtuberStatus :=
        if e.ActionFeedback? then MergeFeedback(c.vtuberStatus, e.action, e.status) else c.vtuberStatus,
      currentMessage := if e.CurrentMessage? then e.message else c.currentMessage,
      nextMessage :=
        if e.ResetNextMessage? then ""
        else if e.NextChunk? then c.nextMessage + e.message
        else c.nextMessage,
      aiThinking := if e.AIThinking? then e.flag else c.aiThinking,
      aiSpeaking := if e.AISpeaking? then e.flag else c.aiSpeaking,
      humanSpeaking := if e.HumanSpeaking? then e.flag else c.humanSpeaking,
      patiencePercent :=
        if e.PatienceUpdate? then PatiencePercent(e.crrTime, e.totalTime) else c.patiencePercent,
      totalTime := if e.PatienceUpdate? then e.totalTime else c.totalTime,
      twitchChat := if e.RecentTwitchMessages? then JoinLines(e.lines) else c.twitchChat,
      twitchChatEnabled := if e.TwitchStatus? then e.flag else c.twitchChatEnabled,
      llmEnabled := if e.LLMStatus? then e.flag else c.llmEnabled,
      ttsEnabled := if e.TTSStatus? then e.flag else c.ttsEnabled,
      sttEnabled := if e.STTStatus? then e.flag else c.sttEnabled,
      movementEnabled := if e.MovementStatus? then e.flag else c.movementEnabled,
      multimodalEnabled := if e.MultimodalStatus? then e.flag else c.multimodalEnabled,
      selectedAudio := c.selectedAudio,
      songs := if e.AudioList? then SongsOf(e.files) else c.songs,
      lobotomy := if e.FullPrompt? then e.message else c.lobotomy,
      priority := if e.GetCustomPrompt? then e.priority else c.priority,
      customPrompt := if e.GetCustomPrompt? then e.prompt else c.customPrompt,
      memories := if e.GetMemories? then e.items else c.memories,
      searchQuery := c.searchQuery,
      blacklist := if e.GetBlacklist? then JoinLines(e.lines) else c.blacklist,
      hotkeys := if e.GetHotkeys? then e.items else c.hotkeys);
    next
  }

  /** The cells after a sequence of events, handled in delivery order. */
  function Run(c: Cells, es: seq<Inbound>): Cells
    decreases |es|
  {
    if es == [] then c else Run(Step(c, es[0]), es[1..])
  }

  /** The binding table: the cells the handler of `e` writes. */
  function Bound(e: Inbound): (names: set<CellName>)
    ensures ChineseMessageCell !in names && SelectedAudioCell !in names && SearchQueryCell !in names
    ensures names == {} <==>
              e.Error? || e.Connect? || e.Disconnect? || e.ConnectError? || e.ChineseText? || e.VtuberAction?
  {
    match e
    case ChineseResponse(_) => {ChineseResponseCell}
    case ActionFeedback(_, _) => {VtuberStatusCell}
    case CurrentMessage(_) => {CurrentMessageCell}
    case ResetNextMessage => {NextMessageCell}
    case NextChunk(_) => {NextMessageCell}
    case AIThinking(_) => {AIThinkingCell}
    case AISpeaking(_) => {AISpeakingCell}
    case HumanSpeaking(_) => {HumanSpeakingCell}
    case PatienceUpdate(_, _) => {PatiencePercentCell, TotalTimeCell}
    case RecentTwitchMessages(_) => {TwitchChatCell}
    case TwitchStatus(_) => {TwitchChatEnabledCell}
    case LLMStatus(_) => {LLMEnabledCell}
    case TTSStatus(_) => {TTSEnabledCell}
    case STTStatus(_) => {STTEnabledCell}
    case MovementStatus(_) => {MovementEnabledCell}
    case MultimodalStatus(_) => {MultimodalEnabledCell}
    case AudioList(_) => {SongsCell}
    case FullPrompt(_) => {LobotomyCell}
    case GetCustomPrompt(_, _) => {CustomPromptCell, PriorityCell}
    case GetMemories(_) => {MemoriesCell}
    case GetBlacklist(_) => {BlacklistCell}
    case GetHotkeys(_) => {HotkeysCell}
    case _ => {}
  }

  /** The cells written by any event of `es`. */
  function BoundAll(es: seq<Inbound>): set<CellName> {
    if es == [] then {} else Bound(es[0]) + BoundAll(es[1..])
  }

  /** `c` and `d` agree on every cell outside `names`. */
  predicate SameExcept(c: Cells, d: Cells, names: set<CellName>) {
    && (ChineseMessageCell !in names ==> c.chineseMessage == d.chineseMessage)
    && (ChineseResponseCell !in names ==> c.chineseResponse == d.chineseResponse)
    && (VtuberStatusCell !in names ==> c.vtuberStatus == d.vtuberStatus)
    && (CurrentMessageCell !in names ==> c.currentMessage == d.currentMessage)
    && (NextMessageCell !in names ==> c.nextMessage == d.nextMessage)
    && (AIThinkingCell !in names ==> c.aiThinking == d.aiThinking)
    && (AISpeakingCell !in names ==> c.aiSpeaking == d.aiSpeaking)
    && (HumanSpeakingCell !in names ==> c.humanSpeaking == d.humanSpeaking)
    && (PatiencePercentCell !in names ==> c.patiencePercent == d.patiencePercent)
    && (TotalTimeCell !in names ==> c.totalTime == d.totalTime)
    && (TwitchChatCell !in names ==> c.twitchChat == d.twitchChat)
    && (TwitchChatEnabledCell !in names ==> c.twitchChatEnabled == d.twitchChatEnabled)
    && (LLMEnabledCell !in names ==> c.llmEnabled == d.llmEnabled)
    && (TTSEnabledCell !in names ==> c.ttsEnabled == d.ttsEnabled)
    && (STTEnabledCell !in names ==> c.sttEnabled == d.sttEnabled)
    && (MovementEnabledCell !in names ==> c.movementEnabled == d.movementEnabled)
    && (MultimodalEnabledCell !in names ==> c.multimodalEnabled == d.multimodalEnabled)
    && (SelectedAudioCell !in names ==> c.selectedAudio == d.selectedAudio)
    && (SongsCell !in names ==> c.songs == d.songs)
    && (LobotomyCell !in names ==> c.lobotomy == d.lobotomy)
    && (PriorityCell !in names ==> c.priority == d.priority)
    && (CustomPromptCell !in names ==> c.customPrompt == d.customPrompt)
    && (MemoriesCell !in names ==> c.memories == d.memories)
    && (SearchQueryCell !in names ==> c.searchQuery == d.searchQuery)
    && (BlacklistCell !in names ==> c.blacklist == d.blacklist)
    && (HotkeysCell !in names ==> c.hotkeys == d.hotkeys)
  }

  /** Every handler writes only the cells its binding names. */
  lemma StepChangesOnlyBound(c: Cells, e: Inbound)
    ensures SameExcept(c, Step(c, e), Bound(e))
  {
    if e.Error? || e.Connect? || e.Disconnect? || e.ConnectError? {
      StepConnectionBound(c, e);
    } else if e.ChineseText? || e.ChineseResponse? || e.VtuberAction? || e.ActionFeedback? {
      StepChineseSupportBound(c, e);
    } else if e.CurrentMessage? || e.ResetNextMessage? || e.NextChunk? {
      StepMessagesBound(c, e);
    } else if e.AIThinking? || e.AISpeaking? || e.HumanSpeaking? || e.PatienceUpdate? {
      StepSignalsBound(c, e);
    } else if e.RecentTwitchMessages? || e.TwitchStatus? || e.LLMStatus? {
      StepTwitchBound(c, e);
    } else if e.TTSStatus? || e.STTStatus? || e.MovementStatus? || e.MultimodalStatus? {
      StepControlsBound(c, e);
    } else if e.AudioList? || e.FullPrompt? || e.GetCustomPrompt? {
      StepListsBound(c, e);
    } else {
      StepMemoryBound(c, e);
    }
  }

  // The frame property one section of handlers at a time.

  lemma StepConnectionBound(c: Cells, e: Inbound)
    requires e.Error? || e.Connect? || e.Disconnect? || e.ConnectError?
    ensures SameExcept(c, Step(c, e), Bound(e))
  {
  }

  lemma StepChineseSupportBound(c: Cells, e: Inbound)
    requires e.ChineseText? || e.ChineseResponse? || e.VtuberAction? || e.ActionFeedback?
    ensures SameExcept(c, Step(c, e), Bound(e))
  {
  }

  lemma StepMessagesBound(c: Cells, e: Inbound)
    requires e.CurrentMessage? || e.ResetNextMessage? || e.NextChunk?
    ensures SameExcept(c, Step(c, e), Bound(e))
  {
  }

  lemma StepSignalsBound(c: Cells, e: Inbound)
    requires e.AIThinking? || e.AISpeaking? || e.HumanSpeaking? || e.PatienceUpdate?
    ensures SameExcept(c, Step(c, e), Bound(e))
  {
  }

  lemma StepTwitchBound(c: Cells, e: Inbound)
    requires e.RecentTwitchMessages? || e.TwitchStatus? || e.LLMStatus?
    ensures SameExcept(c, Step(c, e), Bound(e))
  {
  }

  lemma StepControlsBound(c: Cells, e: Inbound)
    requires e.TTSStatus? || e.STTStatus? || e.MovementStatus? || e.MultimodalStatus?
    ensures SameExcept(c, Step(c, e), Bound(e))
  {
  }

  lemma StepListsBound(c: Cells, e: Inbound)
    requires e.AudioList? || e.FullPrompt? || e.GetCustomPrompt?
    ensures SameExcept(c, Step(c, e), Bound(e))
  {
  }

  lemma StepMemoryBound(c: Cells, e: Inbound)
    requires e.GetMemories? || e.GetBlacklist? || e.GetHotkeys?
    ensures SameExcept(c, Step(c, e), Bound(e))
  {
  }

  /** Over a run, only cells bound to some delivered event can change. */
  lemma {:induction false} RunChangesOnlyBound(c: Cells, es: seq<Inbound>)
    ensures SameExcept(c, Run(c, es), BoundAll(es))
    decreases |es|
  {
    if es != [] {
      StepChangesOnlyBound(c, es[0]);
      RunChangesOnlyBound(Step(c, es[0]), es[1..]);
    }
  }

  /**
   * The cells the user writes (the sent message echo, the selected audio,
   * the memory search query) are never written by an inbound event.
   */
  lemma {:induction false} UserCellsSurviveEvents(c: Cells, es: seq<Inbound>)
    ensures Run(c, es).chineseMessage == c.chineseMessage
    ensures Run(c, es).selectedAudio == c.selectedAudio
    ensures Run(c, es).searchQuery == c.searchQuery
  {
    var user := {ChineseMessageCell, SelectedAudioCell, SearchQueryCell};
    assert forall e :: Bound(e) !! user;
    BoundAllDisjoint(es, user);
    RunChangesOnlyBound(c, es);
  }

  lemma {:induction false} BoundAllDisjoint(es: seq<Inbound>, names: set<CellName>)
    requires forall e :: Bound(e) !! names
    ensures BoundAll(es) !! names
    decreases |es|
  {
    if es != [] {
      BoundAllDisjoint(es[1..], names);
    }
  }

  /** Running `a` and then `b` is running `a + b`. */
  lemma {:induction false} RunAppend(c: Cells, a: seq<Inbound>, b: seq<Inbound>)
    ensures Run(c, a + b) == Run(Run(c, a), b)
    decreases |a|
  {
    if a == [] {
      assert a + b == b;
    } else {
      assert (a + b)[0] == a[0] && (a + b)[1..] == a[1..] + b;
      RunAppend(Step(c, a[0]), a[1..], b);
    }
  }

  /** The text a single event adds to the accumulator when it is not a reset. */
  function ChunkOf(e: Inbound): string {
    if e.NextChunk? then e.message else ""
  }

  /** The text carried by the `next_chunk` events of `es`, in order. */
  function Chunks(es: seq<Inbound>): string
    decreases |es|
  {
    if es == [] then "" else ChunkOf(es[0]) + Chunks(es[1..])
  }

  predicate NoReset(es: seq<Inbound>) {
    forall i :: 0 <= i < |es| ==> !es[i].ResetNextMessage?
  }

  /**
   * Without a reset, chunks are appended to whatever the accumulator already
   * holds, in delivery order; every other event leaves it alone.
   */
  lemma {:induction false} NextMessageAccumulates(c: Cells, es: seq<Inbound>)
    requires NoReset(es)
    ensures Run(c, es).nextMessage == c.nextMessage + Chunks(es)
    decreases |es|
  {
    if es == [] {
      assert c.nextMessage + "" == c.nextMessage;
    } else {
      var d := Step(c, es[0]);
      assert Run(c, es) == Run(d, es[1..]);
      StepNextMessage(c, es[0]);
      NoResetTail(es);
      NextMessageAccumulates(d, es[1..]);
      assert Chunks(es) == ChunkOf(es[0]) + Chunks(es[1..]);
      assert (c.nextMessage + ChunkOf(es[0])) + Chunks(es[1..]) == c.nextMessage + Chunks(es);
    }
  }

  /** A suffix of a reset-free sequence is reset-free. */
  lemma NoResetTail(es: seq<Inbound>)
    requires es != [] && NoReset(es)
    ensures NoReset(es[1..])
  {
    forall i | 0 <= i < |es[1..]| ensures !es[1..][i].ResetNextMessage? {
      assert es[1..][i] == es[i + 1];
    }
  }

  /** One event other than a reset appends its chunk text, if any, to the accumulator. */
  lemma StepNextMessage(c: Cells, e: Inbound)
    requires !e.ResetNextMessage?
    ensures Step(c, e).nextMessage == c.nextMessage + ChunkOf(e)
  {
    assert c.nextMessage + "" == c.nextMessage;
  }

  /** After a reset, the accumulator holds exactly the chunks delivered since. */
  lemma NextMessageAfterReset(c: Cells, before: seq<Inbound>, after: seq<Inbound>)
    requires NoReset(after)
    ensures Run(c, before + [ResetNextMessage] + after).nextMessage == Chunks(after)
  {
    RunAppend(c, before + [ResetNextMessage], after);
    RunAppend(c, before, [ResetNextMessage]);
    NextMessageAccumulates(Run(c, before + [ResetNextMessage]), after);
  }

  /** reset, chunk "A", chunk "B" leaves "AB", whatever was there before. */
  lemma ResetThenTwoChunks(c: Cells)
    ensures Run(c, [ResetNextMessage, NextChunk("A"), NextChunk("B")]).nextMessage == "AB"
  {
    var after := [NextChunk("A"), NextChunk("B")];
    NextMessageAfterReset(c, [], after);
    assert [] + [ResetNextMessage] + after == [ResetNextMessage, NextChunk("A"), NextChunk("B")];
  }

  // The per-section cases of `Step`, used to connect the handlers below to it.

  lemma StepConnection(c: Cells, e: Inbound)
    requires e.Error? || e.Connect? || e.Disconnect? || e.ConnectError?
    ensures Step(c, e) == c
  {
  }

  lemma StepChineseSupport(c: Cells, e: Inbound)
    requires e.ChineseText? || e.ChineseResponse? || e.VtuberAction? || e.ActionFeedback?
    ensures e.ChineseText? || e.VtuberAction? ==> Step(c, e) == c
    ensures e.ChineseResponse? ==> Step(c, e) == c.(chineseResponse := e.text)
    ensures e.ActionFeedback? ==>
      Step(c, e) == c.(vtuberStatus := MergeFeedback(c.vtuberStatus, e.action, e.status))
  {
  }

  lemma StepMessages(c: Cells, e: Inbound)
    requires e.CurrentMessage? || e.ResetNextMessage? || e.NextChunk? || e.AIThinking?
          || e.AISpeaking? || e.HumanSpeaking? || e.PatienceUpdate?
    ensures e.CurrentMessage? ==> Step(c, e) == c.(currentMessage := e.message)
    ensures e.ResetNextMessage? ==> Step(c, e) == c.(nextMessage := "")
    ensures e.NextChunk? ==> Step(c, e) == c.(nextMessage := c.nextMessage + e.message)
    ensures e.AIThinking? ==> Step(c, e) == c.(aiThinking := e.flag)
    ensures e.AISpeaking? ==> Step(c, e) == c.(aiSpeaking := e.flag)
    ensures e.HumanSpeaking? ==> Step(c, e) == c.(humanSpeaking := e.flag)
    ensures e.PatienceUpdate? ==>
      Step(c, e) == c.(patiencePercent := PatiencePercent(e.crrTime, e.totalTime), totalTime := e.totalTime)
  {
  }

  lemma StepControls(c: Cells, e: Inbound)
    requires e.RecentTwitchMessages? || e.TwitchStatus? || e.LLMStatus? || e.TTSStatus?
          || e.STTStatus? || e.MovementStatus? || e.MultimodalStatus?
    ensures e.RecentTwitchMessages? ==> Step(c, e) == c.(twitchChat := JoinLines(e.lines))
    ensures e.TwitchStatus? ==> Step(c, e) == c.(twitchChatEnabled := e.flag)
    ensures e.LLMStatus? ==> Step(c, e) == c.(llmEnabled := e.flag)
    ensures e.TTSStatus? ==> Step(c, e) == c.(ttsEnabled := e.flag)
    ensures e.STTStatus? ==> Step(c, e) == c.(sttEnabled := e.flag)
    ensures e.MovementStatus? ==> Step(c, e) == c.(movementEnabled := e.flag)
    ensures e.MultimodalStatus? ==> Step(c, e) == c.(multimodalEnabled := e.flag)
  {
  }

  lemma StepLists(c: Cells, e: Inbound)
    requires e.AudioList? || e.FullPrompt? || e.GetCustomPrompt? || e.GetMemories?
          || e.GetBlacklist? || e.GetHotkeys?
    ensures e.AudioList? ==> Step(c, e) == c.(songs := SongsOf(e.files))
    ensures e.FullPrompt? ==> Step(c, e) == c.(lobotomy := e.message)
    ensures e.GetCustomPrompt? ==> Step(c, e) == c.(customPrompt := e.prompt, priority := e.priority)
    ensures e.GetMemories? ==> Step(c, e) == c.(memories := e.items)
    ensures e.GetBlacklist? ==> Step(c, e) == c.(blacklist := JoinLines(e.lines))
    ensures e.GetHotkeys? ==> Step(c, e) == c.(hotkeys := e.items)
  {
  }

  /**
   * The socket's connection flag (socket.io-client's `socket.connected`, read
   * by `manualConnect` and `manualDisconnect`) after the transport delivers `e`.
   */
  function ConnectedAfter(connected: bool, e: Inbound): bool {
    if e.Connect? then true else if e.Disconnect? then false else connected
  }

  /** The connection flag after a sequence of events, in delivery order. */
  function ConnectedRun(connected: bool, es: seq<Inbound>): bool
    decreases |es|
  {
    if es == [] then connected else ConnectedRun(ConnectedAfter(connected, es[0]), es[1..])
  }

  /** No `connect` and no `disconnect` among the events. */
  predicate NoTransition(es: seq<Inbound>) {
    forall i :: 0 <= i < |es| ==> !es[i].Connect? && !es[i].Disconnect?
  }

  /** Only `connect` and `disconnect` move the connection flag. */
  lemma {:induction false} ConnectedNeedsTransition(connected: bool, es: seq<Inbound>)
    requires NoTransition(es)
    ensures ConnectedRun(connected, es) == connected
    decreases |es|
  {
    if es != [] {
      assert forall i :: 0 <= i < |es[1..]| ==> es[1..][i] == es[i + 1];
      ConnectedNeedsTransition(ConnectedAfter(connected, es[0]), es[1..]);
    }
  }

  /** Running `a` and then `b` is running `a + b`. */
  lemma {:induction false} ConnectedRunAppend(connected: bool, a: seq<Inbound>, b: seq<Inbound>)
    ensures ConnectedRun(connected, a + b) == ConnectedRun(ConnectedRun(connected, a), b)
    decreases |a|
  {
    if a == [] {
      assert a + b == b;
    } else {
      assert (a + b)[0] == a[0] && (a + b)[1..] == a[1..] + b;
      ConnectedRunAppend(ConnectedAfter(connected, a[0]), a[1..], b);
    }
  }

  /**
   * Whatever came before, the flag is set exactly when the last transition
   * delivered is a `connect`.
   */
  lemma ConnectedByLastTransition(connected: bool, before: seq<Inbound>, t: Inbound, after: seq<Inbound>)
    requires t.Connect? || t.Disconnect?
    requires NoTransition(after)
    ensures ConnectedRun(connected, before + [t] + after) <==> t.Connect?
  {
    ConnectedRunAppend(connected, before + [t], after);
    ConnectedRunAppend(connected, before, [t]);
    ConnectedNeedsTransition(ConnectedRun(connected, before + [t]), after);
  }

  /** The toasts the handler of `e` raises. */
  function NoticesFor(e: Inbound): (ns: seq<Notice>)
    ensures |ns| <= 1
    ensures ErrorToast in ns <==> e.Error? || e.ConnectError?
    ensures WarningToast in ns <==> e.Disconnect? && e.reason == "io server disconnect"
    ensures InfoToast !in ns
  {
    if e.Error? || e.ConnectError? then [ErrorToast]
    else if e.Disconnect? && e.reason == "io server disconnect" then [WarningToast]
    else []
  }

  // ---------------------------------------------------------------------
  // The stateful client
  // ---------------------------------------------------------------------

  /**
   * The module's cells as fields, the socket's connection flag, the calls
   * made on the socket (`emit`, `connect`, `disconnect`) and the toasts shown.
   */
  class Client {
    var chineseMessage: string
    var chineseResponse: string
    var vtuberStatus: map<string, bool>
    var currentMessage: string
    var nextMessage: string
    var aiThinking: bool
    var aiSpeaking: bool
    var humanSpeaking: bool
    var patiencePercent: Percent
    var totalTime: real
    var twitchChat: string
    var twitchChatEnabled: bool
    var llmEnabled: bool
    var ttsEnabled: bool
    var sttEnabled: bool
    var movementEnabled: bool
    var multimodalEnabled: bool
    var selectedAudio: Json
    var songs: seq<Song>
    var lobotomy: string
    var priority: real
    var customPrompt: string
    var memories: seq<Json>
    var searchQuery: string
    var blacklist: string
    var hotkeys: seq<Json>

    var connected: bool
    var calls: seq<TransportCall>
    var notices: seq<Notice>

    /** The current value of every cell. */
    function Snapshot(): Cells
      reads this`chineseMessage, this`chineseResponse, this`vtuberStatus, this`currentMessage,
        this`nextMessage, this`aiThinking, this`aiSpeaking, this`humanSpeaking,
        this`patiencePercent, this`totalTime, this`twitchChat, this`twitchChatEnabled,
        this`llmEnabled, this`ttsEnabled, this`sttEnabled, this`movementEnabled,
        this`multimodalEnabled, this`selectedAudio, this`songs, this`lobotomy, this`priority,
        this`customPrompt, this`memories, this`searchQuery, this`blacklist, this`hotkeys
    {
      Cells(chineseMessage, chineseResponse, vtuberStatus, currentMessage, nextMessage,
            aiThinking, aiSpeaking, humanSpeaking, patiencePercent, totalTime,
            twitchChat, twitchChatEnabled, llmEnabled, ttsEnabled, sttEnabled,
            movementEnabled, multimodalEnabled, selectedAudio, songs, lobotomy,
            priority, customPrompt, memories, searchQuery, blacklist, hotkeys)
    }

    /** What the client has done outside its cells: the connection flag, the transport calls, the toasts. */
    function Effects(): (bool, seq<TransportCall>, seq<Notice>)
      reads this`connected, this`calls, this`notices
    {
      (connected, calls, notices)
    }

    /** Module load: every cell at its default, and the auto-connecting socket opened. */
    constructor ()
      ensures Snapshot() == Initial
      ensures !connected && calls == [Open] && notices == []
    {
      chineseMessage, chineseResponse := "", "";
      vtuberStatus := map["blink" := false, "nod" := false, "shake_head" := false];
      currentMessage, nextMessage := "", "";
      aiThinking, aiSpeaking, humanSpeaking := false, false, false;
      patiencePercent, totalTime := Finite(0.0), 0.0;
      twitchChat, twitchChatEnabled := "", true;
      llmEnabled, ttsEnabled, sttEnabled, movementEnabled, multimodalEnabled := true, true, true, true, true;
      selectedAudio, songs := JNull, [Song("", "Loading...")];
      lobotomy, priority, customPrompt := "", 200.0, "";
      memories, searchQuery, blacklist, hotkeys := [], "", "", [];
      connected, calls, notices := false, [Open], [];
    }

    /**
     * Deliver one inbound event to the handler registered for its name; an
     * event without a handler changes nothing. The transport's own
     * `connect`/`disconnect` set the connection flag.
     */
    method Handle(e: Inbound)
      modifies this
      ensures Snapshot() == Step(old(Snapshot()), e)
      ensures connected == ConnectedAfter(old(connected), e)
      ensures notices == old(notices) + NoticesFor(e)
      ensures calls == old(calls)
    {
      HandleCells(e);
      HandleConnection(e);
    }

    /** The cell-writing handlers of `e`, dispatched by the group they are declared in. */
    method HandleCells(e: Inbound)
      modifies this
      ensures Snapshot() == Step(old(Snapshot()), e)
      ensures Effects() == old(Effects())
    {
      if e.Error? || e.Connect? || e.Disconnect? || e.ConnectError? {
        StepConnection(Snapshot(), e);
      } else if e.ChineseText? || e.ChineseResponse? || e.VtuberAction? || e.ActionFeedback? {
        HandleChineseSupport(e);
      } else if e.CurrentMessage? || e.ResetNextMessage? || e.NextChunk? || e.AIThinking?
             || e.AISpeaking? || e.HumanSpeaking? || e.PatienceUpdate? {
        HandleMessages(e);
      } else if e.RecentTwitchMessages? || e.TwitchStatus? || e.LLMStatus? || e.TTSStatus?
             || e.STTStatus? || e.MovementStatus? || e.MultimodalStatus? {
        HandleControls(e);
      } else {
        HandleLists(e);
      }
    }

    /**
     * The error and connection handlers: toasts only, and no cell; the
     * connection flag follows the transport's own events.
     */
    method HandleConnection(e: Inbound)
      modifies this
      ensures Snapshot() == old(Snapshot())
      ensures connected == ConnectedAfter(old(connected), e)
      ensures notices == old(notices) + NoticesFor(e)
      ensures calls == old(calls)
    {
      if e.Error? || e.ConnectError? {
        notices := notices + [ErrorToast];
      } else if e.Connect? {
        connected := true;
      } else if e.Disconnect? {
        OnDisconnect(e.reason);
      } else {
        assert notices + [] == notices;
      }
    }

    /** The Chinese-message and VTuber-control handlers. */
    method HandleChineseSupport(e: Inbound)
      requires e.ChineseText? || e.ChineseResponse? || e.VtuberAction? || e.ActionFeedback?
      modifies this
      ensures Snapshot() == Step(old(Snapshot()), e)
      ensures Effects() == old(Effects())
    {
      ghost var before := Snapshot();
      match e {
        case ChineseText(_) =>
        case ChineseResponse(text) => OnChineseResponse(text);
        case VtuberAction(_) =>
        case ActionFeedback(action, status) => OnActionFeedback(action, status);
      }
      StepChineseSupport(before, e);
    }

    /** The current-message, next-message, signal and patience handlers. */
    method HandleMessages(e: Inbound)
      requires e.CurrentMessage? || e.ResetNextMessage? || e.NextChunk? || e.AIThinking?
            || e.AISpeaking? || e.HumanSpeaking? || e.PatienceUpdate?
      modifies this
      ensures Snapshot() == Step(old(Snapshot()), e)
      ensures Effects() == old(Effects())
    {
      ghost var before := Snapshot();
      match e {
        case CurrentMessage(message) => OnCurrentMessage(message);
        case ResetNextMessage => OnResetNextMessage();
        case NextChunk(message) => OnNextChunk(message);
        case AIThinking(flag) => OnAIThinking(flag);
        case AISpeaking(flag) => OnAISpeaking(flag);
        case HumanSpeaking(flag) => OnHumanSpeaking(flag);
        case PatienceUpdate(crr, total) => OnPatienceUpdate(crr, total);
      }
      StepMessages(before, e);
    }

    /** The Twitch-chat and module-control handlers. */
    method HandleControls(e: Inbound)
      requires e.RecentTwitchMessages? || e.TwitchStatus? || e.LLMStatus? || e.TTSStatus?
            || e.STTStatus? || e.MovementStatus? || e.MultimodalStatus?
      modifies this
      ensures Snapshot() == Step(old(Snapshot()), e)
      ensures Effects() == old(Effects())
    {
      ghost var before := Snapshot();
      match e {
        case RecentTwitchMessages(lines) => OnRecentTwitchMessages(lines);
        case TwitchStatus(flag) => OnTwitchStatus(flag);
        case LLMStatus(flag) => OnLLMStatus(flag);
        case TTSStatus(flag) => OnTTSStatus(flag);
        case STTStatus(flag) => OnSTTStatus(flag);
        case MovementStatus(flag) => OnMovementStatus(flag);
        case MultimodalStatus(flag) => OnMultimodalStatus(flag);
      }
      StepControls(before, e);
    }

    /** The audio, prompt, memory, blacklist and hotkey handlers. */
    method HandleLists(e: Inbound)
      requires e.AudioList? || e.FullPrompt? || e.GetCustomPrompt? || e.GetMemories?
            || e.GetBlacklist? || e.GetHotkeys?
      modifies this
      ensures Snapshot() == Step(old(Snapshot()), e)
      ensures Effects() == old(Effects())
    {
      ghost var before := Snapshot();
      match e {
        case AudioList(files) => OnAudioList(files);
        case FullPrompt(message) => OnFullPrompt(message);
        case GetCustomPrompt(prompt, p) => OnGetCustomPrompt(prompt, p);
        case GetMemories(items) => OnGetMemories(items);
        case GetBlacklist(lines) => OnGetBlacklist(lines);
        case GetHotkeys(items) => OnGetHotkeys(items);
      }
      StepLists(before, e);
    }

    /** The `disconnect` handler; the socket itself is no longer connected. */
    method OnDisconnect(reason: string)
      modifies this
      ensures Snapshot() == old(Snapshot()) && !connected && calls == old(calls)
      ensures notices == old(notices) + (if reason == "io server disconnect" then [WarningToast] else [])
    {
      connected := false;
      if reason == "io server disconnect" {
        notices := notices + [WarningToast];
      }
    }

    /** The `chinese_response` handler. */
    method OnChineseResponse(text: string)
      modifies this
      ensures Snapshot() == old(Snapshot()).(chineseResponse := text)
      ensures Effects() == old(Effects())
    {
      chineseResponse := text;
    }

    /** The `action_feedback` handler. */
    method OnActionFeedback(action: string, status: string)
      modifies this
      ensures Snapshot() == old(Snapshot()).(vtuberStatus := MergeFeedback(old(vtuberStatus), action, status))
      ensures Effects() == old(Effects())
    {
      vtuberStatus := MergeFeedback(vtuberStatus, action, status);
    }

    /** The `current_message` handler. */
    method OnCurrentMessage(message: string)
      modifies this
      ensures Snapshot() == old(Snapshot()).(currentMessage := message)
      ensures Effects() == old(Effects())
    {
      currentMessage := message;
    }

    /** The `reset_next_message` handler. */
    method OnResetNextMessage()
      modifies this
      ensures Snapshot() == old(Snapshot()).(nextMessage := "")
      ensures Effects() == old(Effects())
    {
      nextMessage := "";
    }

    /** The `next_chunk` handler. */
    method OnNextChunk(message: string)
      modifies this
      ensures Snapshot() == old(Snapshot()).(nextMessage := old(nextMessage) + message)
      ensures Effects() == old(Effects())
    {
      nextMessage := nextMessage + message;
    }

    /** The `AI_thinking` handler. */
    method OnAIThinking(flag: bool)
      modifies this
      ensures Snapshot() == old(Snapshot()).(aiThinking := flag)
      ensures Effects() == old(Effects())
    {
      aiThinking := flag;
    }

    /** The `AI_speaking` handler. */
    method OnAISpeaking(flag: bool)
      modifies this
      ensures Snapshot() == old(Snapshot()).(aiSpeaking := flag)
      ensures Effects() == old(Effects())
    {
      aiSpeaking := flag;
    }

    /** The `human_speaking` handler. */
    method OnHumanSpeaking(flag: bool)
      modifies this
      ensures Snapshot() == old(Snapshot()).(humanSpeaking := flag)
      ensures Effects() == old(Effects())
    {
      humanSpeaking := flag;
    }

    /** The `patience_update` handler. */
    method OnPatienceUpdate(crrTime: real, total: real)
      modifies this
      ensures Snapshot() == old(Snapshot()).(patiencePercent := PatiencePercent(crrTime, total), totalTime := total)
      ensures Effects() == old(Effects())
    {
      patiencePercent := PatiencePercent(crrTime, total);
      totalTime := total;
    }

    /** The `recent_twitch_messages` handler. */
    method OnRecentTwitchMessages(lines: seq<string>)
      modifies this
      ensures Snapshot() == old(Snapshot()).(twitchChat := JoinLines(lines))
      ensures Effects() == old(Effects())
    {
      twitchChat := JoinLines(lines);
    }

    /** The `twitch_status` handler. */
    method OnTwitchStatus(flag: bool)
      modifies this
      ensures Snapshot() == old(Snapshot()).(twitchChatEnabled := flag)
      ensures Effects() == old(Effects())
    {
      twitchChatEnabled := flag;
    }

    /** The `LLM_status` handler. */
    method OnLLMStatus(flag: bool)
      modifies this
      ensures Snapshot() == old(Snapshot()).(llmEnabled := flag)
      ensures Effects() == old(Effects())
    {
      llmEnabled := flag;
    }

    /** The `TTS_status` handler. */
    method OnTTSStatus(flag: bool)
      modifies this
      ensures Snapshot() == old(Snapshot()).(ttsEnabled := flag)
      ensures Effects() == old(Effects())
    {
      ttsEnabled := flag;
    }

    /** The `STT_status` handler. */
    method OnSTTStatus(flag: bool)
      modifies this
      ensures Snapshot() == old(Snapshot()).(sttEnabled := flag)
      ensures Effects() == old(Effects())
    {
      sttEnabled := flag;
    }

    /** The `movement_status` handler. */
    method OnMovementStatus(flag: bool)
      modifies this
      ensures Snapshot() == old(Snapshot()).(movementEnabled := flag)
      ensures Effects() == old(Effects())
    {
      movementEnabled := flag;
    }

    /** The `multimodal_status` handler. */
    method OnMultimodalStatus(flag: bool)
      modifies this
      ensures Snapshot() == old(Snapshot()).(multimodalEnabled := flag)
      ensures Effects() == old(Effects())
    {
      multimodalEnabled := flag;
    }

    /** The `audio_list` handler. */
    method OnAudioList(files: seq<string>)
      modifies this
      ensures Snapshot() == old(Snapshot()).(songs := SongsOf(files))
      ensures Effects() == old(Effects())
    {
      songs := SongsOf(files);
    }

    /** The `full_prompt` handler. */
    method OnFullPrompt(message: string)
      modifies this
      ensures Snapshot() == old(Snapshot()).(lobotomy := message)
      ensures Effects() == old(Effects())
    {
      lobotomy := message;
    }

    /** The `get_custom_prompt` handler. */
    method OnGetCustomPrompt(prompt: string, p: real)
      modifies this
      ensures Snapshot() == old(Snapshot()).(customPrompt := prompt, priority := p)
      ensures Effects() == old(Effects())
    {
      customPrompt := prompt;
      priority := p;
    }

    /** The `get_memories` handler. */
    method OnGetMemories(items: seq<Json>)
      modifies this
      ensures Snapshot() == old(Snapshot()).(memories := items)
      ensures Effects() == old(Effects())
    {
      memories := items;
    }

    /** The `get_blacklist` handler. */
    method OnGetBlacklist(lines: seq<string>)
      modifies this
      ensures Snapshot() == old(Snapshot()).(blacklist := JoinLines(lines))
      ensures Effects() == old(Effects())
    {
      blacklist := JoinLines(lines);
    }

    /** The `get_hotkeys` handler. */
    method OnGetHotkeys(items: seq<Json>)
      modifies this
      ensures Snapshot() == old(Snapshot()).(hotkeys := items)
      ensures Effects() == old(Effects())
    {
      hotkeys := items;
    }

    /**
     * `sendChineseText`: blank text does nothing; otherwise the untrimmed
     * text is emitted once and echoed into `chineseMessage`.
     */
    method SendChineseText(text: string)
      modifies this
      ensures IsBlank(text) ==> calls == old(calls) && Snapshot() == old(Snapshot())
      ensures !IsBlank(text) ==> calls == old(calls) + [Emit(ChineseTextOut(text))]
      ensures !IsBlank(text) ==> Snapshot() == old(Snapshot()).(chineseMessage := text)
      ensures connected == old(connected) && notices == old(notices)
    {
      if !IsBlank(text) {
        calls := calls + [Emit(ChineseTextOut(text))];
        chineseMessage := text;
      }
    }

    /**
     * `triggerVtuberAction`: exactly one `vtuber_action`, carrying what the
     * table lookup yields as written; for every label not inherited from
     * `Object.prototype` that is the normalized token.
     */
    method TriggerVtuberAction(action: string)
      modifies this
      ensures calls == old(calls) + [Emit(VtuberActionOut(LookupAsWritten(action)))]
      ensures action !in ObjectPrototypeMembers ==>
                calls == old(calls) + [Emit(VtuberActionOut(Token(Normalize(action))))]
      ensures Snapshot() == old(Snapshot())
      ensures connected == old(connected) && notices == old(notices)
    {
      calls := calls + [Emit(VtuberActionOut(LookupAsWritten(action)))];
      LookupAsWrittenAgrees(action);
    }

    /** `manualConnect`: opens the socket (with an info toast) only when it is disconnected. */
    method ManualConnect()
      modifies this
      ensures !old(connected) ==> calls == old(calls) + [Open] && notices == old(notices) + [InfoToast]
      ensures old(connected) ==> calls == old(calls) && notices == old(notices)
      ensures Snapshot() == old(Snapshot()) && connected == old(connected)
    {
      if !connected {
        calls := calls + [Open];
        notices := notices + [InfoToast];
      }
    }

    /**
     * `manualDisconnect`: closes the socket (with a warning toast) only when
     * it is connected. Closing marks the socket disconnected at once, and the
     * `disconnect` handler it triggers sees the client-side reason, so it
     * raises no toast of its own; a second call does nothing.
     */
    method ManualDisconnect()
      modifies this
      ensures old(connected) ==> calls == old(calls) + [Close] && notices == old(notices) + [WarningToast]
      ensures !old(connected) ==> calls == old(calls) && notices == old(notices)
      ensures !connected
      ensures Snapshot() == old(Snapshot())
    {
      if connected {
        calls := calls + [Close];
        notices := notices + [WarningToast];
        connected := false;
      }
    }
  }
}
