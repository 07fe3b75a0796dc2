/**
 * The event registry of the avatar-control client: the named socket events
 * declared in `SocketEvents` (src/lib/socketio.ts), their payloads, and what
 * the client hands back to the transport.
 */
module Events {

  datatype Option<+T> = None | Some(value: T)

  /**
   * The spread merge `{...status, [action]: status === "executed"}` that both
   * reducers apply to an `action_feedback` event: exactly the key `action` is
   * set (added when it is new), every other key keeps its value.
   */
  function MergeFeedback(flags: map<string, bool>, action: string, status: string): (r: map<string, bool>)
    ensures r.Keys == flags.Keys + {action}
    ensures r[action] <==> status == "executed"
    ensures forall k :: k in flags && k != action ==> r[k] == flags[k]
  {
    flags[action := status == "executed"]
  }

  /** A JSON value, standing in for the `any` elements of the memory and hotkey lists. */
  datatype Json =
    | JNull
    | JBool(b: bool)
    | JNumber(n: real)
    | JString(s: string)
    | JArray(elements: seq<Json>)
    | JObject(fields: map<string, Json>)

  /**
   * One inbound event per name of the `SocketEvents` interface, with its
   * payload. JavaScript numbers are `real`; the `Error` object given to
   * `connect_error` is reduced to its `message`.
   */
  datatype Inbound =
    | Error(data: string)
    | Connect
    | Disconnect(reason: string)
    | ConnectError(errorMessage: string)
    | ChineseText(text: string)
    | ChineseResponse(text: string)
    | VtuberAction(action: string)
    | ActionFeedback(action: string, status: string)
    | CurrentMessage(message: string)
    | ResetNextMessage
    | NextChunk(message: string)
    | AIThinking(flag: bool)
    | AISpeaking(flag: bool)
    | HumanSpeaking(flag: bool)
    | PatienceUpdate(crrTime: real, totalTime: real)
    | RecentTwitchMessages(lines: seq<string>)
    | TwitchStatus(flag: bool)
    | LLMStatus(flag: bool)
    | TTSStatus(flag: bool)
    | STTStatus(flag: bool)
    | MovementStatus(flag: bool)
    | MultimodalStatus(flag: bool)
    | AudioList(files: seq<string>)
    | FullPrompt(message: string)
    | GetCustomPrompt(prompt: string, priority: real)
    | GetMemories(items: seq<Json>)
    | GetBlacklist(lines: seq<string>)
    | GetHotkeys(items: seq<Json>)

  /**
   * The value passed as the argument of `socket.emit("vtuber_action", ...)`:
   * normally a string, but a property lookup on an object literal can also
   * yield a member inherited from `Object.prototype` (a function or an object).
   */
  datatype Command = Token(name: string) | InheritedMember(member: string)

  /** The two events the client emits. */
  datatype Outbound =
    | ChineseTextOut(text: string)
    | VtuberActionOut(command: Command)

  /** What the client asks of the transport: `socket.emit`, `socket.connect()`, `socket.disconnect()`. */
  datatype TransportCall = Emit(event: Outbound) | Open | Close

  /** The severity of a toast; its text is not modelled. */
  datatype Notice = ErrorToast | WarningToast | InfoToast
}
