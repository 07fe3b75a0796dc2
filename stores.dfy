/**
 * The shared stores of src/lib/stores.ts and the handlers `bindSocketEvents`
 * registers on the socket: a connection flag, the last connection error,
 * an append-only Chinese chat history and the VTuber action flags.
 */
module Stores {
  import opened Events

  /** A `Date`, taken as an opaque value supplied by the caller. */
  type Timestamp = int

  /** One chat history entry (`ChineseMessage`). */
  datatype ChatEntry = ChatEntry(text: string, isUser: bool, timestamp: Timestamp)

  /** The audio playback cell. */
  datatype AudioState = AudioState(isPlaying: bool, currentTrack: Option<string>)

  /** The value of every store of the module. */
  datatype StoreCells = StoreCells(
    socketConnected: bool,
    socketError: Option<string>,
    chineseMessages: seq<ChatEntry>,
    vtuberActions: map<string, bool>,
    audioState: AudioState)

  /** The default value each store is created with. */
  const InitialStore := StoreCells(
    socketConnected := false,
    socketError := None,
    chineseMessages := [],
    vtuberActions := map["blink" := false, "nod" := false, "shakeHead" := false],
    audioState := AudioState(false, None))

  /** An event together with the time its handler runs. */
  datatype Delivery = Delivery(event: Inbound, at: Timestamp)

  /**
   * The stores after the handler `bindSocketEvents` registered for `e` has
   * run at time `now`; events it registers nothing for change nothing.
   */
  function StoreStep(c: StoreCells, e: Inbound, now: Timestamp): (d: StoreCells)
    // the history only grows, by at most one entry, and only on a response
    ensures c.chineseMessages <= d.chineseMessages && |d.chineseMessages| <= |c.chineseMessages| + 1
    ensures !e.ChineseResponse? ==> d.chineseMessages == c.chineseMessages
    // only the connection events move the connection flag; no flag key is dropped
    ensures d.socketConnected != c.socketConnected ==> e.Connect? || e.Disconnect?
    ensures c.vtuberActions.Keys <= d.vtuberActions.Keys
    // no socket event reaches the audio store
    ensures d.audioState == c.audioState
  {
    match e
    case Connect => c.(socketConnected := true, socketError := None)
    case Disconnect(_) => c.(socketConnected := false)
    case ConnectError(message) => c.(socketError := Some(message))
    case ChineseResponse(text) => c.(chineseMessages := c.chineseMessages + [ChatEntry(text, false, now)])
    case ActionFeedback(action, status) => c.(vtuberActions := MergeFeedback(c.vtuberActions, action, status))
    case _ => c
  }

  /** The stores after a sequence of deliveries, handled in order. */
  function StoreRun(c: StoreCells, ds: seq<Delivery>): StoreCells
    decreases |ds|
  {
    if ds == [] then c else StoreRun(StoreStep(c, ds[0].event, ds[0].at), ds[1..])
  }

  /** The entry one delivery appends, if any. */
  function ResponseOf(d: Delivery): seq<ChatEntry> {
    if d.event.ChineseResponse? then [ChatEntry(d.event.text, false, d.at)] else []
  }

  /** The history entries the `chinese_response` deliveries of `ds` append, in order. */
  function Responses(ds: seq<Delivery>): seq<ChatEntry>
    decreases |ds|
  {
    if ds == [] then [] else ResponseOf(ds[0]) + Responses(ds[1..])
  }

  /** `Responses` read from the other end: the last delivery contributes last. */
  lemma {:induction false} ResponsesSnoc(ds: seq<Delivery>, d: Delivery)
    ensures Responses(ds + [d]) == Responses(ds) + ResponseOf(d)
    decreases |ds|
  {
    if ds == [] {
      assert [] + [d] == [d] && [d][1..] == [];
    } else {
      assert (ds + [d])[0] == ds[0] && (ds + [d])[1..] == ds[1..] + [d];
      ResponsesSnoc(ds[1..], d);
      var own := ResponseOf(ds[0]);
      assert own + (Responses(ds[1..]) + ResponseOf(d)) == (own + Responses(ds[1..])) + ResponseOf(d);
    }
  }

  /** The positions of the `chinese_response` deliveries among `ds`. */
  function ResponsePositions(ds: seq<Delivery>): set<int> {
    set i | 0 <= i < |ds| && ds[i].event.ChineseResponse?
  }

  /**
   * Each appended entry is a server reply, and there is exactly one per
   * `chinese_response` delivery.
   */
  lemma {:induction false} ResponsesAreReplies(ds: seq<Delivery>)
    ensures |Responses(ds)| == |ResponsePositions(ds)|
    ensures forall k :: 0 <= k < |Responses(ds)| ==> !Responses(ds)[k].isUser
    decreases |ds|
  {
    if ds == [] {
      assert ResponsePositions(ds) == {};
    } else {
      var n := |ds| - 1;
      var front := ds[..n];
      assert ds == front + [ds[n]];
      ResponsesAreReplies(front);
      ResponsesSnoc(front, ds[n]);
      PositionsSnoc(front, ds[n]);
    }
  }

  /** Appending one delivery adds its own position exactly when it is a reply. */
  lemma PositionsSnoc(ds: seq<Delivery>, d: Delivery)
    ensures d.event.ChineseResponse? ==> |ResponsePositions(ds + [d])| == |ResponsePositions(ds)| + 1
    ensures !d.event.ChineseResponse? ==> |ResponsePositions(ds + [d])| == |ResponsePositions(ds)|
  {
    var n := |ds|;
    var prev := ResponsePositions(ds);
    var all := ResponsePositions(ds + [d]);
    assert forall i :: 0 <= i < n ==> (ds + [d])[i] == ds[i];
    assert (ds + [d])[n] == d;
    assert n !in prev;
    if d.event.ChineseResponse? {
      assert all == prev + {n};
    } else {
      assert all == prev;
    }
  }

  /**
   * The chat history is append-only: after any deliveries it is the old
   * history followed by one reply entry per `chinese_response`, in delivery
   * order, each with that event's text and delivery time.
   */
  lemma {:induction false} HistoryAppendOnly(c: StoreCells, ds: seq<Delivery>)
    ensures StoreRun(c, ds).chineseMessages == c.chineseMessages + Responses(ds)
    ensures c.chineseMessages <= StoreRun(c, ds).chineseMessages
    decreases |ds|
  {
    if ds == [] {
      assert c.chineseMessages + [] == c.chineseMessages;
    } else {
      var d := StoreStep(c, ds[0].event, ds[0].at);
      var own := ResponseOf(ds[0]);
      assert d.chineseMessages == c.chineseMessages + own;
      HistoryAppendOnly(d, ds[1..]);
      assert (c.chineseMessages + own) + Responses(ds[1..]) == c.chineseMessages + (own + Responses(ds[1..]));
    }
  }

  /** Without `connect` or `disconnect`, the connection flag keeps its value. */
  lemma {:induction false} ConnectionNeedsTransition(c: StoreCells, ds: seq<Delivery>)
    requires forall i :: 0 <= i < |ds| ==> !ds[i].event.Connect? && !ds[i].event.Disconnect?
    ensures StoreRun(c, ds).socketConnected == c.socketConnected
    decreases |ds|
  {
    if ds != [] {
      assert forall i :: 0 <= i < |ds[1..]| ==> ds[1..][i] == ds[i + 1];
      ConnectionNeedsTransition(StoreStep(c, ds[0].event, ds[0].at), ds[1..]);
    }
  }

  /** Running `a` and then `b` is running `a + b`. */
  lemma {:induction false} StoreRunAppend(c: StoreCells, a: seq<Delivery>, b: seq<Delivery>)
    ensures StoreRun(c, a + b) == StoreRun(StoreRun(c, a), b)
    decreases |a|
  {
    if a == [] {
      assert a + b == b;
    } else {
      assert (a + b)[0] == a[0] && (a + b)[1..] == a[1..] + b;
      StoreRunAppend(StoreStep(c, a[0].event, a[0].at), a[1..], b);
    }
  }

  /** No `connect` and no `connect_error` among the deliveries. */
  predicate NoAttemptOutcome(ds: seq<Delivery>) {
    forall i :: 0 <= i < |ds| ==> !ds[i].event.Connect? && !ds[i].event.ConnectError?
  }

  /** Only `connect` and `connect_error` touch the recorded error. */
  lemma {:induction false} ErrorNeedsAttemptOutcome(c: StoreCells, ds: seq<Delivery>)
    requires NoAttemptOutcome(ds)
    ensures StoreRun(c, ds).socketError == c.socketError
    decreases |ds|
  {
    if ds != [] {
      assert forall i :: 0 <= i < |ds[1..]| ==> ds[1..][i] == ds[i + 1];
      ErrorNeedsAttemptOutcome(StoreStep(c, ds[0].event, ds[0].at), ds[1..]);
    }
  }

  /** The recorded error is that of the last connection outcome: cleared by a `connect`... */
  lemma ErrorClearedByLastConnect(c: StoreCells, before: seq<Delivery>, at: Timestamp, after: seq<Delivery>)
    requires NoAttemptOutcome(after)
    ensures StoreRun(c, before + [Delivery(Connect, at)] + after).socketError == None
  {
    StoreRunAppend(c, before + [Delivery(Connect, at)], after);
    StoreRunAppend(c, before, [Delivery(Connect, at)]);
    ErrorNeedsAttemptOutcome(StoreRun(c, before + [Delivery(Connect, at)]), after);
  }

  /** ... and set to the message of a `connect_error`. */
  lemma ErrorSetByLastConnectError(c: StoreCells, before: seq<Delivery>, message: string, at: Timestamp,
                                   after: seq<Delivery>)
    requires NoAttemptOutcome(after)
    ensures StoreRun(c, before + [Delivery(ConnectError(message), at)] + after).socketError == Some(message)
  {
    StoreRunAppend(c, before + [Delivery(ConnectError(message), at)], after);
    StoreRunAppend(c, before, [Delivery(ConnectError(message), at)]);
    ErrorNeedsAttemptOutcome(StoreRun(c, before + [Delivery(ConnectError(message), at)]), after);
  }

  /**
   * The store's flag keys differ from the tokens the command side emits:
   * feedback for "shake_head" lands under a key of its own and never
   * touches the `shakeHead` flag, whatever the status and the stores.
   */
  lemma ShakeHeadFeedbackMissesKey(c: StoreCells, status: string, now: Timestamp)
    requires "shakeHead" in c.vtuberActions
    ensures var d := StoreStep(c, ActionFeedback("shake_head", status), now);
            && "shake_head" in d.vtuberActions
            && d.vtuberActions["shakeHead"] == c.vtuberActions["shakeHead"]
  {
  }

  /**
   * The stores as fields, and whether `bindSocketEvents` has registered the
   * handlers yet (before that, socket events do not reach the stores).
   */
  class Store {
    var socketConnected: bool
    var socketError: Option<string>
    var chineseMessages: seq<ChatEntry>
    var vtuberActions: map<string, bool>
    var audioState: AudioState
    var bound: bool

    /** The current value of every store. */
    function Snapshot(): StoreCells
      reads this`socketConnected, this`socketError, this`chineseMessages, this`vtuberActions, this`audioState
    {
      StoreCells(socketConnected, socketError, chineseMessages, vtuberActions, audioState)
    }

    /** Module load: every store at its default, no handler registered. */
    constructor ()
      ensures Snapshot() == InitialStore && !bound
    {
      socketConnected, socketError, chineseMessages := false, None, [];
      vtuberActions := map["blink" := false, "nod" := false, "shakeHead" := false];
      audioState := AudioState(false, None);
      bound := false;
    }

    /** `bindSocketEvents`: register the handlers; no store changes. */
    method BindSocketEvents()
      modifies this
      ensures bound && Snapshot() == old(Snapshot())
    {
      bound := true;
    }

    /** Deliver one event at time `now` to the registered handlers, if any. */
    method Handle(e: Inbound, now: Timestamp)
      modifies this
      ensures Snapshot() == if bound then StoreStep(old(Snapshot()), e, now) else old(Snapshot())
      ensures bound == old(bound)
    {
      if !bound {
      } else if e.Connect? {
        OnConnect();
      } else if e.Disconnect? {
        OnDisconnect();
      } else if e.ConnectError? {
        OnConnectError(e.errorMessage);
      } else if e.ChineseResponse? {
        OnChineseResponse(e.text, now);
      } else if e.ActionFeedback? {
        OnActionFeedback(e.action, e.status);
      }
    }

    /** `connect`: connected, and the last error cleared. */
    method OnConnect()
      modifies this
      ensures socketConnected && socketError == None
      ensures chineseMessages == old(chineseMessages) && vtuberActions == old(vtuberActions)
      ensures audioState == old(audioState) && bound == old(bound)
    {
      socketConnected := true;
      socketError := None;
    }

    /** `disconnect`: not connected; the last error and the history are kept. */
    method OnDisconnect()
      modifies this
      ensures !socketConnected && socketError == old(socketError)
      ensures chineseMessages == old(chineseMessages) && vtuberActions == old(vtuberActions)
      ensures audioState == old(audioState) && bound == old(bound)
    {
      socketConnected := false;
    }

    /** `connect_error`: the error's message is recorded; the flag is kept. */
    method OnConnectError(message: string)
      modifies this
      ensures socketError == Some(message) && socketConnected == old(socketConnected)
      ensures chineseMessages == old(chineseMessages) && vtuberActions == old(vtuberActions)
      ensures audioState == old(audioState) && bound == old(bound)
    {
      socketError := Some(message);
    }

    /** `chinese_response`: exactly one reply entry is appended to the history. */
    method OnChineseResponse(text: string, now: Timestamp)
      modifies this
      ensures |chineseMessages| == |old(chineseMessages)| + 1
      ensures old(chineseMessages) <= chineseMessages
      ensures chineseMessages[|chineseMessages| - 1] == ChatEntry(text, false, now)
      ensures socketConnected == old(socketConnected) && socketError == old(socketError)
      ensures vtuberActions == old(vtuberActions) && audioState == old(audioState) && bound == old(bound)
    {
      chineseMessages := chineseMessages + [ChatEntry(text, false, now)];
    }

    /** `action_feedback`: only the flag of `action` is set. */
    method OnActionFeedback(action: string, status: string)
      modifies this
      ensures vtuberActions == MergeFeedback(old(vtuberActions), action, status)
      ensures socketConnected == old(socketConnected) && socketError == old(socketError)
      ensures chineseMessages == old(chineseMessages) && audioState == old(audioState) && bound == old(bound)
    {
      vtuberActions := MergeFeedback(vtuberActions, action, status);
    }
  }
}
