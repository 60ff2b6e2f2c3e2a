/**
  The refs and sockets of the chat hook: connect epochs, the sockets they create, and what may
  change the transcript. A connect-like call is cut at its awaits; every event is one
  uninterrupted stretch of the hook's code.
*/
module ClientConnection {
  import opened Prelude

  type SocketId = nat
  type CallId = nat
  type ConversationId = string

  datatype Phase = Connecting | Open | Closing | Closed
  datatype Outcome = Pending | Resolved | Rejected

  /** A WebSocket with the closure of its handlers: its epoch, `retired` and the promise it settles. */
  datatype Socket = Socket(epoch: nat, clears: bool, phase: Phase, retired: bool, outcome: Outcome)

  datatype Options = Options(alwaysCreateNew: bool, conversationId: Option<ConversationId>, listing: bool)

  datatype Purpose =
    | Joining
    | Sending(sendEpoch: nat, expected: Option<ConversationId>, known: Option<ConversationId>, forced: bool)

  /** What a call is waiting for. */
  datatype Stage =
    | Listing
    | Creating                               // then connects without clearing
    | Minting                                // then connects, clearing the history at onopen
    | AwaitPrior(prior: SocketId)            // a send behind an unfinished connect
    | AwaitReady(socket: Option<SocketId>)   // None: superseded before a socket was made
    | Done

  datatype Call = Call(purpose: Purpose, epoch: nat, stage: Stage)

  datatype Cause = Frame(socket: SocketId) | Opening(socket: SocketId) | Local
  datatype Change = Change(cause: Cause, epoch: nat)
  datatype Sent = Sent(sendEpoch: nat, socket: SocketId, epoch: nat)

  datatype State = State(
    epoch: nat,                              // connectEpochRef
    sendEpoch: nat,                          // sendEpochRef
    ws: Option<SocketId>,                    // wsRef
    unspentPath: bool,                       // initialWsPathRef
    conversation: Option<ConversationId>,    // conversationIdRef
    forceNew: bool,                          // forceNewConversationRef
    sockets: seq<Socket>,
    calls: seq<Call>,
    changes: seq<Change>,                    // history: what has changed the transcript
    sent: seq<Sent>)                         // history: the messages put on a socket

  function Init(unspentPath: bool): State { State(0, 0, None, unspentPath, None, false, [], [], [], []) }

  datatype Content = Ready | Transcript | Silent

  datatype SocketEvent = Opened | Message(content: Content) | PeerCloses | Failed | Ended | TimedOut

  datatype Listed = Nobody | Recent(id: ConversationId, young: bool)

  datatype Reply = Refused | Granted | Created(id: ConversationId) | Rows(listed: Listed)

  datatype UserEvent =
    | Connect(options: Options)
    | SendMessage(expected: Option<ConversationId>, options: Options)
    | NewConversation
    | SwitchConversation(id: Option<ConversationId>, resumes: bool)
    | Reset
    | Unmount
    | Cancel(marks: bool)

  datatype Event = User(user: UserEvent) | Net(socket: SocketId, net: SocketEvent) | Answer(call: CallId, reply: Reply)

  // ---------------------------------------------------------------- the pieces

  predicate WsOpen(s: State) {
    s.ws.Some? && s.ws.value < |s.sockets| && s.sockets[s.ws.value].phase.Open?
  }

  function Ebbed(p: Phase): Phase { if p.Closed? then Closed else Closing }

  function CloseAt(sockets: seq<Socket>, ws: Option<SocketId>): seq<Socket> {
    if ws.Some? && ws.value < |sockets|
    then sockets[ws.value := sockets[ws.value].(phase := Ebbed(sockets[ws.value].phase))]
    else sockets
  }

  /** `wsRef.current.close(...)` and `wsRef.current = null`. */
  function DropWs(s: State): State { s.(sockets := CloseAt(s.sockets, s.ws), ws := None) }

  /** A new generation; the operations that start afresh also give up the socket at once. */
  function Claim(s: State): State { s.(epoch := s.epoch + 1) }

  function ClaimAndDrop(s: State): State { DropWs(Claim(s)) }

  function Touch(s: State, cause: Cause): State { s.(changes := s.changes + [Change(cause, s.epoch)]) }

  function NewCall(s: State, call: Call): State { s.(calls := s.calls + [call]) }

  function At(s: State, c: CallId, stage: Stage): State
    requires c < |s.calls|
  {
    s.(calls := s.calls[c := s.calls[c].(stage := stage)])
  }

  function NewSocket(epoch: nat, clears: bool): Socket { Socket(epoch, clears, Connecting, false, Pending) }

  /** connectWebSocket: nothing at all for a superseded generation. */
  function OpenSocket(s: State, epoch: nat, clears: bool): State {
    if epoch != s.epoch then s
    else s.(sockets := CloseAt(s.sockets, s.ws) + [NewSocket(epoch, clears)], ws := None)
  }

  function Awaited(s: State, epoch: nat): Stage {
    AwaitReady(if epoch != s.epoch then None else Some(|s.sockets|))
  }

  /** Call `c` hands its generation to connectWebSocket and waits for the promise. */
  function Dial(s: State, c: CallId, clears: bool): State
    requires c < |s.calls|
  {
    At(OpenSocket(s, s.calls[c].epoch, clears), c, Awaited(s, s.calls[c].epoch))
  }

  /** connectPromiseRef: the promise of the newest socket while it is unsettled. */
  function InFlight(s: State): Option<SocketId> {
    if s.sockets != [] && s.sockets[|s.sockets| - 1].outcome.Pending? then Some(|s.sockets| - 1) else None
  }

  // ---------------------------------------------------------------- sending

  /** The last part of sendMessage, after any reconnect. */
  function FinishSend(s: State, c: CallId): State
    requires c < |s.calls| && s.calls[c].purpose.Sending?
  {
    var p := s.calls[c].purpose;
    var done := At(s, c, Done);
    if s.calls[c].epoch != s.epoch || p.sendEpoch != s.sendEpoch then done
    else if p.expected.Some? && p.expected != s.conversation then done
    else if WsOpen(s) then Touch(done.(sent := s.sent + [Sent(p.sendEpoch, s.ws.value, s.epoch)]), Local)
    else done
  }

  function SetEpoch(s: State, c: CallId, epoch: nat): State
    requires c < |s.calls|
  {
    s.(calls := s.calls[c := s.calls[c].(epoch := epoch)])
  }

  function Selected(s: State, known: Option<ConversationId>): Option<ConversationId> {
    if known.Some? then known else if s.forceNew then None else s.conversation
  }

  function Reconnecting(s: State, known: Option<ConversationId>): Stage {
    if Selected(s, known).Some? then Minting else if s.forceNew then Creating else Listing
  }

  /** sendMessage once no connect is pending: an open socket is used as it is, otherwise the send
      claims a generation and reconnects. */
  function DecideSend(s: State, c: CallId): State
    requires c < |s.calls| && s.calls[c].purpose.Sending?
  {
    if WsOpen(s) then FinishSend(SetEpoch(s, c, s.epoch), c)
    else
      var p := s.calls[c].purpose;
      var stage := Reconnecting(s, p.known);
      Claim(s).(calls := s.calls[c := Call(p.(forced := stage.Creating?), s.epoch + 1, stage)])
  }

  function BeginSend(s: State, expected: Option<ConversationId>, options: Options): State {
    if expected.Some? && expected != s.conversation then s
    else
      var p := Sending(s.sendEpoch + 1, expected, options.conversationId, false);
      var stage := if InFlight(s).Some? then AwaitPrior(InFlight(s).value) else AwaitReady(None);
      var s1 := NewCall(s, Call(p, 0, stage)).(sendEpoch := s.sendEpoch + 1);
      if InFlight(s).None? then DecideSend(s1, |s.calls|) else s1
  }

  // ---------------------------------------------------------------- connecting

  function ConnectKnown(s: State, id: ConversationId): State {
    var s1 := NewCall(Claim(s), Call(Joining, s.epoch + 1, Minting)).(conversation := Some(id));
    if s.unspentPath then Dial(s1.(unspentPath := false), |s.calls|, true) else s1
  }

  function StartFresh(s: State): State {
    Touch(NewCall(ClaimAndDrop(s), Call(Joining, s.epoch + 1, Creating))
            .(conversation := None, forceNew := false), Local)
  }

  function BeginConnect(s: State, options: Options): State {
    if !options.alwaysCreateNew && WsOpen(s) then s
    else if options.conversationId.Some? then ConnectKnown(s, options.conversationId.value)
    else if options.alwaysCreateNew || !options.listing then StartFresh(s)
    else NewCall(Claim(s), Call(Joining, s.epoch + 1, Listing))
  }

  function NextSend(s: State): State { s.(sendEpoch := s.sendEpoch + 1) }

  function SwitchTo(s: State, id: Option<ConversationId>, resumes: bool): State {
    var stage := if id.Some? then Minting else Done;
    NextSend(Touch(NewCall(ClaimAndDrop(s), Call(Joining, s.epoch + 1, stage))
                     .(conversation := if id.Some? then id else s.conversation,
                       forceNew := s.forceNew && !resumes), Local))
  }

  function Cleared(s: State): State { NextSend(Touch(ClaimAndDrop(s).(conversation := None, forceNew := false), Local)) }

  function UserStep(s: State, e: UserEvent): State {
    match e
    case Connect(options) => BeginConnect(s, options)
    case SendMessage(expected, options) => BeginSend(s, expected, options)
    case NewConversation => NextSend(StartFresh(s))
    case SwitchConversation(id, resumes) => SwitchTo(s, id, resumes)
    case Reset => Cleared(s)
    case Unmount => ClaimAndDrop(s)
    case Cancel(marks) => if marks then NextSend(Touch(s, Local)) else NextSend(s)
  }

  // ---------------------------------------------------------------- answers to awaited calls

  /** The list has arrived at connect() or at a send that found nothing to reconnect to. */
  function ListArrived(s: State, c: CallId, listed: Listed): State
    requires c < |s.calls|
  {
    var call := s.calls[c];
    if call.purpose.Joining? then
      if call.epoch != s.epoch || listed.Nobody? then At(s, c, Done)
      else if listed.young then At(s, c, Minting).(forceNew := false, conversation := Some(listed.id))
      else At(s, c, Done).(forceNew := true)
    else if listed.Nobody? then At(s, c, Creating)
    else if call.epoch != s.epoch then At(s, c, AwaitReady(None))
    else At(s, c, Minting).(conversation := Some(listed.id))
  }

  function ConversationCreated(s: State, c: CallId, id: ConversationId): State
    requires c < |s.calls|
  {
    Dial(if s.calls[c].epoch == s.epoch then s.(conversation := Some(id)) else s, c, false)
  }

  predicate Settled(s: State, i: SocketId) { i < |s.sockets| && !s.sockets[i].outcome.Pending? }

  /** The promise of a connect has settled. */
  function ConnectSettled(s: State, c: CallId, i: Option<SocketId>): State
    requires c < |s.calls|
  {
    var p := s.calls[c].purpose;
    if i.Some? && i.value < |s.sockets| && s.sockets[i.value].outcome.Rejected? then At(s, c, Done)
    else if p.Joining? then At(s, c, Done)
    else FinishSend(if p.forced then s.(forceNew := false) else s, c)
  }

  /** Whether `reply` is what the call is waiting for. */
  predicate Answers(s: State, c: CallId, reply: Reply) {
    && c < |s.calls|
    && match s.calls[c].stage
       case Listing => reply.Refused? || reply.Rows?
       case Creating => reply.Refused? || reply.Created?
       case Minting => reply.Refused? || reply.Granted?
       case AwaitPrior(i) => reply.Granted? && Settled(s, i) && s.calls[c].purpose.Sending?
       case AwaitReady(i) => reply.Granted? && (i.Some? ==> Settled(s, i.value))
       case Done => false
  }

  function AnswerStep(s: State, c: CallId, reply: Reply): State
    requires Answers(s, c, reply)
  {
    if reply.Refused? then At(s, c, Done)
    else match s.calls[c].stage
      case Listing => ListArrived(s, c, reply.listed)
      case Creating => ConversationCreated(s, c, reply.id)
      case Minting => Dial(s, c, true)
      case AwaitPrior(_) => DecideSend(s, c)
      case AwaitReady(i) => ConnectSettled(s, c, i)
      case Done => s
  }

  // ---------------------------------------------------------------- socket events

  function Settle(socket: Socket, outcome: Outcome): Socket {
    if socket.outcome.Pending? then socket.(outcome := outcome) else socket
  }

  predicate Stale(s: State, i: SocketId)
    requires i < |s.sockets|
  {
    s.sockets[i].epoch != s.epoch
  }

  function Put(s: State, i: SocketId, socket: Socket): State
    requires i < |s.sockets|
  {
    s.(sockets := s.sockets[i := socket])
  }

  function SocketOpened(s: State, i: SocketId): State
    requires i < |s.sockets|
  {
    var socket := s.sockets[i];
    if socket.retired || Stale(s, i) then Put(s, i, Settle(socket, Resolved).(phase := Closing))
    else
      var t := Put(s, i, socket.(phase := Open)).(ws := Some(i));
      if socket.clears then Touch(t, Opening(i)) else t
  }

  function SocketMessage(s: State, i: SocketId, content: Content): State
    requires i < |s.sockets|
  {
    var socket := s.sockets[i];
    if socket.retired then s
    else if Stale(s, i) || content.Ready? then Put(s, i, Settle(socket, Resolved))
    else if content.Transcript? then Touch(s, Frame(i)) else s
  }

  /** onerror, onclose and the 30 s timer: the socket is retired, and the ref given up if it is the
      current generation's. */
  function SocketGone(s: State, i: SocketId, phase: Phase): State
    requires i < |s.sockets|
  {
    var gone := s.sockets[i].(retired := true, phase := phase);
    if Stale(s, i) then Put(s, i, Settle(gone, Resolved))
    else Put(s, i, Settle(gone, Rejected)).(ws := if s.ws == Some(i) then None else s.ws)
  }

  predicate CanHappen(socket: Socket, e: SocketEvent) {
    match e
    case Opened => socket.phase.Connecting?
    case Message(_) => !socket.phase.Connecting?
    case PeerCloses => socket.phase.Open?
    case Failed => !socket.phase.Closed?
    case Ended => !socket.phase.Closed?
    case TimedOut => socket.outcome.Pending?
  }

  function NetStep(s: State, i: SocketId, e: SocketEvent): State
    requires i < |s.sockets| && CanHappen(s.sockets[i], e)
  {
    match e
    case Opened => SocketOpened(s, i)
    case Message(content) => SocketMessage(s, i, content)
    case PeerCloses => Put(s, i, s.sockets[i].(phase := Closing))
    case Failed => SocketGone(s, i, Closing)
    case Ended => SocketGone(s, i, Closed)
    case TimedOut => SocketGone(s, i, Ebbed(s.sockets[i].phase))
  }

  // ---------------------------------------------------------------- runs

  predicate Enabled(s: State, e: Event) {
    match e
    case User(_) => true
    case Net(i, net) => i < |s.sockets| && CanHappen(s.sockets[i], net)
    case Answer(c, reply) => Answers(s, c, reply)
  }

  function Step(s: State, e: Event): State
    requires Enabled(s, e)
  {
    match e
    case User(user) => UserStep(s, user)
    case Net(i, net) => NetStep(s, i, net)
    case Answer(c, reply) => AnswerStep(s, c, reply)
  }

  function Run(s: State, es: seq<Event>): State {
    if es == [] then s
    else var s1 := Run(s, es[..|es| - 1]);
         var e := es[|es| - 1];
         if Enabled(s1, e) then Step(s1, e) else s1
  }
}
