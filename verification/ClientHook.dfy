/** The hook's handlers as methods on its refs, each tied to the step it specifies. */
module ClientHook {
  import opened Prelude
  import opened ClientConnection

  class Hook {
    var epoch: nat
    var sendEpoch: nat
    var ws: Option<SocketId>
    var unspentPath: bool
    var conversation: Option<ConversationId>
    var forceNew: bool
    var sockets: seq<Socket>
    var calls: seq<Call>
    var changes: seq<Change>
    var sent: seq<Sent>

    function View(): State
      reads this
    {
      State(epoch, sendEpoch, ws, unspentPath, conversation, forceNew, sockets, calls, changes, sent)
    }

    constructor (unspentPath: bool)
      ensures View() == Init(unspentPath)
    {
      this.unspentPath := unspentPath;
      epoch, sendEpoch, ws, conversation, forceNew := 0, 0, None, None, false;
      sockets, calls, changes, sent := [], [], [], [];
    }

    method CloseWs()
      modifies this`sockets, this`ws
      ensures View() == DropWs(old(View()))
    {
      if ws.Some? {
        if ws.value < |sockets| {
          sockets := sockets[ws.value := sockets[ws.value].(phase := Ebbed(sockets[ws.value].phase))];
        }
        ws := None;
      }
    }

    /** connectWebSocket: a superseded caller returns before anything is touched. */
    method ConnectWebSocket(myEpoch: nat, clears: bool) returns (promise: Option<SocketId>)
      modifies this`sockets, this`ws
      ensures View() == OpenSocket(old(View()), myEpoch, clears)
      ensures AwaitReady(promise) == Awaited(old(View()), myEpoch)
    {
      if myEpoch != epoch { return None; }
      CloseWs();
      sockets := sockets + [NewSocket(myEpoch, clears)];
      promise := Some(|sockets| - 1);
    }

    method OnOpen(i: SocketId)
      requires i < |sockets|
      modifies this
      ensures View() == SocketOpened(old(View()), i)
    {
      var socket := sockets[i];
      if socket.retired || socket.epoch != epoch {
        sockets := sockets[i := Settle(socket, Resolved).(phase := Closing)];
        return;
      }
      sockets := sockets[i := socket.(phase := Open)];
      if socket.clears { changes := changes + [Change(Opening(i), epoch)]; }
      ws := Some(i);
    }

    method OnMessage(i: SocketId, content: Content)
      requires i < |sockets|
      modifies this
      ensures View() == SocketMessage(old(View()), i, content)
    {
      var socket := sockets[i];
      if socket.retired { return; }
      if socket.epoch != epoch {
        sockets := sockets[i := Settle(socket, Resolved)];
        return;
      }
      match content {
        case Ready => sockets := sockets[i := Settle(socket, Resolved)];
        case Transcript => changes := changes + [Change(Frame(i), epoch)];
        case Silent =>
      }
    }

    /** onerror, onclose and the ready timer. */
    method OnGone(i: SocketId, phase: Phase)
      requires i < |sockets|
      modifies this
      ensures View() == SocketGone(old(View()), i, phase)
    {
      sockets := sockets[i := sockets[i].(retired := true, phase := phase)];
      if sockets[i].epoch != epoch {
        sockets := sockets[i := Settle(sockets[i], Resolved)];
        return;
      }
      sockets := sockets[i := Settle(sockets[i], Rejected)];
      if ws == Some(i) { ws := None; }
    }

    /** connect() up to its first await. */
    method StartConnect(options: Options)
      modifies this
      ensures View() == BeginConnect(old(View()), options)
    {
      if !options.alwaysCreateNew && WsOpen(View()) { return; }
      epoch := epoch + 1;
      if options.conversationId.Some? {
        conversation := options.conversationId;
        var stage := Minting;
        if unspentPath {
          unspentPath := false;
          var promise := ConnectWebSocket(epoch, true);
          stage := AwaitReady(promise);
        }
        calls := calls + [Call(Joining, epoch, stage)];
      } else if options.alwaysCreateNew || !options.listing {
        CloseWs();
        conversation, forceNew := None, false;
        changes := changes + [Change(Local, epoch)];
        calls := calls + [Call(Joining, epoch, Creating)];
      } else {
        calls := calls + [Call(Joining, epoch, Listing)];
      }
    }

    method Reset()
      modifies this
      ensures View() == Cleared(old(View()))
    {
      epoch := epoch + 1;
      CloseWs();
      conversation, forceNew := None, false;
      sendEpoch := sendEpoch + 1;
      changes := changes + [Change(Local, epoch)];
    }

    /** The tail of sendMessage. */
    method Transmit(c: CallId)
      requires c < |calls| && calls[c].purpose.Sending?
      modifies this
      ensures View() == FinishSend(old(View()), c)
    {
      var call := calls[c];
      calls := calls[c := call.(stage := Done)];
      if call.epoch != epoch || call.purpose.sendEpoch != sendEpoch { return; }
      if call.purpose.expected.Some? && call.purpose.expected != conversation { return; }
      if WsOpen(View()) {
        sent := sent + [Sent(sendEpoch, ws.value, epoch)];
        changes := changes + [Change(Local, epoch)];
      }
    }

    /** sendMessage after the wait for a pending connect. */
    method Decide(c: CallId)
      requires c < |calls| && calls[c].purpose.Sending?
      modifies this
      ensures View() == DecideSend(old(View()), c)
    {
      if WsOpen(View()) {
        calls := calls[c := calls[c].(epoch := epoch)];
        Transmit(c);
        return;
      }
      var selected := Selected(View(), calls[c].purpose.known);
      epoch := epoch + 1;
      var stage := if selected.Some? then Minting else if forceNew then Creating else Listing;
      calls := calls[c := Call(calls[c].purpose.(forced := stage.Creating?), epoch, stage)];
    }

    /** The fetch of a conversation id or token has been answered. */
    method Answered(c: CallId, reply: Reply)
      requires Answers(View(), c, reply) && (calls[c].stage.Creating? || calls[c].stage.Minting?)
      modifies this
      ensures View() == AnswerStep(old(View()), c, reply)
    {
      if reply.Refused? {
        calls := calls[c := calls[c].(stage := Done)];
        return;
      }
      if calls[c].stage.Creating? && calls[c].epoch == epoch { conversation := Some(reply.id); }
      var promise := ConnectWebSocket(calls[c].epoch, calls[c].stage.Minting?);
      calls := calls[c := calls[c].(stage := AwaitReady(promise))];
    }
  }
}
