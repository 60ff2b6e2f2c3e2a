/**
  The invariant of the chat hook, kept by every event. Sockets are created in the order of their
  connect generations. A call that has not dialled yet is alone with its generation, which has no
  socket, so dialling keeps that order. The one socket of the current generation that has opened and
  is not retired is the one in wsRef, and the log of changes follows the generations. Lemmas about
  one component come first; those about a step only put them together.
*/
module ConnectionProofs {
  import opened Prelude
  import opened ClientConnection

  // ---------------------------------------------------------------- the invariant

  /** Sockets are created in the order of their generations, one for each at most. */
  ghost predicate Ordered(sockets: seq<Socket>, epoch: nat) {
    && (forall i, j :: 0 <= i < j < |sockets| ==> sockets[i].epoch < sockets[j].epoch)
    && (forall i :: 0 <= i < |sockets| ==> sockets[i].epoch <= epoch)
  }

  predicate Unused(sockets: seq<Socket>, epoch: nat) {
    forall i :: 0 <= i < |sockets| ==> sockets[i].epoch != epoch
  }

  predicate Owns(call: Call) { call.stage.Listing? || call.stage.Creating? || call.stage.Minting? }

  /** A call that has not dialled yet is the only one with its generation, which has no socket. */
  ghost predicate ClaimsFree(calls: seq<Call>, sockets: seq<Socket>, epoch: nat) {
    && (forall c {:trigger Owns(calls[c])} :: 0 <= c < |calls| && Owns(calls[c]) ==> calls[c].epoch <= epoch)
    && (forall c {:trigger Owns(calls[c])} :: 0 <= c < |calls| && Owns(calls[c]) ==> Unused(sockets, calls[c].epoch))
  }

  ghost predicate ClaimsDiffer(calls: seq<Call>) {
    forall c, d {:trigger Owns(calls[c]), Owns(calls[d])} :: 0 <= c < d < |calls| && Owns(calls[c]) && Owns(calls[d]) ==> calls[c].epoch != calls[d].epoch
  }

  predicate Live(socket: Socket, epoch: nat) {
    socket.epoch == epoch && !socket.retired && !socket.phase.Connecting?
  }

  ghost predicate WsOwns(sockets: seq<Socket>, ws: Option<SocketId>, epoch: nat) {
    && (ws.Some? ==> ws.value < |sockets| && !sockets[ws.value].phase.Connecting?)
    && (forall i :: 0 <= i < |sockets| && sockets[i].phase.Open? ==> ws == Some(i) && !sockets[i].retired)
    && (forall i {:trigger Live(sockets[i], epoch)} :: 0 <= i < |sockets| && Live(sockets[i], epoch) ==> ws == Some(i))
    && (forall i :: 0 <= i < |sockets| && sockets[i].epoch == epoch && ws.Some? ==> ws == Some(i))
  }

  ghost predicate LogFits(changes: seq<Change>, sockets: seq<Socket>, epoch: nat) {
    && (forall k :: 0 <= k < |changes| ==> changes[k].epoch <= epoch)
    && (forall k, l :: 0 <= k < l < |changes| ==> changes[k].epoch <= changes[l].epoch)
    && (forall k :: 0 <= k < |changes| && changes[k].cause.Frame? ==>
          changes[k].cause.socket < |sockets| && sockets[changes[k].cause.socket].epoch == changes[k].epoch)
  }

  predicate Waiting(call: Call, sendEpoch: nat) {
    call.purpose.Sending? && call.purpose.sendEpoch == sendEpoch && !call.stage.Done?
  }

  ghost predicate SendersDiffer(calls: seq<Call>, sendEpoch: nat) {
    && (forall c :: 0 <= c < |calls| && calls[c].purpose.Sending? ==> calls[c].purpose.sendEpoch <= sendEpoch)
    && (forall c, d :: 0 <= c < d < |calls| && calls[c].purpose.Sending? && calls[d].purpose.Sending? ==>
          calls[c].purpose.sendEpoch < calls[d].purpose.sendEpoch)
  }

  ghost predicate SentFits(sent: seq<Sent>, calls: seq<Call>, sendEpoch: nat) {
    && (forall k :: 0 <= k < |sent| ==> sent[k].sendEpoch <= sendEpoch)
    && (forall k, l :: 0 <= k < l < |sent| ==> sent[k].sendEpoch < sent[l].sendEpoch)
    && (forall k, c :: 0 <= k < |sent| && 0 <= c < |calls| ==> !Waiting(calls[c], sent[k].sendEpoch))
  }

  ghost predicate CallsFit(s: State) {
    && ClaimsFree(s.calls, s.sockets, s.epoch) && ClaimsDiffer(s.calls)
    && SendersDiffer(s.calls, s.sendEpoch) && SentFits(s.sent, s.calls, s.sendEpoch)
  }

  ghost predicate Inv(s: State) {
    && Ordered(s.sockets, s.epoch) && WsOwns(s.sockets, s.ws, s.epoch)
    && LogFits(s.changes, s.sockets, s.epoch) && CallsFit(s)
  }

  // ---------------------------------------------------------------- sockets

  predicate SameEpochs(a: seq<Socket>, b: seq<Socket>) {
    |a| <= |b| && forall i :: 0 <= i < |a| ==> a[i].epoch == b[i].epoch
  }

  lemma {:induction false} LogStays(changes: seq<Change>, a: seq<Socket>, b: seq<Socket>, epoch: nat, later: nat)
    requires LogFits(changes, a, epoch) && SameEpochs(a, b) && epoch <= later
    ensures LogFits(changes, b, later)
  {
  }

  lemma {:induction false} LogGrows(changes: seq<Change>, sockets: seq<Socket>, epoch: nat, cause: Cause)
    requires LogFits(changes, sockets, epoch)
    requires cause.Frame? ==> cause.socket < |sockets| && sockets[cause.socket].epoch == epoch
    ensures LogFits(changes + [Change(cause, epoch)], sockets, epoch)
  {
  }

  lemma {:induction false} ClaimsStay(calls: seq<Call>, a: seq<Socket>, b: seq<Socket>, epoch: nat, later: nat)
    requires ClaimsFree(calls, a, epoch) && |a| == |b| && SameEpochs(a, b) && epoch <= later
    ensures ClaimsFree(calls, b, later)
  {
    forall c | 0 <= c < |calls| && Owns(calls[c]) ensures Unused(b, calls[c].epoch) { assert Unused(a, calls[c].epoch); }
  }

  /** Touching one socket without giving it another generation. */
  lemma {:induction false} PutKeeps(s: State, i: SocketId, socket: Socket)
    requires Inv(s) && i < |s.sockets| && socket.epoch == s.sockets[i].epoch
    ensures Ordered(Put(s, i, socket).sockets, s.epoch) && LogFits(s.changes, Put(s, i, socket).sockets, s.epoch)
    ensures CallsFit(Put(s, i, socket))
  {
    var sockets := s.sockets[i := socket];
    LogStays(s.changes, s.sockets, sockets, s.epoch, s.epoch);
    ClaimsStay(s.calls, s.sockets, sockets, s.epoch, s.epoch);
  }

  lemma {:induction false} WsKept(sockets: seq<Socket>, ws: Option<SocketId>, epoch: nat, i: SocketId, socket: Socket)
    requires WsOwns(sockets, ws, epoch) && i < |sockets| && socket.epoch == sockets[i].epoch
    requires socket == sockets[i].(outcome := socket.outcome) || socket.phase.Closing? || socket.phase.Closed?
    requires Live(socket, epoch) ==> Live(sockets[i], epoch)
    ensures WsOwns(sockets[i := socket], ws, epoch)
  {
  }

  lemma {:induction false} WsOpened(sockets: seq<Socket>, ws: Option<SocketId>, epoch: nat, i: SocketId)
    requires WsOwns(sockets, ws, epoch) && i < |sockets| && sockets[i].phase.Connecting?
    requires sockets[i].epoch == epoch && !sockets[i].retired
    requires Ordered(sockets, epoch)
    ensures WsOwns(sockets[i := sockets[i].(phase := Open)], Some(i), epoch)
  {
  }

  lemma {:induction false} WsGivenUp(sockets: seq<Socket>, i: SocketId, epoch: nat)
    requires WsOwns(sockets, Some(i), epoch) && i < |sockets| && !sockets[i].phase.Open? && !Live(sockets[i], epoch)
    ensures WsOwns(sockets, None, epoch)
  {
  }

  lemma {:induction false} OpenedKeepsInv(s: State, i: SocketId)
    requires Inv(s) && i < |s.sockets| && s.sockets[i].phase.Connecting?
    ensures Inv(SocketOpened(s, i))
  {
    var socket := s.sockets[i];
    if socket.retired || Stale(s, i) {
      PutKeeps(s, i, Settle(socket, Resolved).(phase := Closing));
      WsKept(s.sockets, s.ws, s.epoch, i, Settle(socket, Resolved).(phase := Closing));
    } else {
      PutKeeps(s, i, socket.(phase := Open));
      WsOpened(s.sockets, s.ws, s.epoch, i);
      LogGrows(s.changes, s.sockets[i := socket.(phase := Open)], s.epoch, Opening(i));
    }
  }

  lemma {:induction false} MessageKeepsInv(s: State, i: SocketId, content: Content)
    requires Inv(s) && i < |s.sockets|
    ensures Inv(SocketMessage(s, i, content))
  {
    PutKeeps(s, i, Settle(s.sockets[i], Resolved));
    WsKept(s.sockets, s.ws, s.epoch, i, Settle(s.sockets[i], Resolved));
    if !Stale(s, i) { LogGrows(s.changes, s.sockets, s.epoch, Frame(i)); }
  }

  lemma {:induction false} GoneKeepsInv(s: State, i: SocketId, phase: Phase)
    requires Inv(s) && i < |s.sockets| && (phase.Closing? || phase.Closed?)
    ensures Inv(SocketGone(s, i, phase))
  {
    var gone := s.sockets[i].(retired := true, phase := phase);
    var socket := Settle(gone, if Stale(s, i) then Resolved else Rejected);
    PutKeeps(s, i, socket);
    WsKept(s.sockets, s.ws, s.epoch, i, socket);
    if !Stale(s, i) && s.ws == Some(i) { WsGivenUp(s.sockets[i := socket], i, s.epoch); }
  }

  lemma {:induction false} NetKeepsInv(s: State, i: SocketId, e: SocketEvent)
    requires Inv(s) && i < |s.sockets| && CanHappen(s.sockets[i], e)
    ensures Inv(NetStep(s, i, e))
  {
    match e
    case Opened => OpenedKeepsInv(s, i);
    case Message(content) => MessageKeepsInv(s, i, content);
    case PeerCloses =>
      PutKeeps(s, i, s.sockets[i].(phase := Closing));
      WsKept(s.sockets, s.ws, s.epoch, i, s.sockets[i].(phase := Closing));
    case Failed => GoneKeepsInv(s, i, Closing);
    case Ended => GoneKeepsInv(s, i, Closed);
    case TimedOut => GoneKeepsInv(s, i, Ebbed(s.sockets[i].phase));
  }

  // ---------------------------------------------------------------- generations and calls

  lemma {:induction false} ClaimedKeeps(s: State, sockets: seq<Socket>, ws: Option<SocketId>)
    requires Inv(s) && |sockets| == |s.sockets| && SameEpochs(s.sockets, sockets)
    requires WsOwns(sockets, ws, s.epoch + 1)
    ensures Inv(s.(epoch := s.epoch + 1, sockets := sockets, ws := ws)) && Unused(sockets, s.epoch + 1)
  {
    LogStays(s.changes, s.sockets, sockets, s.epoch, s.epoch + 1);
    ClaimsStay(s.calls, s.sockets, sockets, s.epoch, s.epoch + 1);
  }

  lemma {:induction false} ClaimedWs(sockets: seq<Socket>, ws: Option<SocketId>, epoch: nat)
    requires Ordered(sockets, epoch) && WsOwns(sockets, ws, epoch)
    ensures WsOwns(sockets, ws, epoch + 1) && WsOwns(CloseAt(sockets, ws), None, epoch + 1)
  {
  }

  lemma {:induction false} ClaimKeepsInv(s: State)
    requires Inv(s)
    ensures Inv(Claim(s)) && Inv(ClaimAndDrop(s))
    ensures Unused(Claim(s).sockets, s.epoch + 1) && Unused(ClaimAndDrop(s).sockets, s.epoch + 1)
  {
    ClaimedWs(s.sockets, s.ws, s.epoch);
    ClaimedKeeps(s, s.sockets, s.ws);
    ClaimedKeeps(s, CloseAt(s.sockets, s.ws), None);
  }

  /** A call that has not dialled may hold this generation. */
  ghost predicate MayOwn(s: State, epoch: nat, except: CallId) {
    && epoch <= s.epoch && Unused(s.sockets, epoch)
    && forall c {:trigger Owns(s.calls[c])} :: 0 <= c < |s.calls| && c != except && Owns(s.calls[c]) ==> s.calls[c].epoch != epoch
  }

  lemma {:induction false} NewCallKeepsInv(s: State, call: Call)
    requires Inv(s)
    requires Owns(call) ==> MayOwn(s, call.epoch, |s.calls|)
    requires call.purpose.Joining?
    ensures Inv(NewCall(s, call))
  {
  }

  lemma {:induction false} NewSenderKeepsInv(s: State, call: Call)
    requires Inv(s) && !Owns(call) && call.purpose.Sending? && call.purpose.sendEpoch == s.sendEpoch + 1
    ensures Inv(NewCall(s, call).(sendEpoch := s.sendEpoch + 1))
  {
  }

  /** Call `c` moves on, keeping what it is for. */
  predicate MovesOn(a: Call, b: Call) {
    && a.purpose.Sending? == b.purpose.Sending?
    && (a.purpose.Sending? ==> a.purpose.sendEpoch == b.purpose.sendEpoch)
    && !a.stage.Done?
  }

  lemma {:induction false} MoveKeepsInv(s: State, c: CallId, call: Call)
    requires Inv(s) && c < |s.calls| && MovesOn(s.calls[c], call)
    requires Owns(call) ==> MayOwn(s, call.epoch, c)
    ensures Inv(s.(calls := s.calls[c := call]))
  {
    var calls := s.calls[c := call];
    forall k, d | 0 <= k < |s.sent| && 0 <= d < |calls| ensures !Waiting(calls[d], s.sent[k].sendEpoch) {
      assert !Waiting(s.calls[d], s.sent[k].sendEpoch);
    }
  }

  lemma {:induction false} FreshClaim(s: State)
    requires Inv(s)
    ensures MayOwn(Claim(s), s.epoch + 1, |s.calls|) && MayOwn(ClaimAndDrop(s), s.epoch + 1, |s.calls|)
    ensures forall c {:trigger MayOwn(Claim(s), s.epoch + 1, c)} :: MayOwn(Claim(s), s.epoch + 1, c)
  {
    ClaimKeepsInv(s);
  }

  lemma {:induction false} OpenKeepsInv(s: State, clears: bool)
    requires Inv(s) && Unused(s.sockets, s.epoch)
    requires forall c :: 0 <= c < |s.calls| && Owns(s.calls[c]) ==> s.calls[c].epoch != s.epoch
    ensures Inv(OpenSocket(s, s.epoch, clears))
  {
    var closed := CloseAt(s.sockets, s.ws);
    var sockets := closed + [NewSocket(s.epoch, clears)];
    ClaimsStay(s.calls, s.sockets, closed, s.epoch, s.epoch);
    LogStays(s.changes, s.sockets, sockets, s.epoch, s.epoch);
    forall c | 0 <= c < |s.calls| && Owns(s.calls[c]) ensures Unused(sockets, s.calls[c].epoch) {
      assert Unused(closed, s.calls[c].epoch);
    }
    assert Ordered(sockets, s.epoch);
  }

  lemma {:induction false} DialKeepsInv(s: State, c: CallId, clears: bool)
    requires Inv(s) && c < |s.calls| && Owns(s.calls[c])
    ensures Inv(Dial(s, c, clears))
  {
    var epoch := s.calls[c].epoch;
    var waiting := At(s, c, Awaited(s, epoch));
    MoveKeepsInv(s, c, s.calls[c].(stage := Awaited(s, epoch)));
    if epoch == s.epoch { OpenKeepsInv(waiting, clears); }
    assert Dial(s, c, clears) == OpenSocket(waiting, epoch, clears);
  }

  lemma {:induction false} TouchKeepsInv(s: State)
    requires Inv(s)
    ensures Inv(Touch(s, Local)) && Inv(NextSend(s))
  {
    LogGrows(s.changes, s.sockets, s.epoch, Local);
  }

  lemma {:induction false} FinishKeepsInv(s: State, c: CallId)
    requires Inv(s) && c < |s.calls| && s.calls[c].purpose.Sending? && !s.calls[c].stage.Done?
    ensures Inv(FinishSend(s, c))
  {
    var p := s.calls[c].purpose;
    MoveKeepsInv(s, c, s.calls[c].(stage := Done));
    var done := At(s, c, Done);
    if WsOpen(s) && p.sendEpoch == s.sendEpoch {
      var sent := s.sent + [Sent(p.sendEpoch, s.ws.value, s.epoch)];
      forall k | 0 <= k < |s.sent| ensures s.sent[k].sendEpoch < p.sendEpoch {
        assert !Waiting(s.calls[c], s.sent[k].sendEpoch);
      }
      forall k, d | 0 <= k < |sent| && 0 <= d < |done.calls| ensures !Waiting(done.calls[d], sent[k].sendEpoch) {
        if k < |s.sent| { assert !Waiting(done.calls[d], s.sent[k].sendEpoch); }
      }
      TouchKeepsInv(done.(sent := sent));
    }
  }

  lemma {:induction false} ReconnectKeepsInv(s: State, c: CallId, purpose: Purpose, stage: Stage)
    requires Inv(s) && c < |s.calls| && MovesOn(s.calls[c], Call(purpose, s.epoch + 1, stage))
    ensures Inv(Claim(s).(calls := s.calls[c := Call(purpose, s.epoch + 1, stage)]))
  {
    ClaimKeepsInv(s);
    FreshClaim(s);
    MoveKeepsInv(Claim(s), c, Call(purpose, s.epoch + 1, stage));
  }

  lemma {:induction false} DecideKeepsInv(s: State, c: CallId)
    requires Inv(s) && c < |s.calls| && s.calls[c].purpose.Sending? && !s.calls[c].stage.Done? && !Owns(s.calls[c])
    ensures Inv(DecideSend(s, c))
  {
    if WsOpen(s) {
      MoveKeepsInv(s, c, s.calls[c].(epoch := s.epoch));
      FinishKeepsInv(SetEpoch(s, c, s.epoch), c);
    } else {
      var stage := Reconnecting(s, s.calls[c].purpose.known);
      ReconnectKeepsInv(s, c, s.calls[c].purpose.(forced := stage.Creating?), stage);
    }
  }

  /** The conversation refs play no part in the invariant. */
  lemma {:induction false} RefsAreFree(s: State, t: State)
    requires Inv(s)
    requires t == s.(unspentPath := t.unspentPath, conversation := t.conversation, forceNew := t.forceNew)
    ensures Inv(t)
  {
  }

  lemma {:induction false} SenderDecides(s: State, p: Purpose)
    requires Inv(s) && p.Sending? && p.sendEpoch == s.sendEpoch + 1
    ensures Inv(DecideSend(NewCall(s, Call(p, 0, AwaitReady(None))).(sendEpoch := s.sendEpoch + 1), |s.calls|))
  {
    NewSenderKeepsInv(s, Call(p, 0, AwaitReady(None)));
    DecideKeepsInv(NewCall(s, Call(p, 0, AwaitReady(None))).(sendEpoch := s.sendEpoch + 1), |s.calls|);
  }

  lemma {:induction false} SendIs(s: State, expected: Option<ConversationId>, options: Options, p: Purpose)
    requires p == Sending(s.sendEpoch + 1, expected, options.conversationId, false)
    ensures BeginSend(s, expected, options) ==
      if expected.Some? && expected != s.conversation then s
      else if InFlight(s).Some? then NewCall(s, Call(p, 0, AwaitPrior(InFlight(s).value))).(sendEpoch := s.sendEpoch + 1)
      else DecideSend(NewCall(s, Call(p, 0, AwaitReady(None))).(sendEpoch := s.sendEpoch + 1), |s.calls|)
  {
  }

  lemma {:induction false} SendKeepsInv(s: State, expected: Option<ConversationId>, options: Options)
    requires Inv(s)
    ensures Inv(BeginSend(s, expected, options))
  {
    var p := Sending(s.sendEpoch + 1, expected, options.conversationId, false);
    SendIs(s, expected, options, p);
    if expected.None? || expected == s.conversation {
      if InFlight(s).Some? {
        NewSenderKeepsInv(s, Call(p, 0, AwaitPrior(InFlight(s).value)));
      } else {
        SenderDecides(s, p);
      }
    }
  }

  lemma {:induction false} ClaimedCall(s: State, stage: Stage)
    requires Inv(s)
    ensures Inv(NewCall(Claim(s), Call(Joining, s.epoch + 1, stage)))
  {
    ClaimKeepsInv(s);
    FreshClaim(s);
    NewCallKeepsInv(Claim(s), Call(Joining, s.epoch + 1, stage));
  }

  lemma {:induction false} DroppedCall(s: State, stage: Stage)
    requires Inv(s)
    ensures Inv(NewCall(ClaimAndDrop(s), Call(Joining, s.epoch + 1, stage)))
  {
    ClaimKeepsInv(s);
    FreshClaim(s);
    NewCallKeepsInv(ClaimAndDrop(s), Call(Joining, s.epoch + 1, stage));
  }

  lemma {:induction false} SpendPathKeepsInv(s: State, c: CallId, id: ConversationId)
    requires Inv(s) && c < |s.calls| && Owns(s.calls[c])
    ensures Inv(Dial(s.(conversation := Some(id), unspentPath := false), c, true))
  {
    RefsAreFree(s, s.(conversation := Some(id), unspentPath := false));
    DialKeepsInv(s.(conversation := Some(id), unspentPath := false), c, true);
  }

  lemma {:induction false} KnownKeepsInv(s: State, id: ConversationId)
    requires Inv(s)
    ensures Inv(ConnectKnown(s, id))
  {
    var s1 := NewCall(Claim(s), Call(Joining, s.epoch + 1, Minting));
    ClaimedCall(s, Minting);
    if s.unspentPath {
      SpendPathKeepsInv(s1, |s.calls|, id);
      assert ConnectKnown(s, id) == Dial(s1.(conversation := Some(id), unspentPath := false), |s.calls|, true);
    } else {
      RefsAreFree(s1, s1.(conversation := Some(id)));
      assert ConnectKnown(s, id) == s1.(conversation := Some(id));
    }
  }

  lemma {:induction false} FreshKeepsInv(s: State)
    requires Inv(s)
    ensures Inv(StartFresh(s))
  {
    var s1 := NewCall(ClaimAndDrop(s), Call(Joining, s.epoch + 1, Creating));
    DroppedCall(s, Creating);
    var s2 := s1.(conversation := None, forceNew := false);
    assert StartFresh(s) == Touch(s2, Local);
    RefsAreFree(s1, s2);
    TouchKeepsInv(s2);
  }

  lemma {:induction false} ConnectKeepsInv(s: State, options: Options)
    requires Inv(s)
    ensures Inv(BeginConnect(s, options))
  {
    if !options.alwaysCreateNew && WsOpen(s) {
      assert BeginConnect(s, options) == s;
    } else if options.conversationId.Some? {
      assert BeginConnect(s, options) == ConnectKnown(s, options.conversationId.value);
      KnownKeepsInv(s, options.conversationId.value);
    } else if options.alwaysCreateNew || !options.listing {
      FreshKeepsInv(s);
    } else {
      ClaimedCall(s, Listing);
    }
  }

  lemma {:induction false} SwitchKeepsInv(s: State, id: Option<ConversationId>, resumes: bool)
    requires Inv(s)
    ensures Inv(SwitchTo(s, id, resumes))
  {
    var stage := if id.Some? then Minting else Done;
    DroppedCall(s, stage);
    var s1 := NewCall(ClaimAndDrop(s), Call(Joining, s.epoch + 1, stage));
    var s2 := s1.(conversation := if id.Some? then id else s.conversation, forceNew := s.forceNew && !resumes);
    RefsAreFree(s1, s2);
    TouchKeepsInv(s2);
    TouchKeepsInv(Touch(s2, Local));
  }

  lemma {:induction false} ClearedKeepsInv(s: State)
    requires Inv(s)
    ensures Inv(Cleared(s)) && Inv(ClaimAndDrop(s))
  {
    ClaimKeepsInv(s);
    var s1 := ClaimAndDrop(s).(conversation := None, forceNew := false);
    RefsAreFree(ClaimAndDrop(s), s1);
    TouchKeepsInv(s1);
    TouchKeepsInv(Touch(s1, Local));
  }

  lemma {:induction false} UserKeepsInv(s: State, e: UserEvent)
    requires Inv(s)
    ensures Inv(UserStep(s, e))
  {
    match e
    case Connect(options) => ConnectKeepsInv(s, options);
    case SendMessage(expected, options) => SendKeepsInv(s, expected, options);
    case NewConversation => FreshKeepsInv(s); TouchKeepsInv(StartFresh(s));
    case SwitchConversation(id, resumes) => SwitchKeepsInv(s, id, resumes);
    case Reset => ClearedKeepsInv(s);
    case Unmount => ClearedKeepsInv(s);
    case Cancel(_) => TouchKeepsInv(s); TouchKeepsInv(Touch(s, Local));
  }

  lemma {:induction false} OwnerMovesOn(s: State, c: CallId, stage: Stage)
    requires Inv(s) && c < |s.calls| && Owns(s.calls[c])
    ensures Inv(At(s, c, stage))
  {
    forall d | 0 <= d < |s.calls| && d != c && Owns(s.calls[d]) ensures s.calls[d].epoch != s.calls[c].epoch {
      if d < c { assert s.calls[d].epoch != s.calls[c].epoch; }
    }
    MoveKeepsInv(s, c, s.calls[c].(stage := stage));
  }

  lemma {:induction false} ListKeepsInv(s: State, c: CallId, listed: Listed)
    requires Inv(s) && c < |s.calls| && Owns(s.calls[c])
    ensures Inv(ListArrived(s, c, listed))
  {
    var t := ListArrived(s, c, listed);
    var u := At(s, c, t.calls[c].stage);
    OwnerMovesOn(s, c, t.calls[c].stage);
    RefsAreFree(u, t);
  }

  lemma {:induction false} SettledKeepsInv(s: State, c: CallId, i: Option<SocketId>)
    requires Inv(s) && c < |s.calls| && s.calls[c].stage == AwaitReady(i)
    ensures Inv(ConnectSettled(s, c, i))
  {
    MoveKeepsInv(s, c, s.calls[c].(stage := Done));
    if s.calls[c].purpose.Sending? {
      RefsAreFree(s, s.(forceNew := false));
      FinishKeepsInv(if s.calls[c].purpose.forced then s.(forceNew := false) else s, c);
    }
  }

  lemma {:induction false} CreatedKeepsInv(s: State, c: CallId, id: ConversationId)
    requires Inv(s) && c < |s.calls| && Owns(s.calls[c])
    ensures Inv(ConversationCreated(s, c, id))
  {
    RefsAreFree(s, s.(conversation := Some(id)));
    DialKeepsInv(if s.calls[c].epoch == s.epoch then s.(conversation := Some(id)) else s, c, false);
  }

  lemma {:induction false} AnswerKeepsInv(s: State, c: CallId, reply: Reply)
    requires Inv(s) && Answers(s, c, reply)
    ensures Inv(AnswerStep(s, c, reply))
  {
    if reply.Refused? {
      OwnerMovesOn(s, c, Done);
    } else {
      match s.calls[c].stage
      case Listing => ListKeepsInv(s, c, reply.listed);
      case Creating => CreatedKeepsInv(s, c, reply.id);
      case Minting => DialKeepsInv(s, c, true);
      case AwaitPrior(_) => DecideKeepsInv(s, c);
      case AwaitReady(i) => SettledKeepsInv(s, c, i);
    }
  }

  lemma {:induction false} StepKeepsInv(s: State, e: Event)
    requires Inv(s) && Enabled(s, e)
    ensures Inv(Step(s, e))
  {
    match e
    case User(user) => UserKeepsInv(s, user);
    case Net(i, net) => NetKeepsInv(s, i, net);
    case Answer(c, reply) => AnswerKeepsInv(s, c, reply);
  }

  lemma {:induction false} RunKeepsInv(path: bool, es: seq<Event>)
    ensures Inv(Run(Init(path), es))
  {
    if es != [] {
      RunKeepsInv(path, es[..|es| - 1]);
      var s := Run(Init(path), es[..|es| - 1]);
      if Enabled(s, es[|es| - 1]) { StepKeepsInv(s, es[|es| - 1]); }
    }
  }
}
