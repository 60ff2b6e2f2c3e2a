/** What every interleaving of the chat hook guarantees. */
module ConnectionTheorems {
  import opened Prelude
  import opened ClientConnection
  import opened ConnectionProofs

  // ---------------------------------------------------------------- main theorems

  /** Each generation creates at most one socket. */
  lemma {:induction false} OneSocketPerEpoch(path: bool, es: seq<Event>, i: SocketId, j: SocketId)
    requires i < j < |Run(Init(path), es).sockets|
    ensures Run(Init(path), es).sockets[i].epoch < Run(Init(path), es).sockets[j].epoch
  {
    RunKeepsInv(path, es);
  }

  /** There is never an open socket besides the one in wsRef: losing and superseded ones are closed. */
  lemma {:induction false} NoSocketLeaks(path: bool, es: seq<Event>, i: SocketId)
    requires i < |Run(Init(path), es).sockets| && Run(Init(path), es).sockets[i].phase.Open?
    ensures Run(Init(path), es).ws == Some(i)
  {
    RunKeepsInv(path, es);
  }

  /** A frame changes the transcript exactly when its socket is unretired and of the current generation,
      and then that socket is the one in wsRef. */
  lemma {:induction false} FrameCountsIff(path: bool, es: seq<Event>, i: SocketId)
    requires Enabled(Run(Init(path), es), Net(i, Message(Transcript)))
    ensures var s := Run(Init(path), es);
      var t := Step(s, Net(i, Message(Transcript)));
      && (t.changes != s.changes <==> s.sockets[i].epoch == s.epoch && !s.sockets[i].retired)
      && (t.changes != s.changes ==> s.ws == Some(i) && t.changes == s.changes + [Change(Frame(i), s.epoch)])
  {
    RunKeepsInv(path, es);
    var s := Run(Init(path), es);
    assert |s.changes + [Change(Frame(i), s.epoch)]| > |s.changes|;
    assert Live(s.sockets[i], s.epoch) <==> s.sockets[i].epoch == s.epoch && !s.sockets[i].retired;
  }

  /** A step adds at most one change, and only a frame adds one on behalf of a frame. */
  predicate Adds(before: seq<Change>, after: seq<Change>, cause: Cause) {
    after == before || (|after| == |before| + 1 && after[..|before|] == before && after[|before|].cause == cause)
  }

  lemma {:induction false} SendAddsLocal(s: State, c: CallId)
    requires c < |s.calls| && s.calls[c].purpose.Sending?
    ensures Adds(s.changes, FinishSend(s, c).changes, Local) && Adds(s.changes, DecideSend(s, c).changes, Local)
  {
  }

  lemma {:induction false} ConnectAddsLocal(s: State, options: Options)
    ensures Adds(s.changes, BeginConnect(s, options).changes, Local) && Adds(s.changes, StartFresh(s).changes, Local)
  {
    if options.conversationId.Some? { assert ConnectKnown(s, options.conversationId.value).changes == s.changes; }
  }

  lemma {:induction false} BeginSendAddsLocal(s: State, expected: Option<ConversationId>, options: Options)
    ensures Adds(s.changes, BeginSend(s, expected, options).changes, Local)
  {
    var p := Sending(s.sendEpoch + 1, expected, options.conversationId, false);
    SendIs(s, expected, options, p);
    SendAddsLocal(NewCall(s, Call(p, 0, AwaitReady(None))).(sendEpoch := s.sendEpoch + 1), |s.calls|);
  }

  lemma {:induction false} UserAddsLocal(s: State, e: UserEvent)
    ensures Adds(s.changes, UserStep(s, e).changes, Local)
  {
    match e
    case Connect(options) => ConnectAddsLocal(s, options);
    case SendMessage(expected, options) => BeginSendAddsLocal(s, expected, options);
    case NewConversation => ConnectAddsLocal(s, Options(true, None, true));
    case _ =>
  }

  lemma {:induction false} AnswerAddsLocal(s: State, c: CallId, reply: Reply)
    requires Answers(s, c, reply)
    ensures Adds(s.changes, AnswerStep(s, c, reply).changes, Local)
  {
    if s.calls[c].purpose.Sending? {
      SendAddsLocal(s, c);
      SendAddsLocal(s.(forceNew := false), c);
    }
  }

  /** No other event ever applies a frame. */
  lemma {:induction false} OnlyFramesAreFrames(s: State, e: Event, i: SocketId)
    requires Enabled(s, e) && e != Net(i, Message(Transcript))
    ensures Adds(s.changes, Step(s, e).changes, if e.Net? then (if e.net.Message? then Frame(e.socket) else Opening(e.socket)) else Local)
    ensures |s.changes| < |Step(s, e).changes| ==> Step(s, e).changes[|s.changes|].cause != Frame(i)
  {
    match e
    case User(user) => UserAddsLocal(s, user);
    case Answer(c, reply) => AnswerAddsLocal(s, c, reply);
    case Net(_, _) =>
  }

  /** The conversations of two sockets never interleave in the transcript. */
  lemma {:induction false} ConversationsDoNotInterleave(path: bool, es: seq<Event>, j: nat, k: nat, l: nat)
    requires var log := Run(Init(path), es).changes;
      j < k < l < |log| && log[j].cause.Frame? && log[k].cause.Frame? && log[l].cause == log[j].cause
    ensures Run(Init(path), es).changes[k].cause == Run(Init(path), es).changes[j].cause
  {
    RunKeepsInv(path, es);
    var s := Run(Init(path), es);
    var a, b := s.changes[j].cause.socket, s.changes[k].cause.socket;
    assert s.sockets[a].epoch == s.sockets[b].epoch;
  }

  /** Sends leave in the order they were asked for, each at most once. */
  lemma {:induction false} SendsLeaveInOrder(path: bool, es: seq<Event>, k: nat, l: nat)
    requires k < l < |Run(Init(path), es).sent|
    ensures Run(Init(path), es).sent[k].sendEpoch < Run(Init(path), es).sent[l].sendEpoch
  {
    RunKeepsInv(path, es);
  }

  // ---------------------------------------------------------------- an open wsRef and its generation

  /** An open wsRef belongs to the current generation, so its frames count and sends on it are heard. */
  predicate OpenIsCurrent(s: State) { WsOpen(s) ==> s.sockets[s.ws.value].epoch == s.epoch }

  /** connect() with both `alwaysCreateNew` and a known conversation while the socket is open and no
      path is left to spend: it claims a generation and leaves the socket in wsRef. */
  predicate Orphans(s: State, e: Event) {
    && e.User? && e.user.Connect? && e.user.options.alwaysCreateNew && e.user.options.conversationId.Some?
    && WsOpen(s) && !s.unspentPath
  }

  lemma {:induction false} DroppedIsNone(s: State)
    ensures ClaimAndDrop(s).ws.None? && StartFresh(s).ws.None? && Cleared(s).ws.None?
    ensures forall id, resumes :: SwitchTo(s, id, resumes).ws.None?
  {
  }

  lemma {:induction false} SendKeepsOpen(s: State, c: CallId)
    requires OpenIsCurrent(s) && c < |s.calls| && s.calls[c].purpose.Sending?
    ensures OpenIsCurrent(FinishSend(s, c)) && OpenIsCurrent(DecideSend(s, c))
  {
  }

  lemma {:induction false} ConnectKeepsOpen(s: State, options: Options)
    requires Inv(s) && OpenIsCurrent(s)
    ensures OpenIsCurrent(BeginConnect(s, options)) <==> !Orphans(s, User(Connect(options)))
  {
    DroppedIsNone(s);
    if options.conversationId.Some? && WsOpen(s) && options.alwaysCreateNew {
      var t := BeginConnect(s, options);
      assert t == ConnectKnown(s, options.conversationId.value);
      if s.unspentPath { assert t.ws.None?; } else { assert t.ws == s.ws && t.sockets == s.sockets && t.epoch == s.epoch + 1; }
    }
  }

  lemma {:induction false} UserKeepsOpen(s: State, e: UserEvent)
    requires Inv(s) && OpenIsCurrent(s)
    ensures OpenIsCurrent(UserStep(s, e)) <==> !Orphans(s, User(e))
  {
    DroppedIsNone(s);
    match e
    case Connect(options) => ConnectKeepsOpen(s, options);
    case SendMessage(expected, options) =>
      var p := Sending(s.sendEpoch + 1, expected, options.conversationId, false);
      SendIs(s, expected, options, p);
      SendKeepsOpen(NewCall(s, Call(p, 0, AwaitReady(None))).(sendEpoch := s.sendEpoch + 1), |s.calls|);
    case _ =>
  }

  lemma {:induction false} AnswerKeepsOpen(s: State, c: CallId, reply: Reply)
    requires OpenIsCurrent(s) && Answers(s, c, reply)
    ensures OpenIsCurrent(AnswerStep(s, c, reply))
  {
    if s.calls[c].purpose.Sending? {
      SendKeepsOpen(s, c);
      SendKeepsOpen(s.(forceNew := false), c);
    }
  }

  lemma {:induction false} NetKeepsOpen(s: State, i: SocketId, e: SocketEvent)
    requires OpenIsCurrent(s) && i < |s.sockets| && CanHappen(s.sockets[i], e)
    ensures OpenIsCurrent(NetStep(s, i, e))
  {
  }

  /** One step breaks the agreement of wsRef and epoch exactly when it is such a connect. */
  lemma {:induction false} OnlyOrphaningBreaks(s: State, e: Event)
    requires Inv(s) && Enabled(s, e) && OpenIsCurrent(s)
    ensures OpenIsCurrent(Step(s, e)) <==> !Orphans(s, e)
  {
    match e
    case User(user) => UserKeepsOpen(s, user);
    case Net(i, net) => NetKeepsOpen(s, i, net);
    case Answer(c, reply) => AnswerKeepsOpen(s, c, reply);
  }

  ghost predicate AlwaysCurrent(path: bool, es: seq<Event>) {
    forall k :: 0 <= k <= |es| ==> OpenIsCurrent(Run(Init(path), es[..k]))
  }

  ghost predicate NeverOrphans(path: bool, es: seq<Event>) {
    forall k :: 0 <= k < |es| ==> !Orphans(Run(Init(path), es[..k]), es[k])
  }

  lemma {:induction false} RunPrefix(s: State, es: seq<Event>, k: nat)
    requires k < |es|
    ensures Run(s, es[..k + 1]) == if Enabled(Run(s, es[..k]), es[k]) then Step(Run(s, es[..k]), es[k]) else Run(s, es[..k])
  {
    assert es[..k + 1][..k] == es[..k];
  }

  lemma {:induction false} CurrentStep(path: bool, es: seq<Event>, k: nat)
    requires k < |es| && OpenIsCurrent(Run(Init(path), es[..k]))
    ensures OpenIsCurrent(Run(Init(path), es[..k + 1])) <==> !Orphans(Run(Init(path), es[..k]), es[k])
  {
    RunPrefix(Init(path), es, k);
    RunKeepsInv(path, es[..k]);
    if Enabled(Run(Init(path), es[..k]), es[k]) { OnlyOrphaningBreaks(Run(Init(path), es[..k]), es[k]); }
  }

  lemma {:induction false} CurrentUpTo(path: bool, es: seq<Event>, k: nat)
    requires k <= |es| && NeverOrphans(path, es)
    ensures OpenIsCurrent(Run(Init(path), es[..k]))
  {
    if k > 0 {
      CurrentUpTo(path, es, k - 1);
      CurrentStep(path, es, k - 1);
    }
  }

  /** In a run, an open wsRef always belongs to the current generation if and only if no connect() with
      both options ever finds the socket open and its path spent. */
  lemma {:induction false} OpenIsCurrentIff(path: bool, es: seq<Event>)
    ensures AlwaysCurrent(path, es) <==> NeverOrphans(path, es)
  {
    if NeverOrphans(path, es) {
      forall k | 0 <= k <= |es| ensures OpenIsCurrent(Run(Init(path), es[..k])) { CurrentUpTo(path, es, k); }
    }
    if AlwaysCurrent(path, es) {
      forall k | 0 <= k < |es| ensures !Orphans(Run(Init(path), es[..k]), es[k]) {
        assert OpenIsCurrent(Run(Init(path), es[..k]));
        assert OpenIsCurrent(Run(Init(path), es[..k + 1]));
        CurrentStep(path, es, k);
      }
    }
  }

  /** A message leaves on the socket of the generation it was sent in, and that socket's frames count. */
  lemma {:induction false} SendsAreHeard(path: bool, es: seq<Event>, e: Event)
    requires NeverOrphans(path, es) && Enabled(Run(Init(path), es), e)
    requires |Step(Run(Init(path), es), e).sent| > |Run(Init(path), es).sent|
    ensures var s := Run(Init(path), es);
      var t := Step(s, e);
      && t.sent[..|s.sent|] == s.sent && |t.sent| == |s.sent| + 1
      && var m := t.sent[|s.sent|];
         && t.ws == Some(m.socket) && m.socket < |t.sockets| && m.epoch == t.epoch
         && t.sockets[m.socket].epoch == t.epoch && !t.sockets[m.socket].retired && t.sockets[m.socket].phase.Open?
  {
    RunKeepsInv(path, es);
    var s := Run(Init(path), es);
    assert es[..|es|] == es;
    CurrentUpTo(path, es, |es|);
    StepKeepsInv(s, e);
    SentOnOpen(s, e);
    assert Inv(Step(s, e));
  }

  lemma {:induction false} FinishSends(s: State, c: CallId)
    requires c < |s.calls| && s.calls[c].purpose.Sending?
    ensures var t := FinishSend(s, c);
      t.sent == s.sent || (WsOpen(s) && t.sent == s.sent + [Sent(s.calls[c].purpose.sendEpoch, s.ws.value, s.epoch)])
    ensures var t := FinishSend(s, c); t.ws == s.ws && t.sockets == s.sockets && t.epoch == s.epoch
  {
  }

  predicate SendsOn(s: State, t: State) {
    t.sent == s.sent ||
    (WsOpen(s) && t.ws == s.ws && t.sockets == s.sockets && t.epoch == s.epoch
     && |t.sent| == |s.sent| + 1 && t.sent[..|s.sent|] == s.sent && t.sent[|s.sent|].socket == s.ws.value && t.sent[|s.sent|].epoch == s.epoch)
  }

  lemma {:induction false} DecideSends(s: State, c: CallId)
    requires c < |s.calls| && s.calls[c].purpose.Sending?
    ensures SendsOn(s, FinishSend(s, c)) && SendsOn(s, DecideSend(s, c))
  {
    FinishSends(s, c);
    FinishSends(SetEpoch(s, c, s.epoch), c);
  }

  lemma {:induction false} BeginSendSends(s: State, expected: Option<ConversationId>, options: Options)
    ensures SendsOn(s, BeginSend(s, expected, options))
  {
    var p := Sending(s.sendEpoch + 1, expected, options.conversationId, false);
    SendIs(s, expected, options, p);
    DecideSends(NewCall(s, Call(p, 0, AwaitReady(None))).(sendEpoch := s.sendEpoch + 1), |s.calls|);
  }

  lemma {:induction false} UserSends(s: State, e: UserEvent)
    ensures SendsOn(s, UserStep(s, e))
  {
    match e
    case SendMessage(expected, options) => BeginSendSends(s, expected, options);
    case _ => assert UserStep(s, e).sent == s.sent;
  }

  lemma {:induction false} NetSends(s: State, i: SocketId, e: SocketEvent)
    requires i < |s.sockets| && CanHappen(s.sockets[i], e)
    ensures NetStep(s, i, e).sent == s.sent
  {
  }

  lemma {:induction false} AnswerSends(s: State, c: CallId, reply: Reply)
    requires Answers(s, c, reply)
    ensures SendsOn(s, AnswerStep(s, c, reply))
  {
    if s.calls[c].purpose.Sending? {
      DecideSends(s, c);
      DecideSends(s.(forceNew := false), c);
    }
  }

  lemma {:induction false} SentOnOpen(s: State, e: Event)
    requires Enabled(s, e)
    ensures SendsOn(s, Step(s, e))
  {
    match e
    case User(user) => UserSends(s, user);
    case Net(i, net) => NetSends(s, i, net);
    case Answer(c, reply) => AnswerSends(s, c, reply);
  }

  // ---------------------------------------------------------------- the orphaned socket

  lemma {:induction false} RunSnoc(s: State, es: seq<Event>, e: Event)
    ensures Run(s, es + [e]) == if Enabled(Run(s, es), e) then Step(Run(s, es), e) else Run(s, es)
  {
    assert (es + [e])[..|es|] == es;
  }

  const FIRST_SOCKET := Socket(1, true, Open, false, Resolved)

  /** Connected to a known conversation over the path the caller handed in. */
  function Connected(id: ConversationId): State {
    State(1, 0, Some(0), false, Some(id), false, [FIRST_SOCKET], [Call(Joining, 1, AwaitReady(Some(0)))], [Change(Opening(0), 1)], [])
  }

  /** The same after a second connect() whose token could not be minted. */
  function Orphaned(id: ConversationId): State {
    Connected(id).(epoch := 2, calls := [Call(Joining, 1, AwaitReady(Some(0))), Call(Joining, 2, Done)])
  }

  lemma {:induction false} Connects(id: ConversationId, es: seq<Event>)
    requires es == [User(Connect(Options(true, Some(id), true))), Net(0, Opened), Net(0, Message(Ready))]
    ensures Run(Init(true), es) == Connected(id)
  {
    var s1 := State(1, 0, None, false, Some(id), false, [NewSocket(1, true)], [Call(Joining, 1, AwaitReady(Some(0)))], [], []);
    assert Step(Init(true), es[0]) == s1;
    var s2 := Connected(id).(sockets := [FIRST_SOCKET.(outcome := Pending)]);
    assert Step(s1, es[1]) == s2;
    assert Step(s2, es[2]) == Connected(id);
    RunSnoc(Init(true), [], es[0]);
    RunSnoc(Init(true), es[..1], es[1]);
    RunSnoc(Init(true), es[..2], es[2]);
    assert [] + [es[0]] == es[..1] && es[..1] + [es[1]] == es[..2] && es[..2] + [es[2]] == es;
  }

  lemma {:induction false} OrphansIt(id: ConversationId)
    ensures Orphans(Connected(id), User(Connect(Options(true, Some(id), true))))
    ensures var s := Step(Connected(id), User(Connect(Options(true, Some(id), true))));
      Answers(s, 1, Refused) && Step(s, Answer(1, Refused)) == Orphaned(id)
  {
  }

  lemma {:induction false} SendsInto(id: ConversationId)
    ensures var t := Step(Orphaned(id), User(SendMessage(None, Options(true, Some(id), true))));
      t.sent == [Sent(1, 0, 2)] && t.sockets == [FIRST_SOCKET] && t.ws == Some(0) && t.epoch == 2
  {
  }

  /** A run that orphans a socket, lets the new token fail, and then sends on it and hears nothing back. */
  lemma {:induction false} OrphanedChatIsOneWay(id: ConversationId)
    ensures exists es :: var s := Run(Init(true), es);
      && s.sent == [Sent(1, 0, 2)] && s.ws == Some(0) && s.sockets == [FIRST_SOCKET] && s.epoch == 2
      && Step(s, Net(0, Message(Transcript))).changes == s.changes
  {
    var both := Options(true, Some(id), true);
    var es0 := [User(Connect(both)), Net(0, Opened), Net(0, Message(Ready))];
    Connects(id, es0);
    OrphansIt(id);
    SendsInto(id);
    var es1 := es0 + [User(Connect(both))];
    var es2 := es1 + [Answer(1, Refused)];
    RunSnoc(Init(true), es0, User(Connect(both)));
    RunSnoc(Init(true), es1, Answer(1, Refused));
    RunSnoc(Init(true), es2, User(SendMessage(None, both)));
    var s := Run(Init(true), es2 + [User(SendMessage(None, both))]);
    assert SocketMessage(s, 0, Transcript).changes == s.changes;
  }
}
