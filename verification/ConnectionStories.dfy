/** What the refs and sockets of the chat hook hold, as the events tell it, and what a send left alone achieves. */
module ConnectionStories {
  import opened Prelude
  import opened ClientConnection
  import opened ConnectionProofs

  // ---------------------------------------------------------------- the conversation refs

  datatype Refs = Refs(conversation: Option<ConversationId>, forceNew: bool, sendEpoch: nat)

  function RefsOf(s: State): Refs { Refs(s.conversation, s.forceNew, s.sendEpoch) }

  function UserRefs(s: State, e: UserEvent, r: Refs): Refs {
    match e
    case Connect(options) =>
      if !options.alwaysCreateNew && WsOpen(s) then r
      else if options.conversationId.Some? then Refs(options.conversationId, r.forceNew, r.sendEpoch)
      else if options.alwaysCreateNew || !options.listing then Refs(None, false, r.sendEpoch) else r
    case SendMessage(expected, _) =>
      if expected.None? || expected == r.conversation then Refs(r.conversation, r.forceNew, r.sendEpoch + 1) else r
    case NewConversation => Refs(None, false, r.sendEpoch + 1)
    case SwitchConversation(id, resumes) =>
      Refs(if id.Some? then id else r.conversation, r.forceNew && !resumes, r.sendEpoch + 1)
    case Reset => Refs(None, false, r.sendEpoch + 1)
    case Unmount => r
    case Cancel(_) => Refs(r.conversation, r.forceNew, r.sendEpoch + 1)
  }

  /** An answer that was superseded leaves the refs alone. A conversation too old to resume makes the next one new. */
  function AnswerRefs(s: State, call: Call, reply: Reply, r: Refs): Refs {
    match reply
    case Rows(Recent(id, young)) =>
      if call.epoch != s.epoch then r
      else if call.purpose.Sending? then Refs(Some(id), r.forceNew, r.sendEpoch)
      else if young then Refs(Some(id), false, r.sendEpoch) else Refs(r.conversation, true, r.sendEpoch)
    case Created(id) => if call.epoch == s.epoch then Refs(Some(id), r.forceNew, r.sendEpoch) else r
    case Granted =>
      if call.purpose.Sending? && call.purpose.forced && call.stage.AwaitReady? && !Failed(s, call.stage.socket)
      then Refs(r.conversation, false, r.sendEpoch) else r
    case _ => r
  }

  predicate Failed(s: State, socket: Option<SocketId>) {
    socket.Some? && socket.value < |s.sockets| && s.sockets[socket.value].outcome.Rejected?
  }

  function NextRefs(s: State, e: Event, r: Refs): Refs
    requires Enabled(s, e)
  {
    match e
    case User(user) => UserRefs(s, user, r)
    case Net(_, _) => r
    case Answer(c, reply) => AnswerRefs(s, s.calls[c], reply, r)
  }

  ghost function RefStory(path: bool, es: seq<Event>): Refs {
    if es == [] then Refs(None, false, 0)
    else
      var s, e := Run(Init(path), es[..|es| - 1]), es[|es| - 1];
      if Enabled(s, e) then NextRefs(s, e, RefStory(path, es[..|es| - 1])) else RefStory(path, es[..|es| - 1])
  }

  lemma {:induction false} FinishLeavesRefs(s: State, c: CallId)
    requires c < |s.calls| && s.calls[c].purpose.Sending?
    ensures RefsOf(FinishSend(s, c)) == RefsOf(s)
  {
  }

  lemma {:induction false} DecideLeavesRefs(s: State, c: CallId)
    requires c < |s.calls| && s.calls[c].purpose.Sending?
    ensures RefsOf(DecideSend(s, c)) == RefsOf(s)
  {
    FinishLeavesRefs(SetEpoch(s, c, s.epoch), c);
  }

  lemma {:induction false} SendRefs(s: State, expected: Option<ConversationId>, options: Options)
    ensures RefsOf(BeginSend(s, expected, options)) == UserRefs(s, SendMessage(expected, options), RefsOf(s))
  {
    var p := Sending(s.sendEpoch + 1, expected, options.conversationId, false);
    SendIs(s, expected, options, p);
    DecideLeavesRefs(NewCall(s, Call(p, 0, AwaitReady(None))).(sendEpoch := s.sendEpoch + 1), |s.calls|);
  }

  lemma {:induction false} KnownRefs(s: State, id: ConversationId)
    ensures RefsOf(ConnectKnown(s, id)) == Refs(Some(id), s.forceNew, s.sendEpoch)
  {
  }

  lemma {:induction false} ConnectRefs(s: State, options: Options)
    ensures RefsOf(BeginConnect(s, options)) == UserRefs(s, Connect(options), RefsOf(s))
  {
    if options.conversationId.Some? { KnownRefs(s, options.conversationId.value); }
  }

  lemma {:induction false} UserTells(s: State, e: UserEvent)
    ensures RefsOf(UserStep(s, e)) == UserRefs(s, e, RefsOf(s))
  {
    match e
    case Connect(options) => ConnectRefs(s, options);
    case SendMessage(expected, options) => SendRefs(s, expected, options);
    case _ =>
  }

  lemma {:induction false} ListRefs(s: State, c: CallId, listed: Listed)
    requires c < |s.calls|
    ensures RefsOf(ListArrived(s, c, listed)) == AnswerRefs(s, s.calls[c], Rows(listed), RefsOf(s))
  {
  }

  lemma {:induction false} CreatedRefs(s: State, c: CallId, id: ConversationId)
    requires c < |s.calls|
    ensures RefsOf(ConversationCreated(s, c, id)) == AnswerRefs(s, s.calls[c], Created(id), RefsOf(s))
  {
  }

  lemma {:induction false} SettledRefs(s: State, c: CallId, i: Option<SocketId>)
    requires c < |s.calls| && s.calls[c].stage == AwaitReady(i)
    ensures RefsOf(ConnectSettled(s, c, i)) == AnswerRefs(s, s.calls[c], Granted, RefsOf(s))
  {
    if s.calls[c].purpose.Sending? {
      FinishLeavesRefs(s, c);
      FinishLeavesRefs(s.(forceNew := false), c);
    }
  }

  lemma {:induction false} AnswerTells(s: State, c: CallId, reply: Reply)
    requires Answers(s, c, reply)
    ensures RefsOf(AnswerStep(s, c, reply)) == AnswerRefs(s, s.calls[c], reply, RefsOf(s))
  {
    if !reply.Refused? {
      match s.calls[c].stage
      case Listing => ListRefs(s, c, reply.listed);
      case Creating => CreatedRefs(s, c, reply.id);
      case Minting =>
      case AwaitPrior(_) => DecideLeavesRefs(s, c);
      case AwaitReady(i) => SettledRefs(s, c, i);
    }
  }

  lemma {:induction false} NetTells(s: State, i: SocketId, e: SocketEvent)
    requires i < |s.sockets| && CanHappen(s.sockets[i], e)
    ensures RefsOf(NetStep(s, i, e)) == RefsOf(s)
  {
  }

  /** In every run the conversation, the wish for a new one and the number of the latest send are what the events tell. */
  lemma {:induction false} RefsAreTheirStory(path: bool, es: seq<Event>)
    ensures RefsOf(Run(Init(path), es)) == RefStory(path, es)
  {
    if es != [] {
      var s, e := Run(Init(path), es[..|es| - 1]), es[|es| - 1];
      RefsAreTheirStory(path, es[..|es| - 1]);
      if Enabled(s, e) {
        match e
        case User(user) => UserTells(s, user);
        case Net(i, net) => NetTells(s, i, net);
        case Answer(c, reply) => AnswerTells(s, c, reply);
      }
    }
  }

  // ---------------------------------------------------------------- sockets

  function Rank(p: Phase): nat {
    match p
    case Connecting => 0
    case Open => 1
    case Closing => 2
    case Closed => 3
  }

  /** A socket only ages: its generation stays, it never opens again, stays retired, and settles once. */
  predicate Ages(a: Socket, b: Socket) {
    && b.epoch == a.epoch && b.clears == a.clears && Rank(a.phase) <= Rank(b.phase)
    && (a.retired ==> b.retired) && (!a.outcome.Pending? ==> b.outcome == a.outcome)
  }

  predicate AllAge(a: seq<Socket>, b: seq<Socket>) { |a| <= |b| && forall i :: 0 <= i < |a| ==> Ages(a[i], b[i]) }

  lemma {:induction false} SendSockets(s: State, c: CallId)
    requires c < |s.calls| && s.calls[c].purpose.Sending?
    ensures FinishSend(s, c).sockets == s.sockets && FinishSend(s, c).ws == s.ws
    ensures DecideSend(s, c).sockets == s.sockets && DecideSend(s, c).ws == s.ws
  {
    if WsOpen(s) { FinishIsQuiet(SetEpoch(s, c, s.epoch), c); }
    FinishIsQuiet(s, c);
  }

  lemma {:induction false} FinishIsQuiet(s: State, c: CallId)
    requires c < |s.calls| && s.calls[c].purpose.Sending?
    ensures FinishSend(s, c).sockets == s.sockets && FinishSend(s, c).ws == s.ws
  {
  }

  lemma {:induction false} BeginSendSockets(s: State, expected: Option<ConversationId>, options: Options)
    ensures BeginSend(s, expected, options).sockets == s.sockets && BeginSend(s, expected, options).ws == s.ws
  {
    var p := Sending(s.sendEpoch + 1, expected, options.conversationId, false);
    SendIs(s, expected, options, p);
    SendSockets(NewCall(s, Call(p, 0, AwaitReady(None))).(sendEpoch := s.sendEpoch + 1), |s.calls|);
  }

  /** What dialling, dropping and leaving alone do to the sockets and wsRef. */
  predicate Drops(s: State, t: State) { t.sockets == CloseAt(s.sockets, s.ws) && t.ws.None? }

  predicate Dials(s: State, t: State, epoch: nat) {
    |t.sockets| == |s.sockets| + 1 && t.sockets[..|s.sockets|] == CloseAt(s.sockets, s.ws) && t.ws.None?
    && t.sockets[|s.sockets|].phase.Connecting? && t.sockets[|s.sockets|].epoch == epoch
  }

  predicate Leaves(s: State, t: State) { t.sockets == s.sockets && t.ws == s.ws }

  predicate GivesUp(s: State, e: UserEvent) {
    match e
    case Connect(options) =>
      (options.alwaysCreateNew || !WsOpen(s)) && options.conversationId.None? && (options.alwaysCreateNew || !options.listing)
    case SendMessage(_, _) => false
    case Cancel(_) => false
    case _ => true
  }

  predicate DialsAtOnce(s: State, e: UserEvent) {
    e.Connect? && (e.options.alwaysCreateNew || !WsOpen(s)) && e.options.conversationId.Some? && s.unspentPath
  }

  lemma {:induction false} ConnectSockets(s: State, options: Options)
    ensures var t := BeginConnect(s, options);
      if GivesUp(s, Connect(options)) then Drops(s, t)
      else if DialsAtOnce(s, Connect(options)) then Dials(s, t, s.epoch + 1) else Leaves(s, t)
  {
    if options.conversationId.Some? && (options.alwaysCreateNew || !WsOpen(s)) {
      assert BeginConnect(s, options) == ConnectKnown(s, options.conversationId.value);
    }
  }

  lemma {:induction false} UserSockets(s: State, e: UserEvent)
    ensures var t := UserStep(s, e);
      if GivesUp(s, e) then Drops(s, t) else if DialsAtOnce(s, e) then Dials(s, t, s.epoch + 1) else Leaves(s, t)
  {
    match e
    case Connect(options) => ConnectSockets(s, options);
    case SendMessage(expected, options) => BeginSendSockets(s, expected, options);
    case _ =>
  }

  /** A created conversation or a fresh token opens a socket if its call has not been superseded. */
  predicate DialsNow(s: State, c: CallId, reply: Reply)
    requires c < |s.calls|
  {
    s.calls[c].epoch == s.epoch
    && ((s.calls[c].stage.Creating? && reply.Created?) || (s.calls[c].stage.Minting? && reply.Granted?))
  }

  lemma {:induction false} AnswerSockets(s: State, c: CallId, reply: Reply)
    requires Answers(s, c, reply)
    ensures var t := AnswerStep(s, c, reply);
      if DialsNow(s, c, reply) then Dials(s, t, s.epoch) else Leaves(s, t)
  {
    if s.calls[c].purpose.Sending? {
      SendSockets(s, c);
      SendSockets(s.(forceNew := false), c);
    }
  }

  lemma {:induction false} ClosingAges(s: State)
    ensures AllAge(s.sockets, CloseAt(s.sockets, s.ws))
  {
  }

  lemma {:induction false} NetAges(s: State, i: SocketId, e: SocketEvent)
    requires i < |s.sockets| && CanHappen(s.sockets[i], e)
    ensures AllAge(s.sockets, NetStep(s, i, e).sockets)
  {
    NetTouchesOne(s, i, e);
    NetAgesOne(s, i, e);
  }

  lemma {:induction false} NetTouchesOne(s: State, i: SocketId, e: SocketEvent)
    requires i < |s.sockets| && CanHappen(s.sockets[i], e)
    ensures var t := NetStep(s, i, e); |t.sockets| == |s.sockets| && t.sockets == s.sockets[i := t.sockets[i]]
  {
  }

  lemma {:induction false} NetAgesOne(s: State, i: SocketId, e: SocketEvent)
    requires i < |s.sockets| && CanHappen(s.sockets[i], e)
    ensures |NetStep(s, i, e).sockets| == |s.sockets| && Ages(s.sockets[i], NetStep(s, i, e).sockets[i])
  {
  }

  lemma {:induction false} StepAges(s: State, e: Event)
    requires Enabled(s, e)
    ensures AllAge(s.sockets, Step(s, e).sockets)
  {
    ClosingAges(s);
    match e
    case User(user) => UserSockets(s, user);
    case Net(i, net) => NetAges(s, i, net);
    case Answer(c, reply) => AnswerSockets(s, c, reply);
  }

  /** In every continuation of every run each socket only ages. */
  lemma {:induction false} SocketsOnlyAge(path: bool, es: seq<Event>, more: seq<Event>)
    ensures AllAge(Run(Init(path), es).sockets, Run(Run(Init(path), es), more).sockets)
  {
    if more != [] {
      var t := Run(Run(Init(path), es), more[..|more| - 1]);
      SocketsOnlyAge(path, es, more[..|more| - 1]);
      if Enabled(t, more[|more| - 1]) { StepAges(t, more[|more| - 1]); }
    }
  }

  // ---------------------------------------------------------------- the open socket

  function OpenOf(s: State): Option<SocketId> { if WsOpen(s) then s.ws else None }

  function NextOpen(s: State, e: Event, before: Option<SocketId>): Option<SocketId>
    requires Enabled(s, e)
  {
    match e
    case User(user) => if GivesUp(s, user) || DialsAtOnce(s, user) then None else before
    case Net(i, Opened) => if !s.sockets[i].retired && s.sockets[i].epoch == s.epoch then Some(i) else before
    case Net(_, Message(_)) => before
    case Net(i, _) => if before == Some(i) then None else before
    case Answer(c, reply) => if DialsNow(s, c, reply) then None else before
  }

  ghost function OpenStory(path: bool, es: seq<Event>): Option<SocketId> {
    if es == [] then None
    else
      var s, e := Run(Init(path), es[..|es| - 1]), es[|es| - 1];
      if Enabled(s, e) then NextOpen(s, e, OpenStory(path, es[..|es| - 1])) else OpenStory(path, es[..|es| - 1])
  }

  lemma {:induction false} NetOpens(s: State, i: SocketId, e: SocketEvent)
    requires WsOwns(s.sockets, s.ws, s.epoch) && i < |s.sockets| && CanHappen(s.sockets[i], e)
    ensures OpenOf(NetStep(s, i, e)) == NextOpen(s, Net(i, e), OpenOf(s))
  {
  }

  lemma {:induction false} StepOpens(s: State, e: Event)
    requires WsOwns(s.sockets, s.ws, s.epoch) && Enabled(s, e)
    ensures OpenOf(Step(s, e)) == NextOpen(s, e, OpenOf(s))
  {
    match e
    case User(user) => UserSockets(s, user);
    case Net(i, net) => NetOpens(s, i, net);
    case Answer(c, reply) => AnswerSockets(s, c, reply);
  }

  lemma {:induction false} OpenIsItsStory(path: bool, es: seq<Event>)
    ensures OpenOf(Run(Init(path), es)) == OpenStory(path, es)
  {
    if es != [] {
      var s, e := Run(Init(path), es[..|es| - 1]), es[|es| - 1];
      OpenIsItsStory(path, es[..|es| - 1]);
      RunKeepsInv(path, es[..|es| - 1]);
      if Enabled(s, e) { StepOpens(s, e); }
    }
  }

  /** In every run a socket is open if and only if it opened as the unretired one of its generation and has since neither
      closed, failed nor timed out, nor been given up or replaced; and then it is the one in wsRef. */
  lemma {:induction false} OpenIff(path: bool, es: seq<Event>, i: SocketId)
    ensures var s := Run(Init(path), es);
      && (OpenStory(path, es) == Some(i) <==> i < |s.sockets| && s.sockets[i].phase.Open?)
      && (OpenStory(path, es) == Some(i) ==> s.ws == Some(i))
  {
    OpenIsItsStory(path, es);
    RunKeepsInv(path, es);
  }

  /** A socket that opens is open if it is the unretired one of its generation; a late one is closed at once and its promise
      settled. No other socket is touched. */
  lemma {:induction false} OpeningDecides(s: State, i: SocketId)
    requires Enabled(s, Net(i, Opened))
    ensures var t, current := Step(s, Net(i, Opened)), s.sockets[i].epoch == s.epoch && !s.sockets[i].retired;
      && |t.sockets| == |s.sockets| && (forall j :: 0 <= j < |s.sockets| && j != i ==> t.sockets[j] == s.sockets[j])
      && t.sockets[i].phase == (if current then Open else Closing)
      && (if current then t.sockets[i].outcome == s.sockets[i].outcome else !t.sockets[i].outcome.Pending?)
      && t.ws == if current then Some(i) else s.ws
  {
  }

  /** wsRef does not hold a lost socket of the current generation. */
  predicate HoldsUnretired(s: State) {
    s.ws.Some? && s.ws.value < |s.sockets| && s.sockets[s.ws.value].epoch == s.epoch ==> !s.sockets[s.ws.value].retired
  }

  lemma {:induction false} NetHolds(s: State, i: SocketId, e: SocketEvent)
    requires HoldsUnretired(s) && i < |s.sockets| && CanHappen(s.sockets[i], e)
    ensures HoldsUnretired(NetStep(s, i, e))
  {
  }

  lemma {:induction false} UserEpoch(s: State, e: UserEvent)
    ensures s.epoch <= UserStep(s, e).epoch
  {
    match e
    case Connect(options) => if options.conversationId.Some? { assert ConnectKnown(s, options.conversationId.value).epoch == s.epoch + 1; }
    case SendMessage(expected, options) =>
      var p := Sending(s.sendEpoch + 1, expected, options.conversationId, false);
      SendIs(s, expected, options, p);
      SendEpoch(NewCall(s, Call(p, 0, AwaitReady(None))).(sendEpoch := s.sendEpoch + 1), |s.calls|);
    case _ =>
  }

  lemma {:induction false} SendEpoch(s: State, c: CallId)
    requires c < |s.calls| && s.calls[c].purpose.Sending?
    ensures s.epoch <= DecideSend(s, c).epoch && FinishSend(s, c).epoch == s.epoch
  {
    if WsOpen(s) { FinishChanges(SetEpoch(s, c, s.epoch), c); }
    FinishChanges(s, c);
  }

  lemma {:induction false} AnswerEpoch(s: State, c: CallId, reply: Reply)
    requires Answers(s, c, reply)
    ensures s.epoch <= AnswerStep(s, c, reply).epoch
  {
    if s.calls[c].purpose.Sending? {
      SendEpoch(s, c);
      SendEpoch(s.(forceNew := false), c);
    }
  }

  lemma {:induction false} LaterHolds(s: State, t: State)
    requires Ordered(s.sockets, s.epoch) && HoldsUnretired(s) && s.epoch <= t.epoch
    requires t.ws.None? || (t.ws == s.ws && t.sockets == s.sockets)
    ensures HoldsUnretired(t)
  {
  }

  lemma {:induction false} StepHolds(s: State, e: Event)
    requires Ordered(s.sockets, s.epoch) && HoldsUnretired(s) && Enabled(s, e)
    ensures HoldsUnretired(Step(s, e))
  {
    match e
    case User(user) =>
      UserSockets(s, user);
      UserEpoch(s, user);
      LaterHolds(s, Step(s, e));
    case Net(i, net) => NetHolds(s, i, net);
    case Answer(c, reply) =>
      AnswerSockets(s, c, reply);
      AnswerEpoch(s, c, reply);
      LaterHolds(s, Step(s, e));
  }

  /** In every run a socket that failed, closed or timed out is no longer in wsRef unless a newer generation has begun. */
  lemma {:induction false} LostIsGivenUp(path: bool, es: seq<Event>)
    ensures HoldsUnretired(Run(Init(path), es))
  {
    if es != [] {
      var s, e := Run(Init(path), es[..|es| - 1]), es[|es| - 1];
      LostIsGivenUp(path, es[..|es| - 1]);
      RunKeepsInv(path, es[..|es| - 1]);
      if Enabled(s, e) { StepHolds(s, e); }
    }
  }

  // ---------------------------------------------------------------- the transcript

  /** What an event changes in the transcript: the user's own actions, a message that goes out, the history cleared for a
      socket that opens, or a frame that counts. */
  predicate Changes(s: State, e: Event, sends: bool)
    requires Enabled(s, e)
  {
    match e
    case User(Connect(options)) => GivesUp(s, Connect(options))
    case User(SendMessage(_, _)) => sends
    case User(Cancel(marks)) => marks
    case User(Unmount) => false
    case User(_) => true
    case Net(i, Opened) => s.sockets[i].epoch == s.epoch && !s.sockets[i].retired && s.sockets[i].clears
    case Net(i, Message(content)) => content.Transcript? && s.sockets[i].epoch == s.epoch && !s.sockets[i].retired
    case Net(_, _) => false
    case Answer(_, _) => sends
  }

  function CauseOf(e: Event): Cause {
    match e
    case Net(i, Message(_)) => Frame(i)
    case Net(i, _) => Cause.Opening(i)
    case _ => Local
  }

  /** The change an event makes, in the generation it leaves behind. */
  function Added(s: State, e: Event): seq<Change>
    requires Enabled(s, e)
  {
    if Changes(s, e, Step(s, e).sent != s.sent) then [Change(CauseOf(e), Step(s, e).epoch)] else []
  }

  lemma {:induction false} FinishChanges(s: State, c: CallId)
    requires c < |s.calls| && s.calls[c].purpose.Sending?
    ensures var t := FinishSend(s, c);
      t.epoch == s.epoch && t.changes == s.changes + if t.sent != s.sent then [Change(Local, t.epoch)] else []
  {
  }

  lemma {:induction false} DecideChanges(s: State, c: CallId)
    requires c < |s.calls| && s.calls[c].purpose.Sending?
    ensures var t := DecideSend(s, c);
      t.changes == s.changes + if t.sent != s.sent then [Change(Local, t.epoch)] else []
  {
    if WsOpen(s) { FinishChanges(SetEpoch(s, c, s.epoch), c); }
  }

  lemma {:induction false} SendChanges(s: State, expected: Option<ConversationId>, options: Options)
    ensures var t := BeginSend(s, expected, options);
      t.changes == s.changes + if t.sent != s.sent then [Change(Local, t.epoch)] else []
  {
    var p := Sending(s.sendEpoch + 1, expected, options.conversationId, false);
    SendIs(s, expected, options, p);
    DecideChanges(NewCall(s, Call(p, 0, AwaitReady(None))).(sendEpoch := s.sendEpoch + 1), |s.calls|);
  }

  lemma {:induction false} ConnectChanges(s: State, options: Options)
    ensures var t := BeginConnect(s, options);
      t.changes == s.changes + if GivesUp(s, Connect(options)) then [Change(Local, t.epoch)] else []
  {
    if options.conversationId.Some? { assert ConnectKnown(s, options.conversationId.value).changes == s.changes; }
  }

  lemma {:induction false} UserChanges(s: State, e: UserEvent)
    ensures UserStep(s, e).changes == s.changes + Added(s, User(e))
  {
    match e
    case Connect(options) => ConnectChanges(s, options);
    case SendMessage(expected, options) => SendChanges(s, expected, options);
    case _ =>
  }

  lemma {:induction false} AnswerChanges(s: State, c: CallId, reply: Reply)
    requires Answers(s, c, reply)
    ensures AnswerStep(s, c, reply).changes == s.changes + Added(s, Answer(c, reply))
  {
    if s.calls[c].purpose.Sending? {
      DecideChanges(s, c);
      FinishChanges(s, c);
      FinishChanges(s.(forceNew := false), c);
    }
  }

  lemma {:induction false} NetChanges(s: State, i: SocketId, e: SocketEvent)
    requires i < |s.sockets| && CanHappen(s.sockets[i], e)
    ensures NetStep(s, i, e).changes == s.changes + Added(s, Net(i, e))
  {
  }

  ghost function ChangeStory(path: bool, es: seq<Event>): seq<Change> {
    if es == [] then []
    else
      var s, e := Run(Init(path), es[..|es| - 1]), es[|es| - 1];
      if Enabled(s, e) then ChangeStory(path, es[..|es| - 1]) + Added(s, e) else ChangeStory(path, es[..|es| - 1])
  }

  /** In every run the transcript is changed by exactly the events that may change it, each once and in order. */
  lemma {:induction false} ChangesAreTheirStory(path: bool, es: seq<Event>)
    ensures Run(Init(path), es).changes == ChangeStory(path, es)
  {
    if es != [] {
      var s, e := Run(Init(path), es[..|es| - 1]), es[|es| - 1];
      ChangesAreTheirStory(path, es[..|es| - 1]);
      if Enabled(s, e) {
        match e
        case User(user) => UserChanges(s, user);
        case Net(i, net) => NetChanges(s, i, net);
        case Answer(c, reply) => AnswerChanges(s, c, reply);
      }
    }
  }

  // ---------------------------------------------------------------- a send left alone

  function Follow(s: State, e: Event): State { if Enabled(s, e) then Step(s, e) else s }

  lemma {:induction false} RunSnoc(s: State, es: seq<Event>, e: Event)
    ensures Run(s, es + [e]) == Follow(Run(s, es), e)
  {
    assert (es + [e])[..|es|] == es;
  }

  lemma {:induction false} RunTwo(s: State, a: Event, b: Event)
    ensures Run(s, [a, b]) == Follow(Follow(s, a), b)
  {
    assert [a] == [] + [a] && [a, b] == [a] + [b];
    RunSnoc(s, [], a);
    RunSnoc(s, [a], b);
  }

  /** The new socket `i` opens, says it is ready, and call `c` goes on. */
  function Opening(i: SocketId, c: CallId): seq<Event> { [Net(i, Opened), Net(i, Message(Ready)), Answer(c, Granted)] }

  lemma {:induction false} RunOpening(s: State, i: SocketId, c: CallId)
    ensures Run(s, Opening(i, c)) == Follow(Follow(Follow(s, Net(i, Opened)), Net(i, Message(Ready))), Answer(c, Granted))
  {
    assert Opening(i, c) == [Net(i, Opened), Net(i, Message(Ready))] + [Answer(c, Granted)];
    RunTwo(s, Net(i, Opened), Net(i, Message(Ready)));
    RunSnoc(s, [Net(i, Opened), Net(i, Message(Ready))], Answer(c, Granted));
  }

  /** Call `c` is a send of the current generation that waits for the newest socket, which is still connecting. */
  predicate Dialled(s: State, c: CallId) {
    && c < |s.calls| && s.sockets != []
    && var i, call := |s.sockets| - 1, s.calls[c];
    && call.purpose.Sending? && call.purpose.sendEpoch == s.sendEpoch && call.epoch == s.epoch && call.stage == AwaitReady(Some(i))
    && s.sockets[i] == NewSocket(s.epoch, s.sockets[i].clears) && s.ws.None?
  }

  /** Whether the message goes out: the send names no conversation, or the one there is. */
  predicate Expected(p: Purpose, conversation: Option<ConversationId>)
    requires p.Sending?
  {
    p.expected.None? || p.expected == conversation
  }

  lemma {:induction false} SocketReady(s: State, c: CallId)
    requires Dialled(s, c)
    ensures var i := |s.sockets| - 1;
      var t := Follow(Follow(s, Net(i, Opened)), Net(i, Message(Ready)));
      && t == s.(sockets := t.sockets, ws := Some(i), changes := t.changes)
      && |t.sockets| == |s.sockets| && t.sockets[i] == s.sockets[i].(phase := Open, outcome := Resolved)
  {
  }

  /** What has become of `s` when the socket that call `c` dialled is ready: the message is out if it is expected there. */
  predicate WentOut(s: State, c: CallId, t: State)
    requires Dialled(s, c)
  {
    var i, p := |s.sockets| - 1, s.calls[c].purpose;
    && t.sent == (if Expected(p, s.conversation) then s.sent + [Sent(p.sendEpoch, i, s.epoch)] else s.sent)
    && t.conversation == s.conversation && t.forceNew == (s.forceNew && !p.forced)
    && t.ws == Some(i) && t.epoch == s.epoch && |t.sockets| == |s.sockets| && t.sockets[i].phase.Open? && t.sockets[i].epoch == s.epoch
  }

  lemma {:induction false} GoesOut(s: State, c: CallId)
    requires Dialled(s, c)
    ensures WentOut(s, c, Run(s, Opening(|s.sockets| - 1, c)))
  {
    var i := |s.sockets| - 1;
    RunOpening(s, i, c);
    SocketReady(s, c);
    Settles(Follow(Follow(s, Net(i, Opened)), Net(i, Message(Ready))), c, i);
  }

  lemma {:induction false} Settles(s: State, c: CallId, i: SocketId)
    requires i < |s.sockets| && s.sockets[i].phase.Open? && s.sockets[i].outcome.Resolved? && s.ws == Some(i)
    requires c < |s.calls| && s.calls[c].purpose.Sending? && s.calls[c].purpose.sendEpoch == s.sendEpoch
    requires s.calls[c].epoch == s.epoch && s.calls[c].stage == AwaitReady(Some(i))
    ensures var p := s.calls[c].purpose;
      var t := Follow(s, Answer(c, Granted));
      && t.sent == (if Expected(p, s.conversation) then s.sent + [Sent(p.sendEpoch, i, s.epoch)] else s.sent)
      && t.conversation == s.conversation && t.forceNew == (s.forceNew && !p.forced)
      && t.ws == s.ws && t.epoch == s.epoch && t.sockets == s.sockets
  {
    var u := if s.calls[c].purpose.forced then s.(forceNew := false) else s;
    assert Follow(s, Answer(c, Granted)) == FinishSend(u, c);
  }

  lemma {:induction false} RunConcat(s: State, a: seq<Event>, b: seq<Event>)
    ensures Run(s, a + b) == Run(Run(s, a), b)
  {
    if b == [] {
      assert a + b == a;
    } else {
      ButLast(a, b);
      RunConcat(s, a, b[..|b| - 1]);
    }
  }

  /** A conversation to go on with is named by the send, or is the current one unless a new one was wished for. */
  predicate Known(s: State, options: Options) { options.conversationId.Some? || (s.conversation.Some? && !s.forceNew) }

  /** How a send reconnects: with a token for the known conversation, or in a new one, or by asking for the latest. */
  predicate Reconnects(s: State, expected: Option<ConversationId>, options: Options, t: State) {
    var stage := if Known(s, options) then Minting else if s.forceNew then Creating else Listing;
    t == s.(epoch := s.epoch + 1, sendEpoch := s.sendEpoch + 1,
            calls := s.calls + [Call(Sending(s.sendEpoch + 1, expected, options.conversationId, stage.Creating?), s.epoch + 1, stage)])
  }

  lemma {:induction false} SendReconnects(s: State, expected: Option<ConversationId>, options: Options)
    requires !WsOpen(s) && InFlight(s).None? && (expected.None? || expected == s.conversation)
    ensures Reconnects(s, expected, options, Follow(s, User(SendMessage(expected, options))))
  {
    var p := Sending(s.sendEpoch + 1, expected, options.conversationId, false);
    SendIs(s, expected, options, p);
    var s1 := NewCall(s, Call(p, 0, AwaitReady(None))).(sendEpoch := s.sendEpoch + 1);
    var stage := Reconnecting(s1, p.known);
    var call := Call(p.(forced := stage.Creating?), s.epoch + 1, stage);
    assert DecideSend(s1, |s.calls|) == Claim(s1).(calls := s1.calls[|s.calls| := call]);
    assert s1.calls[|s.calls| := call] == s.calls + [call];
  }

  /** Call `c` is a send of the current generation waiting at `stage`. */
  predicate Begun(s: State, c: CallId, stage: Stage) {
    && c < |s.calls| && s.calls[c].purpose.Sending? && s.calls[c].purpose.sendEpoch == s.sendEpoch
    && s.calls[c].epoch == s.epoch && s.calls[c].stage == stage
  }

  /** `t` is `s` with call `c` waiting for a new socket and the conversation set. */
  predicate DialledFrom(s: State, t: State, c: CallId, conversation: Option<ConversationId>)
    requires c < |s.calls|
  {
    && Dialled(t, c) && |t.sockets| == |s.sockets| + 1 && t.epoch == s.epoch && t.sent == s.sent
    && t.conversation == conversation && t.forceNew == s.forceNew && t.calls[c].purpose == s.calls[c].purpose
  }

  lemma {:induction false} TokenDials(s: State, c: CallId)
    requires Begun(s, c, Minting)
    ensures DialledFrom(s, Follow(s, Answer(c, Granted)), c, s.conversation)
  {
  }

  lemma {:induction false} CreationDials(s: State, c: CallId, id: ConversationId)
    requires Begun(s, c, Creating)
    ensures DialledFrom(s, Follow(s, Answer(c, Created(id))), c, Some(id))
  {
  }

  /** What the server answers until the socket is made: the latest conversation if it is asked for, or a new one `id`. */
  function Preparing(s: State, options: Options, found: Listed, id: ConversationId): seq<Event> {
    var c := |s.calls|;
    if Known(s, options) then [Answer(c, Granted)]
    else if s.forceNew then [Answer(c, Created(id))]
    else [Answer(c, Rows(found)), Answer(c, if found.Recent? then Granted else Created(id))]
  }

  /** The conversation the send ends up in. */
  function Joined(s: State, options: Options, found: Listed, id: ConversationId): Option<ConversationId> {
    if Known(s, options) then s.conversation
    else if !s.forceNew && found.Recent? then Some(found.id) else Some(id)
  }

  lemma {:induction false} RunOne(s: State, e: Event)
    ensures Run(s, [e]) == Follow(s, e)
  {
    assert [e] == [] + [e];
    RunSnoc(s, [], e);
  }

  lemma {:induction false} ListDials(s: State, c: CallId, found: Listed, id: ConversationId)
    requires Begun(s, c, Listing)
    ensures DialledFrom(s, Follow(Follow(s, Answer(c, Rows(found))), Answer(c, if found.Recent? then Granted else Created(id))), c,
                        Some(if found.Recent? then found.id else id))
  {
    if found.Recent? { TokenDials(Follow(s, Answer(c, Rows(found))), c); } else { CreationDials(Follow(s, Answer(c, Rows(found))), c, id); }
  }

  lemma {:induction false} PreparingDials(s: State, expected: Option<ConversationId>, options: Options, found: Listed, id: ConversationId, t: State)
    requires Reconnects(s, expected, options, t)
    ensures DialledFrom(t, Run(t, Preparing(s, options, found, id)), |s.calls|, Joined(s, options, found, id))
  {
    var c := |s.calls|;
    if Known(s, options) {
      RunOne(t, Answer(c, Granted));
      TokenDials(t, c);
    } else if s.forceNew {
      RunOne(t, Answer(c, Created(id)));
      CreationDials(t, c, id);
    } else {
      RunTwo(t, Answer(c, Rows(found)), Answer(c, if found.Recent? then Granted else Created(id)));
      ListDials(t, c, found, id);
    }
  }

  /** Where a send that found no open socket is when it is through. */
  predicate Through(s: State, t: State, expected: Option<ConversationId>, options: Options, joined: Option<ConversationId>) {
    && t.conversation == joined && t.forceNew == (s.forceNew && Known(s, options))
    && t.ws == Some(|s.sockets|) && |t.sockets| == |s.sockets| + 1 && t.epoch == s.epoch + 1
    && t.sockets[|s.sockets|].phase.Open? && t.sockets[|s.sockets|].epoch == t.epoch
    && t.sent == if expected.None? || expected == joined then s.sent + [Sent(s.sendEpoch + 1, |s.sockets|, t.epoch)] else s.sent
  }

  lemma {:induction false} SendDials(s: State, expected: Option<ConversationId>, options: Options, found: Listed, id: ConversationId)
    requires !WsOpen(s) && InFlight(s).None? && (expected.None? || expected == s.conversation)
    ensures var t := Follow(s, User(SendMessage(expected, options)));
      && Reconnects(s, expected, options, t)
      && DialledFrom(t, Run(s, [User(SendMessage(expected, options))] + Preparing(s, options, found, id)), |s.calls|, Joined(s, options, found, id))
  {
    RunConcat(s, [User(SendMessage(expected, options))], Preparing(s, options, found, id));
    RunOne(s, User(SendMessage(expected, options)));
    SendReconnects(s, expected, options);
    PreparingDials(s, expected, options, found, id, Follow(s, User(SendMessage(expected, options))));
  }

  lemma {:induction false} SendsFrom(s: State, t: State, d: State, expected: Option<ConversationId>, options: Options, joined: Option<ConversationId>)
    requires Reconnects(s, expected, options, t) && DialledFrom(t, d, |s.calls|, joined)
    ensures Through(s, Run(d, Opening(|s.sockets|, |s.calls|)), expected, options, joined)
  {
    GoesOut(d, |s.calls|);
  }

  lemma {:induction false} Sends(s: State, expected: Option<ConversationId>, options: Options, found: Listed, id: ConversationId)
    requires !WsOpen(s) && InFlight(s).None? && (expected.None? || expected == s.conversation)
    ensures Through(s, Run(s, [User(SendMessage(expected, options))] + Preparing(s, options, found, id) + Opening(|s.sockets|, |s.calls|)),
                    expected, options, Joined(s, options, found, id))
  {
    var first := [User(SendMessage(expected, options))] + Preparing(s, options, found, id);
    SendDials(s, expected, options, found, id);
    SendsFrom(s, Follow(s, User(SendMessage(expected, options))), Run(s, first), expected, options, Joined(s, options, found, id));
    RunConcat(s, first, Opening(|s.sockets|, |s.calls|));
  }

  /** From every reachable state with no socket open or on its way, a send that is left alone reconnects, ends up in the
      known conversation, the latest one or a new one, and its message goes out there exactly if it named that one or none. */
  lemma {:induction false} SendGetsThrough(path: bool, es: seq<Event>, expected: Option<ConversationId>, options: Options, found: Listed, id: ConversationId)
    requires var s := Run(Init(path), es); !WsOpen(s) && InFlight(s).None? && (expected.None? || expected == s.conversation)
    ensures var s := Run(Init(path), es);
      Through(s, Run(s, [User(SendMessage(expected, options))] + Preparing(s, options, found, id) + Opening(|s.sockets|, |s.calls|)),
              expected, options, Joined(s, options, found, id))
  {
    Sends(Run(Init(path), es), expected, options, found, id);
  }
}
