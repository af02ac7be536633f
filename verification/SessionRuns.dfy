/** Whole runs of a connection: every sequence of requests, answers, failures and writes
    (td/mtproto/SessionConnection.cpp). */
module SessionRuns {
  import opened Bytes
  import opened AuthData
  import opened CryptoStorer
  import opened Session
  import opened SessionScheduling
  import opened SessionConservation

  // ------------------------------------------------------------ runs

  /** What can happen to a connection. */
  datatype Event =
    | Query(env: Env, packet: seq<byte>, gzip: bool, invokeAfter: int, quickAck: bool)
    | StateWanted(now: real, id: int)
    | ResendWanted(now: real, id: int)
    | CancelWanted(now: real, id: int)
    | AckWanted(now: real, id: int)
    | DestroyWanted
    | Failure(now: real, id: int)                      // bad_msg_notification 16 and 20, bad_server_salt
    | IdTooHigh                                        // bad_msg_notification 17
    | StateAnswer(id: int)                             // msgs_state_info
    | ServerSaltSet(now: real, salt: int)
    | SaltsReceived(now: real, list: seq<ServerSalt>)
    | OnlineSet(env: Env, isOnline: bool, main: bool)
    | BindPrepared(env: Env)                           // encrypted_bind draws an identifier
    | DataRead(now: real, whole: bool)                 // a whole packet gives an HTTP transport the turn
    | ClockMoved(difference: real)
    | KeysChanged(pfs: bool, main: bool, tmp: bool, expiresAt: real)
    | Write(env: Env)                                  // before_write

  /** Times are positive; send_query is not called on a long-poll connection. */
  predicate Allowed(s: State, e: Event) {
    match e
    case Query(env, _, _, _, _) => env.Ok() && !s.mode.HttpLongPoll?
    case StateWanted(now, _) => now > 0.0
    case ResendWanted(now, _) => now > 0.0
    case CancelWanted(now, _) => now > 0.0
    case AckWanted(now, _) => now > 0.0
    case Failure(now, _) => now > 0.0
    case Write(env) => env.Ok()
    case _ => true
  }

  function Apply(s: State, e: Event): State
    requires Allowed(s, e)
  {
    match e
    case Query(env, packet, gzip, invokeAfter, quickAck) => SendQuery(s, env, packet, gzip, invokeAfter, quickAck)
    case StateWanted(now, id) => AskState(s, now, id)
    case ResendWanted(now, id) => AskResend(s, now, id)
    case CancelWanted(now, id) => CancelAnswer(s, now, id)
    case AckWanted(now, id) => SendAck(s, now, id)
    case DestroyWanted => s.(needDestroy := true)
    case Failure(now, id) => MessageFailed(s, now, id)
    case IdTooHigh => s.(toSend := [])
    case StateAnswer(id) => s.(serviceQueries := s.serviceQueries - {id})
    case ServerSaltSet(now, salt) => s.(auth := s.auth.(salts := InstalledSalt(s.auth, salt, now)))
    case SaltsReceived(now, list) => s.(auth := s.auth.(salts := InstalledSalts(s.auth, list, now)))
    case OnlineSet(env, isOnline, main) => SetOnline(s, env, isOnline, main)
    case BindPrepared(env) => s.(auth := DrawId(s.auth, env.now, env.entropy))
    case DataRead(now, whole) =>
      s.(lastReadAt := now, lastPongAt := if whole then now else s.lastPongAt, canSend := s.canSend || whole)
    case ClockMoved(difference) => s.(auth := s.auth.(timeDifference := difference))
    case KeysChanged(pfs, main, tmp, expiresAt) =>
      s.(auth := s.auth.(usePfs := pfs, mainKey := main, tmpKey := tmp, tmpExpiresAt := expiresAt))
    case Write(env) => BeforeWrite(s, env)
  }

  function SetOnline(s: State, env: Env, isOnline: bool, main: bool): State {
    var needPing := isOnline || !s.online;
    var t := s.(online := isOnline, isMain := main, lastPingAt := 0.0, lastPingMessageId := 0, lastPingContainerId := 0);
    if needPing then
      t.(lastPongAt := env.now - t.PingDisconnectDelay(env.rtt) as real + env.rtt as real,
         lastReadAt := env.now - t.ReadDisconnectDelay(env.rtt) as real + env.rtt as real)
    else
      t.(lastPongAt := env.now, lastReadAt := env.now)
  }

  // ------------------------------------------------------------ what is recorded beside a run

  /** Everything asked for, and what was given up: queries cleared by IdTooHigh and requests whose service
      query was answered. */
  datatype Ledger = Ledger(asked: seq<CryptoStorer.Query>, cleared: seq<CryptoStorer.Query>, acks: seq<int>,
                           cancels: seq<int>, states: seq<int>, resends: seq<int>,
                           statesAnswered: multiset<int>, resendsAnswered: multiset<int>)

  ghost function Answered(s: State, id: int, kind: QueryKind): multiset<int> {
    if id in s.serviceQueries then IdsOf(s.serviceQueries[id], kind) else multiset{}
  }

  ghost function Note(l: Ledger, s: State, e: Event): Ledger
    requires Allowed(s, e)
  {
    match e
    case Query(_, _, _, _, _) => l.(asked := l.asked + [Apply(s, e).toSend[|s.toSend|]])
    case StateWanted(_, id) => l.(states := l.states + [id])
    case ResendWanted(_, id) => l.(resends := l.resends + [id])
    case CancelWanted(_, id) => l.(cancels := l.cancels + [id])
    case AckWanted(_, id) =>
      // one acknowledgement stands for consecutive equal ones
      if s.toAck != [] && s.toAck[|s.toAck| - 1] == id then l else l.(acks := l.acks + [id])
    case IdTooHigh => l.(cleared := l.cleared + s.toSend)
    case StateAnswer(id) =>
      l.(statesAnswered := l.statesAnswered + Answered(s, id, GetStateInfo),
         resendsAnswered := l.resendsAnswered + Answered(s, id, ResendAnswer))
    case _ => l
  }

  ghost predicate AllowedRun(s: State, es: seq<Event>)
    decreases |es|, 0
  {
    es == [] || (AllowedRun(s, es[..|es| - 1]) && Allowed(Run(s, es[..|es| - 1]), es[|es| - 1]))
  }

  ghost function Run(s: State, es: seq<Event>): State
    requires AllowedRun(s, es)
    decreases |es|, 1
  {
    if es == [] then s else Apply(Run(s, es[..|es| - 1]), es[|es| - 1])
  }

  ghost function NoteAll(l: Ledger, s: State, es: seq<Event>): Ledger
    requires AllowedRun(s, es)
    decreases |es|
  {
    if es == [] then l
    else Note(NoteAll(l, s, es[..|es| - 1]), Run(s, es[..|es| - 1]), es[|es| - 1])
  }

  // ------------------------------------------------------------ the invariant

  ghost predicate Ascending(qs: seq<CryptoStorer.Query>) {
    forall i, j :: 0 <= i < j < |qs| ==> qs[i].messageId < qs[j].messageId
  }

  /** Queries sent and waiting, in the order in which they leave. */
  function Live(s: State): seq<CryptoStorer.Query> { SentItems(s.output, QueryOf) + s.toSend }

  /** Every message was created by this session, and a container dominates what it holds. */
  ghost predicate PacketOk(p: Packet, a: Auth) {
    forall i :: 0 <= i < |p.Messages()| ==>
      Recorded(p.Messages()[i].id, p.Messages()[i].seqNo, a) &&
      (p.Container? ==> p.Messages()[i].id < p.id && p.Messages()[i].seqNo <= p.seqNo)
  }

  ghost predicate QueriesOk(qs: seq<CryptoStorer.Query>, a: Auth) {
    Ascending(qs) &&
    forall i :: 0 <= i < |qs| ==> Recorded(qs[i].messageId, qs[i].seqNo, a) && qs[i].messageId <= a.lastMessageId
  }

  ghost predicate Sound(s: State) {
    AuthOk(s.auth) && KeysDrawn(s) && Armed(s) && QueriesOk(Live(s), s.auth) &&
    forall i :: 0 <= i < |s.output| ==> PacketOk(s.output[i], s.auth)
  }

  /** Everything asked for is accounted for: sent or pending (queries also cleared; requests also in flight or
      answered). */
  ghost predicate Balanced(s: State, l: Ledger) {
    multiset(l.asked) == multiset(Live(s)) + multiset(l.cleared) &&
    multiset(l.acks) == multiset(SentItems(s.output, AckIds)) + multiset(s.toAck) &&
    multiset(l.cancels) == multiset(SentItems(s.output, CancelIds)) + multiset(s.toCancel) &&
    multiset(l.states) == Outstanding(s, GetStateInfo) + l.statesAnswered &&
    multiset(l.resends) == Outstanding(s, ResendAnswer) + l.resendsAnswered
  }

  /** The history of `b` starts with that of `a`. */
  ghost predicate Later(a: Auth, b: Auth) {
    AuthOk(b) && a.lastMessageId <= b.lastMessageId && |a.minted| <= |b.minted| && b.minted[..|a.minted|] == a.minted
  }

  lemma RecordedLater(id: int, seqNo: int, a: Auth, b: Auth)
    requires Later(a, b) && Recorded(id, seqNo, a)
    ensures Recorded(id, seqNo, b)
  {
    hide AuthOk;
    var k :| 0 <= k < |a.minted| && a.minted[k].id == id && a.minted[k].seqNo == seqNo;
    assert b.minted[..|a.minted|][k] == b.minted[k];
  }

  lemma PacketOkLater(p: Packet, a: Auth, b: Auth)
    requires Later(a, b) && PacketOk(p, a)
    ensures PacketOk(p, b)
  {
    hide AuthOk;
    hide Later;
    hide Recorded;
    forall i | 0 <= i < |p.Messages()| ensures Recorded(p.Messages()[i].id, p.Messages()[i].seqNo, b) {
      RecordedLater(p.Messages()[i].id, p.Messages()[i].seqNo, a, b);
    }
  }

  lemma QueriesOkLater(qs: seq<CryptoStorer.Query>, a: Auth, b: Auth)
    requires Later(a, b) && QueriesOk(qs, a)
    ensures QueriesOk(qs, b)
  {
    hide AuthOk;
    hide Recorded;
    hide Ascending;
    forall i | 0 <= i < |qs| ensures Recorded(qs[i].messageId, qs[i].seqNo, b) {
      RecordedLater(qs[i].messageId, qs[i].seqNo, a, b);
    }
  }

  /** A change that only lets the history grow keeps everything that was true of packets and queries. */
  lemma SoundLater(s: State, t: State)
    requires Sound(s) && Later(s.auth, t.auth) && Armed(t) && Live(t) == Live(s) && t.output == s.output
    requires t.serviceQueries.Keys <= s.serviceQueries.Keys && t.containerToService == s.containerToService
    ensures Sound(t)
  {
    hide AuthOk;
    hide QueriesOk;
    hide PacketOk;
    hide Armed;
    hide Live;
    QueriesOkLater(Live(s), s.auth, t.auth);
    forall i | 0 <= i < |t.output| ensures PacketOk(t.output[i], t.auth) {
      PacketOkLater(s.output[i], s.auth, t.auth);
    }
    assert AuthOk(t.auth);
  }

  // ------------------------------------------------------------ writing

  lemma RefreshedLater(a: Auth, now: real)
    requires AuthOk(a)
    ensures Later(a, a.Refreshed(now))
  {
    assert a.minted[..|a.minted|] == a.minted;
  }

  lemma AfterMustKeeps(s: State, env: Env, l: Ledger)
    requires Sound(s) && Balanced(s, l)
    ensures Sound(AfterMust(s, env)) && Balanced(AfterMust(s, env), l)
  {
    hide AuthOk;
    hide FlushAt;
    hide InFlight;
    RefreshedLater(s.auth, env.now);
    assert Later(s.auth, s.auth) by { assert s.auth.minted[..|s.auth.minted|] == s.auth.minted; }
    SoundLater(s, AfterMust(s, env));
  }

  lemma NewPacketOk(s: State, env: Env)
    requires AuthOk(s.auth) && QueriesOk(Live(s), s.auth) && !Gathered(s, env).Empty()
    ensures var a := s.auth.Refreshed(env.now);
            var b := Build(Gathered(s, env), a, env.now, env.entropy);
            PacketOk(b.packet, b.auth.Refreshed(env.now))
  {
    hide *;
    var a := s.auth.Refreshed(env.now);
    RefreshKeepsAuthOk(s.auth, env.now);
    var p := Gathered(s, env);
    var b := Build(p, a, env.now, env.entropy);
    FlushShape(s, env);
    RefreshKeepsAuthOk(b.auth, env.now);
    PendingRecorded(s, QueriesTaken(s, env), a);
    forall i | 0 <= i < |b.packet.Messages()|
      ensures Recorded(b.packet.Messages()[i].id, b.packet.Messages()[i].seqNo, b.auth) &&
              (b.packet.Container? ==> b.packet.Messages()[i].id < b.packet.id && b.packet.Messages()[i].seqNo <= b.packet.seqNo)
    {
      ContainerDominates(p, a, env.now, env.entropy, i);
    }
    PacketOkRefreshed(b.packet, b.auth, env.now);
  }

  lemma RecordedRefreshed(id: int, seqNo: int, a: Auth, now: real)
    requires Recorded(id, seqNo, a)
    ensures Recorded(id, seqNo, a.Refreshed(now))
  {
    var k :| 0 <= k < |a.minted| && a.minted[k].id == id && a.minted[k].seqNo == seqNo;
    assert a.Refreshed(now).minted[k] == a.minted[k];
  }

  lemma PacketOkRefreshed(p: Packet, a: Auth, now: real)
    requires forall i :: 0 <= i < |p.Messages()| ==>
               Recorded(p.Messages()[i].id, p.Messages()[i].seqNo, a) &&
               (p.Container? ==> p.Messages()[i].id < p.id && p.Messages()[i].seqNo <= p.seqNo)
    ensures PacketOk(p, a.Refreshed(now))
  {
    hide Recorded;
    hide UpdateSalt;
    forall i | 0 <= i < |p.Messages()| ensures Recorded(p.Messages()[i].id, p.Messages()[i].seqNo, a.Refreshed(now)) {
      RecordedRefreshed(p.Messages()[i].id, p.Messages()[i].seqNo, a, now);
    }
  }

  lemma PendingRecorded(s: State, k: nat, a: Auth)
    requires QueriesOk(Live(s), s.auth) && k <= |s.toSend| && a.minted == s.auth.minted
    ensures forall q :: q in s.toSend[..k] ==> Recorded(q.messageId, q.seqNo, a)
  {
    forall q | q in s.toSend[..k] ensures Recorded(q.messageId, q.seqNo, a) {
      var i :| 0 <= i < k && s.toSend[..k][i] == q;
      var n := |SentItems(s.output, QueryOf)|;
      assert Live(s)[n + i] == q;
    }
  }

  lemma FlushKeepsPackets(s: State, env: Env)
    requires Sound(s)
    ensures var t := FlushPacket(s, env); forall i :: 0 <= i < |t.output| ==> PacketOk(t.output[i], t.auth)
  {
    hide AuthOk;
    hide FlushPacket;
    hide Build;
    hide Gathered;
    hide PacketOk;
    hide QueriesOk;
    hide KeysDrawn;
    FlushKeepsAuthOk(s, env);
    var t := FlushPacket(s, env);
    if Gathered(s, env).Empty() {
      NothingTaken(s, env);
    } else {
      FlushShape(s, env);
      NewPacketOk(s, env);
    }
    forall i | 0 <= i < |s.output| ensures PacketOk(s.output[i], t.auth) {
      PacketOkLater(s.output[i], s.auth, t.auth);
    }
  }

  /** One guarded flush keeps the invariant and the balance. */
  lemma StepKeeps(s: State, env: Env, l: Ledger)
    requires MustFlush(s, env) && Sound(s) && Balanced(s, l)
    ensures Sound(Step(s, env)) && Balanced(Step(s, env), l)
  {
    var u := AfterMust(s, env);
    var t := FlushPacket(u, env);
    assert Sound(u) && Balanced(u, l) by { AfterMustKeeps(s, env, l); }
    assert Armed(t) by { StepKeepsArmed(s, env); }
    FlushKeepsSound(u, env);
    FlushKeepsBalance(u, env, l);
  }

  lemma FlushKeepsSound(s: State, env: Env)
    requires Sound(s) && Armed(FlushPacket(s, env))
    ensures Sound(FlushPacket(s, env))
  {
    hide AuthOk;
    hide FlushPacket;
    hide PacketOk;
    hide QueriesOk;
    hide KeysDrawn;
    FlushKeepsAuthOk(s, env);
    FlushKeepsKeys(s, env);
    FlushKeepsPackets(s, env);
    FlushConservesSent(s, env);
    QueriesOkLater(Live(s), s.auth, FlushPacket(s, env).auth);
  }

  lemma FlushKeepsBalance(s: State, env: Env, l: Ledger)
    requires Sound(s) && Balanced(s, l)
    ensures Balanced(FlushPacket(s, env), l)
  {
    hide AuthOk;
    hide FlushPacket;
    hide PacketOk;
    hide QueriesOk;
    hide KeysDrawn;
    hide InFlight;
    FlushConservesSent(s, env);
    FlushConservesService(s, env);
  }

  lemma {:induction false} WriteKeeps(s: State, env: Env, l: Ledger)
    requires env.Ok() && Sound(s) && Balanced(s, l)
    ensures Sound(BeforeWrite(s, env)) && Balanced(BeforeWrite(s, env), l)
    decreases Turn(s), s.Pending(), Deadline(s), Due(s, env)
  {
    if MustFlush(s, env) {
      hide Step;
      hide Sound;
      hide Balanced;
      StepKeeps(s, env, l);
      StepDescends(s, env);
      WriteKeeps(Step(s, env), env, l);
    } else {
      AfterMustKeeps(s, env, l);
    }
  }

  // ------------------------------------------------------------ the other events

  lemma QueryShape(s: State, e: Event)
    requires e.Query? && Allowed(s, e) && AuthOk(s.auth) && Armed(s)
    ensures var t := Apply(s, e);
            |t.toSend| == |s.toSend| + 1 && Armed(t) && Later(s.auth, t.auth) &&
            t == s.(auth := t.auth, toSend := s.toSend + [t.toSend[|s.toSend|]], forceSendAt := t.forceSendAt)
    ensures var t := Apply(s, e);
            var q := t.toSend[|s.toSend|];
            s.auth.lastMessageId < q.messageId == t.auth.lastMessageId && Recorded(q.messageId, q.seqNo, t.auth)
  {
    hide BeforeWrite;
    hide MessageFailed;
    hide AuthOk;
    hide Mint;
    hide SendBefore;
    var a, b := s.auth, Mint(s.auth, e.env.now, e.env.entropy, true);
    MintExtends(a, a, 0, e.env.now, e.env.entropy, true) by { SelfExtends(a); }
    ExtendsMeans(a, b, 1);
    SendBeforeShape(s.(auth := b), e.env.now + QUERY_DELAY);
    var q := Apply(s, e).toSend[|s.toSend|];
    assert b.minted[|a.minted|].id == q.messageId;
  }

  lemma QueryKeeps(s: State, e: Event, l: Ledger)
    requires e.Query? && Allowed(s, e) && Sound(s) && Balanced(s, l)
    ensures Sound(Apply(s, e)) && Balanced(Apply(s, e), Note(l, s, e))
  {
    hide AuthOk;
    hide Apply;
    hide InFlight;
    hide SentItems;
    hide PacketOk;
    hide Recorded;
    hide Armed;
    QueryShape(s, e);
    var t := Apply(s, e);
    assert Live(t) == Live(s) + [t.toSend[|s.toSend|]];
    QueriesOkLater(Live(s), s.auth, t.auth);
    forall i | 0 <= i < |t.output| ensures PacketOk(t.output[i], t.auth) {
      PacketOkLater(s.output[i], s.auth, t.auth);
    }
  }

  lemma SelfExtends(a: Auth)
    requires AuthOk(a)
    ensures Extends(a, a, 0)
  {
    assert a.minted[..|a.minted|] == a.minted;
  }

  lemma SameLater(a: Auth)
    requires AuthOk(a)
    ensures Later(a, a)
  {
    assert a.minted[..|a.minted|] == a.minted;
  }

  /** A state or resend request enters its queue and arms the deadline. */
  lemma RequestKeeps(s: State, e: Event, l: Ledger)
    requires (e.StateWanted? || e.ResendWanted?) && Allowed(s, e) && Sound(s) && Balanced(s, l)
    ensures Sound(Apply(s, e)) && Balanced(Apply(s, e), Note(l, s, e))
  {
    hide *;
    var kind := if e.StateWanted? then GetStateInfo else ResendAnswer;
    SoundMeans(s);
    AskShape(s, e.now, kind, e.id) by { AllowedMeans(s, e); }
    RequestApplies(s, e, l);
    AppendedBalance(s, Ask(s, e.now, kind, e.id), kind, e.id, l);
    AppendedSound(s, Ask(s, e.now, kind, e.id), kind, [e.id]);
  }

  lemma SoundMeans(s: State)
    requires Sound(s)
    ensures AuthOk(s.auth) && Armed(s) && KeysDrawn(s)
  {}

  lemma AllowedMeans(s: State, e: Event)
    requires Allowed(s, e) && (e.StateWanted? || e.ResendWanted?)
    ensures e.now > 0.0
  {}

  lemma RequestApplies(s: State, e: Event, l: Ledger)
    requires (e.StateWanted? || e.ResendWanted?) && Allowed(s, e)
    ensures var kind := if e.StateWanted? then GetStateInfo else ResendAnswer;
            Apply(s, e) == Ask(s, e.now, kind, e.id) && Note(l, s, e) == Requested(l, kind, e.id)
  {
    hide AskState;
    hide AskResend;
  }

  ghost function Requested(l: Ledger, kind: QueryKind, id: int): Ledger {
    if kind.GetStateInfo? then l.(states := l.states + [id]) else l.(resends := l.resends + [id])
  }

  lemma AppendedBalance(s: State, t: State, kind: QueryKind, id: int, l: Ledger)
    requires Appended(s, t, kind, [id]) && Balanced(s, l)
    ensures Balanced(t, Requested(l, kind, id))
  {
    hide InFlight;
    hide SentItems;
  }

  lemma AppendedSound(s: State, t: State, kind: QueryKind, ids: seq<int>)
    requires Appended(s, t, kind, ids) && Sound(s) && Armed(t)
    ensures Sound(t)
  {
    hide AuthOk;
    hide QueriesOk;
    hide PacketOk;
    hide KeysDrawn;
    hide SentItems;
    hide Armed;
    SameLater(s.auth);
    SoundLater(s, t);
  }

  lemma CancelKeeps(s: State, e: Event, l: Ledger)
    requires e.CancelWanted? && Allowed(s, e) && Sound(s) && Balanced(s, l)
    ensures Sound(Apply(s, e)) && Balanced(Apply(s, e), Note(l, s, e))
  {
    hide BeforeWrite;
    hide MessageFailed;
    hide SendQuery;
    hide SendBefore;
    hide AuthOk;
    hide QueriesOk;
    hide PacketOk;
    hide KeysDrawn;
    hide SentItems;
    hide InFlight;
    SendBeforeShape(s, e.now + RESEND_ANSWER_DELAY);
    SameLater(s.auth);
    SoundLater(s, Apply(s, e));
  }

  lemma AckKeeps(s: State, e: Event, l: Ledger)
    requires e.AckWanted? && Allowed(s, e) && Sound(s) && Balanced(s, l)
    ensures Sound(Apply(s, e)) && Balanced(Apply(s, e), Note(l, s, e))
  {
    hide BeforeWrite;
    hide MessageFailed;
    hide SendQuery;
    hide SendAck;
    hide AuthOk;
    hide QueriesOk;
    hide PacketOk;
    hide KeysDrawn;
    hide SentItems;
    hide InFlight;
    AckShape(s, e.now, e.id);
    SameLater(s.auth);
    SoundLater(s, Apply(s, e));
  }

  lemma AckShape(s: State, now: real, id: int)
    requires now > 0.0 && Armed(s)
    ensures var t := SendAck(s, now, id);
            Armed(t) && t == s.(forceSendAt := t.forceSendAt, toAck := t.toAck) &&
            t.toAck == if s.toAck != [] && s.toAck[|s.toAck| - 1] == id then s.toAck else s.toAck + [id]
  {
    hide SendBefore;
    SendBeforeShape(s, now + ACK_DELAY);
    var t := if s.toAck == [] then SendBefore(s, now + ACK_DELAY) else s;
    SendBeforeShape(t.(toAck := s.toAck + [id]), now);
  }

  lemma FailureKeeps(s: State, e: Event, l: Ledger)
    requires e.Failure? && Allowed(s, e) && Sound(s) && Balanced(s, l)
    ensures Sound(Apply(s, e)) && Balanced(Apply(s, e), Note(l, s, e))
  {
    hide AuthOk;
    hide MessageFailed;
    hide SentItems;
    hide QueriesOk;
    hide PacketOk;
    hide Outstanding;
    SameLater(s.auth);
    FailureShape(s, e.now, e.id);
    SoundLater(s, Apply(s, e));
  }

  lemma QueriesOkPrefix(qs: seq<CryptoStorer.Query>, k: nat, a: Auth)
    requires QueriesOk(qs, a) && k <= |qs|
    ensures QueriesOk(qs[..k], a)
  {
    hide Recorded;
  }

  /** Clearing the queries is accounted for. */
  lemma TooHighKeeps(s: State, e: Event, l: Ledger)
    requires e.IdTooHigh? && Allowed(s, e) && Sound(s) && Balanced(s, l)
    ensures Sound(Apply(s, e)) && Balanced(Apply(s, e), Note(l, s, e))
  {
    hide BeforeWrite;
    hide MessageFailed;
    hide SendQuery;
    hide AuthOk;
    hide SentItems;
    hide InFlight;
    hide PacketOk;
    hide QueriesOk;
    hide KeysDrawn;
    hide SetOnline;
    hide InstalledSalts;
    var t := Apply(s, e);
    LiveWithout(s, t);
    assert Live(s)[..|Live(t)|] == Live(t);
    QueriesOkPrefix(Live(s), |Live(t)|, s.auth);
    KeysStay(s, t);
    hide Live;
  }

  lemma LiveWithout(s: State, t: State)
    requires t == s.(toSend := [])
    ensures Live(t) <= Live(s) && multiset(Live(s)) == multiset(Live(t)) + multiset(s.toSend)
  {
    hide SentItems;
    assert Live(s) == Live(t) + s.toSend;
  }

  lemma KeysStay(s: State, t: State)
    requires KeysDrawn(s) && t.auth == s.auth && t.serviceQueries == s.serviceQueries
    requires t.containerToService == s.containerToService
    ensures KeysDrawn(t)
  {}

  /** Removing an answered service query is accounted for. */
  lemma AnswerKeeps(s: State, e: Event, l: Ledger)
    requires e.StateAnswer? && Allowed(s, e) && Sound(s) && Balanced(s, l)
    ensures Sound(Apply(s, e)) && Balanced(Apply(s, e), Note(l, s, e))
  {
    hide BeforeWrite;
    hide MessageFailed;
    hide SendQuery;
    hide AuthOk;
    hide SentItems;
    hide InFlight;
    hide PacketOk;
    hide QueriesOk;
    hide KeysDrawn;
    var t := Apply(s, e);
    SameLater(s.auth);
    SoundLater(s, t);
    if e.id in s.serviceQueries {
      InFlightRemove(s.serviceQueries, GetStateInfo, e.id);
      InFlightRemove(s.serviceQueries, ResendAnswer, e.id);
    } else {
      assert t.serviceQueries == s.serviceQueries;
    }
  }

  predicate TouchesNoQueue(e: Event) {
    e.DestroyWanted? || e.ServerSaltSet? || e.SaltsReceived? || e.OnlineSet? || e.BindPrepared? || e.DataRead? ||
    e.ClockMoved? || e.KeysChanged?
  }

  ghost predicate SameWork(s: State, t: State) {
    t.toSend == s.toSend && t.toAck == s.toAck && t.toCancel == s.toCancel && t.toGetState == s.toGetState &&
    t.toResend == s.toResend && t.forceSendAt == s.forceSendAt && t.output == s.output &&
    t.serviceQueries == s.serviceQueries && t.containerToService == s.containerToService
  }

  lemma QuietShape(s: State, e: Event)
    requires TouchesNoQueue(e) && Allowed(s, e) && AuthOk(s.auth)
    ensures SameWork(s, Apply(s, e)) && Later(s.auth, Apply(s, e).auth)
  {
    hide BeforeWrite;
    hide MessageFailed;
    hide SendQuery;
    hide AuthOk;
    hide Later;
    hide DrawId;
    hide InstalledSalts;
    if e.BindPrepared? {
      DrawLater(s.auth, e.env.now, e.env.entropy);
    } else {
      SameHistoryLater(s.auth, Apply(s, e).auth);
    }
  }

  lemma DrawLater(a: Auth, now: real, e: Entropy)
    requires AuthOk(a)
    ensures Later(a, DrawId(a, now, e))
  {
    hide AuthOk;
    hide DrawId;
    DrawKeepsAuthOk(a, now, e);
    assert a.minted[..|a.minted|] == a.minted;
  }

  lemma SameHistoryLater(a: Auth, b: Auth)
    requires AuthOk(a) && b.minted == a.minted && b.lastMessageId == a.lastMessageId && b.seqNo == a.seqNo
    ensures Later(a, b)
  {
    assert a.minted[..|a.minted|] == a.minted;
  }

  lemma SameWorkKeeps(s: State, t: State, l: Ledger)
    requires SameWork(s, t) && Later(s.auth, t.auth) && Sound(s) && Balanced(s, l)
    ensures Sound(t) && Balanced(t, l)
  {
    hide AuthOk;
    hide SentItems;
    hide InFlight;
    hide PacketOk;
    hide QueriesOk;
    SoundLater(s, t);
  }

  lemma QuietKeeps(s: State, e: Event, l: Ledger)
    requires TouchesNoQueue(e) && Allowed(s, e) && Sound(s) && Balanced(s, l)
    ensures Sound(Apply(s, e)) && Balanced(Apply(s, e), Note(l, s, e))
  {
    hide Balanced;
    hide AuthOk;
    hide SameWork;
    hide Later;
    QuietShape(s, e);
    SameWorkKeeps(s, Apply(s, e), l);
  }

  lemma EventKeeps(s: State, e: Event, l: Ledger)
    requires Allowed(s, e) && Sound(s) && Balanced(s, l)
    ensures Sound(Apply(s, e)) && Balanced(Apply(s, e), Note(l, s, e))
  {
    hide Sound;
    hide Balanced;
    hide BeforeWrite;
    match e
    case Query(_, _, _, _, _) => QueryKeeps(s, e, l);
    case Failure(_, _) => FailureKeeps(s, e, l);
    case Write(env) => WriteKeeps(s, env, l);
    case IdTooHigh => TooHighKeeps(s, e, l);
    case StateAnswer(_) => AnswerKeeps(s, e, l);
    case StateWanted(_, _) => RequestKeeps(s, e, l);
    case ResendWanted(_, _) => RequestKeeps(s, e, l);
    case CancelWanted(_, _) => CancelKeeps(s, e, l);
    case AckWanted(_, _) => AckKeeps(s, e, l);
    case _ => QuietKeeps(s, e, l);
  }

  /** Over every run from a sound and balanced state: the identifier and sequence rules, one deadline for all
      pending work, queries in order and exactly once, and every request accounted for. */
  lemma {:induction false} RunKeeps(s: State, es: seq<Event>, l: Ledger)
    requires AllowedRun(s, es) && Sound(s) && Balanced(s, l)
    ensures Sound(Run(s, es)) && Balanced(Run(s, es), NoteAll(l, s, es))
    decreases |es|
  {
    hide Sound;
    hide Balanced;
    hide Apply;
    hide Note;
    if es == [] {
    } else {
      var n := |es| - 1;
      RunKeeps(s, es[..n], l);
      EventKeeps(Run(s, es[..n]), es[n], NoteAll(l, s, es[..n]));
    }
  }

  // ------------------------------------------------------------ consequences

  /** A connection that has done nothing yet. */
  ghost predicate Fresh(s: State) {
    s.Pending() == 0 && s.output == [] && s.serviceQueries == map[] && s.containerToService == map[] &&
    AuthOk(s.auth)
  }

  const NOTHING: Ledger := Ledger([], [], [], [], [], [], multiset{}, multiset{})

  lemma {:induction false} WriteBringsNoneBack(s: State, env: Env, k: int)
    requires env.Ok() && AuthOk(s.auth) && KeysDrawn(s) && k <= s.auth.lastMessageId && k !in s.serviceQueries
    ensures k !in BeforeWrite(s, env).serviceQueries
    decreases Turn(s), s.Pending(), Deadline(s), Due(s, env)
  {
    hide AuthOk;
    hide KeysDrawn;
    hide FlushPacket;
    hide UpdateSalt;
    hide FlushAt;
    if MustFlush(s, env) {
      var u := AfterMust(s, env);
      assert AuthOk(u.auth) by { RefreshKeepsAuthOk(s.auth, env.now); }
      assert KeysDrawn(u) by { KeysRefreshed(s, u); }
      FlushKeepsKeys(u, env);
      FlushKeepsAuthOk(u, env);
      StepDescends(s, env);
      WriteBringsNoneBack(Step(s, env), env, k);
    }
  }

  lemma KeysRefreshed(s: State, t: State)
    requires KeysDrawn(s) && t.auth.lastMessageId == s.auth.lastMessageId && t.serviceQueries == s.serviceQueries
    requires t.containerToService == s.containerToService
    ensures KeysDrawn(t)
  {}

  /** A service query that was requeued or answered never appears again under its identifier, so no later
      failure report for it or its container finds anything to requeue. */
  lemma {:induction false} GoneForGood(s: State, es: seq<Event>, k: int, l: Ledger)
    requires AllowedRun(s, es) && Sound(s) && Balanced(s, l)
    requires k <= s.auth.lastMessageId && k !in s.serviceQueries
    ensures k !in Run(s, es).serviceQueries && k <= Run(s, es).auth.lastMessageId
    decreases |es|
  {
    if es == [] {
    } else {
      hide Sound;
      hide Balanced;
      hide Apply;
      hide Allowed;
      var n := |es| - 1;
      GoneForGood(s, es[..n], k, l);
      RunKeeps(s, es[..n], l);
      EventBringsNoneBack(Run(s, es[..n]), es[n], k);
    }
  }

  lemma EventBringsNoneBack(s: State, e: Event, k: int)
    requires Allowed(s, e) && Sound(s) && k <= s.auth.lastMessageId && k !in s.serviceQueries
    ensures k !in Apply(s, e).serviceQueries && k <= Apply(s, e).auth.lastMessageId
  {
    EventGrows(s, e);
    SoundMeans(s);
    hide *;
    if e.Write? {
      WriteIs(s, e);
      WriteBringsNoneBack(s, e.env, k);
    } else {
      EventAddsNoKeys(s, e);
    }
  }

  lemma WriteIs(s: State, e: Event)
    requires e.Write? && Allowed(s, e)
    ensures e.env.Ok() && Apply(s, e) == BeforeWrite(s, e.env)
  {
    hide BeforeWrite;
  }

  /** Only writing adds service queries. */
  lemma EventAddsNoKeys(s: State, e: Event)
    requires Allowed(s, e) && Sound(s) && !e.Write?
    ensures Apply(s, e).serviceQueries.Keys <= s.serviceQueries.Keys
    ensures Apply(s, e).auth.lastMessageId >= s.auth.lastMessageId
  {
    hide *;
    SoundMeans(s);
    if e.Failure? {
      FailureAddsNoKeys(s, e);
    } else if e.Query? {
      QueryShape(s, e);
      LaterMeans(s.auth, Apply(s, e).auth);
    } else if TouchesNoQueue(e) {
      QuietShape(s, e);
      SameWorkMeans(s, Apply(s, e));
      LaterMeans(s.auth, Apply(s, e).auth);
    } else {
      QueueingKeepsKeys(s, e);
    }
  }

  lemma LaterMeans(a: Auth, b: Auth)
    requires Later(a, b)
    ensures a.lastMessageId <= b.lastMessageId
  {
    hide AuthOk;
  }

  lemma SameWorkMeans(s: State, t: State)
    requires SameWork(s, t)
    ensures t.serviceQueries == s.serviceQueries
  {}

  lemma FailureAddsNoKeys(s: State, e: Event)
    requires e.Failure? && Allowed(s, e) && Sound(s)
    ensures Apply(s, e).serviceQueries.Keys <= s.serviceQueries.Keys && Apply(s, e).auth == s.auth
  {
    hide AuthOk;
    hide QueriesOk;
    hide PacketOk;
    hide MessageFailed;
    FailureShape(s, e.now, e.id);
  }

  lemma EventGrows(s: State, e: Event)
    requires Allowed(s, e) && Sound(s)
    ensures Apply(s, e).auth.lastMessageId >= s.auth.lastMessageId
  {
    hide *;
    SoundMeans(s);
    if e.Write? {
      WriteIs(s, e);
      WriteGrows(s, e.env);
    } else {
      EventAddsNoKeys(s, e);
    }
  }

  lemma QueueingKeepsKeys(s: State, e: Event)
    requires Allowed(s, e) && Armed(s) && !e.Write? && !e.Failure? && !e.Query? && !TouchesNoQueue(e)
    ensures Apply(s, e).serviceQueries.Keys <= s.serviceQueries.Keys && Apply(s, e).auth == s.auth
  {
    if e.AckWanted? {
      AckAddsNoKeys(s, e);
    } else if e.CancelWanted? {
      CancelAddsNoKeys(s, e);
    } else if e.StateWanted? || e.ResendWanted? {
      RequestAddsNoKeys(s, e);
    } else {
      RemovalAddsNoKeys(s, e);
    }
    hide *;
  }

  lemma AckAddsNoKeys(s: State, e: Event)
    requires e.AckWanted? && Allowed(s, e) && Armed(s)
    ensures Apply(s, e).serviceQueries == s.serviceQueries && Apply(s, e).auth == s.auth
  {
    AckShape(s, e.now, e.id);
    hide SendAck;
    hide Armed;
  }

  lemma CancelAddsNoKeys(s: State, e: Event)
    requires e.CancelWanted? && Allowed(s, e)
    ensures Apply(s, e).serviceQueries == s.serviceQueries && Apply(s, e).auth == s.auth
  {
    SendBeforeShape(s, e.now + RESEND_ANSWER_DELAY);
    hide SendBefore;
    hide Armed;
  }

  lemma RequestAddsNoKeys(s: State, e: Event)
    requires (e.StateWanted? || e.ResendWanted?) && Allowed(s, e) && Armed(s)
    ensures Apply(s, e).serviceQueries == s.serviceQueries && Apply(s, e).auth == s.auth
  {
    var kind := if e.StateWanted? then GetStateInfo else ResendAnswer;
    RequestApplies(s, e, NOTHING);
    AskShape(s, e.now, kind, e.id);
    hide Ask;
    hide Apply;
    hide Note;
    hide Armed;
  }

  lemma RemovalAddsNoKeys(s: State, e: Event)
    requires (e.IdTooHigh? || e.StateAnswer?) && Allowed(s, e)
    ensures Apply(s, e).serviceQueries.Keys <= s.serviceQueries.Keys && Apply(s, e).auth == s.auth
  {}

  lemma {:induction false} WriteGrows(s: State, env: Env)
    requires env.Ok() && AuthOk(s.auth)
    ensures BeforeWrite(s, env).auth.lastMessageId >= s.auth.lastMessageId
    decreases Turn(s), s.Pending(), Deadline(s), Due(s, env)
  {
    hide AuthOk;
    hide FlushPacket;
    hide UpdateSalt;
    hide FlushAt;
    if MustFlush(s, env) {
      RefreshKeepsAuthOk(s.auth, env.now);
      FlushKeepsAuthOk(AfterMust(s, env), env);
      StepDescends(s, env);
      WriteGrows(Step(s, env), env);
    }
  }

  // ------------------------------------------------------------ the order of the queries

  /** The queries were asked for under growing identifiers. */
  ghost predicate Ordered(s: State, l: Ledger) {
    Ascending(l.asked) && forall i :: 0 <= i < |l.asked| ==> l.asked[i].messageId <= s.auth.lastMessageId
  }

  lemma EventKeepsOrder(s: State, e: Event, l: Ledger)
    requires Allowed(s, e) && Sound(s) && Ordered(s, l)
    ensures Ordered(Apply(s, e), Note(l, s, e))
  {
    hide Apply;
    hide Allowed;
    hide AuthOk;
    hide QueriesOk;
    hide PacketOk;
    hide Armed;
    EventGrows(s, e);
    if e.Query? {
      QueryShape(s, e);
    } else {
      assert Note(l, s, e).asked == l.asked;
    }
  }

  lemma {:induction false} RunKeepsOrder(s: State, es: seq<Event>, l: Ledger)
    requires AllowedRun(s, es) && Sound(s) && Balanced(s, l) && Ordered(s, l)
    ensures Ordered(Run(s, es), NoteAll(l, s, es))
    decreases |es|
  {
    hide Sound;
    hide Balanced;
    hide Ordered;
    hide Apply;
    hide Note;
    if es == [] {
    } else {
      var n := |es| - 1;
      RunKeepsOrder(s, es[..n], l);
      RunKeeps(s, es[..n], l);
      EventKeepsOrder(Run(s, es[..n]), es[n], NoteAll(l, s, es[..n]));
    }
  }

  /** The queries that were not cleared, in order. */
  ghost function Kept(asked: seq<CryptoStorer.Query>, cleared: seq<CryptoStorer.Query>): seq<CryptoStorer.Query> {
    if asked == [] then []
    else
      var n := |asked| - 1;
      Kept(asked[..n], cleared) + if asked[n] in cleared then [] else [asked[n]]
  }

  lemma {:induction false} AscendingOnce(qs: seq<CryptoStorer.Query>, q: CryptoStorer.Query)
    requires Ascending(qs)
    ensures multiset(qs)[q] <= 1
  {
    if qs == [] {
    } else {
      var n := |qs| - 1;
      AscendingOnce(qs[..n], q);
      assert qs == qs[..n] + [qs[n]];
      assert q == qs[n] ==> q !in qs[..n];
      assert q in multiset(qs[..n]) <==> q in qs[..n];
    }
  }

  lemma SomeMember(qs: seq<CryptoStorer.Query>)
    ensures qs != [] ==> exists q :: q in qs
  {
    if qs != [] {
      assert qs[0] in qs;
    }
  }

  /** Ascending queries are determined by which there are. */
  lemma {:induction false} KeptInOrder(live: seq<CryptoStorer.Query>, asked: seq<CryptoStorer.Query>,
                                       cleared: seq<CryptoStorer.Query>)
    requires Ascending(live) && Ascending(asked)
    requires forall q :: q in live <==> q in asked && q !in cleared
    ensures live == Kept(asked, cleared)
    decreases |asked|
  {
    if asked == [] {
      SomeMember(live);
    } else {
      var n := |asked| - 1;
      var last := asked[n];
      forall q ensures q in asked <==> q in asked[..n] || q == last {
        assert asked == asked[..n] + [last];
      }
      assert last !in asked[..n];
      if last in cleared {
        KeptInOrder(live, asked[..n], cleared);
      } else {
        var m := |live| - 1;
        LastIsGreatest(live, asked);
        forall q ensures q in live <==> q in live[..m] || q == last {
          assert live == live[..m] + [live[m]];
        }
        assert last !in live[..m];
        KeptInOrder(live[..m], asked[..n], cleared);
      }
    }
  }

  lemma LastIsGreatest(live: seq<CryptoStorer.Query>, asked: seq<CryptoStorer.Query>)
    requires Ascending(live) && Ascending(asked) && asked != [] && asked[|asked| - 1] in live
    requires forall q :: q in live ==> q in asked
    ensures live[|live| - 1] == asked[|asked| - 1]
  {
    var last := asked[|asked| - 1];
    var i :| 0 <= i < |live| && live[i] == last;
    assert live[|live| - 1] in asked;
  }

  lemma LiveAreKept(live: seq<CryptoStorer.Query>, asked: seq<CryptoStorer.Query>, cleared: seq<CryptoStorer.Query>)
    requires Ascending(live) && Ascending(asked) && multiset(asked) == multiset(live) + multiset(cleared)
    ensures live == Kept(asked, cleared) && forall q :: q in cleared ==> q in asked && q !in live
  {
    forall q
      ensures q in live <==> q in asked && q !in cleared
      ensures q in cleared ==> q in asked && q !in live
    {
      AscendingOnce(asked, q);
      assert q in live <==> q in multiset(live);
      assert q in cleared <==> q in multiset(cleared);
      assert q in asked <==> q in multiset(asked);
    }
    KeptInOrder(live, asked, cleared);
  }

  // ------------------------------------------------------------ every reachable state

  /** Every reachable state: pending work has a deadline; the queries sent and waiting are those asked for, each once
      and in the order of asking, without the cleared ones, which are never sent; acknowledgements and cancellations
      are pending or sent; every state or resend request is pending, in flight or answered. */
  lemma EveryRun(s: State, es: seq<Event>)
    requires Fresh(s) && AllowedRun(s, es)
    ensures var t, l := Run(s, es), NoteAll(NOTHING, s, es);
            Sound(t) && Balanced(t, l) &&
            (t.Pending() > 0 ==> t.forceSendAt != 0.0) &&
            Ascending(l.asked) &&
            SentItems(t.output, QueryOf) + t.toSend == Kept(l.asked, l.cleared) &&
            forall q :: q in l.cleared ==> q in l.asked && q !in SentItems(t.output, QueryOf) + t.toSend
  {
    hide AuthOk;
    RunKeeps(s, es, NOTHING);
    RunKeepsOrder(s, es, NOTHING);
    var t, l := Run(s, es), NoteAll(NOTHING, s, es);
    LiveAreKept(Live(t), l.asked, l.cleared);
  }
}
