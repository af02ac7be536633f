/** The connection object: queues, timers and maps updated in place, each method proved to do what
    Session.dfy says (td/mtproto/SessionConnection.cpp). */
module SessionConnection {
  import opened Bytes
  import opened AuthData
  import opened CryptoStorer
  import opened Session
  import opened SessionScheduling

  lemma EnqueueKeepsAuth(s: State, now: real, q: Query)
    ensures Session.Enqueue(s, now, q).auth == s.auth
  {}

  class Connection {
    const mode: Mode
    const auth: AuthDataObject
    var online: bool
    var isMain: bool
    var toSend: seq<Query>
    var toAck: seq<int>
    var toResend: seq<int>
    var toCancel: seq<int>
    var toGetState: seq<int>
    var forceSendAt: real
    var serviceQueries: map<int, ServiceQuery>
    var containerToService: map<int, seq<int>>
    var lastReadAt: real
    var lastPongAt: real
    var lastPingAt: real
    var curPingId: int
    var lastPingMessageId: int
    var lastPingContainerId: int
    var needDestroy: bool
    var sentDestroy: bool
    var flushPacketAt: real
    var lastGetFutureSaltAt: real
    var canSend: bool
    var output: seq<Packet>

    ghost function View(): State
      reads this, auth
    {
      State(mode, online, isMain, toSend, toAck, toResend, toCancel, toGetState, forceSendAt, serviceQueries,
            containerToService, lastReadAt, lastPongAt, lastPingAt, curPingId, lastPingMessageId, lastPingContainerId,
            needDestroy, sentDestroy, flushPacketAt, lastGetFutureSaltAt, canSend, auth.View(), output)
    }

    constructor (mode: Mode, auth: AuthDataObject)
      ensures this.mode == mode && this.auth == auth
      ensures View().Pending() == 0 && output == [] && serviceQueries == map[] && containerToService == map[]
    {
      this.mode, this.auth := mode, auth;
      online, isMain := false, false;
      toSend, toAck, toResend, toCancel, toGetState := [], [], [], [], [];
      forceSendAt := 0.0;
      serviceQueries, containerToService := map[], map[];
      lastReadAt, lastPongAt, lastPingAt := 0.0, 0.0, 0.0;
      curPingId, lastPingMessageId, lastPingContainerId := 0, 0, 0;
      needDestroy, sentDestroy := false, false;
      flushPacketAt, lastGetFutureSaltAt := 0.0, 0.0;
      canSend, output := true, [];
    }

    method SendBefore(tm: real)
      modifies this`forceSendAt
      ensures View() == Session.SendBefore(old(View()), tm)
    {
      if forceSendAt == 0.0 || forceSendAt > tm {
        forceSendAt := tm;
      }
    }

    method Enqueue(now: real, q: Query)
      modifies this
      ensures View() == Session.Enqueue(old(View()), now, q)
    {
      if toSend == [] {
        SendBefore(now + QUERY_DELAY);
      }
      toSend := toSend + [q];
    }

    method SendQuery(env: Env, packet: seq<byte>, gzip: bool, invokeAfter: int, quickAck: bool) returns (id: int)
      requires !mode.HttpLongPoll?
      modifies this, auth
      ensures View() == Session.SendQuery(old(View()), env, packet, gzip, invokeAfter, quickAck)
      ensures id == View().auth.lastMessageId
    {
      hide DrawId;
      hide TakeSeqNo;
      hide Session.SendBefore;
      ghost var s := View();
      MintKeepsOrder(auth.View(), env.now, env.entropy, true);
      id := auth.NextMessageId(env.now, env.entropy);
      var seqNo := auth.NextSeqNo(true);
      assert View() == s.(auth := Mint(s.auth, env.now, env.entropy, true));
      Enqueue(env.now, Query(id, seqNo, packet, gzip, invokeAfter, quickAck));
      EnqueueKeepsAuth(s.(auth := Mint(s.auth, env.now, env.entropy, true)), env.now,
                       Query(id, seqNo, packet, gzip, invokeAfter, quickAck));
    }

    method GetStateInfo(now: real, id: int)
      modifies this
      ensures View() == AskState(old(View()), now, id)
    {
      if toGetState == [] {
        SendBefore(now);
      }
      toGetState := toGetState + [id];
    }

    method ResendAnswer(now: real, id: int)
      modifies this
      ensures View() == AskResend(old(View()), now, id)
    {
      if toResend == [] {
        SendBefore(now + RESEND_ANSWER_DELAY);
      }
      toResend := toResend + [id];
    }

    method CancelAnswer(now: real, id: int)
      modifies this
      ensures View() == Session.CancelAnswer(old(View()), now, id)
    {
      if toCancel == [] {
        SendBefore(now + RESEND_ANSWER_DELAY);
      }
      toCancel := toCancel + [id];
    }

    method SendAck(now: real, id: int)
      modifies this
      ensures View() == Session.SendAck(old(View()), now, id)
    {
      hide Session.SendBefore;
      ghost var s := View();
      if toAck == [] {
        SendBefore(now + ACK_DELAY);
      }
      ghost var t := View();
      assert t == if s.toAck == [] then Session.SendBefore(s, now + ACK_DELAY) else s;
      if toAck == [] || toAck[|toAck| - 1] != id {
        toAck := toAck + [id];
        assert View() == t.(toAck := s.toAck + [id]);
        if |toAck| >= MAX_UNACKED_PACKETS {
          SendBefore(now);
        }
      }
    }

    method AskEach(now: real, kind: QueryKind, ids: seq<int>)
      modifies this
      ensures View() == AskAll(old(View()), now, kind, ids)
    {
      hide AskState;
      hide AskResend;
      ghost var s := View();
      for i := 0 to |ids|
        invariant View() == AskAll(s, now, kind, ids[..i])
      {
        assert ids[..i + 1][..i] == ids[..i];
        match kind
        case ResendAnswer => ResendAnswer(now, ids[i]);
        case GetStateInfo => GetStateInfo(now, ids[i]);
      }
      assert ids[..|ids|] == ids;
    }

    method OnMessageFailedInner(now: real, id: int)
      modifies this
      ensures View() == Requeue(old(View()), now, id)
    {
      if id !in serviceQueries {
        return;
      }
      var q := serviceQueries[id];
      hide AskAll;
      AskEach(now, q.kind, q.ids);
      serviceQueries := serviceQueries - {id};
    }

    method OnMessageFailed(now: real, id: int)
      modifies this
      ensures View() == MessageFailed(old(View()), now, id)
    {
      hide RequeueAll;
      ghost var s := View();
      RestartPing(id);
      assert View() == PingRestarted(s, id);
      assert Targets(View(), id) == Targets(s, id);
      hide PingRestarted;
      hide Targets;
      RequeueTargets(now, id);
    }

    method RestartPing(id: int)
      modifies this`sentDestroy, this`lastPingAt, this`lastPingMessageId, this`lastPingContainerId
      ensures sentDestroy == false
      ensures var hit := id == old(lastPingMessageId) || id == old(lastPingContainerId);
              lastPingAt == (if hit then 0.0 else old(lastPingAt)) &&
              lastPingMessageId == (if hit then 0 else old(lastPingMessageId)) &&
              lastPingContainerId == (if hit then 0 else old(lastPingContainerId))
    {
      sentDestroy := false;
      if id == lastPingMessageId || id == lastPingContainerId {
        lastPingAt, lastPingMessageId, lastPingContainerId := 0.0, 0, 0;
      }
    }

    method RequeueTargets(now: real, id: int)
      modifies this
      ensures View() == RequeueAll(old(View()), now, Targets(old(View()), id))
    {
      hide Requeue;
      ghost var t := View();
      if id in containerToService {
        var ids := containerToService[id];
        for i := 0 to |ids|
          invariant View() == RequeueAll(t, now, ids[..i])
        {
          assert ids[..i + 1][..i] == ids[..i];
          OnMessageFailedInner(now, ids[i]);
        }
        assert ids[..|ids|] == ids;
      } else {
        OnMessageFailedInner(now, id);
        assert [id][..0] == [] && RequeueAll(t, now, []) == t;
      }
    }

    /** The answer to a state request: its query is forgotten whatever it was. */
    method OnMsgsStateInfo(id: int, infoSize: nat) returns (ok: bool)
      modifies this
      ensures View() == old(View()).(serviceQueries := old(serviceQueries) - {id})
      ensures ok == (id in old(serviceQueries) && old(serviceQueries)[id].kind.GetStateInfo? &&
                     |old(serviceQueries)[id].ids| == infoSize)
    {
      if id !in serviceQueries {
        assert serviceQueries - {id} == serviceQueries;
        return false;
      }
      var q := serviceQueries[id];
      serviceQueries := serviceQueries - {id};
      ok := q.kind.GetStateInfo? && |q.ids| == infoSize;
    }

    // ---------------------------------------------------------- must_flush_packet

    method MustFlushPacket(env: Env) returns (must: bool)
      modifies this`flushPacketAt, auth
      ensures must == MustFlush(old(View()), env)
      ensures View() == AfterMust(old(View()), env)
    {
      hide UpdateSalt;
      hide Wants;
      hide WakeAt;
      ghost var s := View();
      var at := 0.0;
      must := false;
      if HasAuthKey(env.now) && canSend {
        var hasSalt := auth.HasSalt(env.now);
        must, at := Decide(env, hasSalt);
        assert View() == s.(auth := s.auth.Refreshed(env.now));
        DecideIgnoresAuth(s, s.auth.Refreshed(env.now), env);
      }
      flushPacketAt := at;
    }

    predicate HasAuthKey(now: real)
      reads auth
    {
      if auth.usePfs then auth.tmpKey && now <= auth.tmpExpiresAt - 3600.0 else auth.mainKey
    }

    /** The part of must_flush_packet after the key, the transport and the salt are known. */
    method Decide(env: Env, hasSalt: bool) returns (must: bool, at: real)
      ensures must == Wants(View(), env, hasSalt) && at == WakeAt(View(), env, hasSalt)
    {
      if mode.HttpLongPoll? {
        return hasSalt, 0.0;
      }
      at := 0.0;
      if hasSalt && forceSendAt != 0.0 {
        if env.now > forceSendAt {
          return true, at;
        }
        at := Relax(at, forceSendAt);
      }
      if hasSalt {
        var delay := if online then env.rtt else 60;
        if lastPingAt == 0.0 || lastPingAt + delay as real < env.now {
          return true, at;
        }
        at := Relax(at, lastPingAt + delay as real);
      } else {
        if lastGetFutureSaltAt == 0.0 || lastGetFutureSaltAt + 60.0 < env.now {
          return true, at;
        }
        at := Relax(at, lastGetFutureSaltAt + 60.0);
      }
      must := hasSalt && needDestroy && !sentDestroy;
    }

    // ---------------------------------------------------------- flush_packet

    /** cut_tail: the last `size` elements leave the queue. */
    static method CutTail(v: seq<int>, size: nat) returns (taken: seq<int>, left: seq<int>)
      ensures taken == Taken(v, size) && left == Left(v, size)
      ensures left + taken == v
    {
      if size >= |v| {
        return v, [];
      }
      taken, left := v[|v| - size..], v[..|v| - size];
    }

    /** The queries that fit: at most 1020, and no more once 2^15 bytes are reached. */
    method TakeQueries(hasSalt: bool) returns (queries: seq<Query>)
      modifies this`toSend
      ensures var k := if hasSalt then SendTill(old(toSend), 0, 0) else 0;
              queries == old(toSend)[..k] && toSend == old(toSend)[k..]
      ensures View() == old(View()).(toSend := toSend)
    {
      var sendTill, sendSize := 0, 0;
      if hasSalt {
        while sendTill < |toSend| && sendTill < 1020 && sendSize < 0x8000
          invariant sendTill <= |toSend| && sendSize >= 0 && SendTill(toSend, 0, 0) == SendTill(toSend, sendTill, sendSize)
        {
          sendSize := sendSize + |toSend[sendTill].packet|;
          sendTill := sendTill + 1;
        }
      }
      queries, toSend := toSend[..sendTill], toSend[sendTill..];
    }

    method TakePing(env: Env, hasSalt: bool) returns (pingId: int)
      modifies this
      ensures View() == Pinged(old(View()), env, hasSalt)
      ensures pingId == if PingTaken(old(View()), env, hasSalt) then old(View()).curPingId + 1 else 0
    {
      pingId := 0;
      if hasSalt && MayPingNow(env) {
        curPingId := curPingId + 1;
        pingId := curPingId;
        lastPingAt := env.now;
      }
    }

    method TakeSalts(env: Env, needSalts: bool) returns (saltN: int)
      modifies this
      ensures View() == Asked(old(View()), env, needSalts)
      ensures saltN == if SaltsAsked(old(View()), env, needSalts) then 64 else 0
    {
      saltN := 0;
      if !mode.HttpLongPoll? && needSalts && SaltsDueNow(env) {
        lastGetFutureSaltAt := env.now;
        saltN := 64;
      }
    }

    predicate MayPingNow(env: Env)
      reads this
    {
      lastPingAt == 0.0 ||
      (!mode.HttpLongPoll? && lastPingAt + (if online then env.rtt / 2 else 30) as real < env.now)
    }

    predicate SaltsDueNow(env: Env)
      reads this
    {
      lastGetFutureSaltAt == 0.0 || lastGetFutureSaltAt + 60.0 < env.now
    }

    method TakeWaiting(hasSalt: bool) returns (idle: bool, queries: seq<Query>)
      modifies this
      ensures var s := old(View());
              var k := TakenCount(s, hasSalt);
              k <= |s.toSend| && k <= 1020 && View() == s.(toSend := s.toSend[k..]) && queries == s.toSend[..k] &&
              idle == Idle(s, k)
    {
      hide *;
      ViewQueue();
      ghost var s := View();
      queries := TakeQueries(hasSalt);
      ViewIdle();
      idle := queries == [] && NothingElse();
      CountIs(s, hasSalt);
      IdleIs(s, |queries|);
    }

    predicate NothingElse()
      reads this
    {
      toAck == [] && toResend == [] && toCancel == [] && toGetState == []
    }

    lemma ViewQueue()
      ensures View().toSend == toSend
    {}

    lemma ViewIdle()
      ensures var s := View();
              NothingElse() == (s.toAck == [] && s.toResend == [] && s.toCancel == [] && s.toGetState == [])
    {}

    method TakeResend() returns (resend: seq<int>)
      modifies this
      ensures resend == Taken(old(View()).toResend, 8192)
      ensures View() == old(View()).(toResend := Left(old(View()).toResend, 8192))
    {
      resend, toResend := CutTail(toResend, 8192);
    }

    method TakeCancel(n: nat) returns (cancel: seq<int>)
      modifies this
      ensures cancel == Taken(old(View()).toCancel, n)
      ensures View() == old(View()).(toCancel := Left(old(View()).toCancel, n))
    {
      cancel, toCancel := CutTail(toCancel, n);
    }

    method TakeGetState() returns (getInfo: seq<int>)
      modifies this
      ensures getInfo == Taken(old(View()).toGetState, 8192)
      ensures View() == old(View()).(toGetState := Left(old(View()).toGetState, 8192))
    {
      getInfo, toGetState := CutTail(toGetState, 8192);
    }

    method TakeAck() returns (ack: seq<int>)
      modifies this
      ensures ack == Taken(old(View()).toAck, 8192)
      ensures View() == old(View()).(toAck := Left(old(View()).toAck, 8192))
    {
      ack, toAck := CutTail(toAck, 8192);
    }

    /** Empties the queues as far as one packet may; `idle` when there were no queries to take and nothing else. */
    method TakeQueues(hasSalt: bool)
      returns (idle: bool, queries: seq<Query>, resend: seq<int>, cancel: seq<int>, getInfo: seq<int>, ack: seq<int>)
      modifies this
      ensures var s := old(View());
              var k := TakenCount(s, hasSalt);
              k <= |s.toSend| && k <= 1020 && View() == Unqueued(s, k) && queries == s.toSend[..k] &&
              resend == Taken(s.toResend, 8192) && cancel == Taken(s.toCancel, 1020 - k) &&
              getInfo == Taken(s.toGetState, 8192) && ack == Taken(s.toAck, 8192) && idle == Idle(s, k)
    {
      hide *;
      ghost var s := View();
      idle, queries := TakeWaiting(hasSalt);
      resend := TakeResend();
      assert |queries| <= 1020;
      cancel := TakeCancel(1020 - |queries|);
      getInfo := TakeGetState();
      ack := TakeAck();
      QueuesAreCut(s, |queries|);
    }

    method TakeDestroy() returns (destroy: bool)
      modifies this
      ensures destroy == old(View()).DestroyDue()
      ensures View() == old(View()).(sentDestroy := old(View()).sentDestroy || destroy)
    {
      destroy := needDestroy && !sentDestroy;
      sentDestroy := sentDestroy || destroy;
    }

    /** How long the server may hold an answer, and after how long without a ping it disconnects. */
    method Delays(env: Env) returns (timeout: int, maxDelay: int, maxAfter: int, maxWait: int)
      ensures timeout == View().PingDisconnectDelay(env.rtt) + 2
      ensures maxDelay == (if mode.Tcp? then -1 else 30) && maxAfter == (if mode.Tcp? then -1 else 10)
      ensures maxWait == if mode.Tcp? then -1 else if mode.Http? then 0 else MaxWait(View(), env)
    {
      timeout := (if online && isMain then env.rtt * 5 / 2 else 135) + 2;
      if mode.Tcp? {
        maxDelay, maxAfter, maxWait := -1, -1, -1;
      } else {
        maxDelay, maxAfter, maxWait := 30, 10, if mode.Http? then 0 else LongestWait(env);
      }
    }

    /** Everything the packet takes, given the answers about salts, and whether that is nothing. */
    method TakeParts(env: Env, hasSalt: bool, needSalts: bool) returns (p: Parts, nothing: bool)
      modifies this
      ensures p == GatherWith(old(View()), env, hasSalt, needSalts)
      ensures View() == DrainWith(old(View()), env, hasSalt, needSalts)
      ensures nothing == NothingWith(old(View()), env, hasSalt, needSalts)
    {
      hide *;
      ghost var s := View();
      SameMode();
      var timeout, maxDelay, maxAfter, maxWait := Delays(env);
      var pingId := TakePing(env, hasSalt);
      var saltN := TakeSalts(env, needSalts);
      var idle, queries, resend, cancel, getInfo, ack := TakeQueues(hasSalt);
      var destroy := TakeDestroy();
      p := Parts(queries, ack, pingId, timeout, maxDelay, maxAfter, maxWait, saltN, getInfo, resend, cancel, destroy);
      nothing := idle && pingId == 0 && maxDelay < 0 && saltN == 0 && !destroy;
      PartsAreGathered(s, env, hasSalt, needSalts);
      RestIsDrained(s, env, hasSalt, needSalts);
      NothingIsTested(s, env, hasSalt, needSalts);
    }

    lemma SameMode()
      ensures View().mode == mode
    {}

    method AskSalts(env: Env) returns (hasSalt: bool, needSalts: bool)
      modifies auth
      ensures auth.View() == old(auth.View()).Refreshed(env.now)
      ensures hasSalt == old(auth.View()).HasSalt(env.now) && needSalts == old(auth.View()).NeedFutureSalts(env.now)
    {
      hide UpdateSalt;
      RefreshIdempotent(auth.View(), env.now);
      hasSalt := auth.HasSalt(env.now);
      needSalts := auth.NeedFutureSalts(env.now);
    }

    /** flush_packet up to the point where the packet is built. */
    method Gather(env: Env) returns (p: Parts, nothing: bool)
      modifies this, auth
      ensures p == Gathered(old(View()), env)
      ensures View() == Drained(old(View()), env)
      ensures nothing == NothingToFlush(old(View()), env)
    {
      hide GatherWith;
      hide DrainWith;
      hide NothingWith;
      hide UpdateSalt;
      ghost var s := View();
      var hasSalt, needSalts := AskSalts(env);
      assert View() == s.(auth := s.auth.Refreshed(env.now));
      p, nothing := TakeParts(env, hasSalt, needSalts);
      GatherIgnoresAuth(s, s.auth.Refreshed(env.now), env, hasSalt, needSalts);
    }

    method Emit(packet: Packet)
      modifies this`output, this`canSend
      ensures output == old(output) + [packet] && canSend == mode.Tcp?
    {
      output := output + [packet];
      canSend := mode.Tcp?;
    }

    method NoteQuery(id: int, q: ServiceQuery)
      modifies this`serviceQueries
      ensures serviceQueries == InsertNew(old(serviceQueries), id, q)
    {
      if id != 0 && id !in serviceQueries {
        serviceQueries := serviceQueries[id := q];
      }
    }

    method NoteService(containerId: int, id: int)
      modifies this`containerToService
      ensures containerToService == PushTo(old(containerToService), containerId, id)
    {
      if containerId != 0 && id != 0 {
        var ids := if containerId in containerToService then containerToService[containerId] else [];
        containerToService := containerToService[containerId := ids + [id]];
      }
    }

    method NoteServices(p: Parts, containerId: int, getInfoId: int, resendId: int)
      modifies this`serviceQueries, this`containerToService
      ensures serviceQueries ==
              InsertNew(InsertNew(old(serviceQueries), resendId, ServiceQuery(QueryKind.ResendAnswer, p.resend)),
                        getInfoId, ServiceQuery(QueryKind.GetStateInfo, p.getInfo))
      ensures containerToService ==
              PushTo(PushTo(old(containerToService), containerId, resendId), containerId, getInfoId)
    {
      hide InsertNew;
      hide PushTo;
      NoteQuery(resendId, ServiceQuery(QueryKind.ResendAnswer, p.resend));
      NoteQuery(getInfoId, ServiceQuery(QueryKind.GetStateInfo, p.getInfo));
      NoteService(containerId, resendId);
      NoteService(containerId, getInfoId);
    }

    method NotePing(pinged: bool, containerId: int, pingMessageId: int)
      modifies this`lastPingContainerId, this`lastPingMessageId
      ensures lastPingContainerId == if pinged then containerId else old(lastPingContainerId)
      ensures lastPingMessageId == if pinged then pingMessageId else old(lastPingMessageId)
    {
      if pinged {
        lastPingContainerId, lastPingMessageId := containerId, pingMessageId;
      }
    }

    method Disarm()
      modifies this`forceSendAt
      ensures forceSendAt == if |toSend| + |toAck| + |toResend| + |toCancel| + |toGetState| == 0 then 0.0
                             else old(forceSendAt)
    {
      if toSend == [] && toAck == [] && toResend == [] && toCancel == [] && toGetState == [] {
        forceSendAt := 0.0;
      }
    }

    /** Hands the packet to the transport and writes down what a later answer or failure refers to. */
    method Record(p: Parts, packet: Packet, containerId: int, getInfoId: int, resendId: int, pingMessageId: int)
      modifies this`output, this`canSend, this`serviceQueries, this`lastPingContainerId, this`lastPingMessageId,
               this`containerToService, this`forceSendAt
      ensures output == old(output) + [packet] && canSend == mode.Tcp?
      ensures serviceQueries ==
              InsertNew(InsertNew(old(serviceQueries), resendId, ServiceQuery(QueryKind.ResendAnswer, p.resend)),
                        getInfoId, ServiceQuery(QueryKind.GetStateInfo, p.getInfo))
      ensures lastPingContainerId == if p.pingId != 0 then containerId else old(lastPingContainerId)
      ensures lastPingMessageId == if p.pingId != 0 then pingMessageId else old(lastPingMessageId)
      ensures containerToService ==
              PushTo(PushTo(old(containerToService), containerId, resendId), containerId, getInfoId)
      ensures forceSendAt == if |toSend| + |toAck| + |toResend| + |toCancel| + |toGetState| == 0 then 0.0
                             else old(forceSendAt)
    {
      hide InsertNew;
      hide PushTo;
      Emit(packet);
      NoteServices(p, containerId, getInfoId, resendId);
      NotePing(p.pingId != 0, containerId, pingMessageId);
      Disarm();
    }

    method BuildPacket(p: Parts, env: Env)
      returns (packet: Packet, containerId: int, getInfoId: int, resendId: int, pingMessageId: int)
      requires !p.Empty()
      modifies auth
      ensures var b := Build(p, old(auth.View()), env.now, env.entropy);
              auth.View() == b.auth.Refreshed(env.now) && packet == b.packet && containerId == b.containerId &&
              getInfoId == b.getInfoId && resendId == b.resendId && pingMessageId == b.pingMessageId
    {
      hide *;
      var parentId;
      packet, containerId, getInfoId, resendId, pingMessageId, parentId := CryptoImpl(p, auth, env.now, env.entropy);
      auth.RefreshSalt(env.now);
    }

    /** flush_packet from the point where the packet is built. */
    method Send(p: Parts, env: Env)
      requires !p.Empty()
      modifies this, auth
      ensures View() == Sent(old(View()), p, Build(p, old(View()).auth, env.now, env.entropy), env)
    {
      hide UpdateSalt;
      hide Build;
      hide InsertNew;
      hide PushTo;
      hide Sent;
      ghost var s := View();
      var packet, containerId, getInfoId, resendId, pingMessageId := BuildPacket(p, env);
      Record(p, packet, containerId, getInfoId, resendId, pingMessageId);
      SentFieldwise(s, p, Build(p, s.auth, env.now, env.entropy), env);
    }

    method FlushPacket(env: Env)
      modifies this, auth
      ensures View() == Session.FlushPacket(old(View()), env)
    {
      hide Gathered;
      hide Drained;
      hide Build;
      hide Sent;
      var p, nothing := Gather(env);
      if nothing {
        forceSendAt := 0.0;
      } else {
        Send(p, env);
      }
    }

    /** before_write: packets are flushed until nothing is due. */
    method BeforeWrite(env: Env)
      requires env.Ok()
      modifies this, auth
      ensures View() == SessionScheduling.BeforeWrite(old(View()), env)
    {
      hide MustFlush;
      hide AfterMust;
      hide Session.FlushPacket;
      ghost var s := View();
      var must := MustFlushPacket(env);
      while must
        invariant must == MustFlush(s, env) && View() == AfterMust(s, env)
        invariant SessionScheduling.BeforeWrite(s, env) == SessionScheduling.BeforeWrite(old(View()), env)
        decreases Turn(s), s.Pending(), Deadline(s), Due(s, env)
      {
        StepDescends(s, env);
        FlushPacket(env);
        s := View();
        must := MustFlushPacket(env);
      }
    }

    function LongestWait(env: Env): int
      reads this
    {
      var pong := (if online && isMain then env.rtt * 5 / 2 else 135) as real + lastPongAt;
      var read := (if online then env.rtt * 7 / 2 else 135) as real + lastReadAt;
      var left := (if read < pong then read else pong) - env.now - env.rtt as real;
      (1000.0 * (if left < 0.1 then 0.1 else if left > 25.0 then 25.0 else left)).Floor
    }
  }

  /** The send phase, field by field. */
  lemma SentFieldwise(s: State, p: Parts, b: Built, env: Env)
    ensures Sent(s, p, b, env) ==
      State(s.mode, s.online, s.isMain, s.toSend, s.toAck, s.toResend, s.toCancel, s.toGetState,
        if |s.toSend| + |s.toAck| + |s.toResend| + |s.toCancel| + |s.toGetState| == 0 then 0.0 else s.forceSendAt,
        InsertNew(InsertNew(s.serviceQueries, b.resendId, ServiceQuery(QueryKind.ResendAnswer, p.resend)),
                  b.getInfoId, ServiceQuery(QueryKind.GetStateInfo, p.getInfo)),
        PushTo(PushTo(s.containerToService, b.containerId, b.resendId), b.containerId, b.getInfoId),
        s.lastReadAt, s.lastPongAt, s.lastPingAt, s.curPingId,
        if p.pingId != 0 then b.pingMessageId else s.lastPingMessageId,
        if p.pingId != 0 then b.containerId else s.lastPingContainerId,
        s.needDestroy, s.sentDestroy, s.flushPacketAt, s.lastGetFutureSaltAt, s.mode.Tcp?,
        b.auth.Refreshed(env.now), s.output + [b.packet])
  {
    hide UpdateSalt;
    hide InsertNew;
    hide PushTo;
  }

  /** The number of queries taken, whether a ping is sent, and whether salts are asked for. */
  function TakenCount(s: State, salt: bool): nat { if salt then SendTill(s.toSend, 0, 0) else 0 }
  predicate PingTaken(s: State, env: Env, salt: bool) { salt && s.MayPing(env) }
  predicate SaltsAsked(s: State, env: Env, need: bool) { !s.mode.HttpLongPoll? && need && s.SaltsDue(env) }

  function Pinged(s: State, env: Env, salt: bool): State {
    s.(curPingId := if PingTaken(s, env, salt) then s.curPingId + 1 else s.curPingId,
       lastPingAt := if PingTaken(s, env, salt) then env.now else s.lastPingAt)
  }

  function Asked(s: State, env: Env, need: bool): State {
    s.(lastGetFutureSaltAt := if SaltsAsked(s, env, need) then env.now else s.lastGetFutureSaltAt)
  }

  function Unqueued(s: State, k: nat): State
    requires k <= |s.toSend| && k <= 1020
  {
    s.(toSend := s.toSend[k..], toAck := Left(s.toAck, 8192), toResend := Left(s.toResend, 8192),
       toCancel := Left(s.toCancel, 1020 - k), toGetState := Left(s.toGetState, 8192))
  }

  lemma QueuesAreCut(s: State, k: nat)
    requires k <= |s.toSend| && k <= 1020
    ensures Unqueued(s, k) ==
            s.(toSend := s.toSend[k..]).(toResend := Left(s.toResend, 8192)).(toCancel := Left(s.toCancel, 1020 - k)).
             (toGetState := Left(s.toGetState, 8192)).(toAck := Left(s.toAck, 8192))
  {
    hide Left;
  }

  /** Taking the timers, the queues and the key destruction one after the other takes what the packet gathers... */
  lemma PartsAreGathered(s: State, env: Env, salt: bool, need: bool)
    ensures var s1 := Asked(Pinged(s, env, salt), env, need);
            var k := TakenCount(s1, salt);
            k <= |s1.toSend| && k <= 1020 &&
            GatherWith(s, env, salt, need) ==
            Parts(s1.toSend[..k], Taken(s1.toAck, 8192), if PingTaken(s, env, salt) then s.curPingId + 1 else 0,
                  s.PingDisconnectDelay(env.rtt) + 2, if s.mode.Tcp? then -1 else 30, if s.mode.Tcp? then -1 else 10,
                  if s.mode.Tcp? then -1 else if s.mode.Http? then 0 else MaxWait(s, env),
                  if SaltsAsked(Pinged(s, env, salt), env, need) then 64 else 0, Taken(s1.toGetState, 8192), Taken(s1.toResend, 8192),
                  Taken(s1.toCancel, 1020 - k), Unqueued(s1, k).DestroyDue())
  {
    hide SendTill;
    hide Taken;
    hide Left;
    hide MaxWait;
  }

  /** ...leaves what is drained... */
  lemma RestIsDrained(s: State, env: Env, salt: bool, need: bool)
    ensures var s1 := Asked(Pinged(s, env, salt), env, need);
            var k := TakenCount(s1, salt);
            k <= |s1.toSend| && k <= 1020 &&
            var s2 := Unqueued(s1, k);
            DrainWith(s, env, salt, need) == s2.(sentDestroy := s2.sentDestroy || s2.DestroyDue())
  {
    hide SendTill;
    hide Taken;
    hide Left;
  }

  /** ...and finds nothing exactly when the early return is taken. */
  lemma NothingIsTested(s: State, env: Env, salt: bool, need: bool)
    ensures var s1 := Asked(Pinged(s, env, salt), env, need);
            var k := TakenCount(s1, salt);
            k <= |s1.toSend| && k <= 1020 &&
            NothingWith(s, env, salt, need) ==
            (Idle(s1, k) && (if PingTaken(s, env, salt) then s.curPingId + 1 else 0) == 0 && s.mode.Tcp? &&
             !SaltsAsked(Pinged(s, env, salt), env, need) && !Unqueued(s1, k).DestroyDue())
  {
    SameQueues(s, env, salt, need);
    hide SendTill;
    hide Left;
    hide Asked;
    hide Pinged;
  }

  lemma CountIs(s: State, salt: bool)
    ensures TakenCount(s, salt) == (if salt then SendTill(s.toSend, 0, 0) else 0)
    ensures TakenCount(s, salt) <= |s.toSend| && TakenCount(s, salt) <= 1020
  {
    hide SendTill;
  }

  lemma IdleIs(s: State, k: nat)
    ensures Idle(s, k) == (k == 0 && s.toAck == [] && s.toResend == [] && s.toCancel == [] && s.toGetState == [])
  {}

  /** The timers leave the queues alone. */
  lemma SameQueues(s: State, env: Env, salt: bool, need: bool)
    ensures var s1 := Asked(Pinged(s, env, salt), env, need);
            s1.toSend == s.toSend && s1.toAck == s.toAck && s1.toResend == s.toResend && s1.toCancel == s.toCancel &&
            s1.toGetState == s.toGetState && s1.needDestroy == s.needDestroy && s1.sentDestroy == s.sentDestroy
    ensures SaltsAsked(Pinged(s, env, salt), env, need) == SaltsAsked(s, env, need)
  {}

  predicate Idle(s: State, k: nat) {
    k == 0 && s.toAck == [] && s.toResend == [] && s.toCancel == [] && s.toGetState == []
  }

  lemma GatherIgnoresAuth(s: State, a: Auth, env: Env, salt: bool, need: bool)
    ensures GatherWith(s.(auth := a), env, salt, need) == GatherWith(s, env, salt, need)
    ensures NothingWith(s.(auth := a), env, salt, need) == NothingWith(s, env, salt, need)
  {}

  lemma DecideIgnoresAuth(s: State, a: Auth, env: Env)
    ensures forall salt :: Wants(s.(auth := a), env, salt) == Wants(s, env, salt)
    ensures forall salt :: WakeAt(s.(auth := a), env, salt) == WakeAt(s, env, salt)
  {}
}
