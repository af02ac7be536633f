/** The sender and scheduler of a connection as functions on its state
    (td/mtproto/SessionConnection.cpp). SessionConnection.dfy refines it with the object itself. */
module Session {
  import opened Bytes
  import opened AuthData
  import opened CryptoStorer

  datatype Mode = Tcp | Http | HttpLongPoll

  datatype QueryKind = GetStateInfo | ResendAnswer
  datatype ServiceQuery = ServiceQuery(kind: QueryKind, ids: seq<int>)

  /** What stays fixed during one call: the cached time, rtt() and the random source. */
  datatype Env = Env(now: real, rtt: int, entropy: Entropy)
  {
    predicate Ok() { now > 0.0 && rtt >= 2 }
  }

  datatype State = State(
    mode: Mode, online: bool, isMain: bool,
    toSend: seq<Query>, toAck: seq<int>, toResend: seq<int>, toCancel: seq<int>, toGetState: seq<int>,
    forceSendAt: real,
    serviceQueries: map<int, ServiceQuery>, containerToService: map<int, seq<int>>,
    lastReadAt: real, lastPongAt: real, lastPingAt: real,
    curPingId: int, lastPingMessageId: int, lastPingContainerId: int,
    needDestroy: bool, sentDestroy: bool, flushPacketAt: real, lastGetFutureSaltAt: real,
    canSend: bool, auth: Auth, output: seq<Packet>)
  {
    function Pending(): nat { |toSend| + |toAck| + |toResend| + |toCancel| + |toGetState| }

    function PingMayDelay(rtt: int): int { if online then rtt / 2 else 30 }
    function PingMustDelay(rtt: int): int { if online then rtt else 60 }
    function PingDisconnectDelay(rtt: int): int { if online && isMain then rtt * 5 / 2 else 135 }
    function ReadDisconnectDelay(rtt: int): int { if online then rtt * 7 / 2 else 135 }

    predicate MayPing(env: Env) {
      lastPingAt == 0.0 || (!mode.HttpLongPoll? && lastPingAt + PingMayDelay(env.rtt) as real < env.now)
    }

    predicate MustPing(env: Env) {
      lastPingAt == 0.0 || (!mode.HttpLongPoll? && lastPingAt + PingMustDelay(env.rtt) as real < env.now)
    }

    predicate SaltsDue(env: Env) {
      lastGetFutureSaltAt == 0.0 || lastGetFutureSaltAt + 60.0 < env.now
    }

    predicate DestroyDue() { needDestroy && !sentDestroy }
  }

  const ACK_DELAY: real := 30.0
  const QUERY_DELAY: real := 0.001
  const RESEND_ANSWER_DELAY: real := 0.001
  const MAX_UNACKED_PACKETS: nat := 100

  // ------------------------------------------------------------ queueing

  function SendBefore(s: State, tm: real): State {
    if s.forceSendAt == 0.0 || s.forceSendAt > tm then s.(forceSendAt := tm) else s
  }

  function Enqueue(s: State, now: real, q: Query): State {
    var t := if s.toSend == [] then SendBefore(s, now + QUERY_DELAY) else s;
    t.(toSend := s.toSend + [q])
  }

  function SendQuery(s: State, env: Env, packet: seq<byte>, gzip: bool, invokeAfter: int, quickAck: bool): State {
    var a := Mint(s.auth, env.now, env.entropy, true);
    Enqueue(s.(auth := a), env.now,
            Query(a.lastMessageId, SeqNoFor(s.auth.seqNo, true), packet, gzip, invokeAfter, quickAck))
  }

  function AskState(s: State, now: real, id: int): State {
    var t := if s.toGetState == [] then SendBefore(s, now) else s;
    t.(toGetState := s.toGetState + [id])
  }

  function AskResend(s: State, now: real, id: int): State {
    var t := if s.toResend == [] then SendBefore(s, now + RESEND_ANSWER_DELAY) else s;
    t.(toResend := s.toResend + [id])
  }

  function CancelAnswer(s: State, now: real, id: int): State {
    var t := if s.toCancel == [] then SendBefore(s, now + RESEND_ANSWER_DELAY) else s;
    t.(toCancel := s.toCancel + [id])
  }

  /** An acknowledgement equal to the one queued last is dropped. */
  function SendAck(s: State, now: real, id: int): State {
    var t := if s.toAck == [] then SendBefore(s, now + ACK_DELAY) else s;
    if s.toAck != [] && s.toAck[|s.toAck| - 1] == id then t
    else
      var u := t.(toAck := s.toAck + [id]);
      if |u.toAck| >= MAX_UNACKED_PACKETS then SendBefore(u, now) else u
  }

  // ------------------------------------------------------------ failures and answers

  function Ask(s: State, now: real, kind: QueryKind, id: int): State {
    if kind.GetStateInfo? then AskState(s, now, id) else AskResend(s, now, id)
  }

  function AskAll(s: State, now: real, kind: QueryKind, ids: seq<int>): State {
    if ids == [] then s else Ask(AskAll(s, now, kind, ids[..|ids| - 1]), now, kind, ids[|ids| - 1])
  }

  /** on_message_failed_inner. */
  function Requeue(s: State, now: real, id: int): State {
    if id !in s.serviceQueries then s
    else
      var q := s.serviceQueries[id];
      var t := AskAll(s, now, q.kind, q.ids);
      t.(serviceQueries := t.serviceQueries - {id})
  }

  function RequeueAll(s: State, now: real, ids: seq<int>): State {
    if ids == [] then s else Requeue(RequeueAll(s, now, ids[..|ids| - 1]), now, ids[|ids| - 1])
  }

  /** The service messages that a failure report for `id` concerns. */
  function Targets(s: State, id: int): seq<int> {
    if id in s.containerToService then s.containerToService[id] else [id]
  }

  function PingRestarted(s: State, id: int): State {
    var t := s.(sentDestroy := false);
    if id == s.lastPingMessageId || id == s.lastPingContainerId
    then t.(lastPingAt := 0.0, lastPingMessageId := 0, lastPingContainerId := 0) else t
  }

  function MessageFailed(s: State, now: real, id: int): State {
    RequeueAll(PingRestarted(s, id), now, Targets(s, id))
  }

  // ------------------------------------------------------------ must_flush_packet

  function Relax(timeout: real, t: real): real {
    if t == 0.0 then timeout else if timeout == 0.0 || t < timeout then t else timeout
  }

  /** The decision and the wake-up time once the key, the transport and the salt are known. */
  predicate Wants(s: State, env: Env, salt: bool) {
    if s.mode.HttpLongPoll? then salt
    else if salt then (s.forceSendAt != 0.0 && env.now > s.forceSendAt) || s.MustPing(env) || s.DestroyDue()
    else s.SaltsDue(env)
  }

  function WakeAt(s: State, env: Env, salt: bool): real {
    if s.mode.HttpLongPoll? then 0.0
    else if salt then
      if s.forceSendAt != 0.0 && env.now > s.forceSendAt then 0.0
      else
        var t := Relax(0.0, s.forceSendAt);
        if s.MustPing(env) then t else Relax(t, s.lastPingAt + s.PingMustDelay(env.rtt) as real)
    else if s.SaltsDue(env) then 0.0
    else Relax(0.0, s.lastGetFutureSaltAt + 60.0)
  }

  predicate MustFlush(s: State, env: Env) {
    s.auth.HasAuthKey(env.now) && s.canSend && Wants(s, env, s.auth.HasSalt(env.now))
  }

  /** The wake-up time that must_flush_packet leaves. */
  function FlushAt(s: State, env: Env): real {
    if s.auth.HasAuthKey(env.now) && s.canSend then WakeAt(s, env, s.auth.HasSalt(env.now)) else 0.0
  }

  function AfterMust(s: State, env: Env): State {
    var a := if s.auth.HasAuthKey(env.now) && s.canSend then s.auth.Refreshed(env.now) else s.auth;
    s.(flushPacketAt := FlushAt(s, env), auth := a)
  }

  // ------------------------------------------------------------ flush_packet

  /** How many queries, starting from number `i` after `size` bytes, still go into the packet. */
  function SendTill(qs: seq<Query>, i: nat, size: nat): (r: nat)
    requires i <= |qs|
    ensures i <= r <= |qs| && (i <= 1020 ==> r <= 1020)
    decreases |qs| - i
  {
    if i < |qs| && i < 1020 && size < 0x8000 then SendTill(qs, i + 1, size + |qs[i].packet|) else i
  }

  /** The end of `v`, at most `n` long, and what stays. */
  function Taken<T>(v: seq<T>, n: nat): (r: seq<T>)
    ensures |r| <= n
  {
    if n >= |v| then v else v[|v| - n..]
  }

  function Left<T>(v: seq<T>, n: nat): seq<T> {
    if n >= |v| then [] else v[..|v| - n]
  }

  /** The number of queries that leave, the ping and the request for salts, given what is known about salts. */
  function TakenWith(s: State, salt: bool): (r: nat)
    ensures r <= |s.toSend| && r <= 1020
  {
    if salt then SendTill(s.toSend, 0, 0) else 0
  }

  predicate AsksWith(s: State, env: Env, need: bool) {
    !s.mode.HttpLongPoll? && need && s.SaltsDue(env)
  }

  function QueriesTaken(s: State, env: Env): (r: nat)
    ensures r <= |s.toSend| && r <= 1020
  {
    TakenWith(s, s.auth.HasSalt(env.now))
  }

  predicate Pings(s: State, env: Env) { s.auth.HasSalt(env.now) && s.MayPing(env) }

  predicate AsksSalts(s: State, env: Env) { AsksWith(s, env, s.auth.NeedFutureSalts(env.now)) }

  /** 1000 * clamp(time_to_disconnect - rtt, 0.1, 25), as an integer. */
  function MaxWait(s: State, env: Env): int {
    var pong := s.PingDisconnectDelay(env.rtt) as real + s.lastPongAt;
    var read := s.ReadDisconnectDelay(env.rtt) as real + s.lastReadAt;
    var left := (if read < pong then read else pong) - env.now - env.rtt as real;
    (1000.0 * (if left < 0.1 then 0.1 else if left > 25.0 then 25.0 else left)).Floor
  }

  function GatherWith(s: State, env: Env, salt: bool, need: bool): Parts {
    var k := TakenWith(s, salt);
    Parts(s.toSend[..k], Taken(s.toAck, 8192),
          if salt && s.MayPing(env) then s.curPingId + 1 else 0, s.PingDisconnectDelay(env.rtt) + 2,
          if s.mode.Tcp? then -1 else 30, if s.mode.Tcp? then -1 else 10,
          if s.mode.Tcp? then -1 else if s.mode.Http? then 0 else MaxWait(s, env),
          if AsksWith(s, env, need) then 64 else 0,
          Taken(s.toGetState, 8192), Taken(s.toResend, 8192), Taken(s.toCancel, 1020 - k), s.DestroyDue())
  }

  function DrainWith(s: State, env: Env, salt: bool, need: bool): State {
    var k := TakenWith(s, salt);
    var ping := salt && s.MayPing(env);
    s.(curPingId := if ping then s.curPingId + 1 else s.curPingId,
       lastPingAt := if ping then env.now else s.lastPingAt,
       lastGetFutureSaltAt := if AsksWith(s, env, need) then env.now else s.lastGetFutureSaltAt,
       toSend := s.toSend[k..], toAck := Left(s.toAck, 8192), toGetState := Left(s.toGetState, 8192),
       toResend := Left(s.toResend, 8192), toCancel := Left(s.toCancel, 1020 - k),
       sentDestroy := s.sentDestroy || s.DestroyDue())
  }

  /** What the packet will hold. */
  function Gathered(s: State, env: Env): Parts {
    GatherWith(s, env, s.auth.HasSalt(env.now), s.auth.NeedFutureSalts(env.now))
  }

  /** The state once the parts are taken out and before the packet is built. */
  function Drained(s: State, env: Env): State {
    DrainWith(s.(auth := s.auth.Refreshed(env.now)), env, s.auth.HasSalt(env.now), s.auth.NeedFutureSalts(env.now))
  }

  /** unordered_map::insert keeps an existing entry. */
  function InsertNew(m: map<int, ServiceQuery>, id: int, q: ServiceQuery): map<int, ServiceQuery> {
    if id == 0 || id in m then m else m[id := q]
  }

  function PushTo(m: map<int, seq<int>>, container: int, id: int): map<int, seq<int>> {
    if container == 0 || id == 0 then m
    else m[container := (if container in m then m[container] else []) + [id]]
  }

  function Sent(d: State, p: Parts, b: Built, env: Env): State {
    var t := d.(
      auth := b.auth.Refreshed(env.now), output := d.output + [b.packet], canSend := d.mode.Tcp?,
      serviceQueries := InsertNew(InsertNew(d.serviceQueries, b.resendId, ServiceQuery(ResendAnswer, p.resend)),
                                  b.getInfoId, ServiceQuery(GetStateInfo, p.getInfo)),
      lastPingContainerId := if p.pingId != 0 then b.containerId else d.lastPingContainerId,
      lastPingMessageId := if p.pingId != 0 then b.pingMessageId else d.lastPingMessageId,
      containerToService := PushTo(PushTo(d.containerToService, b.containerId, b.resendId), b.containerId, b.getInfoId));
    t.(forceSendAt := if d.Pending() == 0 then 0.0 else d.forceSendAt)
  }

  /** The test for the early return, made on the queues before the packet's share is cut off. */
  predicate NothingWith(s: State, env: Env, salt: bool, need: bool) {
    TakenWith(s, salt) == 0 && s.toAck == [] && (if salt && s.MayPing(env) then s.curPingId + 1 else 0) == 0 &&
    s.mode.Tcp? && !AsksWith(s, env, need) && s.toResend == [] && s.toCancel == [] && s.toGetState == [] &&
    !s.DestroyDue()
  }

  /** That test holds exactly when the packet would be empty. */
  predicate NothingToFlush(s: State, env: Env): (r: bool)
    ensures r <==> Gathered(s, env).Empty()
  {
    NothingWith(s, env, s.auth.HasSalt(env.now), s.auth.NeedFutureSalts(env.now))
  }

  function FlushPacket(s: State, env: Env): State {
    var p := Gathered(s, env);
    var d := Drained(s, env);
    if NothingToFlush(s, env) then d.(forceSendAt := 0.0)
    else Sent(d, p, Build(p, d.auth, env.now, env.entropy), env)
  }
}
