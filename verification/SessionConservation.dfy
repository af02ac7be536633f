/** Nothing handed to a connection is lost or sent twice: one step at a time
    (flush_packet, on_message_failed and msgs_state_info of td/mtproto/SessionConnection.cpp). */
module SessionConservation {
  import opened AuthData
  import opened CryptoStorer
  import opened Session
  import opened SessionScheduling

  // ------------------------------------------------------------ what has left

  /** The contributions of all packets sent so far. */
  function SentItems<T>(out: seq<Packet>, f: Payload -> seq<T>): seq<T> {
    if out == [] then []
    else SentItems(out[..|out| - 1], f) + Collect(PayloadsOf(out[|out| - 1].Messages()), f)
  }

  /** The identifiers in flight in service queries of one kind. */
  ghost function InFlight(m: map<int, ServiceQuery>, kind: QueryKind): multiset<int> {
    if |m| == 0 then multiset{}
    else
      NonEmptyMap(m);
      var k :| k in m.Keys;
      IdsOf(m[k], kind) + InFlight(m - {k}, kind)
  }

  lemma NonEmptyMap(m: map<int, ServiceQuery>)
    requires |m| != 0
    ensures exists k :: k in m.Keys
  {
    if forall k :: k !in m.Keys {
      assert false;
    }
  }

  ghost function IdsOf(q: ServiceQuery, kind: QueryKind): multiset<int> {
    if q.kind == kind then multiset(q.ids) else multiset{}
  }

  lemma {:induction false} InFlightRemove(m: map<int, ServiceQuery>, kind: QueryKind, k: int)
    requires k in m
    ensures InFlight(m, kind) == IdsOf(m[k], kind) + InFlight(m - {k}, kind)
    decreases |m|
  {
    var j :| j in m.Keys && InFlight(m, kind) == IdsOf(m[j], kind) + InFlight(m - {j}, kind);
    hide InFlight;
    hide IdsOf;
    if j != k {
      assert m - {j} - {k} == m - {k} - {j};
      assert k in m - {j} && j in m - {k};
      InFlightRemove(m - {j}, kind, k);
      InFlightRemove(m - {k}, kind, j);
      assert (m - {j})[k] == m[k] && (m - {k})[j] == m[j];
    }
  }

  lemma InFlightInsert(m: map<int, ServiceQuery>, kind: QueryKind, k: int, q: ServiceQuery)
    requires k !in m
    ensures InFlight(m[k := q], kind) == IdsOf(q, kind) + InFlight(m, kind)
  {
    InFlightRemove(m[k := q], kind, k);
    assert m[k := q] - {k} == m;
  }

  // ------------------------------------------------------------ flush_packet

  /** The service queries of a state have identifiers that were drawn. */
  ghost predicate KeysDrawn(s: State) {
    (forall k :: k in s.serviceQueries ==> 0 < k <= s.auth.lastMessageId) &&
    (forall c :: c in s.containerToService ==> 0 < c <= s.auth.lastMessageId)
  }

  lemma NothingTaken(s: State, env: Env)
    requires Gathered(s, env).Empty()
    ensures var t := FlushPacket(s, env);
            t.toSend == s.toSend && t.toAck == s.toAck && t.toCancel == s.toCancel && t.output == s.output &&
            t.toGetState == s.toGetState && t.toResend == s.toResend && t.serviceQueries == s.serviceQueries &&
            t.containerToService == s.containerToService && t.auth == s.auth.Refreshed(env.now)
  {
    hide Build;
  }

  /** Where everything is after a flush that sent a packet. */
  lemma FlushShape(s: State, env: Env)
    requires !Gathered(s, env).Empty()
    ensures var t, p, k := FlushPacket(s, env), Gathered(s, env), QueriesTaken(s, env);
            var b := Build(p, s.auth.Refreshed(env.now), env.now, env.entropy);
            p.queries == s.toSend[..k] && t.toSend == s.toSend[k..] &&
            p.toAck == Taken(s.toAck, 8192) && t.toAck == Left(s.toAck, 8192) &&
            p.cancel == Taken(s.toCancel, 1020 - k) && t.toCancel == Left(s.toCancel, 1020 - k) &&
            p.getInfo == Taken(s.toGetState, 8192) && t.toGetState == Left(s.toGetState, 8192) &&
            p.resend == Taken(s.toResend, 8192) && t.toResend == Left(s.toResend, 8192)
    ensures var t, p := FlushPacket(s, env), Gathered(s, env);
            var b := Build(p, s.auth.Refreshed(env.now), env.now, env.entropy);
            t.output == s.output + [b.packet] && t.auth == b.auth.Refreshed(env.now) &&
            t.serviceQueries ==
              InsertNew(InsertNew(s.serviceQueries, b.resendId, ServiceQuery(ResendAnswer, p.resend)),
                        b.getInfoId, ServiceQuery(GetStateInfo, p.getInfo)) &&
            t.containerToService ==
              PushTo(PushTo(s.containerToService, b.containerId, b.resendId), b.containerId, b.getInfoId)
  {
    hide Build;
    hide SendTill;
    hide Taken;
    hide Left;
    hide InsertNew;
    hide PushTo;
  }

  lemma RefreshKeepsAuthOk(a: Auth, now: real)
    ensures AuthOk(a.Refreshed(now)) == AuthOk(a) && (AuthOk(a) ==> a.lastMessageId >= 0)
    ensures a.Refreshed(now).minted == a.minted && a.Refreshed(now).lastMessageId == a.lastMessageId
  {}

  /** Queries leave from the front of their queue, in order, and acknowledgements and cancellations move from
      pending to sent. */
  lemma FlushConservesSent(s: State, env: Env)
    requires AuthOk(s.auth)
    ensures var t := FlushPacket(s, env);
            SentItems(t.output, QueryOf) + t.toSend == SentItems(s.output, QueryOf) + s.toSend &&
            multiset(SentItems(t.output, AckIds)) + multiset(t.toAck) ==
            multiset(SentItems(s.output, AckIds)) + multiset(s.toAck) &&
            multiset(SentItems(t.output, CancelIds)) + multiset(t.toCancel) ==
            multiset(SentItems(s.output, CancelIds)) + multiset(s.toCancel)
  {
    hide *;
    var p := Gathered(s, env);
    if p.Empty() {
      NothingTaken(s, env);
    } else {
      FlushShape(s, env);
      RefreshKeepsAuthOk(s.auth, env.now);
      BuildCarries(p, s.auth.Refreshed(env.now), env.now, env.entropy);
      var k := QueriesTaken(s, env);
      SentOneMore(s.output, Build(p, s.auth.Refreshed(env.now), env.now, env.entropy).packet);
      assert s.toSend == s.toSend[..k] + s.toSend[k..];
      assert SentItems(s.output, QueryOf) + s.toSend[..k] + s.toSend[k..] == SentItems(s.output, QueryOf) + s.toSend;
      TakenAndLeft(s.toAck, 8192);
      TakenAndLeft(s.toCancel, 1020 - k);
    }
  }

  lemma SentOneMore(out: seq<Packet>, packet: Packet)
    ensures SentItems(out + [packet], QueryOf) == SentItems(out, QueryOf) + Collect(PayloadsOf(packet.Messages()), QueryOf)
    ensures SentItems(out + [packet], AckIds) == SentItems(out, AckIds) + Collect(PayloadsOf(packet.Messages()), AckIds)
    ensures SentItems(out + [packet], CancelIds) ==
            SentItems(out, CancelIds) + Collect(PayloadsOf(packet.Messages()), CancelIds)
  {
    assert (out + [packet])[..|out|] == out;
  }

  /** State and resend requests move from pending to exactly one new in-flight service query. */
  lemma FlushConservesService(s: State, env: Env)
    requires AuthOk(s.auth) && KeysDrawn(s)
    ensures var t := FlushPacket(s, env);
            multiset(t.toGetState) + InFlight(t.serviceQueries, GetStateInfo) ==
            multiset(s.toGetState) + InFlight(s.serviceQueries, GetStateInfo) &&
            multiset(t.toResend) + InFlight(t.serviceQueries, ResendAnswer) ==
            multiset(s.toResend) + InFlight(s.serviceQueries, ResendAnswer)
  {
    hide *;
    var p := Gathered(s, env);
    if p.Empty() {
      NothingTaken(s, env);
    } else {
      FlushShape(s, env);
      FreshIds(s, env);
      var b := Build(p, s.auth.Refreshed(env.now), env.now, env.entropy);
      TakenAndLeft(s.toGetState, 8192);
      TakenAndLeft(s.toResend, 8192);
      InsertConserves(s.serviceQueries, b.resendId, ServiceQuery(ResendAnswer, p.resend));
      var m := InsertNew(s.serviceQueries, b.resendId, ServiceQuery(ResendAnswer, p.resend));
      InsertConserves(m, b.getInfoId, ServiceQuery(GetStateInfo, p.getInfo));
    }
  }

  /** The identifiers of new service queries are not in use. */
  lemma FreshIds(s: State, env: Env)
    requires AuthOk(s.auth) && KeysDrawn(s) && !Gathered(s, env).Empty()
    ensures var p := Gathered(s, env);
            var b := Build(p, s.auth.Refreshed(env.now), env.now, env.entropy);
            var m := InsertNew(s.serviceQueries, b.resendId, ServiceQuery(ResendAnswer, p.resend));
            (b.resendId == 0 <==> p.resend == []) && (b.getInfoId == 0 <==> p.getInfo == []) &&
            b.resendId !in s.serviceQueries && b.getInfoId !in m
  {
    hide Build;
    hide Gathered;
    hide AuthOk;
    RefreshKeepsAuthOk(s.auth, env.now);
    BuildIds(Gathered(s, env), s.auth.Refreshed(env.now), env.now, env.entropy);
  }

  lemma InsertConserves(m: map<int, ServiceQuery>, id: int, q: ServiceQuery)
    requires id !in m && (id == 0 <==> q.ids == [])
    ensures InFlight(InsertNew(m, id, q), q.kind) == multiset(q.ids) + InFlight(m, q.kind)
    ensures forall kind :: kind != q.kind ==> InFlight(InsertNew(m, id, q), kind) == InFlight(m, kind)
  {
    hide InFlight;
    if id != 0 {
      InFlightInsert(m, GetStateInfo, id, q);
      InFlightInsert(m, ResendAnswer, id, q);
    }
  }

  lemma FlushKeepsAuthOk(s: State, env: Env)
    requires AuthOk(s.auth)
    ensures var t := FlushPacket(s, env);
            AuthOk(t.auth) && t.auth.lastMessageId >= s.auth.lastMessageId &&
            |t.auth.minted| >= |s.auth.minted| && t.auth.minted[..|s.auth.minted|] == s.auth.minted
  {
    hide *;
    RefreshKeepsAuthOk(s.auth, env.now);
    var p, a := Gathered(s, env), s.auth.Refreshed(env.now);
    if p.Empty() {
      NothingTaken(s, env);
      assert s.auth.minted[..|s.auth.minted|] == s.auth.minted;
    } else {
      FlushShape(s, env);
      BuildExtends(p, a, env.now, env.entropy);
      var r := Build(p, a, env.now, env.entropy);
      var b := r.auth;
      ExtendsMeans(a, b, |Items(p)| + if r.packet.Container? then 1 else 0);
      RefreshKeepsAuthOk(b, env.now);
    }
  }

  lemma ExtendsMeans(a: Auth, b: Auth, n: nat)
    requires Extends(a, b, n)
    ensures AuthOk(b) && b.lastMessageId >= a.lastMessageId
    ensures |b.minted| >= |a.minted| && b.minted[..|a.minted|] == a.minted
  {}

  /** A flush adds only fresh keys: a service query that is gone never comes back under its identifier. */
  lemma FlushKeepsKeys(s: State, env: Env)
    requires AuthOk(s.auth) && KeysDrawn(s)
    ensures KeysDrawn(FlushPacket(s, env))
    ensures forall k :: k in FlushPacket(s, env).serviceQueries && k <= s.auth.lastMessageId ==> k in s.serviceQueries
  {
    hide Build;
    hide Gathered;
    hide FlushPacket;
    hide AuthOk;
    hide UpdateSalt;
    FlushKeepsAuthOk(s, env);
    RefreshKeepsAuthOk(s.auth, env.now);
    var p, a := Gathered(s, env), s.auth.Refreshed(env.now);
    if p.Empty() {
      NothingTaken(s, env);
    } else {
      FlushShape(s, env);
      BuildIds(p, a, env.now, env.entropy);
      RefreshKeepsAuthOk(Build(p, a, env.now, env.entropy).auth, env.now);
    }
  }

  // ------------------------------------------------------------ failed service messages

  /** Everything but the two request queues, the service queries and the deadline. */
  ghost predicate SameElsewhere(s: State, t: State) {
    t == s.(toGetState := t.toGetState, toResend := t.toResend, serviceQueries := t.serviceQueries,
            forceSendAt := t.forceSendAt)
  }

  /** All requests of one kind that are pending or in flight. */
  ghost function Outstanding(s: State, kind: QueryKind): multiset<int> {
    (if kind.GetStateInfo? then multiset(s.toGetState) else multiset(s.toResend)) + InFlight(s.serviceQueries, kind)
  }

  /** `t` is `s` with `ids` appended to the queue of `kind`. */
  ghost predicate Appended(s: State, t: State, kind: QueryKind, ids: seq<int>) {
    SameElsewhere(s, t) && t.serviceQueries == s.serviceQueries &&
    t.toGetState == (if kind.GetStateInfo? then s.toGetState + ids else s.toGetState) &&
    t.toResend == (if kind.ResendAnswer? then s.toResend + ids else s.toResend)
  }

  lemma AskShape(s: State, now: real, kind: QueryKind, id: int)
    requires now > 0.0 && Armed(s)
    ensures Armed(Ask(s, now, kind, id)) && Appended(s, Ask(s, now, kind, id), kind, [id])
  {
    hide SendBefore;
    SendBeforeShape(s, now);
    SendBeforeShape(s, now + RESEND_ANSWER_DELAY);
    if kind.GetStateInfo? {
      var t := AskState(s, now, id);
      assert Appended(s, t, kind, [id]);
    } else {
      var t := AskResend(s, now, id);
      assert Appended(s, t, kind, [id]);
    }
  }

  lemma SendBeforeShape(s: State, tm: real)
    requires tm > 0.0
    ensures var t := SendBefore(s, tm);
            t == s.(forceSendAt := t.forceSendAt) && t.forceSendAt != 0.0 && Armed(t)
  {}

  lemma SameThroughout(s: State, t: State, u: State)
    requires SameElsewhere(s, t) && SameElsewhere(t, u)
    ensures SameElsewhere(s, u)
  {}

  lemma AppendedTwice(s: State, t: State, u: State, kind: QueryKind, x: seq<int>, y: seq<int>)
    requires Appended(s, t, kind, x) && Appended(t, u, kind, y)
    ensures Appended(s, u, kind, x + y)
  {
    SameThroughout(s, t, u);
    hide SameElsewhere;
    if kind.GetStateInfo? {
      assert s.toGetState + (x + y) == s.toGetState + x + y;
    } else {
      assert s.toResend + (x + y) == s.toResend + x + y;
    }
  }

  lemma {:induction false} AskAllShape(s: State, now: real, kind: QueryKind, ids: seq<int>)
    requires now > 0.0 && Armed(s)
    ensures Armed(AskAll(s, now, kind, ids)) && Appended(s, AskAll(s, now, kind, ids), kind, ids)
    decreases |ids|
  {
    if ids == [] {
    } else {
      hide Ask;
      hide Appended;
      hide Armed;
      var n := |ids| - 1;
      AskAllShape(s, now, kind, ids[..n]);
      var t := AskAll(s, now, kind, ids[..n]);
      AskShape(t, now, kind, ids[n]);
      AppendedTwice(s, t, AskAll(s, now, kind, ids), kind, ids[..n], [ids[n]]);
      assert ids == ids[..n] + [ids[n]];
    }
  }

  /** Requeueing moves the requests of a service query back to their queue and forgets the query. */
  lemma RequeueConserves(s: State, now: real, id: int)
    requires now > 0.0 && Armed(s)
    ensures var t := Requeue(s, now, id);
            Armed(t) && SameElsewhere(s, t) && t.serviceQueries == s.serviceQueries - {id} &&
            Outstanding(t, GetStateInfo) == Outstanding(s, GetStateInfo) &&
            Outstanding(t, ResendAnswer) == Outstanding(s, ResendAnswer)
    ensures id !in s.serviceQueries ==> Requeue(s, now, id) == s
  {
    hide AskAll;
    hide InFlight;
    if id in s.serviceQueries {
      var q := s.serviceQueries[id];
      AskAllShape(s, now, q.kind, q.ids);
      InFlightRemove(s.serviceQueries, GetStateInfo, id);
      InFlightRemove(s.serviceQueries, ResendAnswer, id);
    } else {
      assert s.serviceQueries - {id} == s.serviceQueries;
    }
  }

  lemma {:induction false} RequeueAllConserves(s: State, now: real, ids: seq<int>)
    requires now > 0.0 && Armed(s)
    ensures var t := RequeueAll(s, now, ids);
            Armed(t) && SameElsewhere(s, t) &&
            t.serviceQueries == s.serviceQueries - (set i | i in ids) &&
            Outstanding(t, GetStateInfo) == Outstanding(s, GetStateInfo) &&
            Outstanding(t, ResendAnswer) == Outstanding(s, ResendAnswer)
    ensures (forall i :: i in ids ==> i !in s.serviceQueries) ==> RequeueAll(s, now, ids) == s
    decreases |ids|
  {
    hide Requeue;
    hide Outstanding;
    hide Armed;
    if ids == [] {
      assert s.serviceQueries - (set i | i in ids) == s.serviceQueries;
    } else {
      var n := |ids| - 1;
      RequeueAllConserves(s, now, ids[..n]);
      var u := RequeueAll(s, now, ids[..n]);
      RequeueConserves(u, now, ids[n]);
      assert ids == ids[..n] + [ids[n]];
      assert (set i | i in ids) == (set i | i in ids[..n]) + {ids[n]};
    }
  }

  /** The state as the rest of on_message_failed sees it: only the ping and destroy timers differ. */
  ghost predicate SameQueues(s: State, t: State) {
    t == s.(sentDestroy := t.sentDestroy, lastPingAt := t.lastPingAt, lastPingMessageId := t.lastPingMessageId,
            lastPingContainerId := t.lastPingContainerId)
  }

  /** A failure report requeues each in-flight request of its targets once and for all: the targets leave the
      service queries, and reporting the same message, or its container, again requeues nothing. */
  lemma FailureRequeuesOnce(s: State, now: real, id: int, now': real, again: int)
    requires now > 0.0 && now' > 0.0 && Armed(s)
    ensures var t := MessageFailed(s, now, id);
            Armed(t) && Outstanding(t, GetStateInfo) == Outstanding(s, GetStateInfo) &&
            Outstanding(t, ResendAnswer) == Outstanding(s, ResendAnswer) &&
            (forall i :: i in Targets(s, id) ==> i !in t.serviceQueries)
    ensures var t := MessageFailed(s, now, id);
            (forall i :: i in Targets(s, again) && i in s.serviceQueries ==> i in Targets(s, id)) ==>
            SameQueues(t, MessageFailed(t, now', again))
  {
    hide RequeueAll;
    hide Outstanding;
    hide Armed;
    FailureShape(s, now, id);
    var t := MessageFailed(s, now, id);
    assert Targets(t, again) == Targets(s, again);
    if forall i :: i in Targets(s, again) && i in s.serviceQueries ==> i in Targets(s, id) {
      SecondFailure(t, now', again);
    }
  }

  lemma SecondFailure(t: State, now: real, id: int)
    requires now > 0.0 && Armed(t) && forall i :: i in Targets(t, id) ==> i !in t.serviceQueries
    ensures SameQueues(t, MessageFailed(t, now, id))
  {
    hide RequeueAll;
    hide Armed;
    hide Outstanding;
    hide Targets;
    PingRestartedSame(t, id);
    var u := PingRestarted(t, id);
    assert u.serviceQueries == t.serviceQueries;
    RequeueAllConserves(u, now, Targets(t, id));
  }

  lemma FailureShape(s: State, now: real, id: int)
    requires now > 0.0 && Armed(s)
    ensures var t := MessageFailed(s, now, id);
            Armed(t) && Outstanding(t, GetStateInfo) == Outstanding(s, GetStateInfo) &&
            Outstanding(t, ResendAnswer) == Outstanding(s, ResendAnswer) &&
            t.serviceQueries == s.serviceQueries - (set i | i in Targets(s, id)) &&
            t.containerToService == s.containerToService &&
            t.toSend == s.toSend && t.toAck == s.toAck && t.toCancel == s.toCancel && t.output == s.output &&
            t.auth == s.auth && t.mode == s.mode
  {
    hide RequeueAll;
    hide Outstanding;
    hide Armed;
    hide InFlight;
    hide Targets;
    PingRestartedSame(s, id);
    var u := PingRestarted(s, id);
    RequeueAllConserves(u, now, Targets(s, id));
  }

  lemma PingRestartedSame(s: State, id: int)
    ensures var t := PingRestarted(s, id);
            SameQueues(s, t) && Armed(t) == Armed(s) &&
            Outstanding(t, GetStateInfo) == Outstanding(s, GetStateInfo) &&
            Outstanding(t, ResendAnswer) == Outstanding(s, ResendAnswer)
  {
    hide InFlight;
  }
}
