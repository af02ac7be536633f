/** The write loop of a connection: termination, and the deadline of pending work
    (before_write, must_flush_packet and flush_packet of td/mtproto/SessionConnection.cpp). */
module SessionScheduling {
  import opened AuthData
  import opened CryptoStorer
  import opened Session

  /** Pending work has a deadline. */
  predicate Armed(s: State) {
    s.Pending() > 0 ==> s.forceSendAt != 0.0
  }

  lemma RefreshIdempotent(a: Auth, now: real)
    ensures a.Refreshed(now).Refreshed(now) == a.Refreshed(now)
    ensures a.Refreshed(now).HasSalt(now) == a.HasSalt(now)
    ensures a.Refreshed(now).NeedFutureSalts(now) == a.NeedFutureSalts(now)
  {
    UpdateSaltIdempotent(a.salts, a.ServerTime(now));
  }

  lemma TakenAndLeft<T>(v: seq<T>, n: nat)
    ensures |Taken(v, n)| + |Left(v, n)| == |v|
    ensures v != [] && n > 0 ==> Taken(v, n) != []
    ensures multiset(Taken(v, n)) + multiset(Left(v, n)) == multiset(v)
  {
    if n < |v| {
      assert v == v[..|v| - n] + v[|v| - n..];
    }
  }

  function PacketBytes(qs: seq<Query>, k: nat): nat
    requires k <= |qs|
  {
    if k == 0 then 0 else PacketBytes(qs, k - 1) + |qs[k - 1].packet|
  }

  /** How many queries one packet takes: as many as there are, up to 1020, and none after the first 2^15 bytes. */
  lemma {:induction false} QueriesFit(qs: seq<Query>, i: nat)
    requires i <= |qs| && i <= 1020
    requires forall k :: 0 <= k < i ==> PacketBytes(qs, k) < 0x8000
    ensures var r := SendTill(qs, i, PacketBytes(qs, i));
            r <= |qs| && r <= 1020 && (forall k :: 0 <= k < r ==> PacketBytes(qs, k) < 0x8000) &&
            (r == |qs| || r == 1020 || PacketBytes(qs, r) >= 0x8000)
    decreases |qs| - i
  {
    if i < |qs| && i < 1020 && PacketBytes(qs, i) < 0x8000 {
      QueriesFit(qs, i + 1);
    }
  }

  /** With a salt, a packet takes something from every non-empty choice of queues. */
  lemma DrainShrinks(s: State, env: Env)
    ensures Drained(s, env).Pending() <= s.Pending()
    ensures s.auth.HasSalt(env.now) && s.Pending() > 0 ==>
              Drained(s, env).Pending() < s.Pending() && !Gathered(s, env).Empty()
  {
    var k := QueriesTaken(s, env);
    TakenAndLeft(s.toAck, 8192);
    TakenAndLeft(s.toGetState, 8192);
    TakenAndLeft(s.toResend, 8192);
    TakenAndLeft(s.toCancel, 1020 - k);
  }

  /** The early return of flush_packet, when guarded by must_flush_packet, never abandons waiting queries:
      without a salt the guard holds only because salts are to be requested. */
  lemma EarlyReturnLeavesNothing(s: State, env: Env)
    requires MustFlush(s, env) && Gathered(s, env).Empty()
    ensures s.Pending() == 0 && s.mode.Tcp? && s.auth.HasSalt(env.now)
  {
    DrainShrinks(s, env);
  }

  // ------------------------------------------------------------ the loop

  /** Components of the loop's measure: whether an HTTP transport still has the turn to write, the pending
      items, whether a deadline is armed, and what is due. */
  function Turn(s: State): nat { if !s.mode.Tcp? && s.canSend then 1 else 0 }
  function Deadline(s: State): nat { if s.forceSendAt != 0.0 then 1 else 0 }
  function Due(s: State, env: Env): nat {
    (if s.MustPing(env) then 1 else 0) + (if s.SaltsDue(env) then 1 else 0) + (if s.DestroyDue() then 1 else 0)
  }

  predicate Below(t: State, s: State, env: Env) {
    Turn(t) < Turn(s) || (Turn(t) == Turn(s) &&
      (t.Pending() < s.Pending() || (t.Pending() == s.Pending() &&
        (Deadline(t) < Deadline(s) || (Deadline(t) == Deadline(s) && Due(t, env) < Due(s, env))))))
  }

  function Step(s: State, env: Env): State { FlushPacket(AfterMust(s, env), env) }

  /** must_flush_packet changes nothing that the packet is made from. */
  lemma SameParts(s: State, env: Env)
    requires MustFlush(s, env)
    ensures var u := AfterMust(s, env);
            Gathered(u, env) == Gathered(s, env) &&
            Drained(u, env) == Drained(s, env).(flushPacketAt := u.flushPacketAt)
  {
    hide UpdateSalt;
    hide SendTill;
    hide Taken;
    hide Left;
    hide FlushAt;
    RefreshIdempotent(s.auth, env.now);
  }

  /** The fields the schedule depends on are those of the drained state. */
  ghost predicate SameSchedule(t: State, d: State) {
    t.mode == d.mode && t.online == d.online && t.Pending() == d.Pending() && t.lastPingAt == d.lastPingAt &&
    t.lastGetFutureSaltAt == d.lastGetFutureSaltAt && t.needDestroy == d.needDestroy && t.sentDestroy == d.sentDestroy
  }

  /** What one guarded flush does to the fields the schedule depends on. */
  lemma StepFields(s: State, env: Env)
    requires MustFlush(s, env)
    ensures var t := Step(s, env);
            SameSchedule(t, Drained(s, env)) && t.canSend == s.mode.Tcp? &&
            t.forceSendAt == (if t.Pending() == 0 then 0.0 else s.forceSendAt)
  {
    hide *;
    SameParts(s, env);
    DrainedKeeps(s, env);
    var u, p, d := AfterMust(s, env), Gathered(s, env), Drained(s, env);
    StepUnfolds(s, env);
    if p.Empty() {
      EarlyReturnLeavesNothing(s, env);
      DrainShrinks(s, env);
      DisarmedFields(d, u.flushPacketAt);
      MustMeans(s, env);
    } else {
      var e := d.(flushPacketAt := u.flushPacketAt);
      SentFields(d, e, p, Build(p, e.auth, env.now, env.entropy), env);
    }
  }

  lemma StepUnfolds(s: State, env: Env)
    ensures var u := AfterMust(s, env);
            var p, d := Gathered(u, env), Drained(u, env);
            Step(s, env) == if p.Empty() then d.(forceSendAt := 0.0)
                            else Sent(d, p, Build(p, d.auth, env.now, env.entropy), env)
  {
    hide Build;
    hide Gathered;
    hide Drained;
    hide Sent;
  }

  lemma MustMeans(s: State, env: Env)
    requires MustFlush(s, env)
    ensures s.canSend
  {}

  lemma DisarmedFields(d: State, at: real)
    ensures var t := d.(flushPacketAt := at).(forceSendAt := 0.0);
            SameSchedule(t, d) && t.canSend == d.canSend && t.forceSendAt == 0.0 && t.Pending() == d.Pending()
  {}

  lemma SentFields(d: State, e: State, p: Parts, b: Built, env: Env)
    requires e == d.(flushPacketAt := e.flushPacketAt)
    ensures var t := Sent(e, p, b, env);
            SameSchedule(t, d) && t.canSend == d.mode.Tcp? && t.Pending() == d.Pending() &&
            t.forceSendAt == if d.Pending() == 0 then 0.0 else d.forceSendAt
  {
    hide UpdateSalt;
    hide InsertNew;
    hide PushTo;
  }

  lemma DrainedKeeps(s: State, env: Env)
    ensures var d := Drained(s, env);
            d.mode == s.mode && d.canSend == s.canSend && d.forceSendAt == s.forceSendAt && d.online == s.online &&
            d.needDestroy == s.needDestroy
  {
    hide SendTill;
    hide UpdateSalt;
  }

  lemma DrainedTimers(s: State, env: Env)
    ensures var d := Drained(s, env);
            d.lastPingAt == (if Pings(s, env) then env.now else s.lastPingAt) &&
            d.lastGetFutureSaltAt == (if AsksSalts(s, env) then env.now else s.lastGetFutureSaltAt) &&
            d.sentDestroy == (s.sentDestroy || s.DestroyDue())
  {
    hide SendTill;
    hide UpdateSalt;
    hide Taken;
    hide Left;
  }

  /** What is due after a guarded flush was due before and could not be served. */
  lemma DueAfter(s: State, t: State, env: Env)
    requires env.Ok() && t.mode == s.mode && t.online == s.online && t.needDestroy == s.needDestroy
    requires t.lastPingAt == (if Pings(s, env) then env.now else s.lastPingAt)
    requires t.lastGetFutureSaltAt == (if AsksSalts(s, env) then env.now else s.lastGetFutureSaltAt)
    requires t.sentDestroy == (s.sentDestroy || s.DestroyDue())
    ensures t.MustPing(env) ==> s.MustPing(env) && !s.auth.HasSalt(env.now)
    ensures t.SaltsDue(env) ==> s.SaltsDue(env) && !AsksSalts(s, env)
    ensures !t.DestroyDue()
  {
    hide UpdateSalt;
    assert s.MustPing(env) ==> s.MayPing(env);
  }

  /** Without a salt a guarded flush asks for salts. */
  lemma NoSaltAsks(s: State, env: Env)
    requires MustFlush(s, env) && !s.auth.HasSalt(env.now)
    ensures AsksSalts(s, env) && s.SaltsDue(env)
  {
    hide UpdateSalt;
  }

  /** Every guarded flush goes down in the measure: the loop terminates in every mode. */
  lemma StepDescends(s: State, env: Env)
    requires env.Ok() && MustFlush(s, env)
    ensures Below(Step(s, env), s, env)
  {
    hide Step;
    hide Drained;
    hide Gathered;
    hide UpdateSalt;
    hide AsksSalts;
    hide Pings;
    hide Auth.HasSalt;
    hide State.SaltsDue;
    hide State.MustPing;
    hide State.DestroyDue;
    StepFields(s, env);
    DrainShrinks(s, env);
    DrainedTimers(s, env);
    DrainedKeeps(s, env);
    DueAfter(s, Step(s, env), env);
    if !s.auth.HasSalt(env.now) { NoSaltAsks(s, env); }
  }

  /** before_write. */
  function BeforeWrite(s: State, env: Env): State
    requires env.Ok()
    decreases Turn(s), s.Pending(), Deadline(s), Due(s, env)
  {
    if MustFlush(s, env) then
      StepDescends(s, env);
      BeforeWrite(Step(s, env), env)
    else
      AfterMust(s, env)
  }

  lemma StepKeepsArmed(s: State, env: Env)
    requires MustFlush(s, env) && Armed(s)
    ensures Armed(Step(s, env))
  {
    hide Step;
    StepFields(s, env);
    DrainShrinks(s, env);
  }

  lemma {:induction false} BeforeWriteKeepsArmed(s: State, env: Env)
    requires env.Ok() && Armed(s)
    ensures Armed(BeforeWrite(s, env))
    decreases Turn(s), s.Pending(), Deadline(s), Due(s, env)
  {
    hide Step;
    if MustFlush(s, env) {
      StepKeepsArmed(s, env);
      StepDescends(s, env);
      BeforeWriteKeepsArmed(Step(s, env), env);
    }
  }

  /** When the loop ends nothing is due. So over TCP, with a key and a salt, pending work has a deadline that
      has not passed, and the wake-up time is set and no later than that deadline; without a salt the wake-up
      is the next salt request. */
  lemma {:induction false} LoopEndsOnTime(s: State, env: Env)
    requires env.Ok() && Armed(s)
    ensures var r := BeforeWrite(s, env);
            !MustFlush(r, env) &&
            (r.mode.Tcp? && r.canSend && r.auth.HasAuthKey(env.now) && r.Pending() > 0 ==>
              0.0 < r.flushPacketAt &&
              if r.auth.HasSalt(env.now) then r.forceSendAt >= env.now && r.flushPacketAt <= r.forceSendAt
              else env.now <= r.flushPacketAt == r.lastGetFutureSaltAt + 60.0)
    decreases Turn(s), s.Pending(), Deadline(s), Due(s, env)
  {
    if MustFlush(s, env) {
      hide *;
      StepKeepsArmed(s, env);
      StepDescends(s, env);
      LoopEndsOnTime(Step(s, env), env);
      UnfoldWrite(s, env);
    } else {
      RefreshIdempotent(s.auth, env.now);
    }
  }

  lemma UnfoldWrite(s: State, env: Env)
    requires env.Ok() && MustFlush(s, env)
    ensures BeforeWrite(s, env) == BeforeWrite(Step(s, env), env)
  {
    hide Step;
    StepDescends(s, env);
  }
}
