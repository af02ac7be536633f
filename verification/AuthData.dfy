/** Message identifiers, sequence numbers and the salt cache (td/mtproto/AuthData). */
module AuthData {
  import opened Bytes

  // ---------------------------------------------------------------- salt cache

  datatype ServerSalt = ServerSalt(salt: int, validSince: real, validUntil: real)

  /** `current` is the salt in use; `future` is ordered by decreasing `validSince`, so that the next
      salt to become valid is at the back. */
  datatype SaltCache = SaltCache(current: ServerSalt, future: seq<ServerSalt>)

  ghost predicate SortedDown(s: seq<ServerSalt>) {
    forall i, j :: 0 <= i < j < |s| ==> s[i].validSince >= s[j].validSince
  }

  function Insert(x: ServerSalt, s: seq<ServerSalt>): seq<ServerSalt> {
    if s == [] || x.validSince >= s[0].validSince then [x] + s else [s[0]] + Insert(x, s[1..])
  }

  /** One of the results std::sort may give with the comparator `a.valid_since > b.valid_since`. */
  function SortDown(s: seq<ServerSalt>): seq<ServerSalt> {
    if s == [] then [] else Insert(s[0], SortDown(s[1..]))
  }

  lemma {:induction false} InsertKeeps(x: ServerSalt, s: seq<ServerSalt>)
    ensures multiset(Insert(x, s)) == multiset{x} + multiset(s)
  {
    if s == [] || x.validSince >= s[0].validSince {
    } else {
      assert s == [s[0]] + s[1..];
      InsertKeeps(x, s[1..]);
    }
  }

  lemma ConsSorted(x: ServerSalt, s: seq<ServerSalt>)
    requires SortedDown(s)
    requires forall y :: y in s ==> x.validSince >= y.validSince
    ensures SortedDown([x] + s)
  {
    var t := [x] + s;
    forall i, j | 0 <= i < j < |t| ensures t[i].validSince >= t[j].validSince {
      assert t[j] == s[j - 1];
      if i > 0 { assert t[i] == s[i - 1]; }
    }
  }

  lemma {:induction false} InsertSorts(x: ServerSalt, s: seq<ServerSalt>)
    requires SortedDown(s)
    ensures SortedDown(Insert(x, s))
  {
    if s == [] || x.validSince >= s[0].validSince {
      ConsSorted(x, s);
    } else {
      InsertSorts(x, s[1..]);
      InsertKeeps(x, s[1..]);
      forall y | y in Insert(x, s[1..]) ensures s[0].validSince >= y.validSince {
        assert y in multiset(Insert(x, s[1..]));
      }
      ConsSorted(s[0], Insert(x, s[1..]));
    }
  }

  lemma {:induction false} SortDownSorts(s: seq<ServerSalt>)
    ensures SortedDown(SortDown(s)) && multiset(SortDown(s)) == multiset(s)
  {
    if s == [] {
    } else {
      assert s == [s[0]] + s[1..];
      SortDownSorts(s[1..]);
      InsertSorts(s[0], SortDown(s[1..]));
      InsertKeeps(s[0], SortDown(s[1..]));
    }
  }

  /** Moves to the current place every future salt that became valid before `serverTime`. */
  function UpdateSalt(c: SaltCache, serverTime: real): (r: SaltCache)
    ensures |r.future| <= |c.future| && r.future == c.future[..|r.future|]
    ensures r.future == [] || r.future[|r.future| - 1].validSince >= serverTime
    decreases |c.future|
  {
    var n := |c.future|;
    if n > 0 && c.future[n - 1].validSince < serverTime then
      UpdateSalt(SaltCache(c.future[n - 1], c.future[..n - 1]), serverTime)
    else
      c
  }

  lemma UpdateStep(c: SaltCache, t: real)
    ensures var n := |c.future|;
            UpdateSalt(c, t) == if n > 0 && c.future[n - 1].validSince < t
                                then UpdateSalt(SaltCache(c.future[n - 1], c.future[..n - 1]), t) else c
  {}

  function Lookups(c: SaltCache, times: seq<real>): SaltCache {
    if times == [] then c
    else UpdateSalt(Lookups(c, times[..|times| - 1]), times[|times| - 1])
  }

  ghost predicate IsLatest(t: real, times: seq<real>) {
    t in times && forall x :: x in times ==> x <= t
  }

  /** The first `k` salts are still in the future at time `t` and the others are not. */
  ghost predicate SplitsAt(s: seq<ServerSalt>, k: nat, t: real) {
    k <= |s| &&
    (forall i :: 0 <= i < k ==> s[i].validSince >= t) &&
    (forall i :: k <= i < |s| ==> s[i].validSince < t)
  }

  lemma {:induction false} UpdateSaltSplits(c: SaltCache, t: real)
    requires SortedDown(c.future)
    ensures var r := UpdateSalt(c, t);
            SplitsAt(c.future, |r.future|, t) &&
            r.current == (if |r.future| < |c.future| then c.future[|r.future|] else c.current)
    decreases |c.future|
  {
    var n := |c.future|;
    if n > 0 && c.future[n - 1].validSince < t {
      var d := SaltCache(c.future[n - 1], c.future[..n - 1]);
      assert UpdateSalt(c, t) == UpdateSalt(d, t);
      PrefixSorted(c.future, n - 1);
      UpdateSaltSplits(d, t);
      hide *;
      SplitsOneMore(c.future, |UpdateSalt(d, t).future|, t);
    } else {
      assert UpdateSalt(c, t) == c;
      AllInTheFuture(c.future, t);
    }
    hide *;
  }

  lemma SplitsOneMore(s: seq<ServerSalt>, k: nat, t: real)
    requires s != [] && SplitsAt(s[..|s| - 1], k, t) && s[|s| - 1].validSince < t
    ensures SplitsAt(s, k, t) && s[k] == if k < |s| - 1 then s[..|s| - 1][k] else s[|s| - 1]
  {
    forall i | 0 <= i < |s| - 1 ensures s[i] == s[..|s| - 1][i] {}
  }

  lemma AllInTheFuture(s: seq<ServerSalt>, t: real)
    requires SortedDown(s) && (s == [] || s[|s| - 1].validSince >= t)
    ensures SplitsAt(s, |s|, t)
  {}

  /** After any lookups the current salt is the one with the greatest `validSince` below the largest
      server time seen, or the original one if none qualifies; what remains is not yet due. */
  lemma {:induction false} LookupsPickLatestDue(c: SaltCache, times: seq<real>, latest: real)
    requires SortedDown(c.future) && IsLatest(latest, times)
    ensures var r := Lookups(c, times);
            SplitsAt(c.future, |r.future|, latest) && r.future == c.future[..|r.future|] &&
            SortedDown(r.future) &&
            if |r.future| == |c.future| then r.current == c.current
            else r.current in c.future && r.current.validSince < latest &&
                 forall s :: s in c.future && s.validSince < latest ==> s.validSince <= r.current.validSince
  {
    LookupsSplit(c, times, latest);
    var r := Lookups(c, times);
    if |r.future| < |c.future| {
      assert r.current == c.future[|r.future|];
    }
  }

  lemma {:induction false} LookupsSplit(c: SaltCache, times: seq<real>, latest: real)
    requires SortedDown(c.future) && IsLatest(latest, times)
    ensures var r := Lookups(c, times);
            |r.future| <= |c.future| && SplitsAt(c.future, |r.future|, latest) &&
            r.future == c.future[..|r.future|] &&
            r.current == (if |r.future| < |c.future| then c.future[|r.future|] else c.current)
  {
    hide SplitsAt;
    hide SortedDown;
    hide UpdateSalt;
    var n := |times|;
    var init, t := times[..n - 1], times[n - 1];
    assert times == init + [t];
    var p := Lookups(c, init);
    if init == [] {
      UpdateSaltSplits(c, t);
    } else {
      var before := Greatest(init);
      LookupsSplit(c, init, before);
      assert before in times && t in times;
      PrefixSorted(c.future, |p.future|);
      UpdateSaltSplits(p, t);
      var r := UpdateSalt(p, t);
      SplitsCompose(c.future, |p.future|, before, |r.future|, t, latest);
      assert r.future == c.future[..|p.future|][..|r.future|] == c.future[..|r.future|];
    }
  }

  lemma PrefixSorted(s: seq<ServerSalt>, k: nat)
    requires SortedDown(s) && k <= |s|
    ensures SortedDown(s[..k])
  {}

  lemma SplitsCompose(s: seq<ServerSalt>, k: nat, before: real, j: nat, t: real, latest: real)
    requires SplitsAt(s, k, before) && SplitsAt(s[..k], j, t)
    requires (latest == before || latest == t) && before <= latest && t <= latest
    ensures SplitsAt(s, j, latest)
  {
    forall i | 0 <= i < k ensures s[..k][i] == s[i] {}
    forall i | j <= i < |s| ensures s[i].validSince < latest {
      if i < k { assert s[..k][i].validSince < t; }
    }
    forall i | 0 <= i < j ensures s[i].validSince >= latest {
      assert s[..k][i].validSince >= t;
    }
  }

  ghost function Greatest(times: seq<real>): (t: real)
    requires times != []
    ensures IsLatest(t, times)
  {
    var n := |times|;
    assert times == times[..n - 1] + [times[n - 1]];
    if n == 1 then times[0]
    else
      var g := Greatest(times[..n - 1]);
      if g < times[n - 1] then times[n - 1] else g
  }

  lemma {:induction false} UpdateSaltIdempotent(c: SaltCache, t: real)
    ensures UpdateSalt(UpdateSalt(c, t), t) == UpdateSalt(c, t)
    decreases |c.future|
  {
    var n := |c.future|;
    if n > 0 && c.future[n - 1].validSince < t {
      UpdateSaltIdempotent(SaltCache(c.future[n - 1], c.future[..n - 1]), t);
    }
  }

  // ------------------------------------------------- identifiers and sequence numbers

  /** One 32-bit random value per draw. */
  type Entropy = nat -> uint32

  /** What a message was given when it was created. */
  datatype Minted = Minted(id: int, seqNo: int, content: bool)

  datatype Auth = Auth(
    usePfs: bool, mainKey: bool, tmpKey: bool, tmpExpiresAt: real,
    timeDifference: real, salts: SaltCache,
    lastMessageId: int, seqNo: int, draws: nat, minted: seq<Minted>)
  {
    function ServerTime(now: real): real { timeDifference + now }

    predicate HasAuthKey(now: real) {
      if usePfs then tmpKey && now <= tmpExpiresAt - 3600.0 else mainKey
    }

    predicate IsServerSaltValid(now: real) {
      salts.current.validUntil > ServerTime(now) + 60.0
    }

    /** The state after any of the accessors that refresh the salt. */
    function Refreshed(now: real): Auth {
      this.(salts := UpdateSalt(salts, ServerTime(now)))
    }

    predicate HasSalt(now: real) { Refreshed(now).IsServerSaltValid(now) }

    predicate NeedFutureSalts(now: real) {
      Refreshed(now).salts.future == [] || !HasSalt(now)
    }

    predicate IsValidOutbound(id: int, now: real) {
      var idTime := id as real / 4294967296.0;
      ServerTime(now) - 150.0 < idTime < ServerTime(now) + 30.0
    }
  }

  const TWO22: int := 0x40_0000

  /** C++ conversion of a double to an integer: truncation towards zero. */
  function Trunc(x: real): int {
    if x >= 0.0 then x.Floor else -((-x).Floor)
  }

  function Clock(a: Auth, now: real): int {
    Trunc(a.ServerTime(now) * 4294967296.0)
  }

  /** `t` with its 22 low bits xored, rounded down to a multiple of 4 (two's complement). */
  function ClockId(t: int, rx: uint32): int {
    (t / TWO22 * TWO22 + Xor(t % TWO22, rx % TWO22, 22)) / 4 * 4
  }

  /** The clock-derived identifier, or a random step when that would not increase. */
  function PickId(last: int, t: int, rx: uint32): int {
    var id := ClockId(t, rx);
    if last >= id then last + 8 * (rx / TWO22 % 1024 + 1) else id
  }

  function NextId(a: Auth, now: real, rx: uint32): int {
    PickId(a.lastMessageId, Clock(a, now), rx)
  }

  function DrawId(a: Auth, now: real, e: Entropy): Auth {
    a.(lastMessageId := NextId(a, now, e(a.draws)), draws := a.draws + 1)
  }

  /** `seq_no_ | 1` for content-related messages. */
  function SeqNoFor(seqNo: int, content: bool): int {
    if content && seqNo % 2 == 0 then seqNo + 1 else seqNo
  }

  function TakeSeqNo(a: Auth, content: bool): Auth {
    a.(seqNo := if content then a.seqNo + 2 else a.seqNo,
       minted := a.minted + [Minted(a.lastMessageId, SeqNoFor(a.seqNo, content), content)])
  }

  /** A new message draws an identifier and then a sequence number. */
  function Mint(a: Auth, now: real, e: Entropy, content: bool): Auth {
    TakeSeqNo(DrawId(a, now, e), content)
  }

  function Contents(s: seq<Minted>): nat {
    if s == [] then 0
    else Contents(s[..|s| - 1]) + if s[|s| - 1].content then 1 else 0
  }

  /** The MTProto rules for identifiers and sequence numbers, over the whole history. */
  ghost predicate Disciplined(s: seq<Minted>) {
    (forall i :: 0 <= i < |s| ==> s[i].id > 0 && s[i].id % 4 == 0) &&
    (forall i, j :: 0 <= i < j < |s| ==> s[i].id < s[j].id) &&
    SeqNosOk(s)
  }

  /** Twice the number of earlier content-related messages, plus one for such a message itself. */
  ghost predicate SeqNosOk(s: seq<Minted>) {
    forall i :: 0 <= i < |s| ==> s[i].seqNo == 2 * Contents(s[..i]) + if s[i].content then 1 else 0
  }

  ghost predicate AuthOk(a: Auth) {
    Disciplined(a.minted) &&
    a.lastMessageId >= 0 && a.lastMessageId % 4 == 0 &&
    (forall i :: 0 <= i < |a.minted| ==> a.minted[i].id <= a.lastMessageId) &&
    a.seqNo == 2 * Contents(a.minted)
  }

  /** A clock-derived identifier is within 2^22 of the clock; the fallback adds at most 8192. */
  lemma PickIdIsNearClock(last: int, t: int, rx: uint32)
    requires last % 4 == 0
    ensures var id := PickId(last, t, rx);
            id > last && id % 4 == 0 &&
            if ClockId(t, rx) > last then t - TWO22 < id < t + TWO22 else last + 8 <= id <= last + 8192
  {
    hide ClockId;
    ClockIdIsNear(t, rx);
    var step := rx / TWO22 % 1024;
    assert 0 <= step < 1024;
    assert last + 8 * (step + 1) == 4 * (last / 4 + 2 * (step + 1));
  }

  lemma ClockIdIsNear(t: int, rx: uint32)
    ensures t - TWO22 < ClockId(t, rx) < t + TWO22 && ClockId(t, rx) % 4 == 0
  {
    hide Xor;
    hide Pow2;
    LowBitsBound();
    RoundedDown(t, Xor(t % TWO22, rx % TWO22, 22));
  }

  lemma LowBitsBound()
    ensures Pow2(22) == TWO22
  {
    assert Pow2(2) == 4 && Pow2(4) == 4 * Pow2(2) && Pow2(6) == 4 * Pow2(4) && Pow2(8) == 4 * Pow2(6);
    assert Pow2(10) == 4 * Pow2(8) && Pow2(12) == 4 * Pow2(10) && Pow2(14) == 4 * Pow2(12);
    assert Pow2(16) == 4 * Pow2(14) && Pow2(18) == 4 * Pow2(16) && Pow2(20) == 4 * Pow2(18);
  }

  lemma RoundedDown(t: int, x: int)
    requires 0 <= x < TWO22
    ensures t - TWO22 < (t / TWO22 * TWO22 + x) / 4 * 4 < t + TWO22
    ensures (t / TWO22 * TWO22 + x) / 4 * 4 % 4 == 0
  {
    var q := t / TWO22;
    var y := q * TWO22 + x;
    assert y == 4 * (0x10_0000 * q) + x;
    assert y / 4 >= 0x10_0000 * q;
  }

  lemma DrawKeepsAuthOk(a: Auth, now: real, e: Entropy)
    requires AuthOk(a)
    ensures AuthOk(DrawId(a, now, e)) && DrawId(a, now, e).lastMessageId > a.lastMessageId
    ensures DrawId(a, now, e).minted == a.minted
  {
    PickIdIsNearClock(a.lastMessageId, Clock(a, now), e(a.draws));
  }

  /** Every minted message extends a disciplined history. */
  lemma MintKeepsAuthOk(a: Auth, now: real, e: Entropy, content: bool)
    requires AuthOk(a)
    ensures var b := Mint(a, now, e, content);
            AuthOk(b) && b.lastMessageId > a.lastMessageId && a.minted == b.minted[..|a.minted|]
  {
    DrawKeepsAuthOk(a, now, e);
    TakeSeqNoKeepsAuthOk(DrawId(a, now, e), content);
  }

  lemma TakeSeqNoKeepsAuthOk(a: Auth, content: bool)
    requires AuthOk(a) && a.lastMessageId > 0
    requires forall i :: 0 <= i < |a.minted| ==> a.minted[i].id < a.lastMessageId
    ensures AuthOk(TakeSeqNo(a, content)) && a.minted == TakeSeqNo(a, content).minted[..|a.minted|]
  {
    AppendDisciplined(a.minted, Minted(a.lastMessageId, SeqNoFor(a.seqNo, content), content));
    assert a.minted == TakeSeqNo(a, content).minted[..|a.minted|];
  }

  lemma AppendDisciplined(s: seq<Minted>, m: Minted)
    requires Disciplined(s) && m.id > 0 && m.id % 4 == 0
    requires forall i :: 0 <= i < |s| ==> s[i].id < m.id
    requires m.seqNo == 2 * Contents(s) + if m.content then 1 else 0
    ensures Disciplined(s + [m])
    ensures Contents(s + [m]) == Contents(s) + if m.content then 1 else 0
  {
    var r := s + [m];
    assert r[..|r| - 1] == s;
    SeqNosAppend(s, m);
  }

  lemma SeqNosAppend(s: seq<Minted>, m: Minted)
    requires SeqNosOk(s) && m.seqNo == 2 * Contents(s) + if m.content then 1 else 0
    ensures SeqNosOk(s + [m])
  {
    var r := s + [m];
    forall i | 0 <= i < |r| ensures r[i].seqNo == 2 * Contents(r[..i]) + if r[i].content then 1 else 0 {
      if i < |s| {
        assert r[..i] == s[..i] && r[i] == s[i];
      } else {
        assert r[..i] == s;
      }
    }
  }

  // ---------------------------------------------------------------- the object

  class AuthDataObject {
    var usePfs: bool
    var mainKey: bool
    var tmpKey: bool
    var tmpExpiresAt: real
    var timeDifference: real
    var serverSalt: ServerSalt
    var futureSalts: seq<ServerSalt>
    var lastMessageId: int
    var seqNo: int
    var draws: nat
    ghost var minted: seq<Minted>

    ghost function View(): Auth
      reads this
    {
      Auth(usePfs, mainKey, tmpKey, tmpExpiresAt, timeDifference, SaltCache(serverSalt, futureSalts),
           lastMessageId, seqNo, draws, minted)
    }

    constructor (salt: int)
      ensures AuthOk(View())
      ensures View().salts == SaltCache(ServerSalt(salt, -10000000000.0, -10000000000.0), [])
    {
      usePfs, mainKey, tmpKey, tmpExpiresAt := true, false, false, 0.0;
      timeDifference := 0.0;
      serverSalt, futureSalts := ServerSalt(salt, -10000000000.0, -10000000000.0), [];
      lastMessageId, seqNo, draws := 0, 0, 0;
      minted := [];
    }

    method RefreshSalt(now: real)
      modifies this
      ensures View() == old(View()).Refreshed(now)
    {
      hide UpdateSalt;
      var serverTime := timeDifference + now;
      while futureSalts != [] && futureSalts[|futureSalts| - 1].validSince < serverTime
        invariant UpdateSalt(SaltCache(serverSalt, futureSalts), serverTime) ==
                  UpdateSalt(SaltCache(old(serverSalt), old(futureSalts)), serverTime)
        invariant View() == old(View()).(salts := SaltCache(serverSalt, futureSalts))
        decreases |futureSalts|
      {
        UpdateStep(SaltCache(serverSalt, futureSalts), serverTime);
        serverSalt := futureSalts[|futureSalts| - 1];
        futureSalts := futureSalts[..|futureSalts| - 1];
      }
      UpdateStep(SaltCache(serverSalt, futureSalts), serverTime);
    }

    method HasSalt(now: real) returns (valid: bool)
      modifies this
      ensures View() == old(View()).Refreshed(now)
      ensures valid == old(View()).HasSalt(now)
    {
      RefreshSalt(now);
      valid := serverSalt.validUntil > timeDifference + now + 60.0;
    }

    method NeedFutureSalts(now: real) returns (need: bool)
      modifies this
      ensures View() == old(View()).Refreshed(now)
      ensures need == old(View()).NeedFutureSalts(now)
    {
      var valid := HasSalt(now);
      need := futureSalts == [] || !valid;
    }

    method SetServerSalt(salt: int, now: real)
      modifies this
      ensures View() == old(View()).(salts := InstalledSalt(old(View()), salt, now))
    {
      var serverTime := timeDifference + now;
      serverSalt := ServerSalt(salt, serverTime, serverTime + 600.0);
      futureSalts := [];
    }

    method SetFutureSalts(salts: seq<ServerSalt>, now: real)
      modifies this
      ensures View() == old(View()).(salts := InstalledSalts(old(View()), salts, now))
    {
      if salts == [] {
        return;
      }
      futureSalts := SortDown(salts);
      RefreshSalt(now);
    }

    method NextMessageId(now: real, e: Entropy) returns (id: int)
      modifies this
      ensures View() == DrawId(old(View()), now, e)
      ensures id == View().lastMessageId
    {
      var t := Trunc((timeDifference + now) * 4294967296.0);
      var rx := e(draws);
      var result := ClockId(t, rx);
      if lastMessageId >= result {
        result := lastMessageId + 8 * (rx / TWO22 % 1024 + 1);
      }
      lastMessageId, draws := result, draws + 1;
      id := result;
    }

    method NextSeqNo(content: bool) returns (no: int)
      modifies this
      ensures View() == TakeSeqNo(old(View()), content)
      ensures no == SeqNoFor(old(seqNo), content)
    {
      no := SeqNoFor(seqNo, content);
      if content {
        seqNo := seqNo + 2;
      }
      minted := minted + [Minted(lastMessageId, no, content)];
    }
  }

  /** The caches left by set_server_salt and set_future_salts. */
  function InstalledSalt(a: Auth, salt: int, now: real): SaltCache {
    SaltCache(ServerSalt(salt, a.ServerTime(now), a.ServerTime(now) + 600.0), [])
  }

  function InstalledSalts(a: Auth, salts: seq<ServerSalt>, now: real): SaltCache {
    if salts == [] then a.salts
    else UpdateSalt(SaltCache(a.salts.current, SortDown(salts)), a.ServerTime(now))
  }

  /** The current salt is the latest of `salts` that is due at time `t`, or `before` if none is; what remains is not
      yet due. */
  ghost predicate HoldsLatestDue(r: SaltCache, before: ServerSalt, salts: seq<ServerSalt>, t: real) {
    SortedDown(r.future) && (forall s :: s in r.future <==> s in salts && s.validSince >= t) &&
    if exists s :: s in salts && s.validSince < t then
      r.current in salts && r.current.validSince < t &&
      forall s :: s in salts && s.validSince < t ==> s.validSince <= r.current.validSince
    else r.current == before
  }

  /** Installing a list leaves the greatest due salt current, whatever order the list came in. */
  lemma InstallPicksLatestDue(a: Auth, salts: seq<ServerSalt>, now: real)
    requires salts != []
    ensures HoldsLatestDue(InstalledSalts(a, salts, now), a.salts.current, salts, a.ServerTime(now))
  {
    hide Lookups;
    hide HoldsLatestDue;
    assert Lookups(InstalledSalts(a, salts, now), []) == InstalledSalts(a, salts, now) by { NoLookups(a, salts, now); }
    var t := a.ServerTime(now);
    assert [t] + [] == [t] && IsLatest(t, [t]);
    InstalledThenLookedUp(a, salts, now, [], t);
  }

  /** Installing a list in any order and then any lookups leave the salt current that is the latest due at the largest
      server time seen. */
  lemma InstalledThenLookedUp(a: Auth, salts: seq<ServerSalt>, now: real, times: seq<real>, latest: real)
    requires salts != [] && IsLatest(latest, [a.ServerTime(now)] + times)
    ensures HoldsLatestDue(Lookups(InstalledSalts(a, salts, now), times), a.salts.current, salts, latest)
  {
    hide SortDown;
    hide UpdateSalt;
    hide Lookups;
    hide IsLatest;
    var c, t := SaltCache(a.salts.current, SortDown(salts)), a.ServerTime(now);
    SortDownSorts(salts);
    SameSalts(salts);
    LatestDue(c, [t] + times, latest);
    EarlierLookup(c, t, times);
  }

  lemma NoLookups(a: Auth, salts: seq<ServerSalt>, now: real)
    ensures Lookups(InstalledSalts(a, salts, now), []) == InstalledSalts(a, salts, now)
  {}

  /** Installing makes the first lookup. */
  lemma {:induction false} EarlierLookup(c: SaltCache, t: real, times: seq<real>)
    ensures Lookups(UpdateSalt(c, t), times) == Lookups(c, [t] + times)
    decreases |times|
  {
    hide UpdateSalt;
    var all := [t] + times;
    if times == [] {
      assert all[..0] == [] && all[0] == t && |all| == 1;
    } else {
      var n := |times| - 1;
      EarlierLookup(c, t, times[..n]);
      assert all[..n + 1] == [t] + times[..n];
    }
  }

  lemma SameSalts(salts: seq<ServerSalt>)
    ensures forall s :: s in SortDown(salts) <==> s in salts
  {
    hide SortDown;
    SortDownSorts(salts);
    forall s ensures s in SortDown(salts) <==> s in salts {
      assert s in multiset(SortDown(salts)) <==> s in multiset(salts);
    }
  }

  /** Lookups in a sorted list. */
  lemma LatestDue(c: SaltCache, times: seq<real>, latest: real)
    requires SortedDown(c.future) && IsLatest(latest, times)
    ensures HoldsLatestDue(Lookups(c, times), c.current, c.future, latest)
  {
    hide Lookups;
    hide IsLatest;
    LookupsPickLatestDue(c, times, latest);
    var r := Lookups(c, times);
    assert forall s :: s in r.future ==> s in c.future;
  }
}
