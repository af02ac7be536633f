/** Building the outgoing packet (td/mtproto/CryptoStorer.h). */
module CryptoStorer {
  import opened Bytes
  import opened AuthData

  datatype Query = Query(messageId: int, seqNo: int, packet: seq<byte>, gzipFlag: bool,
                         invokeAfterId: int, useQuickAck: bool)

  datatype Payload =
    | QueryData(query: Query)
    | Ack(ids: seq<int>)
    | Ping(pingId: int, timeout: int)
    | HttpWait(maxDelay: int, maxAfter: int, maxWait: int)
    | GetFutureSalts(n: int)
    | StateRequest(ids: seq<int>)
    | ResendRequest(ids: seq<int>)
    | DropAnswer(requestId: int)
    | DestroyKey

  datatype Message = Message(id: int, seqNo: int, payload: Payload)

  datatype Packet =
    | Single(message: Message)
    | Container(id: int, seqNo: int, messages: seq<Message>)
  {
    function Messages(): seq<Message> {
      if Single? then [message] else messages
    }
  }

  /** The constructor arguments of CryptoImpl. */
  datatype Parts = Parts(
    queries: seq<Query>, toAck: seq<int>, pingId: int, pingTimeout: int,
    maxDelay: int, maxAfter: int, maxWait: int, futureSaltN: int,
    getInfo: seq<int>, resend: seq<int>, cancel: seq<int>, destroyKey: bool)
  {
    predicate Empty() {
      queries == [] && toAck == [] && pingId == 0 && maxDelay < 0 && futureSaltN <= 0 &&
      getInfo == [] && resend == [] && cancel == [] && !destroyKey
    }
  }

  /** A service message to create: what it carries and whether it is content-related. */
  datatype Item = Item(payload: Payload, needAck: bool)

  function Opt(present: bool, payload: Payload, needAck: bool): seq<Item> {
    if present then [Item(payload, needAck)] else []
  }

  function CancelItems(ids: seq<int>): (r: seq<Item>)
    ensures |r| == |ids|
  {
    seq(|ids|, i requires 0 <= i < |ids| => Item(DropAnswer(ids[i]), true))
  }

  /** Service messages in the order in which the members of CryptoImpl are constructed. */
  function BeforePing(p: Parts): seq<Item> { Opt(p.toAck != [], Ack(p.toAck), false) }
  function PingItem(p: Parts): seq<Item> { Opt(p.pingId != 0, Ping(p.pingId, p.pingTimeout), false) }
  function Polls(p: Parts): seq<Item> {
    Opt(p.maxDelay >= 0, HttpWait(p.maxDelay, p.maxAfter, p.maxWait), false) +
    Opt(p.futureSaltN > 0, GetFutureSalts(p.futureSaltN), false)
  }
  function InfoItem(p: Parts): seq<Item> { Opt(p.getInfo != [], StateRequest(p.getInfo), true) }
  function ResendItem(p: Parts): seq<Item> { Opt(p.resend != [], ResendRequest(p.resend), true) }
  function Rest(p: Parts): seq<Item> { CancelItems(p.cancel) + Opt(p.destroyKey, DestroyKey, true) }

  function Items(p: Parts): seq<Item> {
    BeforePing(p) + PingItem(p) + Polls(p) + InfoItem(p) + ResendItem(p) + Rest(p)
  }

  /** Where the messages that flush_packet needs back sit among the items. */
  function PingAt(p: Parts): nat { |BeforePing(p)| }
  function InfoAt(p: Parts): nat { |BeforePing(p)| + |PingItem(p)| + |Polls(p)| }
  function ResendAt(p: Parts): nat { InfoAt(p) + |InfoItem(p)| }

  function MintAll(a: Auth, items: seq<Item>, now: real, e: Entropy): (r: (seq<Message>, Auth))
    ensures |r.0| == |items|
  {
    if items == [] then ([], a)
    else
      var n := |items| - 1;
      var (ms, b) := MintAll(a, items[..n], now, e);
      var c := Mint(b, now, e, items[n].needAck);
      (ms + [Message(c.lastMessageId, SeqNoFor(b.seqNo, items[n].needAck), items[n].payload)], c)
  }

  function QueryMessages(qs: seq<Query>): (r: seq<Message>)
    ensures |r| == |qs|
  {
    seq(|qs|, i requires 0 <= i < |qs| => Message(qs[i].messageId, qs[i].seqNo, QueryData(qs[i])))
  }

  /** Storing order differs from construction order: the ping goes last. */
  function Arranged(p: Parts, ms: seq<Message>): (r: seq<Message>)
    requires |ms| == |Items(p)|
    ensures |r| == |ms|
  {
    if p.pingId == 0 then ms
    else ms[..PingAt(p)] + ms[PingAt(p) + 1..] + [ms[PingAt(p)]]
  }

  datatype Built = Built(packet: Packet, auth: Auth, containerId: int, getInfoId: int, resendId: int,
                         pingMessageId: int, parentId: int)

  predicate NeedsContainer(p: Parts, a: Auth, now: real) {
    |p.queries| + |Items(p)| > 1 || (p.queries != [] && !a.IsValidOutbound(p.queries[0].messageId, now))
  }

  function Build(p: Parts, a: Auth, now: real, e: Entropy): Built
    requires !p.Empty()
  {
    var (ms, b) := MintAll(a, Items(p), now, e);
    var messages := QueryMessages(p.queries) + Arranged(p, ms);
    var info := if p.getInfo != [] then ms[InfoAt(p)].id else 0;
    var resend := if p.resend != [] then ms[ResendAt(p)].id else 0;
    var ping := if p.pingId != 0 then ms[PingAt(p)].id else 0;
    if NeedsContainer(p, b, now) then
      var c := Mint(b, now, e, false);
      Built(Container(c.lastMessageId, SeqNoFor(b.seqNo, false), messages), c, c.lastMessageId, info, resend, ping,
            c.lastMessageId)
    else
      Built(Single(messages[0]), b, 0, info, resend, ping, messages[0].id)
  }

  // ------------------------------------------------------------ properties of Build

  ghost predicate Recorded(id: int, seqNo: int, a: Auth) {
    exists k :: 0 <= k < |a.minted| && a.minted[k].id == id && a.minted[k].seqNo == seqNo
  }

  /** `b` extends `a`'s history by `n` messages and keeps the identifier rules. */
  ghost predicate Extends(a: Auth, b: Auth, n: nat) {
    AuthOk(b) && b.lastMessageId >= a.lastMessageId &&
    |b.minted| == |a.minted| + n && b.minted[..|a.minted|] == a.minted
  }

  /** Message `m` of item `t` was created after `a` and is entry `k` of `b`'s history. */
  ghost predicate CreatedBetween(a: Auth, b: Auth, m: Message, t: Item, k: nat) {
    k < |b.minted| && m.payload == t.payload && a.lastMessageId < m.id <= b.lastMessageId &&
    b.minted[k] == Minted(m.id, m.seqNo, t.needAck)
  }

  lemma MintExtends(a: Auth, b: Auth, n: nat, now: real, e: Entropy, content: bool)
    requires Extends(a, b, n)
    ensures var c := Mint(b, now, e, content);
            Extends(a, c, n + 1) && c.lastMessageId > b.lastMessageId &&
            c.minted == b.minted + [Minted(c.lastMessageId, SeqNoFor(b.seqNo, content), content)]
  {
    hide AuthOk;
    hide PickId;
    MintKeepsAuthOk(b, now, e, content);
    var c := Mint(b, now, e, content);
    assert c.minted == b.minted + [Minted(c.lastMessageId, SeqNoFor(b.seqNo, content), content)];
    assert c.minted[..|a.minted|] == b.minted[..|a.minted|];
  }

  lemma {:induction false} MintAllExtends(a: Auth, items: seq<Item>, now: real, e: Entropy)
    requires AuthOk(a)
    ensures Extends(a, MintAll(a, items, now, e).1, |items|)
    ensures var (ms, b) := MintAll(a, items, now, e);
            forall i :: 0 <= i < |ms| ==> CreatedBetween(a, b, ms[i], items[i], |a.minted| + i)
  {
    hide AuthOk;
    hide Mint;
    if items == [] {
    } else {
      var n := |items| - 1;
      MintAllExtends(a, items[..n], now, e);
      var (ms, b) := MintAll(a, items[..n], now, e);
      MintExtends(a, b, n, now, e, items[n].needAck);
    }
  }

  lemma FirstOf(x: seq<Item>, y: seq<Item>, z: seq<Item>)
    ensures y != [] ==> (x + y + z)[|x|] == y[0]
  {}

  /** The positions at which flush_packet's service messages are found. */
  lemma ItemPositions(p: Parts)
    ensures p.pingId != 0 ==> PingAt(p) < |Items(p)| && Items(p)[PingAt(p)] == Item(Ping(p.pingId, p.pingTimeout), false)
    ensures p.getInfo != [] ==> InfoAt(p) < ResendAt(p) <= |Items(p)|
    ensures p.getInfo != [] ==> Items(p)[InfoAt(p)] == Item(StateRequest(p.getInfo), true)
    ensures p.resend != [] ==> ResendAt(p) < |Items(p)| && Items(p)[ResendAt(p)] == Item(ResendRequest(p.resend), true)
  {
    hide Polls;
    hide Rest;
    hide BeforePing;
    var a, g, w, i, r, t := BeforePing(p), PingItem(p), Polls(p), InfoItem(p), ResendItem(p), Rest(p);
    FirstOf(a, g, w + i + r + t);
    FirstOf(a + g + w, i, r + t);
    FirstOf(a + g + w + i, r, t);
    assert Items(p) == a + g + (w + i + r + t);
    assert Items(p) == a + g + w + i + (r + t);
  }

  lemma SomethingToSend(p: Parts)
    requires !p.Empty()
    ensures |p.queries| + |Items(p)| > 0
  {}

  /** The history grows by exactly the service messages and the container. */
  lemma BuildExtends(p: Parts, a: Auth, now: real, e: Entropy)
    requires !p.Empty() && AuthOk(a)
    ensures var r := Build(p, a, now, e); Extends(a, r.auth, |Items(p)| + if r.packet.Container? then 1 else 0)
    ensures var b := MintAll(a, Items(p), now, e).1;
            b.lastMessageId <= Build(p, a, now, e).auth.lastMessageId
  {
    hide Mint;
    hide MintAll;
    hide Items;
    hide Extends;
    hide Arranged;
    hide QueryMessages;
    MintAllExtends(a, Items(p), now, e);
    var (ms, b) := MintAll(a, Items(p), now, e);
    MintExtends(a, b, |Items(p)|, now, e, false);
  }

  /** The identifiers handed back are set exactly for what was asked, and are fresh and distinct. */
  lemma BuildIds(p: Parts, a: Auth, now: real, e: Entropy)
    requires !p.Empty() && AuthOk(a)
    ensures var r := Build(p, a, now, e);
            (p.getInfo != [] <==> r.getInfoId != 0) && (p.resend != [] <==> r.resendId != 0) &&
            (r.getInfoId != 0 ==> a.lastMessageId < r.getInfoId <= r.auth.lastMessageId) &&
            (r.resendId != 0 ==> a.lastMessageId < r.resendId <= r.auth.lastMessageId) &&
            (r.getInfoId != 0 && r.resendId != 0 ==> r.getInfoId < r.resendId) &&
            (r.containerId != 0 ==> a.lastMessageId < r.containerId <= r.auth.lastMessageId &&
                                    r.getInfoId < r.containerId && r.resendId < r.containerId)
  {
    hide Mint;
    hide MintAll;
    hide Items;
    hide InfoAt;
    hide ResendAt;
    hide Arranged;
    hide QueryMessages;
    MintAllExtends(a, Items(p), now, e);
    var (ms, b) := MintAll(a, Items(p), now, e);
    MintExtends(a, b, |Items(p)|, now, e, false);
    ItemPositions(p);
    if p.getInfo != [] { assert CreatedBetween(a, b, ms[InfoAt(p)], Items(p)[InfoAt(p)], |a.minted| + InfoAt(p)); }
    if p.resend != [] { assert CreatedBetween(a, b, ms[ResendAt(p)], Items(p)[ResendAt(p)], |a.minted| + ResendAt(p)); }
  }

  // ------------------------------------------------------------ what a packet carries

  function PayloadsOf(ms: seq<Message>): seq<Payload> {
    seq(|ms|, i requires 0 <= i < |ms| => ms[i].payload)
  }

  function ItemPayloads(ts: seq<Item>): seq<Payload> {
    seq(|ts|, i requires 0 <= i < |ts| => ts[i].payload)
  }

  /** The contributions of the payloads, in order. */
  function Collect<T>(ps: seq<Payload>, f: Payload -> seq<T>): seq<T> {
    if ps == [] then [] else Collect(ps[..|ps| - 1], f) + f(ps[|ps| - 1])
  }

  function QueryOf(p: Payload): seq<Query> { if p.QueryData? then [p.query] else [] }
  function AckIds(p: Payload): seq<int> { if p.Ack? then p.ids else [] }
  function CancelIds(p: Payload): seq<int> { if p.DropAnswer? then [p.requestId] else [] }

  lemma {:induction false} CollectConcat<T>(x: seq<Payload>, y: seq<Payload>, f: Payload -> seq<T>)
    ensures Collect(x + y, f) == Collect(x, f) + Collect(y, f)
    decreases |y|
  {
    if y == [] {
      assert x + y == x;
    } else {
      var n := |y| - 1;
      CollectConcat(x, y[..n], f);
      assert (x + y)[..|x| + n] == x + y[..n] && (x + y)[|x| + n] == y[n];
      assert Collect(x, f) + Collect(y[..n], f) + f(y[n]) == Collect(x, f) + (Collect(y[..n], f) + f(y[n]));
    }
  }

  lemma {:induction false} CollectNone<T>(ps: seq<Payload>, f: Payload -> seq<T>)
    requires forall i :: 0 <= i < |ps| ==> f(ps[i]) == []
    ensures Collect(ps, f) == []
    decreases |ps|
  {
    if ps == [] {
    } else {
      CollectNone(ps[..|ps| - 1], f);
    }
  }

  lemma {:induction false} CollectQueries(qs: seq<Query>)
    ensures Collect(PayloadsOf(QueryMessages(qs)), QueryOf) == qs
  {
    if qs == [] {
    } else {
      var n := |qs| - 1;
      CollectQueries(qs[..n]);
      assert PayloadsOf(QueryMessages(qs))[..n] == PayloadsOf(QueryMessages(qs[..n]));
    }
  }

  lemma {:induction false} CollectCancels(ids: seq<int>)
    ensures Collect(ItemPayloads(CancelItems(ids)), CancelIds) == ids
  {
    if ids == [] {
    } else {
      var n := |ids| - 1;
      CollectCancels(ids[..n]);
      assert ItemPayloads(CancelItems(ids))[..n] == ItemPayloads(CancelItems(ids[..n]));
    }
  }

  /** The service messages apart from acknowledgements and cancellations. */
  function Middle(p: Parts): seq<Item> { PingItem(p) + Polls(p) + InfoItem(p) + ResendItem(p) }

  lemma ItemsSplit(p: Parts)
    ensures ItemPayloads(Items(p)) ==
            ItemPayloads(BeforePing(p)) + ItemPayloads(Middle(p)) + ItemPayloads(CancelItems(p.cancel)) +
            ItemPayloads(Opt(p.destroyKey, DestroyKey, true))
  {
    hide Opt;
    hide CancelItems;
    var a, m, c, d := BeforePing(p), Middle(p), CancelItems(p.cancel), Opt(p.destroyKey, DestroyKey, true);
    assert Items(p) == a + m + c + d;
  }

  lemma CollectItems<T>(p: Parts, f: Payload -> seq<T>)
    ensures Collect(ItemPayloads(Items(p)), f) ==
            Collect(ItemPayloads(BeforePing(p)), f) + Collect(ItemPayloads(Middle(p)), f) +
            Collect(ItemPayloads(CancelItems(p.cancel)), f) +
            Collect(ItemPayloads(Opt(p.destroyKey, DestroyKey, true)), f)
  {
    hide Opt;
    hide CancelItems;
    hide Middle;
    hide BeforePing;
    hide Items;
    hide Collect;
    ItemsSplit(p);
    var a, m, c, d := ItemPayloads(BeforePing(p)), ItemPayloads(Middle(p)), ItemPayloads(CancelItems(p.cancel)),
                      ItemPayloads(Opt(p.destroyKey, DestroyKey, true));
    CollectConcat(a + m + c, d, f);
    CollectConcat(a + m, c, f);
    CollectConcat(a, m, f);
  }

  lemma MiddleCarriesNothing(p: Parts)
    ensures Collect(ItemPayloads(Middle(p)), QueryOf) == []
    ensures Collect(ItemPayloads(Middle(p)), AckIds) == []
    ensures Collect(ItemPayloads(Middle(p)), CancelIds) == []
  {
    hide Collect;
    var ps := ItemPayloads(Middle(p));
    forall i | 0 <= i < |ps| ensures QueryOf(ps[i]) == [] && AckIds(ps[i]) == [] && CancelIds(ps[i]) == [] {
      assert ps[i].Ping? || ps[i].HttpWait? || ps[i].GetFutureSalts? || ps[i].StateRequest? || ps[i].ResendRequest?;
    }
    CollectNone(ps, QueryOf);
    CollectNone(ps, AckIds);
    CollectNone(ps, CancelIds);
  }

  lemma ServiceCarries(p: Parts)
    ensures Collect(ItemPayloads(Items(p)), QueryOf) == []
    ensures Collect(ItemPayloads(Items(p)), AckIds) == p.toAck
    ensures Collect(ItemPayloads(Items(p)), CancelIds) == p.cancel
  {
    hide Middle;
    hide Items;
    CollectItems(p, QueryOf);
    CollectItems(p, AckIds);
    CollectItems(p, CancelIds);
    MiddleCarriesNothing(p);
    CollectCancels(p.cancel);
    CollectNone(ItemPayloads(CancelItems(p.cancel)), QueryOf);
    CollectNone(ItemPayloads(CancelItems(p.cancel)), AckIds);
  }

  /** Moving the ping to the end changes none of the collected contributions. */
  lemma ArrangedCarries<T>(p: Parts, ms: seq<Message>, f: Payload -> seq<T>)
    requires |ms| == |Items(p)|
    requires p.pingId != 0 ==> PingAt(p) < |ms| && f(ms[PingAt(p)].payload) == []
    ensures Collect(PayloadsOf(Arranged(p, ms)), f) == Collect(PayloadsOf(ms), f)
  {
    hide Items;
    hide BeforePing;
    if p.pingId != 0 {
      var k := PingAt(p);
      var x, g, y := PayloadsOf(ms[..k]), [ms[k].payload], PayloadsOf(ms[k + 1..]);
      assert PayloadsOf(ms) == x + g + y;
      assert PayloadsOf(Arranged(p, ms)) == x + y + g;
      CollectConcat(x + g, y, f);
      CollectConcat(x, g, f);
      CollectConcat(x + y, g, f);
      CollectConcat(x, y, f);
    }
  }

  lemma BuildMessages(p: Parts, a: Auth, now: real, e: Entropy)
    requires !p.Empty()
    ensures Build(p, a, now, e).packet.Messages() ==
            QueryMessages(p.queries) + Arranged(p, MintAll(a, Items(p), now, e).0)
  {
    hide Items;
    hide Arranged;
    hide QueryMessages;
    hide MintAll;
    hide Mint;
    SomethingToSend(p);
    var messages := QueryMessages(p.queries) + Arranged(p, MintAll(a, Items(p), now, e).0);
    assert |messages| == |p.queries| + |Items(p)|;
    if |messages| == 1 {
      assert messages == [messages[0]];
    }
  }

  /** The packet carries exactly the queries, acknowledgements and cancellations it was given, and
      `cnt_`, the number of queries, cancellations and other service messages, counts its messages. */
  lemma BuildCarries(p: Parts, a: Auth, now: real, e: Entropy)
    requires !p.Empty() && AuthOk(a)
    ensures var ms := Build(p, a, now, e).packet.Messages();
            |ms| == Count(p) && Collect(PayloadsOf(ms), QueryOf) == p.queries &&
            Collect(PayloadsOf(ms), AckIds) == p.toAck && Collect(PayloadsOf(ms), CancelIds) == p.cancel
  {
    hide *;
    BuildMessages(p, a, now, e);
    var ms := MintAll(a, Items(p), now, e).0;
    MintedPayloads(p, a, now, e);
    ServiceCarries(p);
    SplitCarries(p, ms, QueryOf);
    SplitCarries(p, ms, AckIds);
    SplitCarries(p, ms, CancelIds);
    QueriesCarry(p.queries);
    PayloadsConcat(QueryMessages(p.queries), Arranged(p, ms));
    CountIsNumber(p);
  }

  lemma PayloadsConcat(x: seq<Message>, y: seq<Message>)
    ensures PayloadsOf(x + y) == PayloadsOf(x) + PayloadsOf(y)
  {}

  lemma MintedPayloads(p: Parts, a: Auth, now: real, e: Entropy)
    requires AuthOk(a)
    ensures var ms := MintAll(a, Items(p), now, e).0;
            PayloadsOf(ms) == ItemPayloads(Items(p)) &&
            (p.pingId != 0 ==> PingAt(p) < |ms| &&
                               QueryOf(ms[PingAt(p)].payload) == [] &&
                               AckIds(ms[PingAt(p)].payload) == [] && CancelIds(ms[PingAt(p)].payload) == [])
  {
    hide AuthOk;
    hide Items;
    hide MintAll;
    hide PingAt;
    MintAllExtends(a, Items(p), now, e);
    var (ms, b) := MintAll(a, Items(p), now, e);
    forall i | 0 <= i < |ms| ensures ms[i].payload == Items(p)[i].payload {
      assert CreatedBetween(a, b, ms[i], Items(p)[i], |a.minted| + i);
    }
    ItemPositions(p);
  }

  lemma SplitCarries<T>(p: Parts, ms: seq<Message>, f: Payload -> seq<T>)
    requires |ms| == |Items(p)|
    requires p.pingId != 0 ==> PingAt(p) < |ms| && f(ms[PingAt(p)].payload) == []
    ensures Collect(PayloadsOf(QueryMessages(p.queries)) + PayloadsOf(Arranged(p, ms)), f) ==
            Collect(PayloadsOf(QueryMessages(p.queries)), f) + Collect(PayloadsOf(ms), f)
  {
    ArrangedCarries(p, ms, f);
    CollectConcat(PayloadsOf(QueryMessages(p.queries)), PayloadsOf(Arranged(p, ms)), f);
  }

  lemma QueriesCarry(qs: seq<Query>)
    ensures Collect(PayloadsOf(QueryMessages(qs)), QueryOf) == qs
    ensures Collect(PayloadsOf(QueryMessages(qs)), AckIds) == []
    ensures Collect(PayloadsOf(QueryMessages(qs)), CancelIds) == []
  {
    CollectQueries(qs);
    CollectNone(PayloadsOf(QueryMessages(qs)), AckIds);
    CollectNone(PayloadsOf(QueryMessages(qs)), CancelIds);
  }

  function B2I(b: bool): nat { if b then 1 else 0 }

  /** `cnt_` as CryptoImpl adds it up. */
  function Count(p: Parts): nat {
    |p.queries| + B2I(p.toAck != []) + B2I(p.pingId != 0) + B2I(p.maxDelay >= 0) + B2I(p.futureSaltN > 0) +
    B2I(p.getInfo != []) + B2I(p.resend != []) + |p.cancel| + B2I(p.destroyKey)
  }

  lemma CountIsNumber(p: Parts)
    ensures Count(p) == |p.queries| + |Items(p)|
    ensures Count(p) >= |p.queries| + |p.cancel|
  {}

  /** Every message of the packet is in the history; a container's identifier exceeds those of all its
      messages and its sequence number is at least theirs. */
  lemma ContainerDominates(p: Parts, a: Auth, now: real, e: Entropy, k: nat)
    requires !p.Empty() && AuthOk(a)
    requires forall q :: q in p.queries ==> Recorded(q.messageId, q.seqNo, a)
    requires k < |Build(p, a, now, e).packet.Messages()|
    ensures var r := Build(p, a, now, e);
            var m := r.packet.Messages()[k];
            Recorded(m.id, m.seqNo, r.auth) &&
            (r.packet.Container? ==> m.id < r.packet.id && m.seqNo <= r.packet.seqNo)
  {
    hide AuthOk;
    hide Items;
    hide MintAll;
    hide Mint;
    BuildMessages(p, a, now, e);
    MintAllExtends(a, Items(p), now, e);
    var (ms, b) := MintAll(a, Items(p), now, e);
    MintExtends(a, b, |Items(p)|, now, e, false);
    var c := Mint(b, now, e, false);
    var m := Build(p, a, now, e).packet.Messages()[k];
    assert Recorded(m.id, m.seqNo, b) by {
      if k < |p.queries| {
        assert p.queries[k] in p.queries;
        var i :| 0 <= i < |a.minted| && a.minted[i].id == m.id && a.minted[i].seqNo == m.seqNo;
        assert b.minted[..|a.minted|][i] == b.minted[i];
      } else {
        ArrangedFrom(p, ms, k - |p.queries|);
        var i :| 0 <= i < |ms| && ms[i] == m;
        assert CreatedBetween(a, b, ms[i], Items(p)[i], |a.minted| + i);
      }
    }
    RecordedBelow(m.id, m.seqNo, b);
    var i :| 0 <= i < |b.minted| && b.minted[i].id == m.id && b.minted[i].seqNo == m.seqNo;
    assert c.minted[i] == b.minted[i];
  }

  lemma ArrangedFrom(p: Parts, ms: seq<Message>, k: nat)
    requires |ms| == |Items(p)| && k < |ms|
    ensures exists i :: 0 <= i < |ms| && ms[i] == Arranged(p, ms)[k]
  {
    hide Items;
    ItemPositions(p);
    var at := PingAt(p);
    var i := if p.pingId == 0 || k < at then k else if k == |ms| - 1 then at else k + 1;
    assert ms[i] == Arranged(p, ms)[k];
  }

  lemma {:induction false} ContentsGrow(s: seq<Minted>, i: nat)
    requires i < |s|
    ensures Contents(s[..i]) + B2I(s[i].content) <= Contents(s)
    decreases |s|
  {
    var n := |s| - 1;
    if i < n {
      ContentsGrow(s[..n], i);
      assert s[..n][..i] == s[..i];
    }
  }

  lemma RecordedBelow(id: int, seqNo: int, a: Auth)
    requires AuthOk(a) && Recorded(id, seqNo, a)
    ensures id <= a.lastMessageId && seqNo <= SeqNoFor(a.seqNo, false)
  {
    hide Contents;
    var i :| 0 <= i < |a.minted| && a.minted[i].id == id && a.minted[i].seqNo == seqNo;
    ContentsGrow(a.minted, i);
  }

  // ------------------------------------------------------------ the constructors

  /** ObjectImpl: a present message draws its identifier and sequence number on construction. */
  method ObjectImpl(auth: AuthDataObject, notEmpty: bool, payload: Payload, needAck: bool, now: real, e: Entropy,
                    ghost a: Auth, ghost done: seq<Item>)
    returns (ms: seq<Message>)
    requires auth.View() == MintAll(a, done, now, e).1
    modifies auth
    ensures MintAll(a, done + Opt(notEmpty, payload, needAck), now, e) == (MintAll(a, done, now, e).0 + ms, auth.View())
  {
    hide MintAll;
    hide DrawId;
    hide TakeSeqNo;
    hide Mint;
    ghost var (ms0, b) := MintAll(a, done, now, e);
    if notEmpty {
      var id := auth.NextMessageId(now, e);
      var seqNo := auth.NextSeqNo(needAck);
      ms := [Message(id, seqNo, payload)];
      MintAllSnoc(a, done, Item(payload, needAck), now, e);
    } else {
      ms := [];
      assert done + [] == done && ms0 + [] == ms0;
    }
  }

  lemma MintAllSnoc(a: Auth, done: seq<Item>, t: Item, now: real, e: Entropy)
    ensures var (ms, b) := MintAll(a, done, now, e);
            var d := DrawId(b, now, e);
            d.seqNo == b.seqNo &&
            MintAll(a, done + [t], now, e) ==
            (ms + [Message(d.lastMessageId, SeqNoFor(d.seqNo, t.needAck), t.payload)], TakeSeqNo(d, t.needAck))
  {
    hide PickId;
    assert (done + [t])[..|done|] == done;
  }

  /** CancelVectorImpl: one rpc_drop_answer for each request. */
  method CancelVectorImpl(auth: AuthDataObject, cancel: seq<int>, now: real, e: Entropy,
                          ghost a: Auth, ghost done: seq<Item>)
    returns (ms: seq<Message>)
    requires auth.View() == MintAll(a, done, now, e).1
    modifies auth
    ensures MintAll(a, done + CancelItems(cancel), now, e) == (MintAll(a, done, now, e).0 + ms, auth.View())
  {
    hide MintAll;
    ms := [];
    assert done + CancelItems(cancel[..0]) == done;
    assert MintAll(a, done, now, e).0 + ms == MintAll(a, done, now, e).0;
    for i := 0 to |cancel|
      invariant MintAll(a, done + CancelItems(cancel[..i]), now, e) == (MintAll(a, done, now, e).0 + ms, auth.View())
    {
      var one := ObjectImpl(auth, true, DropAnswer(cancel[i]), true, now, e, a, done + CancelItems(cancel[..i]));
      assert MintAll(a, done, now, e).0 + (ms + one) == MintAll(a, done, now, e).0 + ms + one;
      ms := ms + one;
      assert done + CancelItems(cancel[..i + 1]) ==
             done + CancelItems(cancel[..i]) + Opt(true, DropAnswer(cancel[i]), true);
    }
    assert cancel[..|cancel|] == cancel;
  }

  /** CryptoImpl: creates the service messages, decides between a container and a single message, and
      reports the identifiers. The CHECKs and the UNREACHABLE of the source are the assertions. */
  method CryptoImpl(p: Parts, auth: AuthDataObject, now: real, e: Entropy)
    returns (packet: Packet, containerId: int, getInfoId: int, resendId: int, pingMessageId: int, parentId: int)
    requires !p.Empty()
    modifies auth
    ensures Build(p, old(auth.View()), now, e) ==
            Built(packet, auth.View(), containerId, getInfoId, resendId, pingMessageId, parentId)
  {
    hide MintAll;
    hide Items;
    hide Arranged;
    hide QueryMessages;
    hide Count;
    hide BeforePing;
    hide Polls;
    hide Rest;
    hide PingAt;
    hide InfoAt;
    hide ResendAt;
    hide DrawId;
    hide TakeSeqNo;
    ghost var a := auth.View();
    var ack, ping, polls, info, resend, rest := Services(p, auth, now, e);
    var queries := QueryMessages(p.queries);
    var messages := queries + (ack + polls + info + resend + rest + ping);
    ServicesArranged(p, MintAll(a, Items(p), now, e).0, ack, ping, polls, info, resend, rest);
    CountIsNumber(p);
    var cnt := Count(p);
    assert cnt == |messages|;
    assert cnt != 0 by { SomethingToSend(p); }
    getInfoId := if p.getInfo != [] then info[0].id else 0;
    resendId := if p.resend != [] then resend[0].id else 0;
    pingMessageId := if p.pingId != 0 then ping[0].id else 0;
    if cnt > 1 || (p.queries != [] && !IsValidOutboundId(auth, p.queries[0].messageId, now)) {
      ghost var b := auth.View();
      var id := auth.NextMessageId(now, e);
      var seqNo := auth.NextSeqNo(false);
      MintKeepsOrder(b, now, e, false);
      containerId, parentId := id, id;
      packet := Container(id, seqNo, messages);
    } else {
      var only := OnlyMessage(p, queries, ack, ping, polls, info, resend, rest);
      containerId, parentId := 0, only.id;
      packet := Single(only);
    }
  }

  /** The choice of the storer when there is a single message: the first kind that is present holds it, and it is
      the only message. */
  method OnlyMessage(p: Parts, queries: seq<Message>, ack: seq<Message>, ping: seq<Message>, polls: seq<Message>,
                     info: seq<Message>, resend: seq<Message>, rest: seq<Message>) returns (only: Message)
    requires !p.Empty() && |queries| == |p.queries| && |ack| == |BeforePing(p)| && |ping| == |PingItem(p)|
    requires |polls| == |Polls(p)| && |info| == |InfoItem(p)| && |resend| == |ResendItem(p)| && |rest| == |Rest(p)|
    requires |queries| + |ack| + |polls| + |info| + |resend| + |rest| + |ping| == 1
    ensures queries + (ack + polls + info + resend + rest + ping) == [only]
  {
    if p.queries != [] {
      assert |p.queries| == 1;
      only := queries[0];
    } else if p.toAck != [] {
      only := ack[0];
    } else if p.pingId != 0 {
      only := ping[0];
    } else if p.maxDelay >= 0 {
      only := polls[0];
    } else if p.futureSaltN > 0 {
      only := polls[0];
    } else if p.getInfo != [] {
      only := info[0];
    } else if p.resend != [] {
      only := resend[0];
    } else if p.cancel != [] {
      assert |p.cancel| == 1;
      only := rest[0];
    } else if p.destroyKey {
      only := rest[0];
    } else {
      assert false;
    }
  }

  lemma MintKeepsOrder(a: Auth, now: real, e: Entropy, content: bool)
    ensures var d := DrawId(a, now, e);
            d.seqNo == a.seqNo && TakeSeqNo(d, content).lastMessageId == d.lastMessageId
  {
    hide PickId;
  }

  predicate IsValidOutboundId(auth: AuthDataObject, id: int, now: real)
    reads auth
  {
    var idTime := id as real / 4294967296.0;
    auth.timeDifference + now - 150.0 < idTime < auth.timeDifference + now + 30.0
  }

  /** The member initialisers of CryptoImpl, in their order. */
  method Services(p: Parts, auth: AuthDataObject, now: real, e: Entropy)
    returns (ack: seq<Message>, ping: seq<Message>, polls: seq<Message>, info: seq<Message>, resend: seq<Message>,
             rest: seq<Message>)
    modifies auth
    ensures MintAll(old(auth.View()), Items(p), now, e) == (ack + ping + polls + info + resend + rest, auth.View())
    ensures |ack| == |BeforePing(p)| && |ping| == |PingItem(p)| && |polls| == |Polls(p)|
    ensures |info| == |InfoItem(p)| && |resend| == |ResendItem(p)| && |rest| == |Rest(p)|
    ensures |ack + ping + polls + info + resend + rest| == |Items(p)|
  {
    hide MintAll;
    hide BeforePing;
    hide PingItem;
    hide Polls;
    hide InfoItem;
    hide ResendItem;
    hide Rest;
    ghost var a := auth.View();
    ack, ping, polls := FirstServices(p, auth, now, e);
    info, resend, rest := LastServices(p, auth, now, e, a, BeforePing(p) + PingItem(p) + Polls(p));
    assert ack + ping + polls + (info + resend + rest) == ack + ping + polls + info + resend + rest;
    assert Items(p) == BeforePing(p) + PingItem(p) + Polls(p) + (InfoItem(p) + ResendItem(p) + Rest(p));
  }

  method FirstServices(p: Parts, auth: AuthDataObject, now: real, e: Entropy)
    returns (ack: seq<Message>, ping: seq<Message>, polls: seq<Message>)
    modifies auth
    ensures MintAll(old(auth.View()), BeforePing(p) + PingItem(p) + Polls(p), now, e) ==
            (ack + ping + polls, auth.View())
    ensures |ack| == |BeforePing(p)| && |ping| == |PingItem(p)| && |polls| == |Polls(p)|
  {
    hide MintAll;
    hide Opt;
    ghost var a := auth.View();
    MintAllNone(a, now, e);
    ack := ObjectImpl(auth, p.toAck != [], Ack(p.toAck), false, now, e, a, []);
    assert [] + BeforePing(p) == BeforePing(p) && [] + ack == ack;
    ping := ObjectImpl(auth, p.pingId != 0, Ping(p.pingId, p.pingTimeout), false, now, e, a, BeforePing(p));
    ghost var t := BeforePing(p) + PingItem(p);
    var wait := ObjectImpl(auth, p.maxDelay >= 0, HttpWait(p.maxDelay, p.maxAfter, p.maxWait), false, now, e, a, t);
    ghost var w := Opt(p.maxDelay >= 0, HttpWait(p.maxDelay, p.maxAfter, p.maxWait), false);
    var salts := ObjectImpl(auth, p.futureSaltN > 0, GetFutureSalts(p.futureSaltN), false, now, e, a, t + w);
    polls := wait + salts;
    assert t + w + Opt(p.futureSaltN > 0, GetFutureSalts(p.futureSaltN), false) == t + Polls(p);
    assert ack + ping + wait + salts == ack + ping + polls;
  }

  method LastServices(p: Parts, auth: AuthDataObject, now: real, e: Entropy, ghost a: Auth, ghost done: seq<Item>)
    returns (info: seq<Message>, resend: seq<Message>, rest: seq<Message>)
    requires auth.View() == MintAll(a, done, now, e).1
    modifies auth
    ensures MintAll(a, done + (InfoItem(p) + ResendItem(p) + Rest(p)), now, e) ==
            (MintAll(a, done, now, e).0 + (info + resend + rest), auth.View())
    ensures |info| == |InfoItem(p)| && |resend| == |ResendItem(p)| && |rest| == |Rest(p)|
  {
    hide MintAll;
    hide Opt;
    hide CancelItems;
    ghost var ms := MintAll(a, done, now, e).0;
    info := ObjectImpl(auth, p.getInfo != [], StateRequest(p.getInfo), true, now, e, a, done);
    ghost var t := done + InfoItem(p);
    resend := ObjectImpl(auth, p.resend != [], ResendRequest(p.resend), true, now, e, a, t);
    t := t + ResendItem(p);
    var cancels := CancelVectorImpl(auth, p.cancel, now, e, a, t);
    t := t + CancelItems(p.cancel);
    var destroy := ObjectImpl(auth, p.destroyKey, DestroyKey, true, now, e, a, t);
    rest := cancels + destroy;
    assert t + Opt(p.destroyKey, DestroyKey, true) == done + (InfoItem(p) + ResendItem(p) + Rest(p));
    assert ms + info + resend + cancels + destroy == ms + (info + resend + rest);
  }

  lemma MintAllNone(a: Auth, now: real, e: Entropy)
    ensures MintAll(a, [], now, e) == ([], a)
  {}

  /** Storing the parts in the concatenation order of CryptoImpl is arranging the created messages. */
  lemma ServicesArranged(p: Parts, ms: seq<Message>, ack: seq<Message>, ping: seq<Message>, polls: seq<Message>,
                         info: seq<Message>, resend: seq<Message>, rest: seq<Message>)
    requires ms == ack + ping + polls + info + resend + rest && |ms| == |Items(p)|
    requires |ack| == |BeforePing(p)| && |ping| == |PingItem(p)| && |polls| == |Polls(p)|
    requires |info| == |InfoItem(p)| && |resend| == |ResendItem(p)| && |rest| == |Rest(p)|
    ensures Arranged(p, ms) == ack + polls + info + resend + rest + ping
    ensures p.pingId != 0 ==> ms[PingAt(p)] == ping[0]
    ensures p.getInfo != [] ==> ms[InfoAt(p)] == info[0]
    ensures p.resend != [] ==> ms[ResendAt(p)] == resend[0]
  {
    hide Items;
    hide BeforePing;
    hide Polls;
    hide Rest;
    var tail := polls + info + resend + rest;
    assert ms == ack + ping + tail;
    if p.pingId != 0 {
      assert ms[..PingAt(p)] == ack && ms[PingAt(p) + 1..] == tail && [ms[PingAt(p)]] == ping;
    }
  }
}
