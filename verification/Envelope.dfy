/** The MTProto envelope: padding sizes, encryption in place and the checks on reading
    (td/mtproto/Transport.cpp). */
module Envelope {
  import opened Bytes

  /** CryptoHeader/CryptoPrefix and EndToEndHeader/EndToEndPrefix. */
  datatype Kind = Common | EndToEnd
  {
    function EncryptedHeaderSize(): nat { if Common? then 16 else 0 }
    function HeaderSize(): nat { 24 + EncryptedHeaderSize() }
    function PrefixSize(): nat { if Common? then 16 else 4 }
  }

  datatype Version = V1 | V2

  datatype Error =
    | TooSmall | KeyIdMismatch | TooSmallEncrypted | MessageKeyMismatch | NotDivisibleByFour | LengthTooBig
    | InvalidPadding | InvalidLength

  datatype Result<T> = Ok(value: T) | Err(error: Error)

  /** The primitives: message keys are hashes of the plain text, the cipher key is derived from the message key,
      and encryption is a length-preserving bijection on whole blocks for each key. */
  datatype Crypto = Crypto(
    keyId: seq<byte>,
    hash1: seq<byte> -> seq<byte>,
    hash2: (nat, seq<byte>) -> seq<byte>,
    kdf1: (seq<byte>, nat) -> seq<byte>,
    kdf2: (seq<byte>, nat) -> seq<byte>,
    encrypt: (seq<byte>, seq<byte>) -> seq<byte>,
    decrypt: (seq<byte>, seq<byte>) -> seq<byte>)
  {
    ghost predicate Sound() {
      |keyId| == 8 && (forall b :: |hash1(b)| == 16) && (forall x, b :: |hash2(x, b)| == 16) &&
      (forall k, b {:trigger encrypt(k, b)} :: |b| % 16 == 0 ==> |encrypt(k, b)| == |b| && decrypt(k, encrypt(k, b)) == b) &&
      (forall k, b {:trigger decrypt(k, b)} :: |b| % 16 == 0 ==> |decrypt(k, b)| == |b| && encrypt(k, decrypt(k, b)) == b)
    }
    function CipherKey(v: Version, messageKey: seq<byte>, x: nat): seq<byte> {
      if v.V1? then kdf1(messageKey, x) else kdf2(messageKey, x)
    }
  }

  // ------------------------------------------------------------ sizes

  function RoundUp(n: nat): (r: nat)
    ensures r % 16 == 0 && n <= r < n + 16
  {
    (n + 15) / 16 * 16
  }

  function Size1(k: Kind, n: nat): nat { 24 + RoundUp(k.EncryptedHeaderSize() + n) }

  const SIZES: seq<nat> := [64, 128, 192, 256, 384, 512, 768, 1024, 1280, 0]

  /** The smallest bucket that holds `e` bytes: the table, then steps of 448. */
  function Bucket(e: nat): nat {
    if e <= 64 then 64 else if e <= 128 then 128 else if e <= 192 then 192 else if e <= 256 then 256
    else if e <= 384 then 384 else if e <= 512 then 512 else if e <= 768 then 768 else if e <= 1024 then 1024
    else if e <= 1280 then 1280 else (e - 1280 + 447) / 448 * 448 + 1280
  }

  /** The size without a memo; `random` is Random::secure_uint32() & 0xff. */
  function Size2(k: Kind, n: nat, useRandom: bool, random: byte): nat {
    var e := k.EncryptedHeaderSize() + n;
    24 + if useRandom then RoundUp(e + random + 12) else Bucket(RoundUp(e + 12))
  }

  lemma BucketBounds(e: nat)
    requires e % 16 == 0
    ensures Bucket(e) % 16 == 0 && e <= Bucket(e) < e + 448
  {
    if e > 1280 {
      var q := (e - 1280 + 447) / 448;
      assert (28 * q + 80) * 16 == Bucket(e);
    }
  }

  /** The writer's padding always lies in the reader's range, with room for 15 more transport bytes. */
  lemma PaddingBounds(k: Kind, n: nat, useRandom: bool, random: byte)
    ensures var size := Size2(k, n, useRandom, random);
            (size - 24) % 16 == 0 && 12 <= size - (k.HeaderSize() + n) && size - (k.HeaderSize() + n) + 15 <= 1024
  {
    BucketBounds(RoundUp(k.EncryptedHeaderSize() + n + 12));
  }

  method CalcBasic(k: Kind, n: nat) returns (size: nat)
    ensures size == Size2(k, n, false, 0)
  {
    var encrypted := (k.EncryptedHeaderSize() + n + 12 + 15) / 16 * 16;
    for i := 0 to 10
      invariant forall j :: 0 <= j < i ==> encrypted > SIZES[j]
    {
      if encrypted <= SIZES[i] {
        size := 24 + SIZES[i];
        TableIsBucket(encrypted, i);
        return;
      }
    }
    assert encrypted > SIZES[8];
    size := 24 + ((encrypted - 1280 + 447) / 448 * 448 + 1280);
  }

  lemma TableIsBucket(e: nat, i: nat)
    requires i < 9 && 0 < e <= SIZES[i] && forall j :: 0 <= j < i ==> e > SIZES[j]
    ensures Bucket(e) == SIZES[i]
  {
    if i > 0 { assert e > SIZES[0]; }
    if i > 1 { assert e > SIZES[1]; }
    if i > 2 { assert e > SIZES[2]; }
    if i > 3 { assert e > SIZES[3]; }
    if i > 4 { assert e > SIZES[4]; }
    if i > 5 { assert e > SIZES[5]; }
    if i > 6 { assert e > SIZES[6]; }
    if i > 7 { assert e > SIZES[7]; }
  }

  class PacketInfo {
    const kind: Kind
    const version: Version
    const isCreator: bool
    const checkMod4: bool
    const useRandomPadding: bool
    var size: nat

    constructor (kind: Kind, version: Version, isCreator: bool, checkMod4: bool, useRandomPadding: bool)
      ensures this.kind == kind && this.version == version && this.isCreator == isCreator &&
              this.checkMod4 == checkMod4 && this.useRandomPadding == useRandomPadding && size == 0
    {
      this.kind, this.version, this.isCreator := kind, version, isCreator;
      this.checkMod4, this.useRandomPadding, size := checkMod4, useRandomPadding, 0;
    }

    /** The memo is empty or holds a size drawn for `n` bytes of data. */
    ghost predicate MemoFor(n: nat)
      reads this
    {
      size == 0 || exists random: byte :: size == Size2(kind, n, useRandomPadding, random)
    }

    /** The first call draws the size; every later call returns the same one, whatever is drawn then. */
    method CalcSize(n: nat, random: byte) returns (r: nat)
      requires MemoFor(n)
      modifies this
      ensures version.V1? ==> size == old(size) && r == Size1(kind, n)
      ensures version.V2? ==>
                MemoFor(n) && r == size != 0 &&
                size == if old(size) != 0 then old(size) else Size2(kind, n, useRandomPadding, random)
    {
      if version.V1? {
        return Size1(kind, n);
      }
      PaddingBounds(kind, n, useRandomPadding, random);
      if size == 0 {
        if useRandomPadding {
          size := 24 + (kind.EncryptedHeaderSize() + n + random + 12 + 15) / 16 * 16;
        } else {
          size := CalcBasic(kind, n);
        }
        assert size == Size2(kind, n, useRandomPadding, random);
      }
      r := size;
    }
  }

  // ------------------------------------------------------------ writing

  /** The text that is encrypted: the header's encrypted part, the data and the padding. */
  function Plain(head: seq<byte>, data: seq<byte>, pad: seq<byte>): seq<byte> { head + data + pad }

  function MessageKey(c: Crypto, v: Version, x: nat, head: seq<byte>, data: seq<byte>, pad: seq<byte>): seq<byte> {
    if v.V1? then c.hash1(head + data) else c.hash2(x, Plain(head, data, pad))
  }

  function Write(c: Crypto, v: Version, x: nat, head: seq<byte>, data: seq<byte>, pad: seq<byte>): seq<byte> {
    var mk := MessageKey(c, v, x, head, data, pad);
    c.keyId + mk + c.encrypt(c.CipherKey(v, mk, x), Plain(head, data, pad))
  }

  // ------------------------------------------------------------ reading

  /** The bytes after the message key once the whole blocks are decrypted in place. */
  function Opened(c: Crypto, v: Version, x: nat, message: seq<byte>): seq<byte>
    requires |message| >= 24
  {
    var body := message[24..];
    var n := |body| / 16 * 16;
    c.decrypt(c.CipherKey(v, message[8..24], x), body[..n]) + body[n..]
  }

  /** message_data_length, the last field of the prefix. */
  function DataLength(k: Kind, text: seq<byte>): nat
    requires |text| >= k.EncryptedHeaderSize() + k.PrefixSize()
  {
    var at := k.EncryptedHeaderSize() + k.PrefixSize();
    FromLe(text[at - 4..at])
  }

  predicate LengthBad(k: Kind, checkMod4: bool, length: nat, total: nat) {
    (checkMod4 && length % 4 != 0) || Size1(k, length + k.PrefixSize()) != total
  }

  lemma GoodLengthFits(k: Kind, checkMod4: bool, length: nat, n: nat)
    requires !LengthBad(k, checkMod4, length, 24 + n)
    ensures k.EncryptedHeaderSize() + length + k.PrefixSize() <= n
  {}

  /** Where the data ends. */
  function DataEnd(k: Kind, text: seq<byte>): nat
    requires |text| >= k.EncryptedHeaderSize() + k.PrefixSize()
  {
    k.EncryptedHeaderSize() + DataLength(k, text) + k.PrefixSize()
  }

  /** The length that the first version's message key covers: all of the text when the announced length is bad. */
  function Covered(k: Kind, checkMod4: bool, text: seq<byte>): (r: nat)
    requires |text| >= k.EncryptedHeaderSize() + k.PrefixSize()
    ensures r <= |text|
  {
    if LengthBad(k, checkMod4, DataLength(k, text), 24 + |text|) then |text|
    else
      GoodLengthFits(k, checkMod4, DataLength(k, text), |text|);
      DataEnd(k, text)
  }

  function KeyOfText(c: Crypto, k: Kind, v: Version, x: nat, checkMod4: bool, text: seq<byte>): seq<byte>
    requires |text| >= k.EncryptedHeaderSize() + k.PrefixSize()
  {
    if v.V1? then c.hash1(text[..Covered(k, checkMod4, text)]) else c.hash2(x, text[..|text| / 16 * 16])
  }

  /** The checks of the first version once the message key is right: where the data ends. */
  function Judged1(k: Kind, checkMod4: bool, text: seq<byte>): (r: Result<nat>)
    requires |text| >= k.EncryptedHeaderSize() + k.PrefixSize()
    ensures r.Ok? ==> k.EncryptedHeaderSize() <= r.value <= |text|
  {
    if LengthBad(k, checkMod4, DataLength(k, text), 24 + |text|) then Err(InvalidLength)
    else
      GoodLengthFits(k, checkMod4, DataLength(k, text), |text|);
      Ok(DataEnd(k, text))
  }

  /** And those of the second. */
  function Judged2(k: Kind, checkMod4: bool, text: seq<byte>): (r: Result<nat>)
    requires |text| >= k.EncryptedHeaderSize() + k.PrefixSize()
    ensures r.Ok? ==> k.EncryptedHeaderSize() <= r.value <= |text|
  {
    if checkMod4 && DataLength(k, text) % 4 != 0 then Err(NotDivisibleByFour)
    else if DataEnd(k, text) > |text| then Err(LengthTooBig)
    else if !(12 <= |text| - DataEnd(k, text) <= 1024) then Err(InvalidPadding)
    else Ok(DataEnd(k, text))
  }

  /** The checks on the decrypted text, whose message arrived with key `found`. */
  function Judged(c: Crypto, k: Kind, v: Version, x: nat, checkMod4: bool, text: seq<byte>, found: seq<byte>)
    : Result<seq<byte>>
    requires |text| >= k.EncryptedHeaderSize() + k.PrefixSize()
  {
    if KeyOfText(c, k, v, x, checkMod4, text) != found then Err(MessageKeyMismatch)
    else
      var end := if v.V1? then Judged1(k, checkMod4, text) else Judged2(k, checkMod4, text);
      if end.Err? then Err(end.error) else Ok(text[k.EncryptedHeaderSize()..end.value])
  }

  function Read(c: Crypto, k: Kind, v: Version, x: nat, checkMod4: bool, message: seq<byte>): Result<seq<byte>>
    requires c.Sound()
  {
    if |message| < k.HeaderSize() then Err(TooSmall)
    else if message[..8] != c.keyId then Err(KeyIdMismatch)
    else if |message| - k.HeaderSize() < k.PrefixSize() then Err(TooSmallEncrypted)
    else
      Judged(c, k, v, x, checkMod4, Opened(c, v, x, message), message[8..24])
  }

  // ------------------------------------------------------------ round trip

  /** The prefix at the beginning of `data` states the length of what follows it. */
  predicate StatesLength(k: Kind, data: seq<byte>) {
    |data| >= k.PrefixSize() && FromLe(data[k.PrefixSize() - 4..k.PrefixSize()]) == |data| - k.PrefixSize()
  }

  /** A padding that the writer may have added. */
  predicate Padded(k: Kind, v: Version, n: nat, pad: nat) {
    if v.V1? then k.HeaderSize() + n + pad == Size1(k, n)
    else (k.EncryptedHeaderSize() + n + pad) % 16 == 0 && 12 <= pad && pad + 15 <= 1024
  }

  lemma OpenedWrite(c: Crypto, v: Version, x: nat, head: seq<byte>, data: seq<byte>, pad: seq<byte>, t: seq<byte>)
    requires c.Sound() && |Plain(head, data, pad)| % 16 == 0 && |t| < 16
    ensures var m := Write(c, v, x, head, data, pad) + t;
            |m| == 24 + |Plain(head, data, pad)| + |t| && m[..8] == c.keyId &&
            m[8..24] == MessageKey(c, v, x, head, data, pad) && Opened(c, v, x, m) == Plain(head, data, pad) + t
  {
    var mk := MessageKey(c, v, x, head, data, pad);
    var plain := Plain(head, data, pad);
    var cipher := c.encrypt(c.CipherKey(v, mk, x), plain);
    var m := Write(c, v, x, head, data, pad) + t;
    assert |mk| == 16;
    assert m == (c.keyId + mk) + (cipher + t);
    assert m[24..] == cipher + t;
    assert |cipher + t| / 16 * 16 == |cipher| by { assert |cipher| == |plain|; Blocks(|cipher|, |t|); }
    assert (cipher + t)[..|cipher|] == cipher && (cipher + t)[|cipher|..] == t;
    assert m[8..24] == mk;
  }

  lemma Blocks(n: nat, t: nat)
    requires n % 16 == 0 && t < 16
    ensures (n + t) / 16 * 16 == n
  {
    assert n == n / 16 * 16;
  }

  /** What is written is read back exactly when the length check permits it: version 2 ignores up to 15 trailing
      transport bytes, version 1 accepts none. */
  lemma RoundTrip(c: Crypto, k: Kind, v: Version, x: nat, checkMod4: bool, head: seq<byte>, data: seq<byte>,
                  pad: seq<byte>, t: seq<byte>)
    requires c.Sound() && |head| == k.EncryptedHeaderSize() && StatesLength(k, data) && Padded(k, v, |data|, |pad|)
    requires |t| < 16
    ensures var r := Read(c, k, v, x, checkMod4, Write(c, v, x, head, data, pad) + t);
            if (checkMod4 && (|data| - k.PrefixSize()) % 4 != 0) || (v.V1? && t != []) then r.Err? else r == Ok(data)
  {
    PlainBlocks(k, v, |data|, |pad|);
    OpenedWrite(c, v, x, head, data, pad, t);
    hide Write;
    hide Opened;
    hide MessageKey;
    var m := Write(c, v, x, head, data, pad) + t;
    var text := Plain(head, data, pad) + t;
    TextParts(k, head, data, pad, t);
    Blocks(|Plain(head, data, pad)|, |t|);
    KeyIs(c, v, x, head, data, pad);
    if v.V1? {
      ReadV1(c, k, x, checkMod4, m, text, data);
    } else {
      ReadV2(c, k, x, checkMod4, m, text, data);
    }
  }

  lemma KeyIs(c: Crypto, v: Version, x: nat, head: seq<byte>, data: seq<byte>, pad: seq<byte>)
    ensures MessageKey(c, v, x, head, data, pad) ==
            if v.V1? then c.hash1(head + data) else c.hash2(x, Plain(head, data, pad))
  {}

  lemma PlainBlocks(k: Kind, v: Version, n: nat, pad: nat)
    requires Padded(k, v, n, pad)
    ensures (k.EncryptedHeaderSize() + n + pad) % 16 == 0
  {}

  lemma TextParts(k: Kind, head: seq<byte>, data: seq<byte>, pad: seq<byte>, t: seq<byte>)
    requires |head| == k.EncryptedHeaderSize() && StatesLength(k, data)
    ensures var text := Plain(head, data, pad) + t;
            DataLength(k, text) == |data| - k.PrefixSize() &&
            text[..|head| + |data|] == head + data && text[|head|..|head| + |data|] == data &&
            text[..|Plain(head, data, pad)|] == Plain(head, data, pad)
  {
    hide FromLe;
    var text := Plain(head, data, pad) + t;
    var at := |head| + k.PrefixSize();
    assert text == (head + data) + (pad + t);
    assert text[..|head| + |data|] == head + data;
    assert text[|head|..|head| + |data|] == (head + data)[|head|..];
    assert text[at - 4..at] == data[k.PrefixSize() - 4..k.PrefixSize()];
  }

  lemma ReadV1(c: Crypto, k: Kind, x: nat, checkMod4: bool, m: seq<byte>, text: seq<byte>, data: seq<byte>)
    requires c.Sound() && |data| >= k.PrefixSize() && |m| == 24 + |text| && |text| >= k.EncryptedHeaderSize() + |data|
    requires m[..8] == c.keyId && Opened(c, V1, x, m) == text
    requires var h := k.EncryptedHeaderSize();
             DataLength(k, text) == |data| - k.PrefixSize() && text[h..h + |data|] == data &&
             m[8..24] == c.hash1(text[..h + |data|])
    requires Size1(k, |data|) <= |m| < Size1(k, |data|) + 16
    ensures var r := Read(c, k, V1, x, checkMod4, m);
            if (checkMod4 && (|data| - k.PrefixSize()) % 4 != 0) || |m| != Size1(k, |data|) then r.Err? else r == Ok(data)
  {
    hide Opened;
    hide DataLength;
    hide Crypto.Sound;
  }

  lemma ReadV2(c: Crypto, k: Kind, x: nat, checkMod4: bool, m: seq<byte>, text: seq<byte>, data: seq<byte>)
    requires c.Sound() && |data| >= k.PrefixSize() && |m| == 24 + |text| && |text| >= k.EncryptedHeaderSize() + |data|
    requires m[..8] == c.keyId && Opened(c, V2, x, m) == text
    requires var h := k.EncryptedHeaderSize();
             DataLength(k, text) == |data| - k.PrefixSize() && text[h..h + |data|] == data &&
             m[8..24] == c.hash2(x, text[..|text| / 16 * 16]) && 12 <= |text| - h - |data| <= 1024
    ensures var r := Read(c, k, V2, x, checkMod4, m);
            if checkMod4 && (|data| - k.PrefixSize()) % 4 != 0 then r.Err? else r == Ok(data)
  {
    hide Opened;
    hide DataLength;
    hide LengthBad;
    hide Crypto.Sound;
  }

  /** The other direction: a message of whole blocks is accepted only if it is what a writer makes of the data that
      is returned, with a padding and a length that the checks allow. */
  lemma AcceptedIsWritten(c: Crypto, k: Kind, v: Version, x: nat, checkMod4: bool, m: seq<byte>)
    requires c.Sound() && |m| % 16 == 8 && Read(c, k, v, x, checkMod4, m).Ok?
    ensures var data := Read(c, k, v, x, checkMod4, m).value;
            StatesLength(k, data) && (checkMod4 ==> (|data| - k.PrefixSize()) % 4 == 0) &&
            exists head, pad ::
              |head| == k.EncryptedHeaderSize() && m == Write(c, v, x, head, data, pad) &&
              if v.V1? then Padded(k, v, |data|, |pad|) else 12 <= |pad| <= 1024
  {
    hide *;
    ReadSplits(c, k, v, x, checkMod4, m);
    OpenedBlocks(c, v, x, m);
    var text := Opened(c, v, x, m);
    var h := k.EncryptedHeaderSize();
    var data := Read(c, k, v, x, checkMod4, m).value;
    AcceptedText(c, k, v, x, checkMod4, text, m[8..24]);
    var head, pad := text[..h], text[h + |data|..];
    TextSplits(text, h, data);
    KeyIs(c, v, x, head, data, pad);
    Rewritten(c, v, x, m, head, data, pad);
  }

  lemma TextSplits(text: seq<byte>, h: nat, data: seq<byte>)
    requires h + |data| <= |text| && text[h..h + |data|] == data
    ensures text == Plain(text[..h], data, text[h + |data|..]) && text[..h + |data|] == text[..h] + data
  {}

  lemma Rewritten(c: Crypto, v: Version, x: nat, m: seq<byte>, head: seq<byte>, data: seq<byte>, pad: seq<byte>)
    requires |m| >= 24 && m[..8] == c.keyId && m[8..24] == MessageKey(c, v, x, head, data, pad)
    requires m[24..] == c.encrypt(c.CipherKey(v, m[8..24], x), Plain(head, data, pad))
    ensures m == Write(c, v, x, head, data, pad)
  {
    hide MessageKey;
    hide Plain;
    assert m == m[..8] + m[8..24] + m[24..];
  }

  lemma OpenedBlocks(c: Crypto, v: Version, x: nat, m: seq<byte>)
    requires c.Sound() && |m| >= 24 && |m| % 16 == 8
    ensures var text := Opened(c, v, x, m);
            |text| == |m| - 24 && |text| % 16 == 0 && m[24..] == c.encrypt(c.CipherKey(v, m[8..24], x), text)
  {
    var body := m[24..];
    var n := |body| / 16 * 16;
    assert |body| % 16 == 0;
    assert n == |body| && body[..n] == body && body[n..] == [];
    var d := c.decrypt(c.CipherKey(v, m[8..24], x), body);
    assert d + [] == d;
  }

  /** What the checks say about a text that passes them. */
  lemma AcceptedText(c: Crypto, k: Kind, v: Version, x: nat, checkMod4: bool, text: seq<byte>, found: seq<byte>)
    requires |text| >= k.EncryptedHeaderSize() + k.PrefixSize() && |text| % 16 == 0
    requires Judged(c, k, v, x, checkMod4, text, found).Ok?
    ensures var h := k.EncryptedHeaderSize();
            var data := Judged(c, k, v, x, checkMod4, text, found).value;
            h + |data| <= |text| && text[h..h + |data|] == data && StatesLength(k, data) &&
            (checkMod4 ==> (|data| - k.PrefixSize()) % 4 == 0) &&
            if v.V1? then found == c.hash1(text[..h + |data|]) && Padded(k, v, |data|, |text| - h - |data|)
            else found == c.hash2(x, text) && 12 <= |text| - h - |data| <= 1024
  {
    AcceptedEnd(c, k, v, x, checkMod4, text, found);
    AnnouncedLength(k, text);
    hide Judged;
    hide StatesLength;
    hide DataLength;
    hide RoundUp;
    if v.V2? {
      WholeText(text);
    }
  }

  lemma AcceptedEnd(c: Crypto, k: Kind, v: Version, x: nat, checkMod4: bool, text: seq<byte>, found: seq<byte>)
    requires |text| >= k.EncryptedHeaderSize() + k.PrefixSize()
    requires Judged(c, k, v, x, checkMod4, text, found).Ok?
    ensures var h, end := k.EncryptedHeaderSize(), DataEnd(k, text);
            h <= end <= |text| && Judged(c, k, v, x, checkMod4, text, found) == Ok(text[h..end]) &&
            (checkMod4 ==> DataLength(k, text) % 4 == 0) &&
            if v.V1? then found == c.hash1(text[..end]) && !LengthBad(k, checkMod4, DataLength(k, text), 24 + |text|)
            else found == c.hash2(x, text[..|text| / 16 * 16]) && 12 <= |text| - end <= 1024
  {
    hide DataLength;
    hide RoundUp;
  }

  lemma AnnouncedLength(k: Kind, text: seq<byte>)
    requires |text| >= k.EncryptedHeaderSize() + k.PrefixSize() && DataEnd(k, text) <= |text|
    ensures StatesLength(k, text[k.EncryptedHeaderSize()..DataEnd(k, text)])
  {
    var h, p, end := k.EncryptedHeaderSize(), k.PrefixSize(), DataEnd(k, text);
    SubSlice(text, h, end - h, p - 4, p);
    hide FromLe;
  }

  lemma WholeText(text: seq<byte>)
    requires |text| % 16 == 0
    ensures text[..|text| / 16 * 16] == text
  {
    assert |text| / 16 * 16 == |text|;
  }

  // ------------------------------------------------------------ the two ends of a secret chat

  function WriteX(isCreator: bool, v: Version): nat { if isCreator || v.V1? then 0 else 8 }
  function ReadX(isCreator: bool, v: Version): nat { if isCreator && !v.V1? then 8 else 0 }

  function Framed(m: seq<byte>): seq<byte> { Le(|m|, 4) + m }

  /** What one side of an end-to-end conversation writes the other side reads back, in both versions and both
      roles; the encrypted part is a whole number of blocks. */
  lemma EndToEndRoundTrip(c: Crypto, v: Version, writerIsCreator: bool, checkMod4: bool, m: seq<byte>,
                          useRandom: bool, random: byte, pad: seq<byte>, t: seq<byte>)
    requires c.Sound() && |m| < 0x1_0000_0000 && |t| < 16
    requires EndToEnd.HeaderSize() + |Framed(m)| + |pad| ==
             if v.V1? then Size1(EndToEnd, |Framed(m)|) else Size2(EndToEnd, |Framed(m)|, useRandom, random)
    ensures var sent := Write(c, v, WriteX(writerIsCreator, v), [], Framed(m), pad);
            (|sent| - 24) % 16 == 0 &&
            (Read(c, EndToEnd, v, ReadX(!writerIsCreator, v), checkMod4, sent + t) == Ok(Framed(m)) <==>
             (checkMod4 ==> |m| % 4 == 0) && (v.V1? ==> t == []))
  {
    hide Write;
    hide Read;
    hide Size1;
    hide Size2;
    var x := WriteX(writerIsCreator, v);
    assert x == ReadX(!writerIsCreator, v);
    FramedStates(m);
    WriterPads(EndToEnd, v, |Framed(m)|, useRandom, random, |pad|);
    PlainBlocks(EndToEnd, v, |Framed(m)|, |pad|);
    RoundTrip(c, EndToEnd, v, x, checkMod4, [], Framed(m), pad, t);
    OpenedWrite(c, v, x, [], Framed(m), pad, []);
    assert Write(c, v, x, [], Framed(m), pad) + [] == Write(c, v, x, [], Framed(m), pad);
  }

  lemma FramedStates(m: seq<byte>)
    requires |m| < 0x1_0000_0000
    ensures StatesLength(EndToEnd, Framed(m)) && |Framed(m)| == |m| + 4
  {
    Le32RoundTrip(|m|);
    assert Framed(m)[0..4] == Le(|m|, 4);
  }

  lemma WriterPads(k: Kind, v: Version, n: nat, useRandom: bool, random: byte, pad: nat)
    requires k.HeaderSize() + n + pad == if v.V1? then Size1(k, n) else Size2(k, n, useRandom, random)
    ensures Padded(k, v, n, pad)
  {
    PaddingBounds(k, n, useRandom, random);
  }

  // ------------------------------------------------------------ in place

  /** Stores the header's encrypted part, the data and the padding one after the other. */
  method StorePlain(dest: array<byte>, head: seq<byte>, data: seq<byte>, pad: seq<byte>)
    requires 24 + |head| + |data| + |pad| <= dest.Length
    modifies dest
    ensures dest[24..24 + |head| + |data| + |pad|] == Plain(head, data, pad)
    ensures dest[..24] == old(dest[..24])
    ensures dest[24 + |head| + |data| + |pad|..] == old(dest[24 + |head| + |data| + |pad|..])
  {
    var h, d, e := 24 + |head|, 24 + |head| + |data|, 24 + |head| + |data| + |pad|;
    ghost var rest := dest[e..];
    ghost var first := dest[..24];
    CopyInto(dest, 24, head);
    assert dest[h..][e - h..] == rest && dest[..h][24..] == head && dest[..h][..24] == first;
    CopyInto(dest, h, data);
    assert dest[d..][e - d..] == rest && dest[..d][24..] == head + data && dest[..d][..24] == first;
    CopyInto(dest, d, pad);
    assert dest[..d][24..] + dest[d..e] == dest[24..e];
  }

  /** write_crypto and write_e2e_crypto: the size call with a short buffer writes nothing, and a buffer of the
      returned size receives the envelope. */
  method WriteCrypto(c: Crypto, info: PacketInfo, x: nat, head: seq<byte>, data: seq<byte>, random: byte,
                     noise: nat -> byte, dest: array<byte>) returns (size: nat)
    requires c.Sound() && |head| == info.kind.EncryptedHeaderSize() && info.MemoFor(|data|)
    modifies info, dest
    ensures info.version.V1? ==> size == Size1(info.kind, |data|)
    ensures info.version.V2? ==>
              size == info.size == if old(info.size) != 0 then old(info.size)
                                   else Size2(info.kind, |data|, info.useRandomPadding, random)
    ensures info.MemoFor(|data|)
    ensures size > dest.Length ==> dest[..] == old(dest[..])
    ensures size <= dest.Length ==>
              size >= info.kind.HeaderSize() + |data| &&
              dest[..size] == Write(c, info.version, x, head, data, Noise(noise, size - (info.kind.HeaderSize() + |data|)))
    ensures size <= dest.Length ==> dest[size..] == old(dest[size..])
  {
    hide Size1;
    hide Size2;
    hide Plain;
    size := info.CalcSize(|data|, random);
    if size > dest.Length {
      return;
    }
    SizeHolds(info.kind, info.version, |data|, info.useRandomPadding, size);
    var pad := Noise(noise, size - (info.kind.HeaderSize() + |data|));
    WriteAt(c, info.version, x, head, data, pad, dest);
  }

  /** The two calls a sender makes: one without a buffer for the size, one with a buffer of that size. Whatever the
      second call draws, the buffer holds exactly the envelope. */
  method WritePacket(c: Crypto, info: PacketInfo, x: nat, head: seq<byte>, data: seq<byte>, random: byte, again: byte,
                     noise: nat -> byte) returns (packet: array<byte>)
    requires c.Sound() && |head| == info.kind.EncryptedHeaderSize() && info.size == 0
    modifies info
    ensures fresh(packet)
    ensures packet.Length == if info.version.V1? then Size1(info.kind, |data|)
                             else Size2(info.kind, |data|, info.useRandomPadding, random)
    ensures packet.Length >= info.kind.HeaderSize() + |data| &&
            packet[..] == Write(c, info.version, x, head, data, Noise(noise, packet.Length - (info.kind.HeaderSize() + |data|)))
  {
    hide Size1;
    hide Size2;
    hide Write;
    var none := new byte[0];
    var size := WriteCrypto(c, info, x, head, data, random, noise, none);
    packet := new byte[size];
    var written := WriteCrypto(c, info, x, head, data, again, noise, packet);
    assert packet[..size] == packet[..];
  }

  function Noise(noise: nat -> byte, n: nat): (r: seq<byte>)
    ensures |r| == n
  {
    seq(n, i requires 0 <= i < n => noise(i))
  }

  lemma SizeHolds(k: Kind, v: Version, n: nat, useRandom: bool, size: nat)
    requires if v.V1? then size == Size1(k, n) else exists random: byte :: size == Size2(k, n, useRandom, random)
    ensures size >= k.HeaderSize() + n && (size - 24) % 16 == 0
  {
    if v.V2? {
      var random: byte :| size == Size2(k, n, useRandom, random);
      PaddingBounds(k, n, useRandom, random);
    }
  }

  /** write_crypto_impl. */
  method WriteAt(c: Crypto, v: Version, x: nat, head: seq<byte>, data: seq<byte>, pad: seq<byte>, dest: array<byte>)
    requires c.Sound() && (|head| + |data| + |pad|) % 16 == 0 && 24 + |head| + |data| + |pad| <= dest.Length
    modifies dest
    ensures dest[..24 + |head| + |data| + |pad|] == Write(c, v, x, head, data, pad)
    ensures dest[24 + |head| + |data| + |pad|..] == old(dest[24 + |head| + |data| + |pad|..])
  {
    var end := 24 + |head| + |data| + |pad|;
    ghost var rest := dest[end..];
    ghost var plain := Plain(head, data, pad);
    CopyInto(dest, 0, c.keyId);
    assert dest[8..][end - 8..] == rest && dest[..24][..8] == c.keyId;
    StorePlain(dest, head, data, pad);
    var mk := PlainKey(c, v, x, head, data, pad, dest[24..end]);
    assert dest[24..][..end - 24] == plain && dest[24..][end - 24..] == rest && dest[..24][..8] == dest[..8];
    CopyInto(dest, 8, mk);
    assert dest[24..end] == plain && dest[..24] == c.keyId + mk;
    var cipher := c.encrypt(c.CipherKey(v, mk, x), dest[24..end]);
    assert dest[24..][end - 24..] == dest[end..];
    CopyInto(dest, 24, cipher);
    assert dest[..end] == dest[..24] + dest[24..end];
  }

  method PlainKey(c: Crypto, v: Version, x: nat, head: seq<byte>, data: seq<byte>, pad: seq<byte>, plain: seq<byte>)
    returns (mk: seq<byte>)
    requires c.Sound() && plain == Plain(head, data, pad)
    ensures mk == MessageKey(c, v, x, head, data, pad) && |mk| == 16
  {
    assert plain[..|head| + |data|] == head + data;
    mk := if v.V1? then c.hash1(plain[..|head| + |data|]) else c.hash2(x, plain);
  }

  /** The comparison without an early exit. */
  method SameKey(a: seq<byte>, b: seq<byte>) returns (same: bool)
    requires |a| == |b|
    ensures same == (a == b)
  {
    same := true;
    for i := 0 to |a|
      invariant same == (a[..i] == b[..i])
    {
      assert a[..i + 1] == a[..i] + [a[i]] && b[..i + 1] == b[..i] + [b[i]];
      same := same && a[i] == b[i];
    }
    assert a[..|a|] == a && b[..|b|] == b;
  }

  /** read_crypto_impl: decrypts in place; on success the data is a range of the buffer. */
  method ReadCrypto(c: Crypto, k: Kind, v: Version, x: nat, checkMod4: bool, message: array<byte>)
    returns (r: Result<(nat, nat)>)
    requires c.Sound()
    modifies message
    ensures match Read(c, k, v, x, checkMod4, old(message[..]))
            case Ok(data) => r.Ok? && r.value.0 <= r.value.1 <= message.Length && message[r.value.0..r.value.1] == data
            case Err(e) => r == Err(e)
  {
    hide *;
    ghost var was := message[..];
    ReadSplits(c, k, v, x, checkMod4, was);
    if message.Length < k.HeaderSize() {
      return Err(TooSmall);
    }
    if message[..8] != c.keyId {
      return Err(KeyIdMismatch);
    }
    var found := message[8..24];
    DecryptInPlace(c, v, x, found, message);
    if message.Length - k.HeaderSize() < k.PrefixSize() {
      return Err(TooSmallEncrypted);
    }
    var text := message[24..];
    var range := Verify(c, k, v, x, checkMod4, text, found);
    if range.Err? {
      return Err(range.error);
    }
    var (from, to) := range.value;
    RangeOf(message, from, to);
    r := Ok((24 + from, 24 + to));
  }

  lemma RangeOf(message: array<byte>, from: nat, to: nat)
    requires from <= to <= message.Length - 24
    ensures message[24 + from..24 + to] == message[24..][from..to]
  {
    SubSlice(message[..], 24, message.Length - 24, from, to);
    assert message[..][24..message.Length] == message[24..];
    assert message[..][24 + from..24 + to] == message[24 + from..24 + to];
  }

  /** What the reader answers at each stage. */
  lemma ReadSplits(c: Crypto, k: Kind, v: Version, x: nat, checkMod4: bool, m: seq<byte>)
    requires c.Sound()
    ensures k.HeaderSize() == 24 + k.EncryptedHeaderSize()
    ensures |m| < k.HeaderSize() ==> Read(c, k, v, x, checkMod4, m) == Err(TooSmall)
    ensures |m| >= k.HeaderSize() && m[..8] != c.keyId ==> Read(c, k, v, x, checkMod4, m) == Err(KeyIdMismatch)
    ensures |m| >= k.HeaderSize() && m[..8] == c.keyId ==>
              if |m| < k.HeaderSize() + k.PrefixSize() then Read(c, k, v, x, checkMod4, m) == Err(TooSmallEncrypted)
              else Read(c, k, v, x, checkMod4, m) == Judged(c, k, v, x, checkMod4, Opened(c, v, x, m), m[8..24])
  {
    hide Judged;
    hide DataLength;
  }

  method DecryptInPlace(c: Crypto, v: Version, x: nat, found: seq<byte>, message: array<byte>)
    requires c.Sound() && message.Length >= 24 && found == message[8..24]
    modifies message
    ensures message[24..] == Opened(c, v, x, old(message[..]))
  {
    hide *;
    var blocks := (message.Length - 24) / 16 * 16;
    WholeBlocks(message.Length - 24);
    OpenedIs(c, v, x, message[..], blocks);
    assert message[..][24..24 + blocks] == message[24..24 + blocks] && message[..][24 + blocks..] == message[24 + blocks..];
    var plain := c.decrypt(c.CipherKey(v, found, x), message[24..24 + blocks]);
    DecryptLength(c, c.CipherKey(v, found, x), message[24..24 + blocks]);
    CopyInto(message, 24, plain);
    assert message[24..] == message[24..24 + blocks] + message[24 + blocks..];
  }

  lemma WholeBlocks(n: nat)
    ensures n / 16 * 16 <= n && n / 16 * 16 % 16 == 0
  {}

  lemma OpenedIs(c: Crypto, v: Version, x: nat, m: seq<byte>, blocks: nat)
    requires |m| >= 24 && blocks == (|m| - 24) / 16 * 16
    ensures Opened(c, v, x, m) == c.decrypt(c.CipherKey(v, m[8..24], x), m[24..24 + blocks]) + m[24 + blocks..]
  {
    assert m[24..][..blocks] == m[24..24 + blocks] && m[24..][blocks..] == m[24 + blocks..];
  }

  lemma DecryptLength(c: Crypto, key: seq<byte>, b: seq<byte>)
    requires c.Sound() && |b| % 16 == 0
    ensures |c.decrypt(key, b)| == |b|
  {}

  method TextKey(c: Crypto, k: Kind, v: Version, x: nat, checkMod4: bool, text: seq<byte>) returns (mk: seq<byte>)
    requires c.Sound() && |text| >= k.EncryptedHeaderSize() + k.PrefixSize()
    ensures mk == KeyOfText(c, k, v, x, checkMod4, text) && |mk| == 16
  {
    hide Covered;
    mk := if v.V1? then c.hash1(text[..Covered(k, checkMod4, text)]) else c.hash2(x, text[..|text| / 16 * 16]);
  }

  /** The checks made on the decrypted part of the buffer. */
  method Verify(c: Crypto, k: Kind, v: Version, x: nat, checkMod4: bool, text: seq<byte>, found: seq<byte>)
    returns (r: Result<(nat, nat)>)
    requires c.Sound() && |text| >= k.EncryptedHeaderSize() + k.PrefixSize() && |found| == 16
    ensures r.Ok? ==> r.value.0 <= r.value.1 <= |text|
    ensures Judged(c, k, v, x, checkMod4, text, found) ==
            if r.Ok? then Ok(text[r.value.0..r.value.1]) else Err(r.error)
  {
    hide KeyOfText;
    hide Judged1;
    hide Judged2;
    var mk := TextKey(c, k, v, x, checkMod4, text);
    var same := SameKey(mk, found);
    if !same {
      return Err(MessageKeyMismatch);
    }
    var end := VerifyLength(k, v, checkMod4, text);
    r := if end.Err? then Err(end.error) else Ok((k.EncryptedHeaderSize(), end.value));
  }

  /** The checks of either version that follow the comparison of the keys. */
  method VerifyLength(k: Kind, v: Version, checkMod4: bool, text: seq<byte>) returns (r: Result<nat>)
    requires |text| >= k.EncryptedHeaderSize() + k.PrefixSize()
    ensures r == if v.V1? then Judged1(k, checkMod4, text) else Judged2(k, checkMod4, text)
  {
    hide DataLength;
    hide LengthBad;
    var length := DataLength(k, text);
    var tail := |text| - k.EncryptedHeaderSize();
    var dataSize := length + k.PrefixSize();
    if v.V2? {
      if checkMod4 && length % 4 != 0 {
        return Err(NotDivisibleByFour);
      }
      if tail - k.PrefixSize() < length {
        return Err(LengthTooBig);
      }
      if tail - dataSize < 12 || tail - dataSize > 1024 {
        return Err(InvalidPadding);
      }
    } else if LengthBad(k, checkMod4, length, 24 + |text|) {
      return Err(InvalidLength);
    }
    r := Ok(k.EncryptedHeaderSize() + dataSize);
  }
}
