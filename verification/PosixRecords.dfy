/** The record stream of the file-backed storage: the writer of the factory tool and the reader of the device. */
module PosixRecords {
  import opened Wrappers

  type Byte = b: nat | b < 256

  datatype Rec = Rec(key: seq<Byte>, value: seq<Byte>, tag: Byte)

  const HEADER: nat := 7
  const KEY_MAX_LENGTH: nat := 16

  /** The tool writes every entry as binary data. */
  const BINARY: Byte := 0

  /* ---------- Little-endian numbers ---------- */

  function Power(k: nat): nat {
    if k == 0 then 1 else 256 * Power(k - 1)
  }

  /** The `k` bytes of `n`, least significant first. */
  function LittleEndian(n: nat, k: nat): (bs: seq<Byte>)
    ensures |bs| == k
  {
    if k == 0 then [] else [n % 256] + LittleEndian(n / 256, k - 1)
  }

  function Number(bs: seq<Byte>): nat {
    if bs == [] then 0 else bs[0] + 256 * Number(bs[1..])
  }

  lemma {:induction false} NumberOfBytes(n: nat, k: nat)
    requires n < Power(k)
    ensures Number(LittleEndian(n, k)) == n
    decreases k
  {
    if k > 0 {
      assert LittleEndian(n, k)[1..] == LittleEndian(n / 256, k - 1);
      NumberOfBytes(n / 256, k - 1);
    }
  }

  lemma {:induction false} BytesOfNumber(bs: seq<Byte>)
    ensures Number(bs) < Power(|bs|) && LittleEndian(Number(bs), |bs|) == bs
  {
    if bs != [] {
      BytesOfNumber(bs[1..]);
      assert Number(bs) / 256 == Number(bs[1..]) && Number(bs) % 256 == bs[0];
    }
  }

  /* ---------- One record ---------- */

  /** What the header can carry; the packing of anything longer fails. */
  predicate Encodable(r: Rec) {
    |r.key| < Power(2) && |r.value| < Power(4)
  }

  function Header(r: Rec): (h: seq<Byte>)
    ensures |h| == HEADER
  {
    LittleEndian(|r.key|, 2) + LittleEndian(|r.value|, 4) + [r.tag]
  }

  function Bytes(r: Rec): seq<Byte> {
    Header(r) + r.key + r.value
  }

  /** `_encode_posix_record`. */
  function Encode(r: Rec): Option<seq<Byte>> {
    if Encodable(r) then Some(Bytes(r)) else None
  }

  function Sum(b0: nat, b1: nat, b2: nat, b3: nat): nat {
    b0 + 0x100 * b1 + 0x1_0000 * b2 + 0x100_0000 * b3
  }

  /** The wire format: a record is encoded exactly when both lengths fit, as 16 and 32 bits, least significant byte
      first, then the type, the key and the value. */
  lemma WireFormat(r: Rec)
    ensures Encode(r).Some? <==> |r.key| < 0x1_0000 && |r.value| < 0x1_0000_0000
    ensures Encode(r).Some? ==>
              var b, k, v := Encode(r).value, |r.key|, |r.value|;
              && |b| == 7 + k + v && b[6] == r.tag && b[7..7 + k] == r.key && b[7 + k..] == r.value
              && k == Sum(b[0], b[1], 0, 0) && v == Sum(b[2], b[3], b[4], b[5])
  {
    var k, v := |r.key|, |r.value|;
    assert Power(2) == 0x1_0000 && Power(4) == 0x1_0000_0000 by {
      assert Power(1) == 0x100 && Power(3) == 0x100 * Power(2);
    }
    if Encodable(r) {
      var b := Bytes(r);
      assert b[..2] == LittleEndian(k, 2) && b[2..6] == LittleEndian(v, 4);
      TwoBytes(k);
      FourBytes(v);
      assert b[0] == b[..2][0] && b[1] == b[..2][1];
      assert b[2] == b[2..6][0] && b[3] == b[2..6][1] && b[4] == b[2..6][2] && b[5] == b[2..6][3];
    }
  }

  lemma TwoBytes(n: nat)
    requires n < 0x1_0000
    ensures LittleEndian(n, 2) == [n % 0x100, n / 0x100]
  {
    assert LittleEndian(n / 0x100, 1) == [n / 0x100] + LittleEndian(n / 0x100 / 0x100, 0);
  }

  lemma FourBytes(n: nat)
    requires n < 0x1_0000_0000
    ensures var b := LittleEndian(n, 4); n == Sum(b[0], b[1], b[2], b[3])
  {
    var high := n / 0x1_0000;
    assert n / 0x100 / 0x100 == high;
    assert LittleEndian(n, 4) == [n % 0x100] + ([n / 0x100 % 0x100] + LittleEndian(high, 2));
    TwoBytes(high);
  }

  /** The first record of a stream and what follows it. */
  function Split(s: seq<Byte>): (parts: Option<(Rec, seq<Byte>)>)
    ensures parts.Some? ==> |parts.value.1| + HEADER <= |s|
  {
    if |s| < HEADER then None
    else
      var k, v := Number(s[..2]), Number(s[2..6]);
      if |s| < HEADER + k + v then None
      else Some((Rec(s[7..7 + k], s[7 + k..7 + k + v], s[6]), s[7 + k + v..]))
  }

  lemma SplitEncoded(r: Rec, rest: seq<Byte>)
    requires Encodable(r)
    ensures Split(Bytes(r) + rest) == Some((r, rest))
  {
    var s := Bytes(r) + rest;
    var k, v := |r.key|, |r.value|;
    assert s[..2] == LittleEndian(k, 2);
    assert s[2..6] == LittleEndian(v, 4);
    NumberOfBytes(k, 2);
    NumberOfBytes(v, 4);
    assert s[6] == r.tag;
    assert s[7..7 + k] == r.key;
    assert s[7 + k..7 + k + v] == r.value;
    assert s[7 + k + v..] == rest;
  }

  lemma EncodedSplit(s: seq<Byte>)
    requires Split(s).Some?
    ensures Encodable(Split(s).value.0) && Bytes(Split(s).value.0) + Split(s).value.1 == s
  {
    var r := Split(s).value.0;
    BytesOfNumber(s[..2]);
    BytesOfNumber(s[2..6]);
    assert Header(r) == s[..2] + s[2..6] + [s[6]] == s[..7];
    var k, v := |r.key|, |r.value|;
    assert s == s[..7] + s[7..7 + k] + s[7 + k..7 + k + v] + s[7 + k + v..];
  }

  /* ---------- The stream ---------- */

  function Stream(rs: seq<Rec>): seq<Byte> {
    if rs == [] then [] else Bytes(rs[0]) + Stream(rs[1..])
  }

  function Decode(s: seq<Byte>): Option<seq<Rec>>
    decreases |s|
  {
    if s == [] then Some([])
    else
      var parts := Split(s);
      if parts.None? then None
      else
        var rest := Decode(parts.value.1);
        if rest.None? then None else Some([parts.value.0] + rest.value)
  }

  lemma {:induction false} DecodeStream(rs: seq<Rec>)
    requires forall r | r in rs :: Encodable(r)
    ensures Decode(Stream(rs)) == Some(rs)
  {
    if rs != [] {
      assert |Bytes(rs[0])| >= HEADER;
      SplitEncoded(rs[0], Stream(rs[1..]));
      DecodeStream(rs[1..]);
      assert [rs[0]] + rs[1..] == rs;
    }
  }

  lemma {:induction false} StreamDecoded(s: seq<Byte>)
    requires Decode(s).Some?
    ensures Stream(Decode(s).value) == s && forall r | r in Decode(s).value :: Encodable(r)
    decreases |s|
  {
    if s != [] {
      EncodedSplit(s);
      var rest := Split(s).value.1;
      StreamDecoded(rest);
      assert Decode(s).value[1..] == Decode(rest).value;
    }
  }

  /** Unique decodability, both ways: the decoder recovers exactly the list that was written, it accepts exactly the
      files some list of encodable records produces, and equal files mean equal lists. */
  lemma UniquelyDecodable(rs: seq<Rec>, qs: seq<Rec>, file: seq<Byte>)
    requires forall r | r in rs + qs :: Encodable(r)
    ensures Decode(Stream(rs)) == Some(rs)
    ensures Stream(rs) == Stream(qs) <==> rs == qs
    ensures Decode(file) == Some(rs) <==> file == Stream(rs)
  {
    assert forall r | r in rs :: r in rs + qs;
    assert forall r | r in qs :: r in rs + qs;
    DecodeStream(rs);
    DecodeStream(qs);
    if Decode(file).Some? {
      StreamDecoded(file);
    }
  }

  lemma {:induction false} StreamAppend(rs: seq<Rec>, r: Rec)
    ensures Stream(rs + [r]) == Stream(rs) + Bytes(r)
  {
    if rs == [] {
      assert Stream([r]) == Bytes(r) + Stream([]);
    } else {
      assert (rs + [r])[1..] == rs[1..] + [r];
      StreamAppend(rs[1..], r);
      assert Stream(rs + [r]) == Bytes(rs[0]) + (Stream(rs[1..]) + Bytes(r));
    }
  }

  /* ---------- The factory tool ---------- */

  datatype Keys = Keys(
    clientKey: seq<Byte>, clientCert: seq<Byte>, codesignCert: seq<Byte>, mqttHost: seq<Byte>, clientId: seq<Byte>,
    random: seq<Byte>, username: seq<Byte>, password: seq<Byte>)

  /** The input after normalization: file contents and encoded texts; None is an entry that is absent or empty. */
  datatype Factory = Factory(
    clientKey: seq<Byte>, clientCert: seq<Byte>, codesignCert: Option<seq<Byte>>, mqttHost: seq<Byte>,
    clientId: seq<Byte>,
    random: seq<Byte>, username: Option<seq<Byte>>, password: Option<seq<Byte>>)

  function Required(key: seq<Byte>, value: seq<Byte>): seq<Rec> {
    [Rec(key, value, BINARY)]
  }

  function Optional(key: seq<Byte>, value: Option<seq<Byte>>): seq<Rec> {
    if value.Some? then Required(key, value.value) else []
  }

  /** The records a factory file has to hold, in order. */
  function Wanted(k: Keys, f: Factory): seq<Rec> {
    []
    + Required(k.clientKey, f.clientKey)
    + Required(k.clientCert, f.clientCert)
    + Optional(k.codesignCert, f.codesignCert)
    + Required(k.mqttHost, f.mqttHost)
    + Required(k.clientId, f.clientId)
    + Required(k.random, f.random)
    + Optional(k.username, f.username)
    + Optional(k.password, f.password)
  }

  /** The records written so far; None once an encoding has failed, which ends the tool with an error. */
  class Writer {
    var file: Option<seq<Byte>>
    ghost var written: seq<Rec>

    ghost predicate Valid()
      reads this
    {
      file == if (forall r | r in written :: Encodable(r)) then Some(Stream(written)) else None
    }

    constructor ()
      ensures Valid() && written == []
    {
      file, written := Some([]), [];
    }

    method Append(key: seq<Byte>, value: seq<Byte>)
      requires Valid()
      modifies this
      ensures Valid() && written == old(written) + Required(key, value)
    {
      var r := Rec(key, value, BINARY);
      var bytes := Encode(r);
      StreamAppend(written, r);
      if file.Some? {
        file := if bytes.Some? then Some(file.value + bytes.value) else None;
      }
      written := written + [r];
      assert forall q | q in old(written) :: q in written;
      assert r in written;
    }

    method AppendOptional(key: seq<Byte>, value: Option<seq<Byte>>)
      requires Valid()
      modifies this
      ensures Valid() && written == old(written) + Optional(key, value)
    {
      if value.Some? {
        Append(key, value.value);
      } else {
        assert written == written + [];
      }
    }
  }

  /* ---------- The device's reader ---------- */

  /** A key the reader accepts. */
  predicate Readable(r: Rec) {
    0 < |r.key| < KEY_MAX_LENGTH
  }

  /** The value of the last record with this key. */
  function LastValue(rs: seq<Rec>, key: seq<Byte>): Option<seq<Byte>>
    decreases |rs|
  {
    if rs == [] then None
    else if rs[|rs| - 1].key == key then Some(rs[|rs| - 1].value)
    else LastValue(rs[..|rs| - 1], key)
  }

  datatype Found = Value(value: seq<Byte>) | NotFound | Corrupt

  /** What a file holds under a key. */
  ghost function Lookup(file: seq<Byte>, key: seq<Byte>): Found {
    if Decode(file).None? || exists r | r in Decode(file).value :: !Readable(r) then Corrupt
    else
      var v := LastValue(Decode(file).value, key);
      if v.Some? then Value(v.value) else NotFound
  }

  /** All the records of a stream of which `done` have been read and `rest` has not. */
  function Continue(done: seq<Rec>, rest: seq<Byte>): Option<seq<Rec>> {
    if Decode(rest).Some? then Some(done + Decode(rest).value) else None
  }

  lemma ContinueNext(done: seq<Rec>, rest: seq<Byte>)
    requires rest != []
    ensures var parts := Split(rest);
            Continue(done, rest) == if parts.Some? then Continue(done + [parts.value.0], parts.value.1) else None
  {
    var parts := Split(rest);
    if parts.Some? && Decode(parts.value.1).Some? {
      var tail := Decode(parts.value.1).value;
      assert done + ([parts.value.0] + tail) == done + [parts.value.0] + tail;
    }
  }

  lemma ContinueEnds(file: seq<Byte>, done: seq<Rec>)
    ensures Continue([], file) == Decode(file) && Continue(done, []) == Some(done)
  {
    if Decode(file).Some? {
      assert [] + Decode(file).value == Decode(file).value;
    }
    assert done + [] == done;
  }

  lemma LastValueAppend(rs: seq<Rec>, r: Rec, key: seq<Byte>)
    ensures LastValue(rs + [r], key) == if r.key == key then Some(r.value) else LastValue(rs, key)
  {
    assert (rs + [r])[..|rs|] == rs;
  }

  lemma NoLastValue(key: seq<Byte>)
    ensures LastValue([], key) == None
  {
  }

  lemma UnreadableStays(done: seq<Rec>, rest: seq<Byte>, r: Rec)
    requires Continue(done + [r], rest).Some?
    ensures r in Continue(done + [r], rest).value
  {
    assert Continue(done + [r], rest).value[|done|] == r;
  }

  /** `osal_storage_get`: every record is read in turn, the last one with the key wins, and a record that cannot be
      read makes the whole look-up fail. */
  method StorageGet(file: seq<Byte>, key: seq<Byte>) returns (found: Found)
    ensures found == Lookup(file, key)
  {
    hide Decode, Split, LastValue, Continue;
    var rest := file;
    ghost var done: seq<Rec> := [];
    var last: Option<seq<Byte>> := None;
    NoLastValue(key);
    ContinueEnds(file, done);
    while rest != []
      invariant last == LastValue(done, key)
      invariant forall r | r in done :: Readable(r)
      invariant Decode(file) == Continue(done, rest)
      decreases |rest|
    {
      ContinueNext(done, rest);
      var parts := Split(rest);
      if parts.None? {
        return Corrupt;
      }
      var r := parts.value.0;
      if !Readable(r) {
        if Decode(file).Some? {
          UnreadableStays(done, parts.value.1, r);
        }
        return Corrupt;
      }
      LastValueAppend(done, r, key);
      if r.key == key {
        last := Some(r.value);
      }
      done := done + [r];
      rest := parts.value.1;
    }
    ContinueEnds(file, done);
    found := if last.Some? then Value(last.value) else NotFound;
  }

  /** Record `i` holds the value, and no later one has the key. */
  ghost predicate LastAt(rs: seq<Rec>, key: seq<Byte>, value: seq<Byte>, i: nat) {
    i < |rs| && rs[i].key == key && rs[i].value == value && forall j | i < j < |rs| :: rs[j].key != key
  }

  lemma {:induction false} LastValueIs(rs: seq<Rec>, key: seq<Byte>, value: seq<Byte>)
    ensures LastValue(rs, key) == Some(value) <==> exists i :: LastAt(rs, key, value, i)
    decreases |rs|
  {
    if rs != [] {
      var n := |rs| - 1;
      LastValueIs(rs[..n], key, value);
      if rs[n].key == key {
        assert LastAt(rs, key, rs[n].value, n);
      } else {
        assert forall i :: LastAt(rs[..n], key, value, i) <==> LastAt(rs, key, value, i);
      }
    }
  }

  /** What a look-up answers: corrupt exactly when the file is not a sequence of whole records or one of them has a key
      that is empty or longer than fifteen bytes, else the value of the last record with the key. */
  lemma LookupAnswers(rs: seq<Rec>, key: seq<Byte>, value: seq<Byte>, file: seq<Byte>)
    requires forall r | r in rs :: Encodable(r)
    ensures Lookup(file, key) == Corrupt <==>
              !exists qs :: Stream(qs) == file && forall q | q in qs :: Encodable(q) && 1 <= |q.key| <= 15
    ensures file == Stream(rs) && Lookup(file, key) != Corrupt ==>
              (Lookup(file, key) == Value(value) <==> exists i :: LastAt(rs, key, value, i))
  {
    hide LastValue, Encodable;
    LastValueIs(rs, key, value);
    DecodeStream(rs);
    if Lookup(file, key) != Corrupt {
      StreamDecoded(file);
      assert Stream(Decode(file).value) == file;
      assert forall q | q in Decode(file).value :: Encodable(q) && Readable(q);
    } else if qs :| Stream(qs) == file && forall q | q in qs :: Encodable(q) && 1 <= |q.key| <= 15 {
      DecodeStream(qs);
      assert false;
    }
  }

  /* ---------- From the tool to the device ---------- */

  predicate Fits(key: seq<Byte>, value: seq<Byte>) {
    |key| < 0x1_0000 && |value| < 0x1_0000_0000
  }

  predicate AllFit(k: Keys, f: Factory) {
    && Fits(k.clientKey, f.clientKey) && Fits(k.clientCert, f.clientCert) && Fits(k.mqttHost, f.mqttHost)
    && Fits(k.clientId, f.clientId) && Fits(k.random, f.random)
    && (f.codesignCert.Some? ==> Fits(k.codesignCert, f.codesignCert.value))
    && (f.username.Some? ==> Fits(k.username, f.username.value))
    && (f.password.Some? ==> Fits(k.password, f.password.value))
  }

  function AllKeys(k: Keys): seq<seq<Byte>> {
    [k.clientKey, k.clientCert, k.codesignCert, k.mqttHost, k.clientId, k.random, k.username, k.password]
  }

  /** Eight different keys of one to fifteen bytes. */
  predicate GoodKeys(k: Keys) {
    && (forall i, j | 0 <= i < j < 8 :: AllKeys(k)[i] != AllKeys(k)[j])
    && forall i | 0 <= i < 8 :: 0 < |AllKeys(k)[i]| <= 15
  }

  function Entry(value: Option<seq<Byte>>): Found {
    if value.Some? then Value(value.value) else NotFound
  }

  /** The device finds every entry of the factory data under its own key, an optional one exactly when it is there,
      nothing under any other key, and only binary entries. */
  ghost predicate ReadsBack(file: seq<Byte>, k: Keys, f: Factory) {
    && Lookup(file, k.clientKey) == Value(f.clientKey)
    && Lookup(file, k.clientCert) == Value(f.clientCert)
    && Lookup(file, k.mqttHost) == Value(f.mqttHost)
    && Lookup(file, k.clientId) == Value(f.clientId)
    && Lookup(file, k.random) == Value(f.random)
    && Lookup(file, k.codesignCert) == Entry(f.codesignCert)
    && Lookup(file, k.username) == Entry(f.username)
    && Lookup(file, k.password) == Entry(f.password)
    && (forall key | key !in AllKeys(k) :: Lookup(file, key) == NotFound)
    && Decode(file).Some? && forall r | r in Decode(file).value :: r.tag == 0
  }

  lemma LastRequired(rs: seq<Rec>, key: seq<Byte>, value: seq<Byte>, q: seq<Byte>)
    ensures LastValue(rs + Required(key, value), q) == if key == q then Some(value) else LastValue(rs, q)
  {
    LastValueAppend(rs, Rec(key, value, BINARY), q);
  }

  lemma LastOptional(rs: seq<Rec>, key: seq<Byte>, value: Option<seq<Byte>>, q: seq<Byte>)
    ensures LastValue(rs + Optional(key, value), q)
            == if value.Some? && key == q then value else LastValue(rs, q)
  {
    if value.Some? {
      LastRequired(rs, key, value.value, q);
    } else {
      assert rs + [] == rs;
    }
  }

  /** What the list the tool writes holds under a key. */
  lemma WantedValue(k: Keys, f: Factory, q: seq<Byte>)
    requires GoodKeys(k)
    ensures LastValue(Wanted(k, f), q)
            == if q == k.clientKey then Some(f.clientKey)
               else if q == k.clientCert then Some(f.clientCert)
               else if q == k.codesignCert then f.codesignCert
               else if q == k.mqttHost then Some(f.mqttHost)
               else if q == k.clientId then Some(f.clientId)
               else if q == k.random then Some(f.random)
               else if q == k.username then f.username
               else if q == k.password then f.password
               else None
  {
    hide LastValue, Required, Optional;
    KeysAre(k);
    NoLastValue(q);
    var rs: seq<Rec> := [];
    LastRequired(rs, k.clientKey, f.clientKey, q);
    rs := rs + Required(k.clientKey, f.clientKey);
    LastRequired(rs, k.clientCert, f.clientCert, q);
    rs := rs + Required(k.clientCert, f.clientCert);
    LastOptional(rs, k.codesignCert, f.codesignCert, q);
    rs := rs + Optional(k.codesignCert, f.codesignCert);
    LastRequired(rs, k.mqttHost, f.mqttHost, q);
    rs := rs + Required(k.mqttHost, f.mqttHost);
    LastRequired(rs, k.clientId, f.clientId, q);
    rs := rs + Required(k.clientId, f.clientId);
    LastRequired(rs, k.random, f.random, q);
    rs := rs + Required(k.random, f.random);
    LastOptional(rs, k.username, f.username, q);
    rs := rs + Optional(k.username, f.username);
    LastOptional(rs, k.password, f.password, q);
    assert rs + Optional(k.password, f.password) == Wanted(k, f);
  }

  lemma KeysAre(k: Keys)
    ensures var ks := AllKeys(k);
            && ks[0] == k.clientKey && ks[1] == k.clientCert && ks[2] == k.codesignCert && ks[3] == k.mqttHost
            && ks[4] == k.clientId && ks[5] == k.random && ks[6] == k.username && ks[7] == k.password
  {
  }

  lemma WantedRecords(k: Keys, f: Factory, r: Rec)
    requires r in Wanted(k, f)
    ensures r.tag == 0 && r.key in AllKeys(k)
  {
  }

  /** What the tool writes the device reads back. */
  lemma DeviceReadsBack(k: Keys, f: Factory, file: seq<Byte>)
    requires Decode(file) == Some(Wanted(k, f)) && GoodKeys(k)
    ensures ReadsBack(file, k, f)
  {
    hide Decode, Wanted, LastValue;
    forall r | r in Wanted(k, f) ensures Readable(r) && r.tag == 0 {
      WantedRecords(k, f, r);
    }
    forall q ensures LastValue(Wanted(k, f), q).Some? ==> Lookup(file, q) == Value(LastValue(Wanted(k, f), q).value)
             ensures LastValue(Wanted(k, f), q).None? ==> Lookup(file, q) == NotFound
    {
    }
    forall q {:trigger LastValue(Wanted(k, f), q)} | true
      ensures q !in AllKeys(k) ==> LastValue(Wanted(k, f), q) == None
    {
      WantedValue(k, f, q);
      KeysAre(k);
    }
    KeysAre(k);
    WantedValue(k, f, k.clientKey);
    WantedValue(k, f, k.clientCert);
    WantedValue(k, f, k.codesignCert);
    WantedValue(k, f, k.mqttHost);
    WantedValue(k, f, k.clientId);
    WantedValue(k, f, k.random);
    WantedValue(k, f, k.username);
    WantedValue(k, f, k.password);
  }

  lemma FitsRequired(rs: seq<Rec>, key: seq<Byte>, value: seq<Byte>)
    ensures AllEncodable(rs + Required(key, value)) <==> AllEncodable(rs) && Fits(key, value)
  {
    var r := Rec(key, value, BINARY);
    WireFormat(r);
    assert (rs + [r])[|rs|] == r;
    assert forall q | q in rs :: q in rs + [r];
  }

  lemma FitsOptional(rs: seq<Rec>, key: seq<Byte>, value: Option<seq<Byte>>)
    ensures AllEncodable(rs + Optional(key, value)) <==> AllEncodable(rs) && (value.Some? ==> Fits(key, value.value))
  {
    if value.Some? {
      FitsRequired(rs, key, value.value);
    } else {
      assert rs + [] == rs;
    }
  }

  ghost predicate AllEncodable(rs: seq<Rec>) {
    forall r | r in rs :: Encodable(r)
  }

  lemma WantedFits(k: Keys, f: Factory)
    ensures AllEncodable(Wanted(k, f)) <==> AllFit(k, f)
  {
    var rs: seq<Rec> := [];
    assert AllEncodable(rs);
    hide Required, Optional, Fits, AllEncodable;
    FitsRequired(rs, k.clientKey, f.clientKey);
    rs := rs + Required(k.clientKey, f.clientKey);
    FitsRequired(rs, k.clientCert, f.clientCert);
    rs := rs + Required(k.clientCert, f.clientCert);
    FitsOptional(rs, k.codesignCert, f.codesignCert);
    rs := rs + Optional(k.codesignCert, f.codesignCert);
    FitsRequired(rs, k.mqttHost, f.mqttHost);
    rs := rs + Required(k.mqttHost, f.mqttHost);
    FitsRequired(rs, k.clientId, f.clientId);
    rs := rs + Required(k.clientId, f.clientId);
    FitsRequired(rs, k.random, f.random);
    rs := rs + Required(k.random, f.random);
    FitsOptional(rs, k.username, f.username);
    rs := rs + Optional(k.username, f.username);
    FitsOptional(rs, k.password, f.password);
    assert rs + Optional(k.password, f.password) == Wanted(k, f);
  }

  /** `_generate_posix_binary`: the file exists exactly when every entry fits its header, what a decoder finds in it is
      exactly what was wanted, and with good keys the device reads every entry back. */
  method GeneratePosixBinary(k: Keys, f: Factory) returns (file: Option<seq<Byte>>)
    ensures file.Some? <==> AllFit(k, f)
    ensures file.Some? ==> Decode(file.value) == Some(Wanted(k, f))
    ensures file.Some? && GoodKeys(k) ==> ReadsBack(file.value, k, f)
  {
    hide Optional, Required, Encodable;
    var w := new Writer();
    w.Append(k.clientKey, f.clientKey);
    w.Append(k.clientCert, f.clientCert);
    w.AppendOptional(k.codesignCert, f.codesignCert);
    w.Append(k.mqttHost, f.mqttHost);
    w.Append(k.clientId, f.clientId);
    w.Append(k.random, f.random);
    w.AppendOptional(k.username, f.username);
    w.AppendOptional(k.password, f.password);
    file := w.file;
    WantedFits(k, f);
    assert AllEncodable(w.written) == forall r | r in w.written :: Encodable(r);
    if file.Some? {
      DecodeStream(w.written);
      if GoodKeys(k) {
        DeviceReadsBack(k, f, file.value);
      }
    }
  }
}
