/** The firmware-version parser of the default filetype handler: "x.y[.z]" packed into 30 bits. */
module Version {
  import opened Wrappers

  const FIELD_MAX: nat := 1023

  datatype Triple = Triple(major: nat, minor: nat, patch: nat) {
    predicate InRange() {
      major <= FIELD_MAX && minor <= FIELD_MAX && patch <= FIELD_MAX
    }

    /** Lexicographic order: a later release is a larger triple. */
    predicate Less(other: Triple) {
      || major < other.major
      || (major == other.major && minor < other.minor)
      || (major == other.major && minor == other.minor && patch < other.patch)
    }
  }

  predicate IsDigit(c: char) {
    '0' <= c <= '9'
  }

  predicate Digits(s: string) {
    forall i | 0 <= i < |s| :: IsDigit(s[i])
  }

  predicate Numeral(s: string) {
    s != [] && Digits(s)
  }

  function DigitValue(c: char): nat
    requires IsDigit(c)
  {
    (c - '0') as nat
  }

  /** The number a digit string denotes in base ten. */
  function Value(s: string): nat
    requires Digits(s)
  {
    if s == [] then 0 else Value(s[..|s| - 1]) * 10 + DigitValue(s[|s| - 1])
  }

  /** major and minor, then nothing or "." patch, then nothing or "." and anything at all. */
  ghost predicate Spells(s: string, t: Triple, x: string, y: string, z: string, tail: string) {
    && Numeral(x) && Numeral(y) && Digits(z)
    && t == Triple(Value(x), Value(y), Value(z)) && t.InRange()
    && if z == [] then s == x + "." + y else s == x + "." + y + "." + z + tail && (tail == [] || tail[0] == '.')
  }

  ghost predicate Denotes(s: string, t: Triple) {
    exists x, y, z, tail :: Spells(s, t, x, y, z, tail)
  }

  /** The end of the run of digits that starts at `i`. */
  function DigitsEnd(s: string, i: nat): (e: nat)
    requires i <= |s|
    ensures i <= e <= |s| && Digits(s[i..e]) && (e < |s| ==> !IsDigit(s[e]))
    decreases |s| - i
  {
    if i < |s| && IsDigit(s[i]) then
      var e := DigitsEnd(s, i + 1);
      assert s[i..e] == [s[i]] + s[i + 1..e];
      e
    else i
  }

  function Parse(s: string): Option<Triple> {
    var a := DigitsEnd(s, 0);
    if a == 0 || a == |s| || s[a] != '.' then None else
    var b := DigitsEnd(s, a + 1);
    if b == a + 1 || (b < |s| && s[b] != '.') then None else
    if b == |s| then Checked(s[..a], s[a + 1..b], "") else
    var c := DigitsEnd(s, b + 1);
    if c == b + 1 || (c < |s| && s[c] != '.') then None else
    Checked(s[0..a], s[a + 1..b], s[b + 1..c])
  }

  function Checked(x: string, y: string, z: string): Option<Triple>
    requires Digits(x) && Digits(y) && Digits(z)
  {
    var t := Triple(Value(x), Value(y), Value(z));
    if t.InRange() then Some(t) else None
  }

  function Pack(t: Triple): nat {
    t.major * 0x10_0000 + t.minor * 0x400 + t.patch
  }

  /** What the version handler answers for a version string; None is INVALID_ARG. */
  function Encode(s: string): Option<nat> {
    match Parse(s)
    case Some(t) => Some(Pack(t))
    case None => None
  }

  lemma EndOfDigits(s: string, i: nat, e: nat)
    requires i <= e <= |s| && Digits(s[i..e]) && (e < |s| ==> !IsDigit(s[e]))
    ensures DigitsEnd(s, i) == e
    decreases e - i
  {
    if i < e {
      assert s[i..e][0] == s[i];
      assert s[i + 1..e] == s[i..e][1..];
      EndOfDigits(s, i + 1, e);
    }
  }

  /** The scanner accepts exactly the grammar, and a string denotes at most one triple. */
  lemma ParseIsGrammar(s: string, t: Triple)
    ensures Parse(s) == Some(t) <==> Denotes(s, t)
  {
    if Parse(s) == Some(t) {
      ParseSpells(s, t);
    }
    if Denotes(s, t) {
      var x, y, z, tail :| Spells(s, t, x, y, z, tail);
      SpellsParse(s, t, x, y, z, tail);
    }
  }

  lemma ParseSpells(s: string, t: Triple)
    requires Parse(s) == Some(t)
    ensures Denotes(s, t)
  {
    var a := DigitsEnd(s, 0);
    var b := DigitsEnd(s, a + 1);
    assert s[..a] == s[0..a];
    if b == |s| {
      TwoFields(s, a);
      assert Spells(s, t, s[0..a], s[a + 1..b], "", "");
    } else {
      var c := DigitsEnd(s, b + 1);
      ThreeFields(s, a, b, c);
      assert Spells(s, t, s[0..a], s[a + 1..b], s[b + 1..c], s[c..]);
    }
  }

  lemma TwoFields(s: string, a: nat)
    requires a < |s| && s[a] == '.'
    ensures s == s[0..a] + "." + s[a + 1..|s|]
  {
  }

  lemma ThreeFields(s: string, a: nat, b: nat, c: nat)
    requires a < b < c <= |s| && s[a] == s[b] == '.'
    ensures s == s[0..a] + "." + s[a + 1..b] + "." + s[b + 1..c] + s[c..]
  {
  }

  lemma ParseTwo(s: string, a: nat)
    requires 0 < a < |s| - 1 && s[a] == '.' && Digits(s[0..a]) && Digits(s[a + 1..])
    ensures Parse(s) == Checked(s[0..a], s[a + 1..], "")
  {
    EndOfDigits(s, 0, a);
    assert s[a + 1..|s|] == s[a + 1..];
    EndOfDigits(s, a + 1, |s|);
    assert s[..a] == s[0..a];
  }

  lemma ParseThree(s: string, a: nat, b: nat, c: nat)
    requires 0 < a && a + 1 < b && b + 1 < c <= |s| && s[a] == s[b] == '.' && (c < |s| ==> s[c] == '.')
    requires Digits(s[0..a]) && Digits(s[a + 1..b]) && Digits(s[b + 1..c])
    ensures Parse(s) == Checked(s[0..a], s[a + 1..b], s[b + 1..c])
  {
    EndOfDigits(s, 0, a);
    EndOfDigits(s, a + 1, b);
    EndOfDigits(s, b + 1, c);
  }

  lemma SpellsParse(s: string, t: Triple, x: string, y: string, z: string, tail: string)
    requires Spells(s, t, x, y, z, tail)
    ensures Parse(s) == Some(t)
  {
    if z == [] {
      assert s[..|s|] == x + "." + y;
      Peel(s, x + ".", y);
      Peel(s, x, ".");
      Peel(s, "", x);
      assert s[|x|..|x| + 1][0] == '.';
      assert s[|x| + 1..] == s[|x| + 1..|s|];
      ParseTwo(s, |x|);
    } else {
      var u := x + "." + y + "." + z;
      assert s[..|s|] == u + tail;
      Peel(s, u, tail);
      Peel(s, x + "." + y + ".", z);
      Peel(s, x + "." + y, ".");
      Peel(s, x + ".", y);
      Peel(s, x, ".");
      Peel(s, "", x);
      assert s[|x|..|x| + 1][0] == '.';
      assert s[|x + "." + y|..|x + "." + y| + 1][0] == '.';
      assert tail != [] ==> s[|u|..|u| + |tail|][0] == '.';
      ParseThree(s, |x|, |x + "." + y|, |u|);
    }
  }

  lemma Peel(s: string, before: string, piece: string)
    requires |before| + |piece| <= |s| && s[..|before| + |piece|] == before + piece
    ensures s[..|before|] == before && s[|before|..|before| + |piece|] == piece
  {
    assert s[..|before|] == s[..|before| + |piece|][..|before|];
    assert s[|before|..|before| + |piece|] == s[..|before| + |piece|][|before|..];
  }

  lemma ValueGrows(s: string, k: nat)
    requires Digits(s) && k <= |s|
    ensures Value(s[..k]) <= Value(s)
  {
    if k < |s| {
      assert s[..|s| - 1][..k] == s[..k];
      ValueGrows(s[..|s| - 1], k);
    } else {
      assert s[..k] == s;
    }
  }

  /** The packed value fits 30 bits, and comparing packed values compares releases. */
  lemma PackIsOrder(a: Triple, b: Triple)
    requires a.InRange() && b.InRange()
    ensures Pack(a) < 0x4000_0000
    ensures Pack(a) < Pack(b) <==> a.Less(b)
    ensures Pack(a) == Pack(b) <==> a == b
  {
  }

  /** The shift-and-or form of the packing is the sum above: the three fields never overlap. */
  lemma PackIsShiftOr(a: bv32, b: bv32, c: bv32)
    requires a <= 1023 && b <= 1023 && c <= 1023
    ensures (a << 20) | (b << 10) | c == a * 0x10_0000 + b * 0x400 + c
    ensures (a << 20) | (b << 10) | c < 0x4000_0000
  {
  }

  function DecimalDigit(n: nat): (c: char)
    requires n < 10
    ensures IsDigit(c) && DigitValue(c) == n
  {
    '0' + n as char
  }

  function Decimal(n: nat): (s: string)
    ensures Numeral(s) && Value(s) == n
  {
    if n < 10 then
      assert Value([DecimalDigit(n)]) == Value([]) * 10 + n;
      [DecimalDigit(n)]
    else
      var s := Decimal(n / 10) + [DecimalDigit(n % 10)];
      assert s[..|s| - 1] == Decimal(n / 10);
      s
  }

  function Print(t: Triple): string {
    Decimal(t.major) + "." + Decimal(t.minor) + "." + Decimal(t.patch)
  }

  lemma PrintParse(t: Triple)
    requires t.InRange()
    ensures Parse(Print(t)) == Some(t)
    ensures Parse(Decimal(t.major) + "." + Decimal(t.minor)) == Some(t.(patch := 0))
  {
    var x, y, z := Decimal(t.major), Decimal(t.minor), Decimal(t.patch);
    assert Print(t) == x + "." + y + "." + z + "";
    SpellsParse(Print(t), t, x, y, z, "");
    SpellsParse(x + "." + y, t.(patch := 0), x, y, "", "");
  }

  /** Everything the three loop variables of the parser say about the characters already read:
      field `idx` started at `start`, its digits so far are worth `fields[idx]`, and the fields
      before it are exactly the ones the grammar finds. */
  ghost predicate Scanned(s: string, i: nat, fields: seq<nat>, idx: int, start: nat) {
    && start <= i <= |s| && |fields| == 3 && 0 <= idx <= 2
    && Digits(s[start..i]) && fields[idx] == Value(s[start..i])
    && (forall k | 0 <= k < 3 :: fields[k] <= FIELD_MAX)
    && (forall k | idx < k < 3 :: fields[k] == 0)
    && (idx == 0 ==> start == 0)
    && (idx >= 1 ==>
          var a := DigitsEnd(s, 0);
          && 0 < a < |s| && s[a] == '.' && fields[0] == Value(s[0..a])
          && (idx == 1 ==> start == a + 1)
          && (idx == 2 ==>
                var b := DigitsEnd(s, a + 1);
                a + 1 < b < |s| && s[b] == '.' && start == b + 1 && fields[1] == Value(s[a + 1..b])))
  }

  lemma DigitsReach(s: string, i: nat, e: nat)
    requires i <= e <= |s| && Digits(s[i..e])
    ensures e <= DigitsEnd(s, i)
    decreases e - i
  {
    if i < e {
      assert s[i..e][0] == s[i];
      assert s[i + 1..e] == s[i..e][1..];
      DigitsReach(s, i + 1, e);
    }
  }

  lemma ReadDigit(s: string, i: nat, start: nat)
    requires start <= i < |s| && Digits(s[start..i]) && IsDigit(s[i])
    ensures Digits(s[start..i + 1])
    ensures Value(s[start..i + 1]) == Value(s[start..i]) * 10 + DigitValue(s[i])
    ensures Value(s[start..i + 1]) <= Value(s[start..DigitsEnd(s, start)])
  {
    var d := s[start..i + 1];
    assert d[..|d| - 1] == s[start..i];
    var e := DigitsEnd(s, start);
    DigitsReach(s, start, i + 1);
    assert s[start..e][..i + 1 - start] == d;
    ValueGrows(s[start..e], i + 1 - start);
  }

  lemma ScanDigit(s: string, i: nat, fields: seq<nat>, idx: int, start: nat)
    requires Scanned(s, i, fields, idx, start) && i < |s| && IsDigit(s[i])
    ensures var v := fields[idx] * 10 + DigitValue(s[i]);
            if v > FIELD_MAX then Parse(s) == None else Scanned(s, i + 1, fields[idx := v], idx, start)
  {
    ReadDigit(s, i, start);
    assert s[..DigitsEnd(s, 0)] == s[0..DigitsEnd(s, 0)];
  }

  lemma ScanDot(s: string, i: nat, fields: seq<nat>, idx: int, start: nat)
    requires Scanned(s, i, fields, idx, start) && start < i < |s| && s[i] == '.' && idx < 2
    ensures Scanned(s, i + 1, fields, idx + 1, i + 1)
  {
    EndOfDigits(s, start, i);
    assert s[i + 1..i + 1] == [];
  }

  /** The three ways to stop without a version: an empty field, a stray character, too few fields. */
  lemma ScanReject(s: string, i: nat, fields: seq<nat>, idx: int, start: nat)
    requires Scanned(s, i, fields, idx, start) && (i < |s| ==> !IsDigit(s[i]))
    requires start == i || (i < |s| && s[i] != '.') || (i == |s| && idx < 1)
    ensures Parse(s) == None
  {
    EndOfDigits(s, start, i);
  }

  lemma ScanAccept(s: string, i: nat, fields: seq<nat>, idx: int, start: nat)
    requires Scanned(s, i, fields, idx, start) && start < i && idx >= 1
    requires i < |s| ==> s[i] == '.' && idx == 2
    ensures Parse(s) == Some(Triple(fields[0], fields[1], fields[2]))
  {
    EndOfDigits(s, start, i);
    assert s[..DigitsEnd(s, 0)] == s[0..DigitsEnd(s, 0)];
  }

  /** `__default_version_to_uint32`. */
  method VersionToUint32(s: string) returns (r: Option<nat>)
    ensures r == Encode(s)
    ensures r.Some? <==> exists t :: Denotes(s, t)
    ensures r.Some? ==> exists t :: Denotes(s, t) && r.value == Pack(t)
  {
    r := Scan(s);
    if r.Some? {
      ParseIsGrammar(s, Parse(s).value);
    } else {
      forall t ensures !Denotes(s, t) {
        ParseIsGrammar(s, t);
      }
    }
  }

  method Scan(s: string) returns (r: Option<nat>)
    ensures r == Encode(s)
  {
    if s == [] {
      return None;
    }
    var fields := new nat[3](_ => 0);
    var fieldIdx := 0;
    var fieldHasDigit := false;
    ghost var start := 0;
    var i := 0;
    while i < |s|
      invariant i <= |s| && Scanned(s, i, fields[..], fieldIdx, start)
      invariant fieldHasDigit <==> start < i
    {
      var c := s[i];
      if c == '.' {
        if !fieldHasDigit {
          ScanReject(s, i, fields[..], fieldIdx, start);
          return None;
        }
        if fieldIdx == 2 {
          break;
        }
        ScanDot(s, i, fields[..], fieldIdx, start);
        fieldIdx := fieldIdx + 1;
        fieldHasDigit := false;
        start := i + 1;
      } else {
        if !IsDigit(c) {
          ScanReject(s, i, fields[..], fieldIdx, start);
          return None;
        }
        ScanDigit(s, i, fields[..], fieldIdx, start);
        fields[fieldIdx] := fields[fieldIdx] * 10 + DigitValue(c);
        if fields[fieldIdx] > FIELD_MAX {
          return None;
        }
        fieldHasDigit := true;
      }
      i := i + 1;
    }
    if fieldIdx < 1 || !fieldHasDigit {
      ScanReject(s, i, fields[..], fieldIdx, start);
      return None;
    }
    ScanAccept(s, i, fields[..], fieldIdx, start);
    r := Some(Pack(Triple(fields[0], fields[1], fields[2])));
  }
}
