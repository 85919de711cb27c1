/** The wire format of buffered messages: a zero byte, the schema version as four big-endian
  * bytes, the payload. Versions are decimal text outside and machine integers inside. */
module Wire {
  import opened Wrappers

  type Byte = x: int | 0 <= x < 256

  const TWO_32: nat := 0x1_0000_0000

  datatype Result<T> = Ok(value: T) | Err(error: Error)
  datatype Error = InvalidVersion | StoreFailed | NotFound | TooShort | BadMagicByte

  // ----- Decimal text -----

  predicate IsDigit(c: char) { '0' <= c <= '9' }

  predicate IsDigits(s: string) {
    s != "" && forall i :: 0 <= i < |s| ==> IsDigit(s[i])
  }

  function DigitsValue(s: string): nat
    requires forall i :: 0 <= i < |s| ==> IsDigit(s[i])
  {
    if s == "" then 0
    else
      assert IsDigit(s[|s| - 1]);
      DigitsValue(s[..|s| - 1]) * 10 + (s[|s| - 1] as int - '0' as int)
  }

  /** strconv.Atoi on a 64-bit machine. */
  function Atoi(s: string): Option<int> {
    var digits := if s != "" && (s[0] == '+' || s[0] == '-') then s[1..] else s;
    if !IsDigits(digits) then None
    else
      var n: int := if s[0] == '-' then 0 - DigitsValue(digits) else DigitsValue(digits);
      if -0x8000_0000_0000_0000 <= n < 0x8000_0000_0000_0000 then Some(n) else None
  }

  function DigitOf(d: nat): char
    requires d < 10
  {
    ('0' as int + d) as char
  }

  /** strconv.Itoa of a number that is not negative. */
  function Itoa(n: nat): (s: string) {
    if n < 10 then [DigitOf(n)] else Itoa(n / 10) + [DigitOf(n % 10)]
  }

  /** No sign, no leading zero. */
  predicate Canonical(s: string) {
    IsDigits(s) && (s[0] == '0' ==> |s| == 1)
  }

  lemma {:induction false} ItoaIsCanonical(n: nat)
    ensures Canonical(Itoa(n)) && DigitsValue(Itoa(n)) == n && (n > 0 ==> Itoa(n)[0] != '0')
  {
    var s := Itoa(n);
    if n < 10 {
      assert s[..0] == "";
    } else {
      ItoaIsCanonical(n / 10);
      assert s[..|s| - 1] == Itoa(n / 10);
    }
  }

  lemma LastDigit(s: string)
    requires IsDigits(s)
    ensures |s| > 1 ==> IsDigits(s[..|s| - 1])
    ensures var d := s[|s| - 1] as int - '0' as int;
      0 <= d < 10 && DigitOf(d) == s[|s| - 1] && DigitsValue(s) == DigitsValue(s[..|s| - 1]) * 10 + d
  {
    assert IsDigit(s[|s| - 1]);
  }

  lemma {:induction false} CanonicalIsItoa(s: string)
    requires Canonical(s)
    ensures Itoa(DigitsValue(s)) == s && (s[0] != '0' ==> DigitsValue(s) > 0)
  {
    var n := |s| - 1;
    LastDigit(s);
    hide DigitsValue, DigitOf;
    assert s == s[..n] + [s[n]];
    if n > 0 {
      CanonicalIsItoa(s[..n]);
    } else {
      NoDigits(s[..0]);
    }
  }

  lemma NoDigits(s: string)
    requires s == ""
    ensures DigitsValue(s) == 0
  {
  }

  // ----- Bytes -----

  /** The conversion to uint32 keeps the low 32 bits, also of a negative number. */
  function ToUint32(n: int): (u: nat)
    ensures u < TWO_32
  {
    n % TWO_32
  }

  function BigEndian(u: nat): (b: seq<Byte>)
    requires u < TWO_32
    ensures |b| == 4
  {
    [u / 0x100_0000, u / 0x1_0000 % 256, u / 0x100 % 256, u % 256]
  }

  function FromBigEndian(b: seq<Byte>): (u: nat)
    requires |b| == 4
    ensures u < TWO_32
  {
    ((b[0] as int * 256 + b[1]) * 256 + b[2]) * 256 + b[3]
  }

  lemma SplitJoin(u: nat)
    requires u < TWO_32
    ensures FromBigEndian(BigEndian(u)) == u
  {
    assert u / 0x1_0000 == u / 0x100 / 256 && u / 0x100_0000 == u / 0x1_0000 / 256;
  }

  lemma JoinSplit(b: seq<Byte>)
    requires |b| == 4
    ensures BigEndian(FromBigEndian(b)) == b
  {
    var u := FromBigEndian(b);
    var u1 := (b[0] as int * 256 + b[1]) * 256 + b[2];
    var u2 := b[0] as int * 256 + b[1];
    assert u / 0x100 == u1 && u % 256 == b[3];
    assert u / 0x1_0000 == u1 / 256 == u2 && u1 % 256 == b[2];
    assert u / 0x100_0000 == u2 / 256 == b[0] && u2 % 256 == b[1];
  }

  function Encode(u: nat, data: seq<Byte>): seq<Byte>
    requires u < TWO_32
  {
    [0] + BigEndian(u) + data
  }

  /** The schema version a framed message carries. */
  function ExtractSchemaVersion(data: seq<Byte>): Result<nat> {
    if |data| < 5 then Err(TooShort)
    else if data[0] != 0 then Err(BadMagicByte)
    else Ok(FromBigEndian(data[1..5]))
  }

  /** Framing and extraction are inverse both ways, on all bytes. */
  lemma ExtractInvertsEncode(u: nat, data: seq<Byte>)
    requires u < TWO_32
    ensures ExtractSchemaVersion(Encode(u, data)) == Ok(u) && Encode(u, data)[5..] == data
  {
    SplitJoin(u);
    assert Encode(u, data)[1..5] == BigEndian(u);
  }

  lemma EncodeInvertsExtract(bytes: seq<Byte>)
    requires ExtractSchemaVersion(bytes).Ok?
    ensures ExtractSchemaVersion(bytes).value < TWO_32
    ensures Encode(ExtractSchemaVersion(bytes).value, bytes[5..]) == bytes
  {
    JoinSplit(bytes[1..5]);
    assert bytes == [bytes[0]] + bytes[1..5] + bytes[5..];
  }

  /** What GetMessage returns for a stored value. */
  function Decode(bytes: seq<Byte>): Result<(string, seq<Byte>)> {
    match ExtractSchemaVersion(bytes)
    case Ok(u) => Ok((Itoa(u), bytes[5..]))
    case Err(e) => Err(e)
  }

  lemma CanonicalAtoi(s: string)
    requires Canonical(s) && Atoi(s).Some?
    ensures Atoi(s).value == DigitsValue(s)
  {
    assert IsDigit(s[0]);
  }

  /** Text is kept by the way through a 32-bit number exactly when it is canonical and fits. */
  lemma VersionRoundTripIff(version: string)
    requires Atoi(version).Some?
    ensures Itoa(ToUint32(Atoi(version).value)) == version <==> Canonical(version) && DigitsValue(version) < TWO_32
  {
    var u := ToUint32(Atoi(version).value);
    ItoaIsCanonical(u);
    hide Itoa, Canonical, Atoi, DigitsValue, ToUint32;
    if Canonical(version) {
      CanonicalAtoi(version);
      CanonicalIsItoa(version);
      if DigitsValue(version) < TWO_32 {
        SmallFits(DigitsValue(version));
      }
    }
  }

  lemma SmallFits(n: nat)
    requires n < TWO_32
    ensures ToUint32(n) == n
  {
  }

  /** A message comes back as it was put exactly when its version is canonical decimal text
    * of a number below 2^32; the payload always comes back. */
  lemma RoundTripIff(version: string, data: seq<Byte>)
    requires Atoi(version).Some?
    ensures var back := Decode(Encode(ToUint32(Atoi(version).value), data));
      && back.Ok? && back.value.1 == data
      && (back.value.0 == version <==> Canonical(version) && DigitsValue(version) < TWO_32)
  {
    hide Atoi, Itoa, Encode, ToUint32, Canonical, DigitsValue, ExtractSchemaVersion;
    ExtractInvertsEncode(ToUint32(Atoi(version).value), data);
    VersionRoundTripIff(version);
  }

  /** Every number the store can hold is the version of some round trip. */
  lemma EveryVersionRoundTrips(u: nat, data: seq<Byte>)
    requires u < TWO_32
    ensures Atoi(Itoa(u)) == Some(u) && Decode(Encode(u, data)) == Ok((Itoa(u), data))
  {
    ItoaIsCanonical(u);
    assert IsDigit(Itoa(u)[0]);
    ExtractInvertsEncode(u, data);
  }

  class NATSKeyValueStore {
    var bucket: map<string, seq<Byte>>
    /** Some call of the store failed. */
    ghost var disturbed: bool

    constructor ()
      ensures bucket == map[] && !disturbed
    {
      bucket, disturbed := map[], false;
    }

    method Put(key: string, value: seq<Byte>) returns (err: Option<Error>)
      modifies this
      ensures err.None? ==> bucket == old(bucket)[key := value] && disturbed == old(disturbed)
      ensures err.Some? ==> bucket == old(bucket) && disturbed && err.value == StoreFailed
    {
      var fails := *;
      if fails {
        disturbed := true;
        return Some(StoreFailed);
      }
      bucket := bucket[key := value];
      return None;
    }

    method Get(key: string) returns (r: Result<seq<Byte>>)
      modifies this`disturbed
      ensures r.Ok? ==> key in bucket && r.value == bucket[key] && disturbed == old(disturbed)
      ensures r.Err? ==>
        (r.error == StoreFailed && disturbed) || (r.error == NotFound && key !in bucket && disturbed == old(disturbed))
    {
      var fails := *;
      if fails {
        disturbed := true;
        return Err(StoreFailed);
      }
      return if key in bucket then Ok(bucket[key]) else Err(NotFound);
    }

    method PutMessage(key: string, version: string, data: seq<Byte>) returns (err: Option<Error>)
      modifies this
      ensures Atoi(version).None? ==> err == Some(InvalidVersion)
      ensures err.Some? ==> bucket == old(bucket) && (err.value == InvalidVersion || disturbed)
      ensures err == Some(InvalidVersion) ==> Atoi(version).None?
      ensures err.None? ==> bucket == old(bucket)[key := Encode(ToUint32(Atoi(version).value), data)]
    {
      var n := Atoi(version);
      if n.None? {
        return Some(InvalidVersion);
      }
      var value := new Byte[5 + |data|](_ => 0);
      value[0] := 0;
      var u := ToUint32(n.value);
      value[1], value[2], value[3], value[4] := u / 0x100_0000, u / 0x1_0000 % 256, u / 0x100 % 256, u % 256;
      for i := 0 to |data|
        invariant value[..5] == [0] + BigEndian(u)
        invariant value[5..5 + i] == data[..i]
        invariant bucket == old(bucket) && disturbed == old(disturbed)
      {
        value[5 + i] := data[i];
        assert value[5..5 + (i + 1)] == value[5..5 + i] + [data[i]];
      }
      assert value[..] == value[..5] + value[5..5 + |data|] == Encode(u, data);
      err := Put(key, value[..]);
    }

    method GetMessage(key: string) returns (r: Result<(string, seq<Byte>)>)
      modifies this`disturbed
      ensures !disturbed ==> r == if key in bucket then Decode(bucket[key]) else Err(NotFound)
      ensures r.Ok? ==> key in bucket && r == Decode(bucket[key])
    {
      var stored := Get(key);
      if stored.Err? {
        return Err(stored.error);
      }
      var value := stored.value;
      if |value| < 5 {
        return Err(TooShort);
      }
      if value[0] != 0 {
        return Err(BadMagicByte);
      }
      var version := FromBigEndian(value[1..5]);
      return Ok((Itoa(version), value[5..]));
    }
  }
}
