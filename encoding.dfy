/**
 * The decoding of database values in `encoding_utils`: bytes are decoded
 * as UTF-8 when they are well formed (the grammar of section 4 of RFC
 * 3629), and otherwise as ISO/IEC 8859-1, which maps every byte to the
 * character with the same code and so never fails.
 */
module Encoding {
  import opened Wrappers
  import opened Text
  import opened Dicts

  type byte = x: int | 0 <= x < 256

  /** A value of a database row, as far as the decoding tells them apart. */
  datatype Value = Null | Bytes(bytes: seq<byte>) | Str(s: string) | Int(n: int) | Bool(b: bool)

  // ---------------------------------------------------------------------
  // UTF-8 (RFC 3629, section 4)
  // ---------------------------------------------------------------------

  predicate IsTail(x: byte) { 0x80 <= x <= 0xBF }

  /** The second byte of a three-byte sequence: no overlong forms after E0, no surrogates after ED. */
  predicate SecondOf3(b0: byte, b1: byte) {
    if b0 == 0xE0 then 0xA0 <= b1 <= 0xBF
    else if b0 == 0xED then 0x80 <= b1 <= 0x9F
    else IsTail(b1)
  }

  /** The second byte of a four-byte sequence: no overlong forms after F0, nothing past U+10FFFF after F4. */
  predicate SecondOf4(b0: byte, b1: byte) {
    if b0 == 0xF0 then 0x90 <= b1 <= 0xBF
    else if b0 == 0xF4 then 0x80 <= b1 <= 0x8F
    else IsTail(b1)
  }

  /** The code point of a two-, three- or four-byte sequence: the payload bits of each byte, in order. */
  function Value2(b0: byte, b1: byte): int {
    (b0 as int - 0xC0) * 64 + (b1 as int - 0x80)
  }

  function Value3(b0: byte, b1: byte, b2: byte): int {
    (b0 as int - 0xE0) * 4096 + (b1 as int - 0x80) * 64 + (b2 as int - 0x80)
  }

  function Value4(b0: byte, b1: byte, b2: byte, b3: byte): int {
    (b0 as int - 0xF0) * 262144 + (b1 as int - 0x80) * 4096 + (b2 as int - 0x80) * 64 + (b3 as int - 0x80)
  }

  /** The first character of `b` and the number of bytes it takes, when `b` starts with a well-formed sequence. */
  function DecodeFirst(b: seq<byte>): (r: Option<(char, nat)>)
    requires |b| > 0
    ensures r.Some? ==> 1 <= r.value.1 <= 4 && r.value.1 <= |b|
  {
    var b0 := b[0];
    if b0 <= 0x7F then Some((b0 as char, 1))
    else if 0xC2 <= b0 <= 0xDF then
      if |b| >= 2 && IsTail(b[1]) then Some((Value2(b0, b[1]) as char, 2)) else None
    else if 0xE0 <= b0 <= 0xEF then
      if |b| >= 3 && SecondOf3(b0, b[1]) && IsTail(b[2]) then Some((Value3(b0, b[1], b[2]) as char, 3))
      else None
    else if 0xF0 <= b0 <= 0xF4 then
      if |b| >= 4 && SecondOf4(b0, b[1]) && IsTail(b[2]) && IsTail(b[3]) then
        Some((Value4(b0, b[1], b[2], b[3]) as char, 4))
      else None
    else None
  }

  /** `b.decode('utf-8')`: `None` where Python raises `UnicodeDecodeError`. */
  function DecodeUtf8(b: seq<byte>): Option<string>
    decreases |b|
  {
    if |b| == 0 then Some("")
    else match DecodeFirst(b)
      case None => None
      case Some((c, n)) =>
        match DecodeUtf8(b[n..])
        case None => None
        case Some(rest) => Some([c] + rest)
  }

  /** The UTF-8 encoding of one character. */
  function EncodeChar(c: char): (r: seq<byte>)
    ensures 1 <= |r| <= 4
  {
    var v := c as int;
    if v < 0x80 then [v]
    else if v < 0x800 then [0xC0 + v / 64, 0x80 + v % 64]
    else if v < 0x10000 then [0xE0 + v / 4096, 0x80 + v / 64 % 64, 0x80 + v % 64]
    else [0xF0 + v / 262144, 0x80 + v / 4096 % 64, 0x80 + v / 64 % 64, 0x80 + v % 64]
  }

  /** `s.encode('utf-8')`. */
  function EncodeUtf8(s: string): seq<byte>
    decreases |s|
  {
    if |s| == 0 then [] else EncodeChar(s[0]) + EncodeUtf8(s[1..])
  }

  /** The encoding of a character is decoded back to it, whatever follows. */
  lemma DecodeFirstOfEncode(c: char, rest: seq<byte>)
    ensures DecodeFirst(EncodeChar(c) + rest) == Some((c, |EncodeChar(c)|))
  {
    var v := c as int;
    if v < 0x80 {
    } else if v < 0x800 {
      DecodeFirstOf2(c, rest);
    } else if v < 0x10000 {
      DecodeFirstOf3(c, rest);
    } else {
      DecodeFirstOf4(c, rest);
    }
  }

  lemma DecodeFirstOf2(c: char, rest: seq<byte>)
    requires 0x80 <= c as int < 0x800
    ensures DecodeFirst(EncodeChar(c) + rest) == Some((c, 2))
  {
    var v := c as int;
    var b := EncodeChar(c) + rest;
    assert b[0] == 0xC0 + v / 64 && b[1] == 0x80 + v % 64;
    assert Value2(b[0], b[1]) == v;
  }

  lemma DecodeFirstOf3(c: char, rest: seq<byte>)
    requires 0x800 <= c as int < 0x10000
    ensures DecodeFirst(EncodeChar(c) + rest) == Some((c, 3))
  {
    var v := c as int;
    var b := EncodeChar(c) + rest;
    assert b[0] == 0xE0 + v / 4096 && b[1] == 0x80 + v / 64 % 64 && b[2] == 0x80 + v % 64;
    Digits64Of3(v);
    assert Value3(b[0], b[1], b[2]) == v;
    assert SecondOf3(b[0], b[1]);
  }

  lemma Digits64Of3(v: int)
    requires 0x800 <= v < 0x10000
    ensures v == v / 4096 * 4096 + v / 64 % 64 * 64 + v % 64
  {
    assert v / 64 == v / 4096 * 64 + v / 64 % 64;
  }

  lemma DecodeFirstOf4(c: char, rest: seq<byte>)
    requires 0x10000 <= c as int
    ensures DecodeFirst(EncodeChar(c) + rest) == Some((c, 4))
  {
    var v := c as int;
    var b := EncodeChar(c) + rest;
    assert b[0] == 0xF0 + v / 262144 && b[1] == 0x80 + v / 4096 % 64;
    assert b[2] == 0x80 + v / 64 % 64 && b[3] == 0x80 + v % 64;
    Digits64Of4(v);
    assert Value4(b[0], b[1], b[2], b[3]) == v;
    assert SecondOf4(b[0], b[1]);
  }

  lemma Digits64Of4(v: int)
    requires 0x10000 <= v < 0x110000
    ensures v == v / 262144 * 262144 + v / 4096 % 64 * 4096 + v / 64 % 64 * 64 + v % 64
  {
    assert v / 64 == v / 4096 * 64 + v / 64 % 64;
    assert v / 4096 == v / 262144 * 64 + v / 4096 % 64;
  }

  lemma EncodeValue2(b0: byte, b1: byte)
    requires 0xC2 <= b0 <= 0xDF && IsTail(b1)
    ensures EncodeChar(Value2(b0, b1) as char) == [b0, b1]
  {
    var v := Value2(b0, b1);
    assert v / 64 == b0 as int - 0xC0 && v % 64 == b1 as int - 0x80;
  }

  lemma EncodeValue3(b0: byte, b1: byte, b2: byte)
    requires 0xE0 <= b0 <= 0xEF && SecondOf3(b0, b1) && IsTail(b2)
    ensures Value3(b0, b1, b2) < 0xD800 || 0xE000 <= Value3(b0, b1, b2) < 0x10000
    ensures EncodeChar(Value3(b0, b1, b2) as char) == [b0, b1, b2]
  {
    var v := Value3(b0, b1, b2);
    var x0, x1, x2 := b0 as int - 0xE0, b1 as int - 0x80, b2 as int - 0x80;
    assert v / 64 == x0 * 64 + x1 && v % 64 == x2;
    assert v / 4096 == x0;
    assert v / 64 % 64 == x1;
  }

  lemma EncodeValue4(b0: byte, b1: byte, b2: byte, b3: byte)
    requires 0xF0 <= b0 <= 0xF4 && SecondOf4(b0, b1) && IsTail(b2) && IsTail(b3)
    ensures 0x10000 <= Value4(b0, b1, b2, b3) < 0x110000
    ensures EncodeChar(Value4(b0, b1, b2, b3) as char) == [b0, b1, b2, b3]
  {
    var v := Value4(b0, b1, b2, b3);
    var x0, x1, x2, x3 := b0 as int - 0xF0, b1 as int - 0x80, b2 as int - 0x80, b3 as int - 0x80;
    assert v / 64 == (x0 * 64 + x1) * 64 + x2 && v % 64 == x3;
    assert v / 4096 == x0 * 64 + x1;
    assert v / 262144 == x0;
    assert v / 4096 % 64 == x1 && v / 64 % 64 == x2;
  }

  /** A well-formed first sequence is the encoding of the character it decodes to. */
  lemma EncodeOfDecodeFirst(b: seq<byte>)
    requires |b| > 0 && DecodeFirst(b).Some?
    ensures EncodeChar(DecodeFirst(b).value.0) == b[..DecodeFirst(b).value.1]
  {
    var n := DecodeFirst(b).value.1;
    if n == 2 {
      EncodeValue2(b[0], b[1]);
    } else if n == 3 {
      EncodeValue3(b[0], b[1], b[2]);
    } else if n == 4 {
      EncodeValue4(b[0], b[1], b[2], b[3]);
    }
  }

  /** Every string survives a UTF-8 round trip. */
  lemma {:induction false} DecodeOfEncode(s: string)
    ensures DecodeUtf8(EncodeUtf8(s)) == Some(s)
    decreases |s|
  {
    if |s| > 0 {
      var e := EncodeChar(s[0]);
      DecodeFirstOfEncode(s[0], EncodeUtf8(s[1..]));
      DecodeOfEncode(s[1..]);
      assert (e + EncodeUtf8(s[1..]))[|e|..] == EncodeUtf8(s[1..]);
      assert [s[0]] + s[1..] == s;
    }
  }

  /** Bytes that decode are exactly the encoding of what they decode to. */
  lemma {:induction false} EncodeOfDecode(b: seq<byte>)
    requires DecodeUtf8(b).Some?
    ensures EncodeUtf8(DecodeUtf8(b).value) == b
    decreases |b|
  {
    if |b| > 0 {
      DecodeUtf8Step(b);
      var (c, n) := DecodeFirst(b).value;
      EncodeOfDecodeFirst(b);
      EncodeOfDecode(b[n..]);
      EncodeCons(c, DecodeUtf8(b[n..]).value);
      TakeDrop(b, n);
    }
  }

  lemma TakeDrop(b: seq<byte>, n: nat)
    requires n <= |b|
    ensures b[..n] + b[n..] == b
  {}

  /** A decoding that succeeds is the first character followed by the decoding of the rest. */
  lemma DecodeUtf8Step(b: seq<byte>)
    requires |b| > 0 && DecodeUtf8(b).Some?
    ensures DecodeFirst(b).Some?
    ensures DecodeUtf8(b[DecodeFirst(b).value.1..]).Some?
    ensures DecodeUtf8(b).value == [DecodeFirst(b).value.0] + DecodeUtf8(b[DecodeFirst(b).value.1..]).value
  {}

  lemma EncodeCons(c: char, rest: string)
    ensures EncodeUtf8([c] + rest) == EncodeChar(c) + EncodeUtf8(rest)
  {
    assert ([c] + rest)[0] == c && ([c] + rest)[1..] == rest;
  }

  /** Well-formed UTF-8: the bytes that are the encoding of some string. */
  predicate WellFormedUtf8(b: seq<byte>) {
    DecodeUtf8(b).Some?
  }

  lemma WellFormedIffEncoding(b: seq<byte>)
    ensures WellFormedUtf8(b) <==> exists s :: EncodeUtf8(s) == b
  {
    if WellFormedUtf8(b) {
      EncodeOfDecode(b);
    }
    if exists s :: EncodeUtf8(s) == b {
      var s :| EncodeUtf8(s) == b;
      DecodeOfEncode(s);
    }
  }

  // ---------------------------------------------------------------------
  // ISO/IEC 8859-1 and the cascade
  // ---------------------------------------------------------------------

  /** `b.decode('latin1')`: every byte is the character with that code. */
  function DecodeLatin1(b: seq<byte>): (r: string)
    ensures |r| == |b| && forall i :: 0 <= i < |b| ==> r[i] as int == b[i]
  {
    seq(|b|, i requires 0 <= i < |b| => b[i] as char)
  }

  /**
   * The bytes branch of `safe_decode`: UTF-8 when it decodes, else
   * Latin-1.  Latin-1 decodes every byte sequence, so the later branches
   * (cp1252, iso-8859-15, `str()`) are never reached.
   */
  function DecodeBytes(b: seq<byte>): string {
    match DecodeUtf8(b)
    case Some(s) => s
    case None => DecodeLatin1(b)
  }

  /** `safe_decode(value)`. */
  function SafeDecode(v: Value): (r: Value)
    ensures v.Bytes? ==> r.Str?
    ensures !v.Bytes? ==> r == v
  {
    match v
    case Bytes(b) => Str(DecodeBytes(b))
    case _ => v
  }

  /** The text of a UTF-8 encoding is recovered exactly. */
  lemma SafeDecodeUtf8(s: string)
    ensures SafeDecode(Bytes(EncodeUtf8(s))) == Str(s)
  {
    DecodeOfEncode(s);
  }

  /** Bytes that are not UTF-8 are read one character per byte, with the byte's code. */
  lemma SafeDecodeLatin1(b: seq<byte>)
    requires !WellFormedUtf8(b)
    ensures SafeDecode(Bytes(b)).s == DecodeLatin1(b)
    ensures |SafeDecode(Bytes(b)).s| == |b|
  {}

  /** ASCII bytes read the same either way. */
  lemma {:induction false} AsciiIsLatin1(b: seq<byte>)
    requires forall i :: 0 <= i < |b| ==> b[i] < 0x80
    ensures DecodeUtf8(b) == Some(DecodeLatin1(b))
    decreases |b|
  {
    if |b| > 0 {
      AsciiIsLatin1(b[1..]);
      assert [DecodeLatin1(b)[0]] + DecodeLatin1(b[1..]) == DecodeLatin1(b);
    }
  }

  // ---------------------------------------------------------------------
  // Rows
  // ---------------------------------------------------------------------

  /** `row_dict[col] = safe_decode(val)` over `zip(columns, row)`, in order. */
  function RowToDict(d: Dict<Value>, columns: seq<string>, row: seq<Value>): Dict<Value>
    decreases |columns|
  {
    if |columns| == 0 || |row| == 0 then d
    else RowToDict(Put(d, columns[0], SafeDecode(row[0])), columns[1..], row[1..])
  }

  /** `row_to_dict_safe(columns, row)`. */
  method RowToDictSafe(columns: seq<string>, row: seq<Value>) returns (d: Dict<Value>)
    ensures d == RowToDict([], columns, row)
  {
    d := [];
    var i := 0;
    while i < |columns| && i < |row|
      invariant 0 <= i <= |columns| && i <= |row|
      invariant RowToDict(d, columns[i..], row[i..]) == RowToDict([], columns, row)
    {
      assert columns[i..][1..] == columns[i + 1..] && row[i..][1..] == row[i + 1..];
      d := Put(d, columns[i], SafeDecode(row[i]));
      i := i + 1;
    }
  }

  /** The number of pairs `zip` yields. */
  function ZipLength(columns: seq<string>, row: seq<Value>): nat {
    if |columns| < |row| then |columns| else |row|
  }

  /** The row dictionary never repeats a column name. */
  lemma {:induction false} RowToDictDistinct(d: Dict<Value>, columns: seq<string>, row: seq<Value>)
    requires DistinctKeys(d)
    ensures DistinctKeys(RowToDict(d, columns, row))
    decreases |columns|
  {
    if |columns| > 0 && |row| > 0 {
      PutDistinct(d, columns[0], SafeDecode(row[0]));
      RowToDictDistinct(Put(d, columns[0], SafeDecode(row[0])), columns[1..], row[1..]);
    }
  }

  /** The zipped column names, `zip` stopping at the shorter list. */
  function ZipNames(columns: seq<string>, row: seq<Value>): set<string> {
    set i | 0 <= i < ZipLength(columns, row) :: columns[i]
  }

  lemma ZipNamesCons(columns: seq<string>, row: seq<Value>)
    requires |columns| > 0 && |row| > 0
    ensures ZipNames(columns, row) == {columns[0]} + ZipNames(columns[1..], row[1..])
  {
    var n := ZipLength(columns, row);
    assert ZipLength(columns[1..], row[1..]) == n - 1;
    forall x | x in ZipNames(columns, row) ensures x in {columns[0]} + ZipNames(columns[1..], row[1..]) {
      var i :| 0 <= i < n && columns[i] == x;
      if i > 0 { assert columns[1..][i - 1] == x; }
    }
  }

  /** The row dictionary has one entry per zipped column name. */
  lemma {:induction false} RowToDictKeys(d: Dict<Value>, columns: seq<string>, row: seq<Value>)
    ensures Keys(RowToDict(d, columns, row)) == Keys(d) + ZipNames(columns, row)
    decreases |columns|
  {
    if |columns| > 0 && |row| > 0 {
      ZipNamesCons(columns, row);
      RowToDictKeys(Put(d, columns[0], SafeDecode(row[0])), columns[1..], row[1..]);
    }
  }

  /** Each name holds the decoded value of the last zipped pair with that name. */
  lemma {:induction false} RowToDictValues(d: Dict<Value>, columns: seq<string>, row: seq<Value>, i: nat)
    requires i < ZipLength(columns, row)
    requires forall j :: i < j < ZipLength(columns, row) ==> columns[j] != columns[i]
    ensures Get(RowToDict(d, columns, row), columns[i]) == Some(SafeDecode(row[i]))
    decreases |columns|
  {
    var n := ZipLength(columns, row);
    var d' := Put(d, columns[0], SafeDecode(row[0]));
    if i > 0 {
      assert columns[1..][i - 1] == columns[i] && row[1..][i - 1] == row[i];
      forall j | i - 1 < j < n - 1 ensures columns[1..][j] != columns[1..][i - 1] {
        assert columns[1..][j] == columns[j + 1];
      }
      RowToDictValues(d', columns[1..], row[1..], i - 1);
    } else {
      forall j | 0 <= j < n - 1 ensures columns[1..][j] != columns[0] {
        assert columns[1..][j] == columns[j + 1];
      }
      PutGet(d, columns[0], SafeDecode(row[0]));
      RowToDictKeeps(d', columns[1..], row[1..], columns[0]);
    }
  }

  /** A key the remaining pairs never name keeps its value. */
  lemma {:induction false} RowToDictKeeps(d: Dict<Value>, columns: seq<string>, row: seq<Value>, k: string)
    requires forall j :: 0 <= j < ZipLength(columns, row) ==> columns[j] != k
    ensures Get(RowToDict(d, columns, row), k) == Get(d, k)
    decreases |columns|
  {
    if |columns| > 0 && |row| > 0 {
      PutGet(d, columns[0], SafeDecode(row[0]));
      assert forall j :: 0 <= j < ZipLength(columns[1..], row[1..]) ==> columns[1..][j] != k by {
        forall j | 0 <= j < ZipLength(columns[1..], row[1..]) ensures columns[1..][j] != k {
          assert columns[1..][j] == columns[j + 1];
        }
      }
      RowToDictKeeps(Put(d, columns[0], SafeDecode(row[0])), columns[1..], row[1..], k);
    }
  }

  /** Python truthiness of a non-bytes value. */
  predicate Truthy(v: Value) {
    match v
    case Null => false
    case Bytes(b) => |b| > 0
    case Str(s) => |s| > 0
    case Int(n) => n != 0
    case Bool(b) => b
  }

  /** Python `str(v)` of a value that is not bytes. */
  function ToStr(v: Value): string
    requires !v.Bytes?
  {
    match v
    case Null => "None"
    case Str(s) => s
    case Int(n) => IntToString(n)
    case Bool(b) => if b then "True" else "False"
  }

  /** `get_field_value_safe(row_dict, field)`. */
  function GetFieldValueSafe(d: Dict<Value>, field: string): (r: string)
    ensures field !in Keys(d) ==> r == ""
    ensures Get(d, field).Some? && Get(d, field).value.Bytes? ==> r == DecodeBytes(Get(d, field).value.bytes)
    ensures Get(d, field).Some? && !Get(d, field).value.Bytes? ==>
      r == if Truthy(Get(d, field).value) then ToStr(Get(d, field).value) else ""
  {
    match Get(d, field).GetOr(Str(""))
    case Bytes(b) => SafeDecode(Bytes(b)).s
    case Null => ""
    case Str(s) => s
    case Int(n) => if n != 0 then IntToString(n) else ""
    case Bool(b) => if b then "True" else ""
  }

  /** A zero, an empty text and a null all read as the empty text. */
  lemma FalsyFieldsAreEmpty(d: Dict<Value>, field: string)
    requires Get(d, field) == Some(Int(0)) || Get(d, field) == Some(Str("")) || Get(d, field) == Some(Null)
    ensures GetFieldValueSafe(d, field) == ""
  {}
}
