/** The value codec of the persistence core (`_pack` / `_unpack`): a type tag
    per column decides how a value is written and how a fetched cell is read
    back. Only the `json` module as tag triggers encoding; every other tag is
    the identity on write and a constructor call on read. */
module Codec {
  import opened Values

  /** The tags the code base passes: the `json` module, the builtins int, str,
      bool, list and dict, and no tag at all (`None`). */
  datatype Tag = Json | Int | Str | Bool | List | Dict | NoTag

  /** `json.dumps(value, ensure_ascii=False)` and `json.loads(text)`, whose
      internals are not modelled; `loads` answers `None` where Python raises
      JSONDecodeError. */
  datatype JsonCodec = JsonCodec(dumps: Value -> string, loads: string -> Option<Value>)

  /** Loading what was dumped gives the value back. */
  ghost predicate Lawful(json: JsonCodec)
  {
    forall v :: json.loads(json.dumps(v)) == Some(v)
  }

  /** `_pack`: JSON-encode under the json tag, pass the value through otherwise. */
  function Pack(v: Value, tag: Tag, json: JsonCodec): (r: Value)
    ensures tag != Json ==> r == v
    ensures tag == Json ==> r.VStr? && Bindable(r)
  {
    if tag == Json then VStr(json.dumps(v)) else v
  }

  /** `_unpack`: json.loads under the json tag, the raw cell under no tag, and
      otherwise the tag applied as a constructor, NULL included. */
  function Unpack(c: Cell, tag: Tag, json: JsonCodec): Result<Value>
  {
    match tag
    case Json =>
      (match c
       case Text(s) => (match json.loads(s) case Some(v) => Ok(v) case None => Err(JsonDecodeError))
       case _ => Err(TypeError))
    case NoTag => Ok(CellValue(c))
    case Int =>
      (match c
       case Null => Err(TypeError)
       case Integer(i) => Ok(VInt(i))
       case Text(s) => (match ParseDecimal(s) case Some(i) => Ok(VInt(i)) case None => Err(ValueError)))
    case Str =>
      (match c
       case Null => Ok(VStr("None"))
       case Integer(i) => Ok(VStr(DecimalString(i)))
       case Text(s) => Ok(VStr(s)))
    case Bool =>
      (match c
       case Null => Ok(VBool(false))
       case Integer(i) => Ok(VBool(i != 0))
       case Text(s) => Ok(VBool(s != "")))
    case List =>
      (match c
       case Text(s) => Ok(VList(seq(|s|, k requires 0 <= k < |s| => VStr([s[k]]))))
       case _ => Err(TypeError))
    case Dict =>
      // dict() of a string needs every character to be a pair: only "" passes
      (match c
       case Text(s) => if s == "" then Ok(VDict(map[])) else Err(ValueError)
       case _ => Err(TypeError))
  }

  // ---------------------------------------------------------------------
  // str(int) and int(str)

  function DigitChar(d: nat): char
    requires d < 10
  {
    ('0' as int + d) as char
  }

  predicate IsDigit(c: char)
  {
    '0' <= c <= '9'
  }

  function Digits(n: nat): (s: string)
    ensures |s| > 0
    ensures forall k :: 0 <= k < |s| ==> IsDigit(s[k])
    decreases n
  {
    if n < 10 then [DigitChar(n)] else Digits(n / 10) + [DigitChar(n % 10)]
  }

  /** `str(i)` for an int. */
  function DecimalString(i: int): string
  {
    if i < 0 then "-" + Digits(-i) else Digits(i)
  }

  function DigitsValue(s: string): int
    requires forall k :: 0 <= k < |s| ==> IsDigit(s[k])
  {
    if |s| == 0 then 0
    else DigitsValue(s[..|s| - 1]) * 10 + (s[|s| - 1] as int - '0' as int)
  }

  /** `int(s)` for a str: an optional sign and ASCII digits. */
  function ParseDecimal(s: string): Option<int>
  {
    var negative := |s| > 0 && s[0] == '-';
    var body := if |s| > 0 && (s[0] == '-' || s[0] == '+') then s[1..] else s;
    if |body| > 0 && forall k :: 0 <= k < |body| ==> IsDigit(body[k]) then
      Some(if negative then -DigitsValue(body) else DigitsValue(body))
    else None
  }

  lemma {:induction false} DigitsRoundTrip(n: nat)
    ensures DigitsValue(Digits(n)) == n
    decreases n
  {
    if n >= 10 {
      DigitsRoundTrip(n / 10);
      var s := Digits(n);
      assert s[..|s| - 1] == Digits(n / 10);
    }
  }

  /** `int(str(i)) == i`. */
  lemma DecimalRoundTrip(i: int)
    ensures ParseDecimal(DecimalString(i)) == Some(i)
  {
    if i < 0 {
      NegativeRoundTrip(-i);
    } else {
      DigitsRoundTrip(i);
      UnsignedParse(Digits(i));
    }
  }

  /** A run of digits without a sign parses as its value. */
  lemma UnsignedParse(s: string)
    requires |s| > 0 && forall k :: 0 <= k < |s| ==> IsDigit(s[k])
    ensures ParseDecimal(s) == Some(DigitsValue(s))
  {
    assert IsDigit(s[0]);
    assert s[0] != '-' && s[0] != '+';
  }

  lemma NegativeRoundTrip(n: nat)
    requires n > 0
    ensures ParseDecimal("-" + Digits(n)) == Some(-(n as int))
  {
    DigitsRoundTrip(n);
    var s := "-" + Digits(n);
    assert s[0] == '-' && s[1..] == Digits(n);
  }

  // ---------------------------------------------------------------------
  // Round trips through the store

  /** Under the json tag, a value is written as text and read back unchanged,
      whatever its shape. */
  lemma JsonRoundTrip(v: Value, json: JsonCodec)
    requires Lawful(json)
    ensures ToCell(Pack(v, Json, json)) == Some(Text(json.dumps(v)))
    ensures Unpack(Text(json.dumps(v)), Json, json) == Ok(v)
  {
  }

  /** The scalar tags round-trip their own kind of value: int, str, and bool
      (which the store keeps as 1 or 0). */
  lemma ScalarRoundTrip(i: int, s: string, b: bool, json: JsonCodec)
    ensures Unpack(ToCell(Pack(VInt(i), Int, json)).value, Int, json) == Ok(VInt(i))
    ensures Unpack(ToCell(Pack(VStr(s), Str, json)).value, Str, json) == Ok(VStr(s))
    ensures Unpack(ToCell(Pack(VBool(b), Bool, json)).value, Bool, json) == Ok(VBool(b))
    ensures Unpack(Text(DecimalString(i)), Int, json) == Ok(VInt(i))
  {
    DecimalRoundTrip(i);
  }

  /** A list or a dict under any tag but json is passed through unencoded,
      and the store cannot bind it. */
  lemma ContainersStayUnencoded(v: Value, tag: Tag, json: JsonCodec)
    requires v.VList? || v.VDict?
    requires tag != Json
    ensures Pack(v, tag, json) == v
    ensures !Bindable(Pack(v, tag, json))
  {
  }

  /** NULL is not read back as None: str gives "None", bool gives False, and
      int, list, dict and json raise TypeError. */
  lemma UnpackOfNull(json: JsonCodec)
    ensures Unpack(Null, Str, json) == Ok(VStr("None"))
    ensures Unpack(Null, Bool, json) == Ok(VBool(false))
    ensures Unpack(Null, NoTag, json) == Ok(VNone)
    ensures forall tag :: tag in {Int, List, Dict, Json} ==> Unpack(Null, tag, json) == Err(TypeError)
  {
  }

  /** Under the bool tag an integer cell reads as False exactly when it is 0. */
  lemma BoolOfInteger(i: int, json: JsonCodec)
    ensures Unpack(Integer(i), Bool, json) == Ok(VBool(i != 0))
  {
  }
}
