/** Python-level values, the cells the storage engine hands back, and the
    error outcomes of the persistence layer. */
module Values {

  datatype Option<+T> = None | Some(value: T)

  /** The Python exceptions the persistence layer can raise. */
  datatype PyError =
    | AttributeError(attr: string)  // a class attribute that was never declared
    | TypeError                     // e.g. int(None), json.loads(5)
    | ValueError                    // e.g. int("abc"), dict("ab")
    | JsonDecodeError               // json.loads on malformed text

  datatype Result<+T> = Ok(value: T) | Err(error: PyError)

  /** How a call that returns nothing ends: normally, or with an exception. */
  datatype Completion = Returned | Raised(error: PyError)

  /** The in-memory Python values that cross the persistence layer. A dict is
      compared like a Python dict, without regard to key order. */
  datatype Value =
    | VNone
    | VInt(i: int)
    | VBool(b: bool)
    | VStr(s: string)
    | VList(items: seq<Value>)
    | VDict(entries: map<string, Value>)

  /** What one column of a fetched row holds: sqlite3 returns None, int or str
      for every value this code base writes. */
  datatype Cell = Null | Integer(i: int) | Text(s: string)

  /** The Python value sqlite3 returns for a cell. */
  function CellValue(c: Cell): Value
  {
    match c
    case Null => VNone
    case Integer(i) => VInt(i)
    case Text(s) => VStr(s)
  }

  /** Binding a parameter: sqlite3 accepts None, int (bool is an int) and str;
      a list or a dict is refused. */
  function ToCell(v: Value): (r: Option<Cell>)
    ensures r.Some? <==> !v.VList? && !v.VDict?
  {
    match v
    case VNone => Some(Null)
    case VInt(i) => Some(Integer(i))
    case VBool(b) => Some(Integer(if b then 1 else 0))
    case VStr(s) => Some(Text(s))
    case VList(_) => None
    case VDict(_) => None
  }

  predicate Bindable(v: Value)
  {
    ToCell(v).Some?
  }

  /** A dict built by the entity code, keys in insertion order. */
  type Record = seq<(string, Value)>

  function Keys(r: Record): seq<string>
  {
    seq(|r|, i requires 0 <= i < |r| => r[i].0)
  }

  /** The value under key k (the first one, as keys are distinct in a dict). */
  function Lookup(r: Record, k: string): Option<Value>
  {
    if |r| == 0 then None
    else if r[0].0 == k then Some(r[0].1)
    else Lookup(r[1..], k)
  }

  /** a is a subsequence of b: b with some elements left out, order kept. */
  predicate IsSubsequence<T(==)>(a: seq<T>, b: seq<T>)
    decreases |b|
  {
    if |a| == 0 then true
    else if |b| == 0 then false
    else if a[0] == b[0] then IsSubsequence(a[1..], b[1..])
    else IsSubsequence(a, b[1..])
  }

  lemma {:induction false} SubsequenceOfSelf<T>(s: seq<T>)
    ensures IsSubsequence(s, s)
  {
    if |s| > 0 {
      SubsequenceOfSelf(s[1..]);
    }
  }

  /** Dropping the first element of a subsequence keeps it a subsequence. */
  lemma {:induction false} SubsequenceTail<T>(a: seq<T>, b: seq<T>)
    requires |a| > 0 && IsSubsequence(a, b)
    ensures IsSubsequence(a[1..], b)
    decreases |b|, 1
  {
    if a[0] == b[0] {
      SubsequenceDropFirst(a[1..], b);
    } else {
      SubsequenceTail(a, b[1..]);
      SubsequenceDropFirst(a[1..], b);
    }
  }

  /** A subsequence of b[1..] is a subsequence of b. */
  lemma {:induction false} SubsequenceDropFirst<T>(a: seq<T>, b: seq<T>)
    requires |b| > 0 && IsSubsequence(a, b[1..])
    ensures IsSubsequence(a, b)
    decreases |b|, 0
  {
    if |a| > 0 && a[0] == b[0] {
      SubsequenceTail(a, b[1..]);
    }
  }

  /** Putting the same element in front of both sides keeps the relation, and
      so does putting it in front of b alone. */
  lemma {:induction false} SubsequenceCons<T>(x: T, a: seq<T>, b: seq<T>)
    requires IsSubsequence(a, b)
    ensures IsSubsequence([x] + a, [x] + b)
    ensures IsSubsequence(a, [x] + b)
  {
    assert ([x] + a)[1..] == a;
    assert ([x] + b)[1..] == b;
    SubsequenceDropFirst(a, [x] + b);
  }
}
