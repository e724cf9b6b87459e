/** Wire values: JSON documents as Python sees them after parsing, and the correlation keys built from them. */
module Wire {

  datatype Option<+T> = None | Some(value: T)

  /** A parsed JSON value. `Null` is Python's `None`. */
  datatype Value =
    | Null
    | Bool(b: bool)
    | Int(i: int)
    | Str(s: string)
    | List(items: seq<Value>)
    | Dict(fields: map<string, Value>)

  type Frame = map<string, Value>

  /** `frame.get(name)`: an absent field and an explicit null look the same. */
  function Get(frame: Frame, name: string): Value {
    if name in frame then frame[name] else Null
  }

  /** Python truthiness. */
  predicate Truthy(v: Value) {
    match v
    case Null => false
    case Bool(b) => b
    case Int(i) => i != 0
    case Str(s) => s != ""
    case List(items) => items != []
    case Dict(fields) => fields != map[]
  }

  datatype Key = IntKey(n: int) | StrKey(s: string)

  /** What a dialect finds where the correlation id should be. Looking up a list or an object in a
      Python dict raises, so it is kept apart from "no key". */
  datatype Correlation = NoKey | Keyed(key: Key) | Unhashable

  /** Python hashes `True` and `1` alike, so a boolean id is the integer it equals. */
  function KeyOf(v: Value): Correlation {
    match v
    case Null => NoKey
    case Bool(b) => Keyed(IntKey(if b then 1 else 0))
    case Int(i) => Keyed(IntKey(i))
    case Str(s) => Keyed(StrKey(s))
    case List(_) => Unhashable
    case Dict(_) => Unhashable
  }

  /** Whether Python's `==` holds between two ids that can be looked up: like kinds compare by value, and `True` and
      `False` equal 1 and 0. */
  predicate SameId(v: Value, w: Value) {
    || v == w
    || (v.Bool? && w.Int? && w.i == if v.b then 1 else 0)
    || (v.Int? && w.Bool? && v.i == if w.b then 1 else 0)
  }

  /** Two ids find the same entry exactly if Python holds them equal; null is no id, and a list or an object cannot be
      looked up. */
  lemma KeysAreIds(v: Value, w: Value)
    ensures (KeyOf(v).NoKey? <==> v == Null) && (KeyOf(v).Unhashable? <==> v.List? || v.Dict?)
    ensures KeyOf(v).Keyed? && KeyOf(w).Keyed? ==> (KeyOf(v) == KeyOf(w) <==> SameId(v, w))
    ensures v.Int? ==> KeyOf(v) == Keyed(IntKey(v.i))
    ensures v.Str? ==> KeyOf(v) == Keyed(StrKey(v.s))
  {
  }

  /** The reserved slot of the application-level ping. */
  const PONG_KEY := StrKey("__pong__")

  predicate IsPong(frame: Frame) {
    Get(frame, "event") == Str("pong")
  }

  predicate IsError(frame: Frame) {
    Get(frame, "event") == Str("error")
  }

  // ---- decimal numerals, as `str(n)` prints them -------------------------------------------

  function Digit(n: nat): (c: char)
    requires n < 10
  {
    ('0' as int + n) as char
  }

  function Decimal(n: nat): string {
    if n < 10 then [Digit(n)] else Decimal(n / 10) + [Digit(n % 10)]
  }

  function ParseDecimal(s: string): int {
    if s == "" then 0
    else ParseDecimal(s[..|s| - 1]) * 10 + (s[|s| - 1] as int - '0' as int)
  }

  /** Reading a printed number gives the number back, so printing is injective. */
  lemma {:induction false} DecimalRoundTrip(n: nat)
    ensures ParseDecimal(Decimal(n)) == n
  {
    if n < 10 {
      assert ParseDecimal(Decimal(n)[..0]) == 0;
    } else {
      DecimalRoundTrip(n / 10);
      var s := Decimal(n);
      assert s[..|s| - 1] == Decimal(n / 10);
    }
  }

  /** A printed number starts with a digit; in particular it is never the reserved slot's name. */
  lemma {:induction false} DecimalStartsWithDigit(n: nat)
    ensures Decimal(n) != "" && '0' <= Decimal(n)[0] <= '9'
    ensures StrKey(Decimal(n)) != PONG_KEY
  {
    if n >= 10 {
      DecimalStartsWithDigit(n / 10);
      assert Decimal(n)[0] == Decimal(n / 10)[0];
    }
    assert PONG_KEY.s[0] == '_';
  }

  /** It is made of digits and has no leading zero. Since it reads back, it is the usual numeral. */
  lemma {:induction false} DecimalIsCanonical(n: nat)
    ensures forall i :: 0 <= i < |Decimal(n)| ==> '0' <= Decimal(n)[i] <= '9'
    ensures Decimal(n) != "" && (Decimal(n)[0] == '0' ==> n == 0)
  {
    DecimalStartsWithDigit(n);
    if n >= 10 {
      DecimalIsCanonical(n / 10);
      DecimalStartsWithDigit(n / 10);
      assert Decimal(n)[0] == Decimal(n / 10)[0];
    }
  }
}
