/**
 JSON values as JavaScript holds them after `JSON.parse`: strings are sequences of UTF-16 code units,
 a number is identified with the text `Number::toString` prints for it, and an object is its own
 enumerable properties in enumeration order.
 */
module JsonValue {

  type CodeUnit = n: int | 0 <= n < 0x1_0000
  type Text = seq<CodeUnit>

  datatype Member = Member(key: Text, value: Value)

  datatype Value =
    | Null
    | Bool(b: bool)
    | Number(text: Text)
    | String(s: Text)
    | Array(items: seq<Value>)
    | Object(members: seq<Member>)

  /** An ASCII literal as code units. */
  function Ascii(s: string): (t: Text)
    requires forall i :: 0 <= i < |s| ==> s[i] as int < 128
    ensures |t| == |s| && forall i :: 0 <= i < |s| ==> t[i] == s[i] as int
  {
    seq(|s|, i requires 0 <= i < |s| => s[i] as int)
  }

  function Keys(ms: seq<Member>): (keys: set<Text>)
    ensures forall k :: k in keys <==> exists i :: 0 <= i < |ms| && ms[i].key == k
  {
    set i | 0 <= i < |ms| :: ms[i].key
  }

  predicate DistinctKeys(ms: seq<Member>) {
    forall i, j :: 0 <= i < j < |ms| ==> ms[i].key != ms[j].key
  }

  predicate IsDigit(c: CodeUnit) {
    '0' as int <= c <= '9' as int
  }

  /** The characters `Number::toString` can use for a finite number. */
  predicate IsNumberChar(c: CodeUnit) {
    IsDigit(c) || c == '-' as int || c == '+' as int || c == '.' as int || c == 'e' as int
  }

  predicate IsNumberText(t: Text) {
    && |t| > 0
    && (IsDigit(t[0]) || t[0] == '-' as int)
    && forall i :: 0 <= i < |t| ==> IsNumberChar(t[i])
  }

  /** What JSON.parse can produce: printable numbers, and no two properties of one object share a key. */
  predicate WellFormed(v: Value) {
    match v
    case Number(t) => IsNumberText(t)
    case Array(xs) => forall i :: 0 <= i < |xs| ==> WellFormed(xs[i])
    case Object(ms) => DistinctKeys(ms) && forall i :: 0 <= i < |ms| ==> WellFormed(ms[i].value)
    case _ => true
  }
}
