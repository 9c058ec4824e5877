/**
 A reader of compact JSON texts, written from RFC 8259 alone (sections 3 to 7, without insignificant whitespace), and
 the round trip: it reads back from a printed text the very value that was printed, and leaves what follows it.
 */
module JsonReader {
  import opened Wrappers
  import opened JsonValue
  import opened JsonPrinter

  const SLASH: CodeUnit := '/' as int

  function HexValue(c: CodeUnit): (n: Option<int>)
    ensures n.Some? ==> 0 <= n.value < 16
  {
    if '0' as int <= c <= '9' as int then Some(c - '0' as int)
    else if 'a' as int <= c <= 'f' as int then Some(c - 'a' as int + 10)
    else if 'A' as int <= c <= 'F' as int then Some(c - 'A' as int + 10)
    else None
  }

  /** The four digits after `\u`. */
  function HexUnit(t: Text): Option<CodeUnit>
    requires |t| >= 4
  {
    var a, b, c, d := HexValue(t[0]), HexValue(t[1]), HexValue(t[2]), HexValue(t[3]);
    if a.Some? && b.Some? && c.Some? && d.Some? then Some(((a.value * 16 + b.value) * 16 + c.value) * 16 + d.value) else None
  }

  /** What the character after a backslash stands for, but `u`. */
  function Escaped(c: CodeUnit): Option<CodeUnit> {
    if c == QUOTE || c == BACKSLASH || c == SLASH then Some(c)
    else if c == 'b' as int then Some(0x08)
    else if c == 'f' as int then Some(0x0C)
    else if c == 'n' as int then Some(0x0A)
    else if c == 'r' as int then Some(0x0D)
    else if c == 't' as int then Some(0x09)
    else None
  }

  /** One character of a string: its code unit and how long it was written. */
  function ReadUnit(t: Text): (r: Option<(CodeUnit, nat)>)
    ensures r.Some? ==> 1 <= r.value.1 <= |t|
  {
    if |t| == 0 || t[0] < 0x20 || t[0] == QUOTE then None
    else if t[0] != BACKSLASH then Some((t[0], 1))
    else if |t| >= 6 && t[1] == 'u' as int then
      match HexUnit(t[2..]) case Some(c) => Some((c, 6)) case None => None
    else if |t| >= 2 then
      match Escaped(t[1]) case Some(c) => Some((c, 2)) case None => None
    else None
  }

  /** The rest of a string, after its opening quote: the contents, and what comes after the closing quote. */
  function ReadString(t: Text): (r: Option<(Text, Text)>)
    ensures r.Some? ==> |r.value.1| < |t|
    decreases |t|
  {
    if |t| > 0 && t[0] == QUOTE then Some(([], t[1..]))
    else match ReadUnit(t)
      case None => None
      case Some((c, n)) =>
        match ReadString(t[n..])
        case None => None
        case Some((s, rest)) => Some(([c] + s, rest))
  }

  /** The longest run of characters a number can have. */
  function NumberLength(t: Text): (n: nat)
    ensures n <= |t|
  {
    if |t| > 0 && IsNumberChar(t[0]) then 1 + NumberLength(t[1..]) else 0
  }

  function ReadLiteral(t: Text, word: Text, v: Value): (r: Option<(Value, Text)>)
    ensures r.Some? ==> |r.value.1| + |word| == |t|
  {
    if word <= t then Some((v, t[|word|..])) else None
  }

  function ReadValue(t: Text): (r: Option<(Value, Text)>)
    ensures r.Some? ==> |r.value.1| < |t|
    decreases |t|, 0
  {
    if |t| == 0 then None
    else if t[0] == 'n' as int then ReadLiteral(t, Ascii("null"), Null)
    else if t[0] == 't' as int then ReadLiteral(t, Ascii("true"), Bool(true))
    else if t[0] == 'f' as int then ReadLiteral(t, Ascii("false"), Bool(false))
    else if t[0] == QUOTE then
      match ReadString(t[1..]) case Some((s, rest)) => Some((String(s), rest)) case None => None
    else if t[0] == OPEN_BRACKET then
      match ReadItems(t[1..], true) case Some((xs, rest)) => Some((Array(xs), rest)) case None => None
    else if t[0] == OPEN_BRACE then
      match ReadMembers(t[1..], true) case Some((ms, rest)) => Some((Object(ms), rest)) case None => None
    else if IsDigit(t[0]) || t[0] == '-' as int then
      Some((Number(t[..NumberLength(t)]), t[NumberLength(t)..]))
    else None
  }

  /** The rest of an array: after its bracket (`first`), or after an element. */
  function ReadItems(t: Text, first: bool): (r: Option<(seq<Value>, Text)>)
    ensures r.Some? ==> |r.value.1| < |t|
    decreases |t|, 1
  {
    if |t| == 0 then None
    else if t[0] == CLOSE_BRACKET then Some(([], t[1..]))
    else if !first && t[0] != COMMA then None
    else
      match ReadValue(if first then t else t[1..])
      case None => None
      case Some((x, rest)) =>
        match ReadItems(rest, false) case Some((xs, rest')) => Some(([x] + xs, rest')) case None => None
  }

  /** A member: the key, a colon, the value. */
  function ReadMember(t: Text): (r: Option<(Member, Text)>)
    ensures r.Some? ==> |r.value.1| < |t|
    decreases |t|, 1
  {
    if |t| == 0 || t[0] != QUOTE then None
    else match ReadString(t[1..])
      case None => None
      case Some((key, rest)) =>
        if |rest| == 0 || rest[0] != COLON then None
        else match ReadValue(rest[1..]) case Some((v, rest')) => Some((Member(key, v), rest')) case None => None
  }

  /** The rest of an object: after its brace (`first`), or after a member. */
  function ReadMembers(t: Text, first: bool): (r: Option<(seq<Member>, Text)>)
    ensures r.Some? ==> |r.value.1| < |t|
    decreases |t|, 2
  {
    if |t| == 0 then None
    else if t[0] == CLOSE_BRACE then Some(([], t[1..]))
    else if !first && t[0] != COMMA then None
    else
      match ReadMember(if first then t else t[1..])
      case None => None
      case Some((m, rest)) =>
        match ReadMembers(rest, false) case Some((ms, rest')) => Some(([m] + ms, rest')) case None => None
  }

  // ----- reading what was printed

  /** What may follow a printed value: nothing, or a character that cannot continue a number. */
  predicate Delimited(r: Text) {
    |r| == 0 || !IsNumberChar(r[0])
  }

  lemma Assoc(a: Text, b: Text, c: Text)
    ensures a + b + c == a + (b + c)
  {
  }

  lemma HexDigitReads(n: int)
    requires 0 <= n < 16
    ensures HexValue(HexDigit(n)) == Some(n)
  {
  }

  lemma UnicodeEscapeReads(c: CodeUnit, r: Text)
    ensures ReadUnit(UnicodeEscape(c) + r) == Some((c, 6))
  {
    var t := UnicodeEscape(c) + r;
    HexDigitReads(c / 16 / 16 / 16);
    HexDigitReads(c / 16 / 16 % 16);
    HexDigitReads(c / 16 % 16);
    HexDigitReads(c % 16);
    assert t[0] == BACKSLASH && t[1] == 'u' as int;
    assert t[2..][0] == HexDigit(c / 16 / 16 / 16) && t[2..][1] == HexDigit(c / 16 / 16 % 16);
    assert t[2..][2] == HexDigit(c / 16 % 16) && t[2..][3] == HexDigit(c % 16);
  }

  lemma EscapeUnitReads(c: CodeUnit, r: Text)
    ensures ReadUnit(EscapeUnit(c) + r) == Some((c, |EscapeUnit(c)|)) && EscapeUnit(c)[0] != QUOTE
  {
    var e := EscapeUnit(c);
    if |e| == 6 {
      UnicodeEscapeReads(c, r);
    } else {
      assert (e + r)[0] == e[0] && (|e| == 2 ==> (e + r)[1] == e[1]);
    }
  }

  lemma ReadStringStep(e: Text, c: CodeUnit, t: Text)
    requires |e| > 0 && e[0] != QUOTE && ReadUnit(e + t) == Some((c, |e|))
    ensures ReadString(e + t) ==
            match ReadString(t) case Some((s, rest)) => Some(([c] + s, rest)) case None => None
  {
    assert (e + t)[|e|..] == t;
  }

  lemma PairReads(high: CodeUnit, low: CodeUnit, t: Text)
    requires IsHigh(high) && IsLow(low)
    ensures ReadString([high] + ([low] + t)) ==
            match ReadString(t) case Some((s, rest)) => Some(([high] + ([low] + s), rest)) case None => None
  {
    ReadStringStep([low], low, t);
    ReadStringStep([high], high, [low] + t);
  }

  /** A string is read back, whatever follows it: escapes, surrogate pairs and lone surrogates included. */
  lemma {:induction false} StringReadsBack(s: Text, r: Text)
    ensures ReadString(CloseString(s) + r) == Some((s, r))
  {
    if |s| == 0 {
      assert ([QUOTE] + r)[1..] == r;
    } else if StartsWithPair(s) {
      StringReadsBack(s[2..], r);
      PairReadsBack(s, r);
    } else {
      StringReadsBack(s[1..], r);
      UnitReadsBack(s, r);
    }
  }

  lemma PairReadsBack(s: Text, r: Text)
    requires StartsWithPair(s) && ReadString(CloseString(s[2..]) + r) == Some((s[2..], r))
    ensures ReadString(CloseString(s) + r) == Some((s, r))
  {
    var t := CloseString(s[2..]) + r;
    PairReads(s[0], s[1], t);
    Assoc([s[1]], CloseString(s[2..]), r);
    Assoc([s[0]], [s[1]] + CloseString(s[2..]), r);
    assert s == [s[0]] + ([s[1]] + s[2..]);
  }

  lemma UnitReadsBack(s: Text, r: Text)
    requires |s| > 0 && !StartsWithPair(s) && ReadString(CloseString(s[1..]) + r) == Some((s[1..], r))
    ensures ReadString(CloseString(s) + r) == Some((s, r))
  {
    var e, t := EscapeUnit(s[0]), CloseString(s[1..]) + r;
    EscapeUnitReads(s[0], t);
    ReadStringStep(e, s[0], t);
    Assoc(e, CloseString(s[1..]), r);
    assert s == [s[0]] + s[1..];
  }

  lemma {:induction false} NumberLengthIs(t: Text, r: Text)
    requires (forall i :: 0 <= i < |t| ==> IsNumberChar(t[i])) && Delimited(r)
    ensures NumberLength(t + r) == |t|
  {
    if |t| == 0 {
      assert t + r == r;
    } else {
      assert (t + r)[1..] == t[1..] + r;
      NumberLengthIs(t[1..], r);
    }
  }

  lemma LiteralReads(word: Text, r: Text, v: Value)
    ensures ReadLiteral(word + r, word, v) == Some((v, r))
  {
  }

  /** The first character of a printed value tells its kind. */
  function Lead(v: Value): CodeUnit
    requires WellFormed(v)
  {
    match v
    case Null => 'n' as int
    case Bool(b) => if b then 't' as int else 'f' as int
    case Number(t) => t[0]
    case String(_) => QUOTE
    case Array(_) => OPEN_BRACKET
    case Object(_) => OPEN_BRACE
  }

  lemma PrintLead(v: Value)
    requires WellFormed(v)
    ensures |Print(v)| > 0 && Print(v)[0] == Lead(v)
    ensures Lead(v) != CLOSE_BRACKET && Lead(v) != COMMA
  {
  }

  /** After an element comes a comma or the closing bracket, so the element was delimited. */
  lemma CloseArrayDelimited(xs: seq<Value>, r: Text)
    ensures Delimited(CloseArray(xs, false) + r)
  {
    assert (CloseArray(xs, false) + r)[0] == CloseArray(xs, false)[0];
  }

  lemma CloseObjectDelimited(ms: seq<Member>, r: Text)
    ensures Delimited(CloseObject(ms, false) + r)
  {
    assert (CloseObject(ms, false) + r)[0] == CloseObject(ms, false)[0];
  }

  /** Reading back what `Print` wrote, followed by anything that cannot continue it. */
  lemma {:induction false} ReadsBack(v: Value, r: Text)
    requires WellFormed(v) && Delimited(r)
    ensures ReadValue(Print(v) + r) == Some((v, r))
    decreases v, 0
  {
    match v {
      case String(s) => StringValueReads(s, r);
      case Array(xs) =>
        ItemsReadBack(xs, true, r);
        ArrayValueReads(xs, r);
      case Object(ms) =>
        MembersReadBack(ms, true, r);
        ObjectValueReads(ms, r);
      case _ => LeafReadsBack(v, r);
    }
  }

  lemma LeafReadsBack(v: Value, r: Text)
    requires WellFormed(v) && Delimited(r) && (v.Null? || v.Bool? || v.Number?)
    ensures ReadValue(Print(v) + r) == Some((v, r))
  {
    var t := Print(v) + r;
    PrintLead(v);
    assert t[0] == Lead(v);
    match v {
      case Null => LiteralReads(Ascii("null"), r, v);
      case Bool(b) => LiteralReads(Print(v), r, v);
      case Number(n) =>
        NumberLengthIs(n, r);
        assert t[..|n|] == n && t[|n|..] == r;
    }
  }

  lemma StringValueReads(s: Text, r: Text)
    ensures ReadValue(Print(String(s)) + r) == Some((String(s), r))
  {
    StringReadsBack(s, r);
    assert (Print(String(s)) + r)[1..] == CloseString(s) + r;
  }

  lemma ArrayValueReads(xs: seq<Value>, r: Text)
    requires ReadItems(CloseArray(xs, true) + r, true) == Some((xs, r))
    ensures ReadValue(Print(Array(xs)) + r) == Some((Array(xs), r))
  {
    Assoc([OPEN_BRACKET], CloseArray(xs, true), r);
    ReadBracket(CloseArray(xs, true) + r);
  }

  lemma ObjectValueReads(ms: seq<Member>, r: Text)
    requires ReadMembers(CloseObject(ms, true) + r, true) == Some((ms, r))
    ensures ReadValue(Print(Object(ms)) + r) == Some((Object(ms), r))
  {
    Assoc([OPEN_BRACE], CloseObject(ms, true), r);
    ReadBrace(CloseObject(ms, true) + r);
  }

  lemma ReadBracket(u: Text)
    ensures ReadValue([OPEN_BRACKET] + u) ==
            match ReadItems(u, true) case Some((xs, rest)) => Some((Array(xs), rest)) case None => None
  {
    assert ([OPEN_BRACKET] + u)[1..] == u;
  }

  lemma ReadBrace(u: Text)
    ensures ReadValue([OPEN_BRACE] + u) ==
            match ReadMembers(u, true) case Some((ms, rest)) => Some((Object(ms), rest)) case None => None
  {
    assert ([OPEN_BRACE] + u)[1..] == u;
  }

  lemma {:induction false} ItemsReadBack(xs: seq<Value>, first: bool, r: Text)
    requires forall i :: 0 <= i < |xs| ==> WellFormed(xs[i])
    ensures ReadItems(CloseArray(xs, first) + r, first) == Some((xs, r))
    decreases xs, 1
  {
    if |xs| == 0 {
      assert ([CLOSE_BRACKET] + r)[1..] == r;
    } else {
      CloseArrayDelimited(xs[1..], r);
      ReadsBack(xs[0], CloseArray(xs[1..], false) + r);
      ItemsReadBack(xs[1..], false, r);
      FirstItemReads(xs, first, r);
    }
  }

  lemma FirstItemReads(xs: seq<Value>, first: bool, r: Text)
    requires |xs| > 0 && WellFormed(xs[0])
    requires var q := CloseArray(xs[1..], false) + r;
      ReadValue(Print(xs[0]) + q) == Some((xs[0], q)) && ReadItems(q, false) == Some((xs[1..], r))
    ensures ReadItems(CloseArray(xs, first) + r, first) == Some((xs, r))
  {
    var q := CloseArray(xs[1..], false) + r;
    PrintLead(xs[0]);
    Assoc(Print(xs[0]), CloseArray(xs[1..], false), r);
    Assoc(if first then [] else [COMMA], Print(xs[0]) + CloseArray(xs[1..], false), r);
    var t := CloseArray(xs, first) + r;
    assert t == (if first then [] else [COMMA]) + (Print(xs[0]) + q);
    assert (if first then t else t[1..]) == Print(xs[0]) + q;
    assert t[0] == if first then Print(xs[0])[0] else COMMA;
    assert xs == [xs[0]] + xs[1..];
  }

  /** What `CloseObject` prints after the first key's string literal. */
  function AfterKey(ms: seq<Member>): Text
    requires |ms| > 0
  {
    [COLON] + (Print(ms[0].value) + CloseObject(ms[1..], false))
  }

  lemma CloseObjectSplit(ms: seq<Member>, first: bool, r: Text)
    requires |ms| > 0
    ensures CloseObject(ms, first) + r
         == (if first then [QUOTE] else [COMMA, QUOTE]) + (CloseString(ms[0].key) + (AfterKey(ms) + r))
  {
    var sep, k, t := if first then [] else [COMMA], CloseString(ms[0].key), AfterKey(ms);
    assert CloseObject(ms, first) == sep + ([QUOTE] + (k + t));
    Assoc(k, t, r);
    Assoc([QUOTE], k + t, r);
    Assoc(sep, [QUOTE] + (k + t), r);
    Assoc(sep, [QUOTE], k + (t + r));
    assert sep + [QUOTE] == if first then [QUOTE] else [COMMA, QUOTE];
  }

  lemma AfterKeySplit(ms: seq<Member>, r: Text)
    requires |ms| > 0
    ensures AfterKey(ms) + r == [COLON] + (Print(ms[0].value) + (CloseObject(ms[1..], false) + r))
  {
    var v, q := Print(ms[0].value), CloseObject(ms[1..], false);
    Assoc(v, q, r);
    Assoc([COLON], v + q, r);
  }

  lemma {:induction false} MemberReadsBack(m: Member, q: Text)
    requires WellFormed(m.value) && Delimited(q)
    ensures ReadMember([QUOTE] + (CloseString(m.key) + ([COLON] + (Print(m.value) + q)))) == Some((m, q))
    decreases m.value, 1
  {
    var after := [COLON] + (Print(m.value) + q);
    StringReadsBack(m.key, after);
    ReadsBack(m.value, q);
    assert ([QUOTE] + (CloseString(m.key) + after))[1..] == CloseString(m.key) + after;
    assert after[1..] == Print(m.value) + q;
  }

  lemma {:induction false} MembersReadBack(ms: seq<Member>, first: bool, r: Text)
    requires forall i :: 0 <= i < |ms| ==> WellFormed(ms[i].value)
    ensures ReadMembers(CloseObject(ms, first) + r, first) == Some((ms, r))
    decreases ms, 1
  {
    if |ms| == 0 {
      assert ([CLOSE_BRACE] + r)[1..] == r;
    } else {
      CloseObjectDelimited(ms[1..], r);
      MemberReadsBack(ms[0], CloseObject(ms[1..], false) + r);
      MembersReadBack(ms[1..], false, r);
      FirstMemberReads(ms, first, r);
    }
  }

  lemma FirstMemberReads(ms: seq<Member>, first: bool, r: Text)
    requires |ms| > 0
    requires var q := CloseObject(ms[1..], false) + r;
      && ReadMember([QUOTE] + (CloseString(ms[0].key) + ([COLON] + (Print(ms[0].value) + q)))) == Some((ms[0], q))
      && ReadMembers(q, false) == Some((ms[1..], r))
    ensures ReadMembers(CloseObject(ms, first) + r, first) == Some((ms, r))
  {
    var q := CloseObject(ms[1..], false) + r;
    var literal := CloseString(ms[0].key) + ([COLON] + (Print(ms[0].value) + q));
    CloseObjectSplit(ms, first, r);
    AfterKeySplit(ms, r);
    ReadMembersStep(literal, first, ms[0], q);
    assert ms == [ms[0]] + ms[1..];
  }

  lemma ReadMembersStep(literal: Text, first: bool, m: Member, q: Text)
    requires ReadMember([QUOTE] + literal) == Some((m, q))
    ensures ReadMembers((if first then [QUOTE] else [COMMA, QUOTE]) + literal, first) ==
            match ReadMembers(q, false) case Some((ms, rest)) => Some(([m] + ms, rest)) case None => None
  {
    var t := (if first then [QUOTE] else [COMMA, QUOTE]) + literal;
    assert (if first then t else t[1..]) == [QUOTE] + literal;
  }

  // ----- main results

  /** `JSON.parse(JSON.stringify(v))` is `v`. */
  lemma RoundTrip(v: Value)
    requires WellFormed(v)
    ensures ReadValue(Print(v)) == Some((v, []))
  {
    ReadsBack(v, []);
    assert Print(v) + [] == Print(v);
  }

  /** So `JSON.stringify` never prints two different values alike. */
  lemma PrintInjective(a: Value, b: Value)
    requires WellFormed(a) && WellFormed(b)
    ensures Print(a) == Print(b) <==> a == b
  {
    RoundTrip(a);
    RoundTrip(b);
  }
}
