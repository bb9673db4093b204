/**
 * The part of JavaScript's `JSON.stringify` that cache keys go through, and a
 * reader for its output. The reader is there to prove that two values get the
 * same text exactly when they are the same once `undefined` is dropped, which
 * is what makes a serialised key a faithful name for a query.
 *
 * Numbers are integers (the keys only hold counts and offsets); strings are
 * sequences of Unicode scalar values, so no lone surrogate can occur.
 */
module Json {
  import opened Optional

  /** A JavaScript value of the kinds the keys are built from. */
  datatype Value =
    | Undefined
    | Null
    | Bool(b: bool)
    | Num(n: int)
    | Str(s: string)
    | Arr(items: seq<Value>)
    | Obj(props: seq<(string, Value)>)

  // ---------------------------------------------------------------------------
  // Writing
  // ---------------------------------------------------------------------------

  predicate IsDigit(c: char) { '0' <= c <= '9' }

  function Digit(d: nat): (c: char)
    requires d < 10
    ensures IsDigit(c) && c as int - '0' as int == d
  {
    "0123456789"[d]
  }

  /** Decimal digits of `n`, most significant first, without leading zeros. */
  function NatText(n: nat): (r: string)
    ensures |r| > 0 && forall i :: 0 <= i < |r| ==> IsDigit(r[i])
    decreases n
  {
    if n < 10 then [Digit(n)] else NatText(n / 10) + [Digit(n % 10)]
  }

  /** How `JSON.stringify` writes an integer: a minus sign exactly for a negative number, then digits. */
  function IntText(n: int): (r: string)
    ensures |r| > 0 && (r[0] == '-' <==> n < 0)
    ensures forall i :: (if n < 0 then 1 else 0) <= i < |r| ==> IsDigit(r[i])
  {
    if n < 0 then "-" + NatText(-n) else NatText(n)
  }

  function HexDigit(d: nat): char
    requires d < 16
  {
    "0123456789abcdef"[d]
  }

  /**
   * How `JSON.stringify` writes one character inside a string literal: the
   * quote and the backslash are escaped, five control characters have short
   * escapes, the other control characters below U+0020 become `\u00xx` in
   * lower-case hex, and everything else is written as it is.
   */
  function EscapeChar(c: char): (r: string)
    ensures |r| > 0 && r[0] != '"'
    ensures Plain(c) <==> r == [c]
  {
    var n := c as int;
    if c == '"' then "\\\""
    else if c == '\\' then "\\\\"
    else if n == 8 then "\\b"
    else if n == 12 then "\\f"
    else if n == 10 then "\\n"
    else if n == 13 then "\\r"
    else if n == 9 then "\\t"
    else if n < 0x20 then "\\u00" + [HexDigit(n / 16), HexDigit(n % 16)]
    else [c]
  }

  /** A character `JSON.stringify` writes as it is. */
  predicate Plain(c: char) {
    c != '"' && c != '\\' && c as int >= 0x20
  }

  /** The body of a string literal: never shorter than the string, and the string itself when nothing needs escaping. */
  function Escape(s: string): (r: string)
    ensures |r| >= |s|
    ensures (forall i :: 0 <= i < |s| ==> Plain(s[i])) ==> r == s
  {
    if s == [] then "" else EscapeChar(s[0]) + Escape(s[1..])
  }

  /** A string literal: `"` + escaped text + `"`; plain text appears as it is. */
  function Quote(s: string): (r: string)
    ensures |r| >= |s| + 2 && r[0] == '"' && r[|r| - 1] == '"'
    ensures (forall i :: 0 <= i < |s| ==> Plain(s[i])) ==> r == "\"" + s + "\""
  {
    "\"" + Escape(s) + "\""
  }

  /**
   * The text of `v` where it stands as an array element: there `undefined`
   * is written `null`.
   */
  function Text(v: Value): (r: string)
    ensures |r| > 0
    ensures v.Undefined? || v.Null? ==> r == "null"
    ensures v.Str? ==> r[0] == '"'
    ensures v.Arr? ==> r[0] == '[' && r[|r| - 1] == ']'
    ensures v.Obj? ==> r[0] == '{' && r[|r| - 1] == '}'
    decreases v, 1
  {
    match v
    case Undefined => "null"
    case Null => "null"
    case Bool(b) => if b then "true" else "false"
    case Num(n) => IntText(n)
    case Str(s) => Quote(s)
    case Arr(items) => "[" + Items(items) + "]"
    case Obj(props) => "{" + Members(props) + "}"
  }

  /**
   * Array elements, comma-separated, each written by `Text` (so an
   * `undefined` element is written `null`).
   */
  function Items(items: seq<Value>): (r: string)
    ensures r == "" <==> items == []
    ensures items != [] ==> Text(items[0]) <= r
    ensures |items| == 1 && items[0].Undefined? ==> r == "null"
    decreases items, 0
  {
    if items == [] then ""
    else if |items| == 1 then Text(items[0])
    else Text(items[0]) + "," + Items(items[1..])
  }

  /** Object members, comma-separated; a member whose value is `undefined` is left out. */
  function Members(props: seq<(string, Value)>): (r: string)
    ensures r == "" <==> forall i :: 0 <= i < |props| ==> props[i].1.Undefined?
    ensures r != "" ==> r[0] == '"'
    decreases props, 0
  {
    if props == [] then ""
    else if props[0].1.Undefined? then Members(props[1..])
    else
      assert props[0].1 < props[0];
      var rest := Members(props[1..]);
      Quote(props[0].0) + ":" + Text(props[0].1) + (if rest == "" then "" else "," + rest)
  }

  /** `JSON.stringify(v)`: no text at all for a top-level `undefined`. */
  function Stringify(v: Value): (r: Option<string>)
    ensures r.None? <==> v.Undefined?
    ensures r.Some? ==> r.value == Text(v)
  {
    if v.Undefined? then None else Some(Text(v))
  }

  // ---------------------------------------------------------------------------
  // What survives a round trip: `undefined` array elements become `null` and
  // `undefined` members disappear.
  // ---------------------------------------------------------------------------

  function Canon(v: Value): Value
    decreases v, 1
  {
    match v
    case Undefined => Null
    case Arr(items) => Arr(CanonItems(items))
    case Obj(props) => Obj(CanonMembers(props))
    case _ => v
  }

  function CanonItems(items: seq<Value>): seq<Value>
    decreases items, 0
  {
    if items == [] then [] else [Canon(items[0])] + CanonItems(items[1..])
  }

  function CanonMembers(props: seq<(string, Value)>): seq<(string, Value)>
    decreases props, 0
  {
    if props == [] then []
    else if props[0].1.Undefined? then CanonMembers(props[1..])
    else
      assert props[0].1 < props[0];
      [(props[0].0, Canon(props[0].1))] + CanonMembers(props[1..])
  }

  // ---------------------------------------------------------------------------
  // Reading
  // ---------------------------------------------------------------------------

  function DigitValue(c: char): nat
    requires IsDigit(c)
  {
    c as int - '0' as int
  }

  /** The number a non-empty run of decimal digits denotes. */
  function DigitsValue(ds: string): nat
    requires forall i :: 0 <= i < |ds| ==> IsDigit(ds[i])
  {
    if ds == [] then 0 else DigitsValue(ds[..|ds| - 1]) * 10 + DigitValue(ds[|ds| - 1])
  }

  /** Length of the longest prefix of `s` made of digits. */
  function DigitSpan(s: string): (k: nat)
    ensures k <= |s|
    ensures forall i :: 0 <= i < k ==> IsDigit(s[i])
    ensures k < |s| ==> !IsDigit(s[k])
  {
    if s == [] || !IsDigit(s[0]) then 0 else 1 + DigitSpan(s[1..])
  }

  function HexValue(c: char): Option<nat> {
    if '0' <= c <= '9' then Some(c as int - '0' as int)
    else if 'a' <= c <= 'f' then Some(c as int - 'a' as int + 10)
    else if 'A' <= c <= 'F' then Some(c as int - 'A' as int + 10)
    else None
  }

  /** The code point of four hex digits. */
  function Hex4(s: string): Option<nat>
    requires |s| == 4
  {
    match (HexValue(s[0]), HexValue(s[1]), HexValue(s[2]), HexValue(s[3]))
    case (Some(a), Some(b), Some(c), Some(d)) => Some(((a * 16 + b) * 16 + c) * 16 + d)
    case _ => None
  }

  /** The character a two-character escape `\e` stands for. */
  function ShortEscape(e: char): Option<char> {
    if e == '"' then Some('"')
    else if e == '\\' then Some('\\')
    else if e == '/' then Some('/')
    else if e == 'b' then Some(8 as char)
    else if e == 'f' then Some(12 as char)
    else if e == 'n' then Some(10 as char)
    else if e == 'r' then Some(13 as char)
    else if e == 't' then Some(9 as char)
    else None
  }

  /** Reads the body of a string literal up to and including its closing quote. */
  function ParseString(s: string): (r: Option<(string, string)>)
    ensures r.Some? ==> |r.value.1| < |s|
  {
    if s == [] then None
    else if s[0] == '"' then Some(("", s[1..]))
    else if s[0] == '\\' then
      if |s| < 2 then None
      else if ShortEscape(s[1]).Some? then
        Prepend(ShortEscape(s[1]).value, ParseString(s[2..]))
      else if s[1] == 'u' && |s| >= 6 then
        match Hex4(s[2..6])
        case Some(n) =>
          if n < 0xD800 || 0xE000 <= n then Prepend(n as char, ParseString(s[6..]))
          else None
        case None => None
      else None
    else Prepend(s[0], ParseString(s[1..]))
  }

  /** What reading `t` gives, with `c` in front of the decoded text. */
  function Prepend(c: char, r: Option<(string, string)>): (q: Option<(string, string)>)
    ensures r.Some? ==> q.Some? && |q.value.1| == |r.value.1|
  {
    match r
    case Some((t, rest)) => Some(([c] + t, rest))
    case None => None
  }

  /** Reads one value from the front of `s`; the second component is what follows it. */
  function ParseValue(s: string): (r: Option<(Value, string)>)
    ensures r.Some? ==> |r.value.1| < |s|
    decreases |s|, 1
  {
    if s == [] then None
    else if s[0] == 'n' then ParseWord(s, "null", Null)
    else if s[0] == 't' then ParseWord(s, "true", Bool(true))
    else if s[0] == 'f' then ParseWord(s, "false", Bool(false))
    else if IsDigit(s[0]) || s[0] == '-' then ParseNumber(s)
    else if s[0] == '"' then ParseQuoted(s)
    else if s[0] == '[' then ParseArray(s)
    else if s[0] == '{' then ParseObject(s)
    else None
  }

  /** Reads an integer: an optional minus sign and one or more digits. */
  function ParseNumber(s: string): (r: Option<(Value, string)>)
    requires s != []
    ensures r.Some? ==> |r.value.1| < |s|
  {
    if IsDigit(s[0]) then
      var k := DigitSpan(s);
      Some((Num(DigitsValue(s[..k])), s[k..]))
    else
      var k := DigitSpan(s[1..]);
      if k == 0 then None else Some((Num(-(DigitsValue(s[1..][..k]) as int)), s[1..][k..]))
  }

  /** Reads a string literal, opening quote included. */
  function ParseQuoted(s: string): (r: Option<(Value, string)>)
    requires s != []
    ensures r.Some? ==> |r.value.1| < |s|
  {
    match ParseString(s[1..])
    case Some((t, rest)) => Some((Str(t), rest))
    case None => None
  }

  /** Reads an array, opening bracket included. */
  function ParseArray(s: string): (r: Option<(Value, string)>)
    requires s != []
    ensures r.Some? ==> |r.value.1| < |s|
    decreases |s|, 0
  {
    if |s| >= 2 && s[1] == ']' then Some((Arr([]), s[2..]))
    else
      match ParseItems(s[1..])
      case Some((items, rest)) => Some((Arr(items), rest))
      case None => None
  }

  /** Reads an object, opening brace included. */
  function ParseObject(s: string): (r: Option<(Value, string)>)
    requires s != []
    ensures r.Some? ==> |r.value.1| < |s|
    decreases |s|, 0
  {
    if |s| >= 2 && s[1] == '}' then Some((Obj([]), s[2..]))
    else
      match ParseMembers(s[1..])
      case Some((props, rest)) => Some((Obj(props), rest))
      case None => None
  }

  /** Reads the literal `word` (`null`, `true` or `false`) standing for `v`. */
  function ParseWord(s: string, word: string, v: Value): (r: Option<(Value, string)>)
    requires |word| > 0
    ensures r.Some? ==> |r.value.1| < |s|
  {
    if |s| >= |word| && s[..|word|] == word then Some((v, s[|word|..])) else None
  }

  /** Reads `v1,v2,...]`: one or more elements and the closing bracket. */
  function ParseItems(s: string): (r: Option<(seq<Value>, string)>)
    ensures r.Some? ==> |r.value.1| < |s|
    decreases |s|, 2
  {
    match ParseValue(s)
    case None => None
    case Some((v, rest)) =>
      if rest == [] then None
      else if rest[0] == ']' then Some(([v], rest[1..]))
      else if rest[0] == ',' then
        match ParseItems(rest[1..])
        case Some((vs, rest')) => Some(([v] + vs, rest'))
        case None => None
      else None
  }

  /** Reads one member `"k":v`. */
  function ParseMember(s: string): (r: Option<((string, Value), string)>)
    ensures r.Some? ==> |r.value.1| < |s|
    decreases |s|, 2
  {
    if s == [] || s[0] != '"' then None
    else
      match ParseString(s[1..])
      case None => None
      case Some((name, afterName)) =>
        if afterName == [] || afterName[0] != ':' then None
        else
          match ParseValue(afterName[1..])
          case None => None
          case Some((v, rest)) => Some(((name, v), rest))
  }

  /** Reads `"k1":v1,"k2":v2,...}`: one or more members and the closing brace. */
  function ParseMembers(s: string): (r: Option<(seq<(string, Value)>, string)>)
    ensures r.Some? ==> |r.value.1| < |s|
    decreases |s|, 3
  {
    match ParseMember(s)
    case None => None
    case Some((m, rest)) =>
      if rest == [] then None
      else if rest[0] == '}' then Some(([m], rest[1..]))
      else if rest[0] == ',' then
        match ParseMembers(rest[1..])
        case Some((ms, rest')) => Some(([m] + ms, rest'))
        case None => None
      else None
  }

  /** `JSON.parse`, for the texts `Text` writes. */
  function Parse(s: string): Option<Value> {
    match ParseValue(s)
    case Some((v, rest)) => if rest == [] then Some(v) else None
    case None => None
  }

  // ---------------------------------------------------------------------------
  // The reader inverts the writer
  // ---------------------------------------------------------------------------

  /** What may follow a value in the texts `Text` writes. */
  predicate Follows(rest: string) {
    rest == [] || rest[0] == ',' || rest[0] == ']' || rest[0] == '}'
  }

  lemma {:induction false} NatTextValue(n: nat)
    ensures DigitsValue(NatText(n)) == n
    decreases n
  {
    var ds := NatText(n);
    if n < 10 {
      assert ds[..|ds| - 1] == [];
    } else {
      assert ds[..|ds| - 1] == NatText(n / 10);
      NatTextValue(n / 10);
    }
  }

  lemma {:induction false} SpanOfDigits(ds: string, rest: string)
    requires forall i :: 0 <= i < |ds| ==> IsDigit(ds[i])
    requires rest == [] || !IsDigit(rest[0])
    ensures DigitSpan(ds + rest) == |ds|
    decreases |ds|
  {
    if ds != [] {
      assert (ds + rest)[1..] == ds[1..] + rest;
      SpanOfDigits(ds[1..], rest);
    }
  }

  lemma NatRead(n: nat, rest: string)
    requires rest == [] || !IsDigit(rest[0])
    ensures DigitSpan(NatText(n) + rest) == |NatText(n)|
    ensures (NatText(n) + rest)[..|NatText(n)|] == NatText(n)
    ensures (NatText(n) + rest)[|NatText(n)|..] == rest
    ensures DigitsValue(NatText(n)) == n
  {
    SpanOfDigits(NatText(n), rest);
    NatTextValue(n);
  }

  lemma ValueIsNumber(s: string)
    requires s != [] && (IsDigit(s[0]) || s[0] == '-')
    ensures ParseValue(s) == ParseNumber(s)
  {
  }

  lemma DigitsRead(t: string, n: nat, rest: string)
    requires t != [] && (forall i :: 0 <= i < |t| ==> IsDigit(t[i]))
    requires DigitSpan(t + rest) == |t| && DigitsValue(t) == n
    ensures ParseValue(t + rest) == Some((Num(n), rest))
  {
    var s := t + rest;
    assert s[0] == t[0];
    ValueIsNumber(s);
    assert s[..|t|] == t && s[|t|..] == rest;
  }

  lemma MinusRead(t: string, n: nat, rest: string)
    requires t != [] && (forall i :: 0 <= i < |t| ==> IsDigit(t[i]))
    requires DigitSpan(t + rest) == |t| && DigitsValue(t) == n
    ensures ParseValue("-" + t + rest) == Some((Num(-(n as int)), rest))
  {
    var s := "-" + t + rest;
    assert s[0] == '-' && s[1..] == t + rest;
    ValueIsNumber(s);
    assert (t + rest)[..|t|] == t && (t + rest)[|t|..] == rest;
  }

  lemma NatValueRead(n: nat, rest: string)
    requires Follows(rest)
    ensures ParseValue(NatText(n) + rest) == Some((Num(n), rest))
  {
    NatRead(n, rest);
    DigitsRead(NatText(n), n, rest);
  }

  lemma NegValueRead(n: nat, rest: string)
    requires n > 0 && Follows(rest)
    ensures ParseValue("-" + NatText(n) + rest) == Some((Num(-(n as int)), rest))
  {
    NatRead(n, rest);
    MinusRead(NatText(n), n, rest);
  }

  lemma IntRead(n: int, rest: string)
    requires Follows(rest)
    ensures ParseValue(IntText(n) + rest) == Some((Num(n), rest))
  {
    if n < 0 {
      NegValueRead(-n, rest);
      SameInput(IntText(n) + rest, "-" + NatText(-n) + rest);
    } else {
      NatValueRead(n, rest);
      SameInput(IntText(n) + rest, NatText(n) + rest);
    }
  }

  lemma SameInput(s: string, t: string)
    requires s == t
    ensures ParseValue(s) == ParseValue(t)
  {
  }

  lemma HexRead(n: nat)
    requires n < 0x20
    ensures Hex4("00" + [HexDigit(n / 16), HexDigit(n % 16)]) == Some(n)
  {
    var hi, lo := n / 16, n % 16;
    assert HexValue(HexDigit(hi)) == Some(hi);
    assert HexValue(HexDigit(lo)) == Some(lo) by {
      assert lo < 16;
      if lo < 10 { assert HexDigit(lo) == "0123456789"[lo]; }
    }
  }

  lemma ShortEscapeStep(s: string)
    requires |s| >= 2 && s[0] == '\\' && ShortEscape(s[1]).Some?
    ensures ParseString(s) == Prepend(ShortEscape(s[1]).value, ParseString(s[2..]))
  {
  }

  lemma UnicodeEscapeStep(s: string, n: nat)
    requires |s| >= 6 && s[0] == '\\' && s[1] == 'u' && Hex4(s[2..6]) == Some(n) && n < 0xD800
    ensures ParseString(s) == Prepend(n as char, ParseString(s[6..]))
  {
    assert ShortEscape('u').None?;
  }

  lemma PlainStep(s: string)
    requires s != [] && s[0] != '"' && s[0] != '\\'
    ensures ParseString(s) == Prepend(s[0], ParseString(s[1..]))
  {
  }

  lemma EscapeCharRead(c: char, t: string)
    ensures ParseString(EscapeChar(c) + t) == Prepend(c, ParseString(t))
  {
    var n := c as int;
    var s := EscapeChar(c) + t;
    if c == '"' || c == '\\' || n == 8 || n == 12 || n == 10 || n == 13 || n == 9 {
      ShortEscapeRead(c, t);
    } else if n < 0x20 {
      assert s[0] == '\\' && s[1] == 'u';
      assert s[2..6] == "00" + [HexDigit(n / 16), HexDigit(n % 16)];
      HexRead(n);
      UnicodeEscapeStep(s, n);
      assert s[6..] == t;
      assert n as char == c;
    } else {
      assert s[1..] == t;
      PlainStep(s);
    }
  }

  lemma ShortEscapeRead(c: char, t: string)
    requires var n := c as int; c == '"' || c == '\\' || n == 8 || n == 12 || n == 10 || n == 13 || n == 9
    ensures ParseString(EscapeChar(c) + t) == Prepend(c, ParseString(t))
  {
    var s := EscapeChar(c) + t;
    assert |EscapeChar(c)| == 2 && EscapeChar(c)[0] == '\\';
    assert s[0] == '\\' && ShortEscape(s[1]) == Some(c);
    assert s[2..] == t;
    ShortEscapeStep(s);
  }

  lemma {:induction false} StringRead(x: string, rest: string)
    ensures ParseString(Escape(x) + "\"" + rest) == Some((x, rest))
    decreases |x|
  {
    if x == [] {
      assert Escape(x) + "\"" + rest == "\"" + rest;
    } else {
      EscapeText(x, rest);
      EscapeCharRead(x[0], Escape(x[1..]) + "\"" + rest);
      StringRead(x[1..], rest);
      assert [x[0]] + x[1..] == x;
    }
  }

  lemma EscapeText(x: string, rest: string)
    requires x != []
    ensures Escape(x) + "\"" + rest == EscapeChar(x[0]) + (Escape(x[1..]) + "\"" + rest)
  {
    var a, b := EscapeChar(x[0]), Escape(x[1..]);
    assert Escape(x) == a + b;
    Regroup4(a, b, "\"", rest);
  }

  lemma Regroup3(a: string, b: string, c: string)
    ensures a + b + c == a + (b + c)
  {
  }

  lemma Regroup4(a: string, b: string, c: string, d: string)
    ensures a + b + c + d == a + (b + c + d)
  {
  }

  /** The character every value's text starts with is neither a closing bracket nor a closing brace. */
  lemma TextStart(v: Value)
    ensures |Text(v)| > 0 && Text(v)[0] != ']' && Text(v)[0] != '}'
  {
    match v
    case Num(n) => assert NatText(if n < 0 then -n else n)[0] != ']';
    case _ =>
  }

  lemma {:induction false} MembersEmpty(props: seq<(string, Value)>)
    ensures Members(props) == "" <==> CanonMembers(props) == []
    ensures Members(props) != "" ==> Members(props)[0] == '"'
    decreases props
  {
    if props != [] {
      MembersEmpty(props[1..]);
    }
  }

  lemma WordRead(word: string, v: Value, rest: string)
    requires word == "null" || word == "true" || word == "false"
    requires v == (if word == "null" then Null else Bool(word == "true"))
    ensures ParseValue(word + rest) == Some((v, rest))
  {
    var s := word + rest;
    assert s[..|word|] == word && s[|word|..] == rest;
  }

  lemma ParseStrStep(s: string, x: string, rest: string)
    requires s != [] && s[0] == '"' && ParseString(s[1..]) == Some((x, rest))
    ensures ParseValue(s) == Some((Str(x), rest))
  {
  }

  lemma StrRead(x: string, rest: string)
    ensures ParseValue(Quote(x) + rest) == Some((Str(x), rest))
  {
    QuoteSplit(x, rest);
    StringRead(x, rest);
    ParseStrStep(Quote(x) + rest, x, rest);
  }

  lemma {:induction false} TextRead(v: Value, rest: string)
    requires Follows(rest)
    ensures ParseValue(Text(v) + rest) == Some((Canon(v), rest))
    decreases v, 1
  {
    match v
    case Undefined => WordRead("null", Null, rest);
    case Null => WordRead("null", Null, rest);
    case Bool(b) => if b { WordRead("true", v, rest); } else { WordRead("false", v, rest); }
    case Num(n) => IntRead(n, rest);
    case Str(x) => StrRead(x, rest);
    case Arr(items) => ArrRead(items, rest);
    case Obj(props) => ObjRead(props, rest);
  }

  lemma ParseArrEmpty(s: string)
    requires |s| >= 2 && s[0] == '[' && s[1] == ']'
    ensures ParseValue(s) == Some((Arr([]), s[2..]))
  {
  }

  lemma ParseArrItems(s: string, items: seq<Value>, rest: string)
    requires |s| >= 2 && s[0] == '[' && s[1] != ']' && ParseItems(s[1..]) == Some((items, rest))
    ensures ParseValue(s) == Some((Arr(items), rest))
  {
  }

  /** The shape of `open + m + close + rest`. */
  lemma Bracketed(open: char, m: string, close: char, rest: string)
    ensures var s := [open] + m + [close] + rest;
            && |s| >= 2 && s[0] == open
            && (m == "" ==> s[1] == close && s[2..] == rest)
            && (m != "" ==> s[1] == m[0] && s[1..] == m + [close] + rest)
  {
    var s := [open] + m + [close] + rest;
    if m == "" {
      assert s == [open, close] + rest;
    } else {
      assert s == [open] + (m + [close] + rest);
    }
  }

  /** Reading `[`, an element list text `m` (possibly empty) and `]`. */
  lemma ArrReadFrom(m: string, items: seq<Value>, rest: string)
    requires m == "" ==> items == []
    requires m != "" ==> m[0] != ']' && ParseItems(m + "]" + rest) == Some((items, rest))
    ensures ParseValue("[" + m + "]" + rest) == Some((Arr(items), rest))
  {
    Bracketed('[', m, ']', rest);
    if m == "" {
      ParseArrEmpty("[" + m + "]" + rest);
    } else {
      ParseArrItems("[" + m + "]" + rest, items, rest);
    }
  }

  lemma {:induction false} ArrRead(items: seq<Value>, rest: string)
    ensures ParseValue(Text(Arr(items)) + rest) == Some((Arr(CanonItems(items)), rest))
    decreases items, 1
  {
    if items != [] {
      TextStart(items[0]);
      assert Items(items)[0] == Text(items[0])[0];
      ItemsRead(items, rest);
    }
    ArrReadFrom(Items(items), CanonItems(items), rest);
  }

  lemma ParseObjEmpty(s: string)
    requires |s| >= 2 && s[0] == '{' && s[1] == '}'
    ensures ParseValue(s) == Some((Obj([]), s[2..]))
  {
  }

  lemma ParseObjMembers(s: string, props: seq<(string, Value)>, rest: string)
    requires |s| >= 2 && s[0] == '{' && s[1] != '}' && ParseMembers(s[1..]) == Some((props, rest))
    ensures ParseValue(s) == Some((Obj(props), rest))
  {
  }

  /** Reading `{`, a member list text `m` (possibly empty) and `}`. */
  lemma ObjReadFrom(m: string, props: seq<(string, Value)>, rest: string)
    requires m == "" ==> props == []
    requires m != "" ==> m[0] == '"' && ParseMembers(m + "}" + rest) == Some((props, rest))
    ensures ParseValue("{" + m + "}" + rest) == Some((Obj(props), rest))
  {
    Bracketed('{', m, '}', rest);
    if m == "" {
      ParseObjEmpty("{" + m + "}" + rest);
    } else {
      ParseObjMembers("{" + m + "}" + rest, props, rest);
    }
  }

  lemma {:induction false} ObjRead(props: seq<(string, Value)>, rest: string)
    ensures ParseValue(Text(Obj(props)) + rest) == Some((Obj(CanonMembers(props)), rest))
    decreases props, 3
  {
    MembersEmpty(props);
    if Members(props) != "" {
      MembersRead(props, rest);
    }
    ObjReadFrom(Members(props), CanonMembers(props), rest);
  }

  lemma ParseItemsLast(s: string, v: Value, rest: string)
    requires ParseValue(s) == Some((v, "]" + rest))
    ensures ParseItems(s) == Some(([v], rest))
  {
    assert ("]" + rest)[1..] == rest;
  }

  lemma ParseItemsMore(s: string, v: Value, tail: string, vs: seq<Value>, rest: string)
    requires ParseValue(s) == Some((v, "," + tail)) && ParseItems(tail) == Some((vs, rest))
    ensures ParseItems(s) == Some(([v] + vs, rest))
  {
    assert ("," + tail)[1..] == tail;
  }

  lemma {:induction false} ItemsRead(items: seq<Value>, rest: string)
    requires items != []
    ensures ParseItems(Items(items) + "]" + rest) == Some((CanonItems(items), rest))
    decreases items, 0
  {
    var text := Items(items) + "]" + rest;
    if |items| == 1 {
      assert text == Text(items[0]) + ("]" + rest);
      TextRead(items[0], "]" + rest);
      ParseItemsLast(text, Canon(items[0]), rest);
      assert CanonItems(items) == [Canon(items[0])];
    } else {
      var tail := Items(items[1..]) + "]" + rest;
      ItemsText(items, rest);
      TextRead(items[0], "," + tail);
      ItemsRead(items[1..], rest);
      ParseItemsMore(text, Canon(items[0]), tail, CanonItems(items[1..]), rest);
    }
  }

  lemma ItemsText(items: seq<Value>, rest: string)
    requires |items| >= 2
    ensures Items(items) + "]" + rest == Text(items[0]) + ("," + (Items(items[1..]) + "]" + rest))
  {
    var a, b := Text(items[0]), Items(items[1..]);
    assert Items(items) == a + "," + b;
    ItemsRegroup(a, b, rest);
  }

  lemma ItemsRegroup(a: string, b: string, rest: string)
    ensures a + "," + b + "]" + rest == a + ("," + (b + "]" + rest))
  {
    Regroup3(a + ",", b, "]" + rest);
    Regroup3(a, ",", b + ("]" + rest));
    assert b + ("]" + rest) == b + "]" + rest;
  }

  lemma ParseMemberStep(s: string, name: string, afterName: string, v: Value, rest: string)
    requires s != [] && s[0] == '"' && ParseString(s[1..]) == Some((name, afterName))
    requires afterName != [] && afterName[0] == ':' && ParseValue(afterName[1..]) == Some((v, rest))
    ensures ParseMember(s) == Some(((name, v), rest))
  {
  }

  lemma QuoteSplit(name: string, after: string)
    ensures (Quote(name) + after)[0] == '"'
    ensures (Quote(name) + after)[1..] == Escape(name) + "\"" + after
  {
    assert Quote(name) + after == "\"" + (Escape(name) + "\"" + after);
  }

  lemma ColonSplit(vt: string, tail: string)
    ensures (":" + vt + tail) != [] && (":" + vt + tail)[0] == ':' && (":" + vt + tail)[1..] == vt + tail
  {
  }

  /** Reading a member whose value text `vt` reads back as `cv`. */
  lemma MemberReadFrom(name: string, vt: string, cv: Value, tail: string)
    requires ParseValue(vt + tail) == Some((cv, tail))
    ensures ParseMember(Quote(name) + (":" + vt + tail)) == Some(((name, cv), tail))
  {
    var afterName := ":" + vt + tail;
    QuoteSplit(name, afterName);
    StringRead(name, afterName);
    ColonSplit(vt, tail);
    ParseMemberStep(Quote(name) + afterName, name, afterName, cv, tail);
  }

  lemma MemberRead(name: string, v: Value, tail: string)
    requires Follows(tail)
    ensures ParseMember(Quote(name) + (":" + Text(v) + tail)) == Some(((name, Canon(v)), tail))
    decreases v, 2
  {
    TextRead(v, tail);
    MemberReadFrom(name, Text(v), Canon(v), tail);
  }

  lemma {:induction false} MembersRead(props: seq<(string, Value)>, rest: string)
    requires Members(props) != ""
    ensures ParseMembers(Members(props) + "}" + rest) == Some((CanonMembers(props), rest))
    decreases props, 2
  {
    if props[0].1.Undefined? {
      MembersRead(props[1..], rest);
    } else {
      MembersReadHead(props, rest);
    }
  }

  /** Reading a member list whose first member is followed by the closing brace. */
  lemma ParseMembersLast(text: string, m: (string, Value), rest: string)
    requires ParseMember(text) == Some((m, "}" + rest))
    ensures ParseMembers(text) == Some(([m], rest))
  {
    assert ("}" + rest)[1..] == rest;
  }

  /** Reading a member list whose first member is followed by a comma and more members. */
  lemma ParseMembersNext(text: string, m: (string, Value), tail: string, ms: seq<(string, Value)>, rest: string)
    requires ParseMember(text) == Some((m, "," + tail))
    requires ParseMembers(tail) == Some((ms, rest))
    ensures ParseMembers(text) == Some(([m] + ms, rest))
  {
    assert ("," + tail)[1..] == tail;
  }

  /** The text of a member list whose first member is defined. */
  lemma MembersHeadText(props: seq<(string, Value)>, rest: string)
    requires props != [] && !props[0].1.Undefined?
    ensures var more := Members(props[1..]);
            Members(props) + "}" + rest
            == Quote(props[0].0) + (":" + Text(props[0].1) + ((if more == "" then "" else "," + more) + "}" + rest))
  {
    var more := Members(props[1..]);
    var x := if more == "" then "" else "," + more;
    assert Members(props) == Quote(props[0].0) + ":" + Text(props[0].1) + x;
    Regroup(Quote(props[0].0), ":", Text(props[0].1), x, "}", rest);
  }

  lemma Regroup(q: string, c: string, t: string, x: string, y: string, z: string)
    ensures q + c + t + x + y + z == q + (c + t + (x + y + z))
  {
  }

  lemma {:induction false} MembersReadHead(props: seq<(string, Value)>, rest: string)
    requires props != [] && !props[0].1.Undefined?
    ensures ParseMembers(Members(props) + "}" + rest) == Some((CanonMembers(props), rest))
    decreases props, 1
  {
    var name, v := props[0].0, props[0].1;
    assert v < props[0];
    MembersEmpty(props[1..]);
    if Members(props[1..]) == "" {
      MembersReadLast(props, rest);
      assert [(name, Canon(v))] + [] == [(name, Canon(v))];
    } else {
      MembersReadNext(props, rest);
    }
    assert CanonMembers(props) == [(name, Canon(v))] + CanonMembers(props[1..]);
  }

  /** A defined first member with nothing written after it. */
  lemma {:induction false} MembersReadLast(props: seq<(string, Value)>, rest: string)
    requires props != [] && !props[0].1.Undefined? && Members(props[1..]) == ""
    ensures ParseMembers(Members(props) + "}" + rest) == Some(([(props[0].0, Canon(props[0].1))], rest))
    decreases props, 0
  {
    var name, v := props[0].0, props[0].1;
    assert v < props[0];
    var q, t, tail := Quote(name), Text(v), "}" + rest;
    var text := Members(props) + "}" + rest;
    MembersHeadText(props, rest);
    HeadTail(q, t, Members(props[1..]), rest);
    assert text == q + (":" + t + tail);
    MemberRead(name, v, tail);
    ParseMembersLast(text, (name, Canon(v)), rest);
  }

  /** A defined first member followed by more written members. */
  lemma {:induction false} MembersReadNext(props: seq<(string, Value)>, rest: string)
    requires props != [] && !props[0].1.Undefined? && Members(props[1..]) != ""
    ensures ParseMembers(Members(props) + "}" + rest)
         == Some(([(props[0].0, Canon(props[0].1))] + CanonMembers(props[1..]), rest))
    decreases props, 0
  {
    var name, v := props[0].0, props[0].1;
    assert v < props[0];
    var more := Members(props[1..]);
    var q, t, tail := Quote(name), Text(v), "," + (more + "}" + rest);
    var text := Members(props) + "}" + rest;
    MembersHeadText(props, rest);
    HeadTail(q, t, more, rest);
    assert text == q + (":" + t + tail);
    MemberRead(name, v, tail);
    MembersRead(props[1..], rest);
    ParseMembersNext(text, (name, Canon(v)), more + "}" + rest, CanonMembers(props[1..]), rest);
  }

  /** The text after a member's value: the closing brace, or a comma and the other members. */
  lemma HeadTail(q: string, t: string, more: string, rest: string)
    ensures more == "" ==> q + (":" + t + ((if more == "" then "" else "," + more) + "}" + rest)) == q + (":" + t + ("}" + rest))
    ensures more != "" ==> q + (":" + t + ((if more == "" then "" else "," + more) + "}" + rest)) == q + (":" + t + ("," + (more + "}" + rest)))
  {
  }

  /** `JSON.parse(JSON.stringify(v))` gives back `v` with its `undefined` parts dropped. */
  lemma ParseText(v: Value)
    ensures Parse(Text(v)) == Some(Canon(v))
  {
    TextRead(v, []);
    assert Text(v) + [] == Text(v);
  }

  lemma {:induction false} TextCanon(v: Value)
    ensures Text(Canon(v)) == Text(v)
    decreases v, 1
  {
    match v
    case Arr(items) => ItemsCanon(items);
    case Obj(props) => MembersCanon(props);
    case _ =>
  }

  lemma {:induction false} ItemsCanon(items: seq<Value>)
    ensures |CanonItems(items)| == |items|
    ensures Items(CanonItems(items)) == Items(items)
    decreases items, 0
  {
    if items != [] {
      var c := CanonItems(items);
      ItemsCanon(items[1..]);
      TextCanon(items[0]);
      assert c[0] == Canon(items[0]) && c[1..] == CanonItems(items[1..]);
    }
  }

  lemma {:induction false} MembersCanon(props: seq<(string, Value)>)
    ensures Members(CanonMembers(props)) == Members(props)
    decreases props, 0
  {
    if props != [] {
      MembersCanon(props[1..]);
      if !props[0].1.Undefined? {
        assert props[0].1 < props[0];
        TextCanon(props[0].1);
        var c := CanonMembers(props);
        assert c[0] == (props[0].0, Canon(props[0].1)) && c[1..] == CanonMembers(props[1..]);
      }
    }
  }

  /**
   * Two values get the same `JSON.stringify` text exactly when they are equal
   * once `undefined` elements are read as `null` and `undefined` members are dropped.
   */
  lemma TextInjective(v1: Value, v2: Value)
    ensures Text(v1) == Text(v2) <==> Canon(v1) == Canon(v2)
  {
    ParseText(v1);
    ParseText(v2);
    TextCanon(v1);
    TextCanon(v2);
  }
}
