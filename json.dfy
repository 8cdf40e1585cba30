/**
 * The JavaScript values a caller hands to the query builder, how they turn
 * into text (`String(v)` and `JSON.stringify(v)`), and the `JSON.parse` of
 * the flat objects used as references to items.
 */
module Json {
  import opened Wrappers
  import opened Text

  /** A JavaScript value as passed in a parameter map. Numbers are integers; objects keep their key order. */
  datatype Value =
    | Str(s: string)
    | Num(n: int)
    | Bool(b: bool)
    | Null
    | Arr(items: seq<Value>)
    | Obj(fields: seq<(string, Value)>)

  /** JavaScript truthiness. */
  predicate Truthy(v: Value) {
    match v
    case Str(s) => s != ""
    case Num(n) => n != 0
    case Bool(b) => b
    case Null => false
    case _ => true
  }

  predicate IsObject(v: Value) {
    v.Null? || v.Arr? || v.Obj?
  }

  function BoolText(b: bool): string {
    if b then "true" else "false"
  }

  /** `String(v)`: arrays are joined with `,` (a null element prints as nothing), objects print as `[object Object]`. */
  function JsText(v: Value): string
    decreases v
  {
    match v
    case Str(s) => s
    case Num(n) => IntText(n)
    case Bool(b) => BoolText(b)
    case Null => "null"
    case Arr(items) => Join(",", seq(|items|, i requires 0 <= i < |items| => if items[i].Null? then "" else JsText(items[i])))
    case Obj(_) => "[object Object]"
  }

  // ---- JSON.stringify ----

  function HexDigit(d: nat): (ch: char)
    requires d < 16
  {
    if d < 10 then ('0' as int + d) as char else ('a' as int + d - 10) as char
  }

  /** How `JSON.stringify` writes one character inside a string literal. */
  function EscapeChar(ch: char): string {
    if ch == '"' then "\\\""
    else if ch == '\\' then "\\\\"
    else if ch as int == 8 then "\\b"
    else if ch as int == 12 then "\\f"
    else if ch == '\n' then "\\n"
    else if ch == '\r' then "\\r"
    else if ch == '\t' then "\\t"
    else if (ch as int) < 0x20 then "\\u00" + [HexDigit(ch as int / 16), HexDigit(ch as int % 16)]
    else [ch]
  }

  function Escape(s: string): string {
    if |s| == 0 then "" else EscapeChar(s[0]) + Escape(s[1..])
  }

  function Quote(s: string): string {
    "\"" + Escape(s) + "\""
  }

  function Member(k: string, v: Value): string
    decreases v, 1
  {
    Quote(k) + ":" + Encode(v)
  }

  /** `JSON.stringify(v)` (no spacing). */
  function Encode(v: Value): string
    decreases v, 0
  {
    match v
    case Str(s) => Quote(s)
    case Num(n) => IntText(n)
    case Bool(b) => BoolText(b)
    case Null => "null"
    case Arr(items) => "[" + Join(",", seq(|items|, i requires 0 <= i < |items| => Encode(items[i]))) + "]"
    case Obj(fields) => "{" + Join(",", seq(|fields|, i requires 0 <= i < |fields| => Member(fields[i].0, fields[i].1))) + "}"
  }

  // ---- JSON.parse of a flat object ----

  datatype Parsed<T> = Parsed(value: T, rest: string)

  predicate IsHex(ch: char) {
    IsDigit(ch) || 'a' <= ch <= 'f' || 'A' <= ch <= 'F'
  }

  function HexValue(ch: char): (v: nat)
    requires IsHex(ch)
    ensures v < 16
  {
    if IsDigit(ch) then ch as int - '0' as int
    else if 'a' <= ch <= 'f' then ch as int - 'a' as int + 10
    else ch as int - 'A' as int + 10
  }

  /** The value of the four hex digits of a `\uXXXX` escape. */
  function HexCode(a: char, b: char, c: char, d: char): (code: nat)
    requires IsHex(a) && IsHex(b) && IsHex(c) && IsHex(d)
    ensures code < 0x10000
  {
    var hi := HexValue(a) * 16 + HexValue(b);
    assert hi < 0x100;
    var mid := hi * 16 + HexValue(c);
    assert mid < 0x1000;
    mid * 16 + HexValue(d)
  }

  /** One escape sequence `\x` or `\uXXXX` at the head of `t`; code points of surrogate halves are refused. */
  function Unescape(t: string): (r: Option<Parsed<char>>)
    requires |t| > 0 && t[0] == '\\'
    ensures r.Some? ==> |r.value.rest| < |t|
  {
    if |t| < 2 then None
    else
      var c := t[1];
      if c == '"' || c == '\\' || c == '/' then Some(Parsed(c, t[2..]))
      else if c == 'b' then Some(Parsed(8 as char, t[2..]))
      else if c == 'f' then Some(Parsed(12 as char, t[2..]))
      else if c == 'n' then Some(Parsed('\n', t[2..]))
      else if c == 'r' then Some(Parsed('\r', t[2..]))
      else if c == 't' then Some(Parsed('\t', t[2..]))
      else if c == 'u' && |t| >= 6 && IsHex(t[2]) && IsHex(t[3]) && IsHex(t[4]) && IsHex(t[5]) then
        var code := HexCode(t[2], t[3], t[4], t[5]);
        if 0xD800 <= code < 0xE000 then None else Some(Parsed(code as char, t[6..]))
      else None
  }

  /** The characters of a string literal after its opening quote, up to and including the closing quote. */
  function ParseStrBody(t: string): (r: Option<Parsed<string>>)
    ensures r.Some? ==> |r.value.rest| < |t|
    decreases |t|
  {
    if |t| == 0 then None
    else if t[0] == '"' then Some(Parsed("", t[1..]))
    else if t[0] == '\\' then
      match Unescape(t)
      case None => None
      case Some(Parsed(ch, rest)) =>
        match ParseStrBody(rest)
        case None => None
        case Some(Parsed(s, rest')) => Some(Parsed([ch] + s, rest'))
    else if (t[0] as int) < 0x20 then None
    else
      match ParseStrBody(t[1..])
      case None => None
      case Some(Parsed(s, rest)) => Some(Parsed([t[0]] + s, rest))
  }

  /** The longest run of digits at the head of `t`. */
  function DigitPrefix(t: string): (d: string)
    ensures |d| <= |t| && d == t[..|d|] && AllDigits(d)
    ensures |d| < |t| ==> !IsDigit(t[|d|])
  {
    if |t| > 0 && IsDigit(t[0]) then [t[0]] + DigitPrefix(t[1..]) else ""
  }

  /** A JSON integer: an optional `-`, then `0` or digits not starting with `0`. */
  function ParseNumber(t: string): (r: Option<Parsed<int>>)
    ensures r.Some? ==> |r.value.rest| < |t|
  {
    var neg := |t| > 0 && t[0] == '-';
    var u := if neg then t[1..] else t;
    var d := DigitPrefix(u);
    if |d| == 0 || (d[0] == '0' && |d| > 1) then None
    else
      var n: int := DigitsValue(d);
      Some(Parsed(if neg then -n else n, u[|d|..]))
  }

  /** A scalar JSON value: a string, a number, `true`, `false` or `null`. */
  function ParseScalar(t: string): (r: Option<Parsed<Value>>)
    ensures r.Some? ==> |r.value.rest| < |t|
  {
    if |t| == 0 then None
    else if t[0] == '"' then
      match ParseStrBody(t[1..])
      case None => None
      case Some(Parsed(s, rest)) => Some(Parsed(Str(s), rest))
    else if StartsWith(t, "true") then Some(Parsed(Bool(true), t[4..]))
    else if StartsWith(t, "false") then Some(Parsed(Bool(false), t[5..]))
    else if StartsWith(t, "null") then Some(Parsed(Null, t[4..]))
    else if t[0] == '-' || IsDigit(t[0]) then
      match ParseNumber(t)
      case None => None
      case Some(Parsed(n, rest)) => Some(Parsed(Num(n), rest))
    else None
  }

  function Keys<T>(fs: seq<(string, T)>): (ks: seq<string>)
    ensures |ks| == |fs| && forall i :: 0 <= i < |fs| ==> ks[i] == fs[i].0
  {
    if |fs| == 0 then [] else [fs[0].0] + Keys(fs[1..])
  }

  /** Setting a key of an object: an existing key keeps its place and takes the new value, a new key goes last. */
  function Insert<T>(fs: seq<(string, T)>, k: string, v: T): (r: seq<(string, T)>)
    ensures k !in Keys(fs) ==> r == fs + [(k, v)]
    ensures k in Keys(fs) ==> |r| == |fs| && k in Keys(r)
  {
    if |fs| == 0 then [(k, v)]
    else if fs[0].0 == k then [(k, v)] + fs[1..]
    else
      assert Keys(fs) == [fs[0].0] + Keys(fs[1..]);
      [fs[0]] + Insert(fs[1..], k, v)
  }

  /** One member `"key":value` at the head of `t`. */
  function ParseMember(t: string): (r: Option<Parsed<(string, Value)>>)
    ensures r.Some? ==> |r.value.rest| < |t|
  {
    if |t| == 0 || t[0] != '"' then None
    else
      match ParseStrBody(t[1..])
      case None => None
      case Some(Parsed(k, r1)) =>
        if |r1| == 0 || r1[0] != ':' then None
        else
          match ParseScalar(r1[1..])
          case None => None
          case Some(Parsed(v, r2)) => Some(Parsed((k, v), r2))
  }

  /** The members of an object after its `{`, separated by `,`, up to and including the `}`. */
  function ParseMembers(t: string, acc: seq<(string, Value)>): (r: Option<Parsed<seq<(string, Value)>>>)
    decreases |t|
  {
    match ParseMember(t)
    case None => None
    case Some(Parsed((k, v), r2)) =>
      var acc' := Insert(acc, k, v);
      if |r2| > 0 && r2[0] == ',' then ParseMembers(r2[1..], acc')
      else if |r2| > 0 && r2[0] == '}' then Some(Parsed(acc', r2[1..]))
      else None
  }

  /** `JSON.parse(t)` for an object whose values are scalars; anything else is refused. */
  function ParseObject(t: string): Option<seq<(string, Value)>> {
    if |t| < 2 || t[0] != '{' then None
    else if t[1] == '}' then (if |t| == 2 then Some([]) else None)
    else
      match ParseMembers(t[1..], [])
      case Some(Parsed(fs, rest)) => if rest == "" then Some(fs) else None
      case None => None
  }

  // ---- the round trip ----

  predicate Scalar(v: Value) {
    v.Str? || v.Num? || v.Bool? || v.Null?
  }

  predicate Distinct(ks: seq<string>) {
    forall i, j :: 0 <= i < j < |ks| ==> ks[i] != ks[j]
  }

  /** An object with distinct keys whose values are all scalars. */
  predicate Flat(fs: seq<(string, Value)>) {
    Distinct(Keys(fs)) && forall i :: 0 <= i < |fs| ==> Scalar(fs[i].1)
  }

  lemma HexRoundTrip(d: nat)
    requires d < 16
    ensures IsHex(HexDigit(d)) && HexValue(HexDigit(d)) == d
  {
  }

  lemma UnescapeChar(ch: char, rest: string)
    requires |EscapeChar(ch)| > 1
    ensures EscapeChar(ch)[0] == '\\'
    ensures Unescape(EscapeChar(ch) + rest) == Some(Parsed(ch, rest))
  {
    var e := EscapeChar(ch);
    var t := e + rest;
    if (ch as int) < 0x20 && ch as int != 8 && ch as int != 12 && ch != '\n' && ch != '\r' && ch != '\t' {
      var hi, lo := ch as int / 16, ch as int % 16;
      HexRoundTrip(hi);
      HexRoundTrip(lo);
      assert t[..6] == "\\u00" + [HexDigit(hi), HexDigit(lo)];
      assert t[6..] == rest;
      assert HexValue(t[2]) == 0 && HexValue(t[3]) == 0;
    } else {
      assert t[2..] == rest;
    }
  }

  /** A quoted string body followed by anything reads back as the string. */
  lemma {:induction false} ParseEscaped(s: string, rest: string)
    ensures ParseStrBody(Escape(s) + "\"" + rest) == Some(Parsed(s, rest))
  {
    if |s| == 0 {
      assert Escape(s) + "\"" + rest == "\"" + rest;
    } else {
      var e := EscapeChar(s[0]);
      var tail := Escape(s[1..]) + "\"" + rest;
      ParseEscaped(s[1..], rest);
      AppendAssoc(e, Escape(s[1..]), "\"");
      AppendAssoc(e, Escape(s[1..]) + "\"", rest);
      ParseStrBodyCons(s[0], tail, s[1..], rest);
      assert [s[0]] + s[1..] == s;
    }
  }

  /** One written character in front of a string body adds that character to what is read. */
  lemma ParseStrBodyCons(ch: char, t: string, s: string, rest: string)
    requires ParseStrBody(t) == Some(Parsed(s, rest))
    ensures ParseStrBody(EscapeChar(ch) + t) == Some(Parsed([ch] + s, rest))
  {
    if |EscapeChar(ch)| > 1 {
      UnescapeChar(ch, t);
    } else {
      ConsTail(ch, t);
    }
  }

  lemma DigitPrefixOf(d: string, rest: string)
    requires AllDigits(d) && (|rest| == 0 || !IsDigit(rest[0]))
    ensures DigitPrefix(d + rest) == d
    decreases |d|
  {
    if |d| > 0 {
      DigitPrefixOf(d[1..], rest);
      assert (d + rest)[1..] == d[1..] + rest;
      assert [d[0]] + d[1..] == d;
    }
  }

  lemma NatTextZero(n: nat)
    ensures NatText(n)[0] == '0' ==> NatText(n) == "0"
  {
  }

  lemma ParseNatText(m: nat, u: string, rest: string)
    requires u == NatText(m) + rest && (|rest| == 0 || !IsDigit(rest[0]))
    ensures DigitPrefix(u) == NatText(m) && u[|NatText(m)|..] == rest
    ensures DigitsValue(DigitPrefix(u)) == m
    ensures DigitPrefix(u)[0] == '0' ==> |DigitPrefix(u)| == 1
  {
    var d := NatText(m);
    NatTextValue(m);
    NatTextZero(m);
    DigitPrefixOf(d, rest);
  }

  lemma ParseNumberDigits(t: string, neg: bool, m: nat, rest: string)
    requires neg ==> |t| > 0 && t[0] == '-' && t[1..] == NatText(m) + rest
    requires !neg ==> t == NatText(m) + rest
    requires |rest| == 0 || !IsDigit(rest[0])
    ensures ParseNumber(t) == Some(Parsed(if neg then -(m as int) else m as int, rest))
  {
    var u := if neg then t[1..] else t;
    if !neg {
      assert t[0] == NatText(m)[0];
      assert t[0] != '-';
    }
    ParseNatText(m, u, rest);
  }

  lemma ParseIntText(n: int, rest: string)
    requires |rest| == 0 || !IsDigit(rest[0])
    ensures ParseNumber(IntText(n) + rest) == Some(Parsed(n, rest))
  {
    var t := IntText(n) + rest;
    if n < 0 {
      assert t[1..] == NatText(-n) + rest;
      ParseNumberDigits(t, true, -n, rest);
    } else {
      ParseNumberDigits(t, false, n, rest);
    }
  }

  lemma ParseScalarNum(n: int, rest: string)
    requires |rest| == 0 || !IsDigit(rest[0])
    ensures ParseScalar(IntText(n) + rest) == Some(Parsed(Num(n), rest))
  {
    var t := IntText(n) + rest;
    ParseIntText(n, rest);
    assert t[0] == '-' || IsDigit(t[0]);
    DifferentHead(t, "true");
    DifferentHead(t, "false");
    DifferentHead(t, "null");
  }

  /** A text whose first character differs from a word's does not start with that word. */
  lemma DifferentHead(t: string, w: string)
    requires |t| > 0 && |w| > 0 && t[0] != w[0]
    ensures !StartsWith(t, w)
  {
    if |w| <= |t| {
      assert t[..|w|][0] == t[0];
    }
  }

  lemma ParseScalarStr(s: string, rest: string)
    ensures ParseScalar(Quote(s) + rest) == Some(Parsed(Str(s), rest))
  {
    var t := Quote(s) + rest;
    assert t[1..] == Escape(s) + "\"" + rest;
    ParseEscaped(s, rest);
  }

  lemma ParseScalarWord(v: Value, rest: string)
    requires v.Bool? || v.Null?
    ensures ParseScalar(Encode(v) + rest) == Some(Parsed(v, rest))
  {
    var w := Encode(v);
    var t := w + rest;
    assert t[..|w|] == w && t[|w|..] == rest;
    if v == Bool(false) {
      assert !StartsWith(t, "true") by { assert t[1] != 'r'; }
    } else if v == Null {
      assert !StartsWith(t, "true") by { assert t[1] != 'r'; }
      assert !StartsWith(t, "false") by { assert t[0] != 'f'; }
    }
  }

  /** An encoded scalar followed by a text not starting with a digit reads back as the scalar. */
  lemma ParseScalarEncoded(v: Value, rest: string)
    requires Scalar(v) && (|rest| == 0 || !IsDigit(rest[0]))
    ensures ParseScalar(Encode(v) + rest) == Some(Parsed(v, rest))
  {
    match v
    case Str(s) => ParseScalarStr(s, rest);
    case Num(n) => ParseScalarNum(n, rest);
    case Bool(_) => ParseScalarWord(v, rest);
    case Null => ParseScalarWord(v, rest);
  }

  function MemberTexts(fs: seq<(string, Value)>): seq<string> {
    seq(|fs|, i requires 0 <= i < |fs| => Member(fs[i].0, fs[i].1))
  }

  /** The members of an object as `JSON.stringify` lists them between its braces. */
  function Members(fs: seq<(string, Value)>): string {
    if |fs| == 0 then ""
    else if |fs| == 1 then Member(fs[0].0, fs[0].1)
    else Member(fs[0].0, fs[0].1) + "," + Members(fs[1..])
  }

  lemma {:induction false} MembersJoin(fs: seq<(string, Value)>)
    ensures Join(",", MemberTexts(fs)) == Members(fs)
  {
    if |fs| > 1 {
      assert MemberTexts(fs[1..]) == MemberTexts(fs)[1..];
      MembersJoin(fs[1..]);
    }
  }

  lemma EncodeObj(fs: seq<(string, Value)>)
    ensures Encode(Obj(fs)) == "{" + Members(fs) + "}"
  {
    MembersJoin(fs);
  }

  lemma ParseMemberUnfold(t: string, k: string, r1: string, v: Value, r2: string)
    requires |t| > 0 && t[0] == '"' && ParseStrBody(t[1..]) == Some(Parsed(k, r1))
    requires |r1| > 0 && r1[0] == ':' && ParseScalar(r1[1..]) == Some(Parsed(v, r2))
    ensures ParseMember(t) == Some(Parsed((k, v), r2))
  {
  }

  /** A quoted key, a colon and a text that reads as a scalar make one member. */
  lemma ParseMemberText(k: string, e: string, v: Value, after: string)
    requires ParseScalar(e + after) == Some(Parsed(v, after))
    ensures ParseMember(['"'] + (Escape(k) + (['"'] + ([':'] + (e + after))))) == Some(Parsed((k, v), after))
  {
    var r0 := [':'] + (e + after);
    var t := ['"'] + (Escape(k) + (['"'] + r0));
    ConsTail('"', Escape(k) + (['"'] + r0));
    ConsTail(':', e + after);
    AppendAssoc(Escape(k), ['"'], r0);
    ParseEscaped(k, r0);
    ParseMemberUnfold(t, k, r0, v, after);
  }

  /** One encoded member followed by a text not starting with a digit. */
  lemma ParseMemberEncoded(k: string, v: Value, after: string)
    requires Scalar(v) && (|after| == 0 || !IsDigit(after[0]))
    ensures ParseMember(Member(k, v) + after) == Some(Parsed((k, v), after))
  {
    var e := Encode(v);
    ParseScalarEncoded(v, after);
    ParseMemberText(k, e, v, after);
    calc {
      Member(k, v) + after;
      ['"'] + Escape(k) + ['"'] + [':'] + e + after;
      { AppendAssoc(['"'] + Escape(k) + ['"'] + [':'], e, after); }
      ['"'] + Escape(k) + ['"'] + [':'] + (e + after);
      { AppendAssoc(['"'] + Escape(k) + ['"'], [':'], e + after); }
      ['"'] + Escape(k) + ['"'] + ([':'] + (e + after));
      { AppendAssoc(['"'] + Escape(k), ['"'], [':'] + (e + after)); }
      ['"'] + Escape(k) + (['"'] + ([':'] + (e + after)));
      { AppendAssoc(['"'], Escape(k), ['"'] + ([':'] + (e + after))); }
      ['"'] + (Escape(k) + (['"'] + ([':'] + (e + after))));
    }
  }

  /** A member followed by `,`: parsing goes on after the comma with the member added. */
  lemma ParseMemberThenComma(k: string, v: Value, acc: seq<(string, Value)>, tail: string)
    requires Scalar(v) && k !in Keys(acc)
    ensures ParseMembers(Member(k, v) + ("," + tail), acc) == ParseMembers(tail, acc + [(k, v)])
  {
    var after := "," + tail;
    assert after[1..] == tail;
    ParseMemberEncoded(k, v, after);
  }

  /** The last member followed by `}`. */
  lemma ParseMemberThenBrace(k: string, v: Value, acc: seq<(string, Value)>, rest: string)
    requires Scalar(v) && k !in Keys(acc)
    ensures ParseMembers(Member(k, v) + ("}" + rest), acc) == Some(Parsed(acc + [(k, v)], rest))
  {
    var after := "}" + rest;
    assert after[1..] == rest;
    ParseMemberEncoded(k, v, after);
  }

  /** None of the keys of `fs` is already a key of `acc`. */
  predicate FreshKeys(fs: seq<(string, Value)>, acc: seq<(string, Value)>) {
    forall i :: 0 <= i < |fs| ==> fs[i].0 !in Keys(acc)
  }

  lemma FlatTail(fs: seq<(string, Value)>, acc: seq<(string, Value)>)
    requires |fs| > 1 && Flat(fs) && FreshKeys(fs, acc)
    ensures Flat(fs[1..]) && FreshKeys(fs[1..], acc + [fs[0]])
  {
    assert Keys(fs[1..]) == Keys(fs)[1..];
    assert Keys(acc + [fs[0]]) == Keys(acc) + [fs[0].0];
    forall i | 0 <= i < |fs[1..]|
      ensures fs[1..][i].0 !in Keys(acc + [fs[0]])
    {
      assert Keys(fs)[0] != Keys(fs)[i + 1];
    }
  }

  lemma AppendHead<T>(acc: seq<T>, fs: seq<T>)
    requires |fs| > 0
    ensures acc + [fs[0]] + fs[1..] == acc + fs
  {
    assert [fs[0]] + fs[1..] == fs;
  }

  lemma {:induction false} ParseMembersEncoded(fs: seq<(string, Value)>, acc: seq<(string, Value)>, rest: string)
    requires |fs| > 0 && Flat(fs) && FreshKeys(fs, acc)
    ensures ParseMembers(Members(fs) + "}" + rest, acc) == Some(Parsed(acc + fs, rest))
    decreases |fs|, 1
  {
    if |fs| == 1 {
      var k, v := fs[0].0, fs[0].1;
      assert Scalar(v);
      assert k !in Keys(acc) by { assert FreshKeys(fs, acc); }
      assert Members(fs) + "}" + rest == Member(k, v) + ("}" + rest);
      ParseMemberThenBrace(k, v, acc, rest);
      assert fs == [(k, v)];
    } else {
      ParseMembersEncodedCons(fs, acc, rest);
    }
  }

  lemma {:induction false} ParseMembersEncodedCons(fs: seq<(string, Value)>, acc: seq<(string, Value)>, rest: string)
    requires |fs| > 1 && Flat(fs) && FreshKeys(fs, acc)
    ensures ParseMembers(Members(fs) + "}" + rest, acc) == Some(Parsed(acc + fs, rest))
    decreases |fs|, 0
  {
    var k, v := fs[0].0, fs[0].1;
    assert Scalar(v);
    assert k !in Keys(acc) by { assert FreshKeys(fs, acc); }
    var acc' := acc + [(k, v)];
    var tail := Members(fs[1..]) + "}" + rest;
    assert Members(fs) + "}" + rest == Member(k, v) + ("," + tail);
    ParseMemberThenComma(k, v, acc, tail);
    FlatTail(fs, acc);
    assert fs[0] == (k, v);
    ParseMembersEncoded(fs[1..], acc', rest);
    AppendHead(acc, fs);
  }

  /** The members of a non-empty flat object between braces parse back to the object. */
  lemma ParseBracedMembers(fs: seq<(string, Value)>)
    requires Flat(fs) && |fs| > 0
    ensures ParseObject(['{'] + (Members(fs) + "}")) == Some(fs)
  {
    var body := Members(fs) + "}";
    var t := ['{'] + body;
    assert FreshKeys(fs, []);
    ParseMembersEncoded(fs, [], "");
    assert body + "" == body;
    assert [] + fs == fs;
    ConsTail('{', body);
    MembersHead(fs);
    ParseObjectUnfold(t, fs);
  }

  lemma ParseObjectUnfold(t: string, fs: seq<(string, Value)>)
    requires |t| >= 2 && t[0] == '{' && t[1] != '}' && ParseMembers(t[1..], []) == Some(Parsed(fs, ""))
    ensures ParseObject(t) == Some(fs)
  {
  }

  lemma MembersHead(fs: seq<(string, Value)>)
    requires |fs| > 0
    ensures |Members(fs)| > 0 && Members(fs)[0] == '"'
  {
    var m := Member(fs[0].0, fs[0].1);
    assert m[0] == '"';
  }

  /** `JSON.parse(JSON.stringify(o))` gives back a flat object `o`. */
  lemma ParseEncodedObject(fs: seq<(string, Value)>)
    requires Flat(fs)
    ensures ParseObject(Encode(Obj(fs))) == Some(fs)
  {
    EncodeObj(fs);
    if |fs| > 0 {
      ParseBracedMembers(fs);
      AppendAssoc("{", Members(fs), "}");
    } else {
      assert Encode(Obj(fs)) == "{}";
    }
  }

  // ---- what the parser accepts ----

  lemma {:induction false} InsertKeys(fs: seq<(string, Value)>, k: string, v: Value)
    ensures var r := Insert(fs, k, v);
      && Keys(r) == (if k in Keys(fs) then Keys(fs) else Keys(fs) + [k])
      && forall i :: 0 <= i < |r| ==> r[i] == (k, v) || r[i] in fs
  {
    if |fs| > 0 && fs[0].0 != k {
      var tail := Insert(fs[1..], k, v);
      InsertKeys(fs[1..], k, v);
      assert Insert(fs, k, v) == [fs[0]] + tail;
      assert Keys(fs) == [fs[0].0] + Keys(fs[1..]);
      assert Keys([fs[0]] + tail) == [fs[0].0] + Keys(tail);
      forall i | 0 <= i < |tail|
        ensures tail[i] == (k, v) || tail[i] in fs
      {
        if tail[i] != (k, v) {
          assert tail[i] in fs[1..];
        }
      }
    } else if |fs| > 0 {
      assert Keys(fs) == [k] + Keys(fs[1..]);
      assert Keys(Insert(fs, k, v)) == [k] + Keys(fs[1..]);
      forall i | 1 <= i < |fs|
        ensures fs[i] in fs
      {
      }
    }
  }

  lemma InsertFlat(fs: seq<(string, Value)>, k: string, v: Value)
    requires Flat(fs) && Scalar(v)
    ensures Flat(Insert(fs, k, v))
  {
    InsertKeys(fs, k, v);
    var r := Insert(fs, k, v);
    forall i | 0 <= i < |r|
      ensures Scalar(r[i].1)
    {
      if r[i] != (k, v) {
        var j :| 0 <= j < |fs| && fs[j] == r[i];
      }
    }
  }

  lemma ParseMemberScalar(t: string)
    ensures ParseMember(t).Some? ==> Scalar(ParseMember(t).value.value.1)
  {
  }

  lemma {:induction false} ParseMembersFlat(t: string, acc: seq<(string, Value)>)
    requires Flat(acc)
    ensures ParseMembers(t, acc).Some? ==> Flat(ParseMembers(t, acc).value.value)
    decreases |t|
  {
    ParseMemberScalar(t);
    match ParseMember(t)
    case None =>
    case Some(Parsed((k, v), r2)) =>
      InsertFlat(acc, k, v);
      if |r2| > 0 && r2[0] == ',' {
        ParseMembersFlat(r2[1..], Insert(acc, k, v));
      }
  }

  /** `JSON.parse` as modelled yields only flat objects: distinct keys, scalar values. */
  lemma ParseObjectFlat(t: string)
    ensures ParseObject(t).Some? ==> Flat(ParseObject(t).value)
  {
    if |t| >= 2 && t[0] == '{' && t[1] != '}' {
      ParseMembersFlat(t[1..], []);
    }
  }
}
