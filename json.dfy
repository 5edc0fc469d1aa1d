/** The part of Python's `json.loads` that the verdict extraction relies on:
    a decoder for JSON text into a value tree, with the decoder's own rules
    for whitespace, string escapes, numbers, literals and trailing data.
    Parsers work on suffixes of the input: each returns the value it read and
    the text that follows it. */
module Json {
  import opened Wrappers

  /** A decoded JSON value. A number keeps its lexeme (the model never
      computes with numbers); an object keeps its members in text order,
      duplicates included, so that `ToDict` can apply Python's
      last-key-wins rule. */
  datatype Json =
    | JNull
    | JBool(b: bool)
    | JNumber(lexeme: string)
    | JString(s: string)
    | JArray(items: seq<Json>)
    | JObject(members: seq<(string, Json)>)

  /** The decoder's whitespace: space, tab, line feed, carriage return. */
  predicate IsWs(c: char) {
    c == ' ' || c == '\t' || c == '\n' || c == '\r'
  }

  predicate IsDigit(c: char) {
    '0' <= c <= '9'
  }

  function SkipWs(s: string): (r: string)
    ensures |r| <= |s|
    ensures r == [] || !IsWs(r[0])
  {
    if s != [] && IsWs(s[0]) then SkipWs(s[1..]) else s
  }

  lemma SkipWsNoWs(s: string)
    requires s == [] || !IsWs(s[0])
    ensures SkipWs(s) == s
  {
  }

  // ---------------------------------------------------------------------
  // Strings

  function HexValue(c: char): Option<nat> {
    if '0' <= c <= '9' then Some(c as nat - '0' as nat)
    else if 'a' <= c <= 'f' then Some(c as nat - 'a' as nat + 10)
    else if 'A' <= c <= 'F' then Some(c as nat - 'A' as nat + 10)
    else None
  }

  /** The four hexadecimal digits of a `\uXXXX` escape, strictly (no sign,
      no blanks), as the decoder's scanner reads them. */
  function Hex4(s: string): (r: Option<nat>)
    requires |s| == 4
    ensures r.Some? ==> r.value < 0x1_0000
  {
    match (HexValue(s[0]), HexValue(s[1]), HexValue(s[2]), HexValue(s[3]))
    case (Some(a), Some(b), Some(c), Some(d)) =>
      if a < 16 && b < 16 && c < 16 && d < 16 then Some(((a * 16 + b) * 16 + c) * 16 + d) else None
    case _ => None
  }

  predicate IsHighSurrogate(n: nat) { 0xD800 <= n <= 0xDBFF }
  predicate IsLowSurrogate(n: nat) { 0xDC00 <= n <= 0xDFFF }

  /** A `\u` escape; `t` starts right after the `u`. A high surrogate
      followed by an escaped low surrogate combines into one character. */
  function UnicodeEscape(t: string): (r: Option<(char, string)>)
    ensures r.Some? ==> |r.value.1| < |t|
  {
    if |t| < 4 then None
    else match Hex4(t[..4])
      case None => None
      case Some(n) =>
        if IsHighSurrogate(n) then
          if |t| >= 10 && t[4] == '\\' && t[5] == 'u' then
            match Hex4(t[6..10])
            case Some(m) =>
              if IsLowSurrogate(m) then
                var code := 0x1_0000 + (n - 0xD800) * 0x400 + (m - 0xDC00);
                Some((code as char, t[10..]))
              else None
            case None => None
          else None
        else if IsLowSurrogate(n) then None
        else Some((n as char, t[4..]))
  }

  /** One escape sequence; `t` starts right after the backslash. */
  function Escape(t: string): (r: Option<(char, string)>)
    ensures r.Some? ==> |r.value.1| < |t|
  {
    if t == [] then None
    else if t[0] == '"' then Some(('"', t[1..]))
    else if t[0] == '\\' then Some(('\\', t[1..]))
    else if t[0] == '/' then Some(('/', t[1..]))
    else if t[0] == 'b' then Some(('\U{8}', t[1..]))
    else if t[0] == 'f' then Some(('\U{C}', t[1..]))
    else if t[0] == 'n' then Some(('\n', t[1..]))
    else if t[0] == 'r' then Some(('\r', t[1..]))
    else if t[0] == 't' then Some(('\t', t[1..]))
    else if t[0] == 'u' then UnicodeEscape(t[1..])
    else None
  }

  /** The characters of a string literal; `s` starts right after the opening
      quote, and the result's text follows the closing quote. Control
      characters are refused, as the decoder's strict mode does. */
  function ParseStringBody(s: string): (r: Option<(string, string)>)
    ensures r.Some? ==> |r.value.1| < |s|
    decreases |s|
  {
    if s == [] then None
    else if s[0] == '"' then Some(([], s[1..]))
    else if s[0] == '\\' then
      match Escape(s[1..])
      case None => None
      case Some((c, after)) =>
        match ParseStringBody(after)
        case None => None
        case Some((tail, rest)) => Some(([c] + tail, rest))
    else if s[0] < ' ' then None
    else
      match ParseStringBody(s[1..])
      case None => None
      case Some((tail, rest)) => Some(([s[0]] + tail, rest))
  }

  // ---------------------------------------------------------------------
  // Numbers

  /** The index of the first non-digit at or after `i`. */
  function DigitsEnd(s: string, i: nat): (j: nat)
    requires i <= |s|
    ensures i <= j <= |s|
    ensures forall k | i <= k < j :: IsDigit(s[k])
    ensures j == |s| || !IsDigit(s[j])
    decreases |s| - i
  {
    if i < |s| && IsDigit(s[i]) then DigitsEnd(s, i + 1) else i
  }

  /** The length of the number lexeme at the start of `s`: an optional minus,
      `0` or a digit run not starting with `0`, then a fraction only when a
      digit follows the dot, then an exponent only when a digit follows the
      `e` and its sign. */
  function NumberEnd(s: string): (r: Option<nat>)
    ensures r.Some? ==> 0 < r.value <= |s|
  {
    var i := if s != [] && s[0] == '-' then 1 else 0;
    if i >= |s| then None
    else
      var intEnd :=
        if '1' <= s[i] <= '9' then DigitsEnd(s, i + 1)
        else if s[i] == '0' then i + 1
        else 0;
      if intEnd == 0 then None
      else
        var fracEnd :=
          if intEnd + 1 < |s| && s[intEnd] == '.' && IsDigit(s[intEnd + 1]) then DigitsEnd(s, intEnd + 1)
          else intEnd;
        var expEnd :=
          if fracEnd < |s| && (s[fracEnd] == 'e' || s[fracEnd] == 'E') then
            var m := if fracEnd + 1 < |s| && (s[fracEnd + 1] == '+' || s[fracEnd + 1] == '-') then fracEnd + 2 else fracEnd + 1;
            var n := DigitsEnd(s, m);
            if n > m then n else fracEnd
          else fracEnd;
        Some(expEnd)
  }

  // ---------------------------------------------------------------------
  // Values

  predicate StartsWith(s: string, p: string) {
    |p| <= |s| && s[..|p|] == p
  }

  /** The value at the start of `s` (no leading whitespace) and the text
      after it. */
  function ParseValue(s: string): (r: Option<(Json, string)>)
    ensures r.Some? ==> |r.value.1| < |s|
    decreases |s|, 1
  {
    if s == [] then None
    else if s[0] == '"' then
      match ParseStringBody(s[1..])
      case None => None
      case Some((x, rest)) => Some((JString(x), rest))
    else if s[0] == '{' then ParseObject(s)
    else if s[0] == '[' then ParseArray(s)
    else ParseScalar(s)
  }

  /** A keyword (`null`, `true`, `false`, `NaN`, `Infinity`, `-Infinity`) or
      a number. */
  function ParseScalar(s: string): (r: Option<(Json, string)>)
    ensures r.Some? ==> |r.value.1| < |s|
  {
    if StartsWith(s, "null") then Some((JNull, s[4..]))
    else if StartsWith(s, "true") then Some((JBool(true), s[4..]))
    else if StartsWith(s, "false") then Some((JBool(false), s[5..]))
    else if StartsWith(s, "NaN") then Some((JNumber("NaN"), s[3..]))
    else if StartsWith(s, "Infinity") then Some((JNumber("Infinity"), s[8..]))
    else if StartsWith(s, "-Infinity") then Some((JNumber("-Infinity"), s[9..]))
    else
      match NumberEnd(s)
      case None => None
      case Some(n) => Some((JNumber(s[..n]), s[n..]))
  }

  /** An object; `s` starts at its opening brace. */
  function ParseObject(s: string): (r: Option<(Json, string)>)
    requires s != []
    ensures r.Some? ==> |r.value.1| < |s| && r.value.0.JObject?
    decreases |s|, 0
  {
    var t := SkipWs(s[1..]);
    if t != [] && t[0] == '}' then Some((JObject([]), t[1..]))
    else
      match ParseMembers(t)
      case None => None
      case Some((ms, rest)) => Some((JObject(ms), rest))
  }

  /** An array; `s` starts at its opening bracket. */
  function ParseArray(s: string): (r: Option<(Json, string)>)
    requires s != []
    ensures r.Some? ==> |r.value.1| < |s|
    decreases |s|, 0
  {
    var t := SkipWs(s[1..]);
    if t != [] && t[0] == ']' then Some((JArray([]), t[1..]))
    else
      match ParseElements(t)
      case None => None
      case Some((vs, rest)) => Some((JArray(vs), rest))
  }

  /** One `"key": value` member; `s` starts at the key's opening quote.
      Gives the key, the value and the text after the value. */
  function ParseMember(s: string): (r: Option<(string, Json, string)>)
    ensures r.Some? ==> |r.value.2| < |s|
    decreases |s|, 0
  {
    if s == [] || s[0] != '"' then None
    else
      match ParseStringBody(s[1..])
      case None => None
      case Some((key, afterKey)) =>
        var t := SkipWs(afterKey);
        if t == [] || t[0] != ':' then None
        else
          match ParseValue(SkipWs(t[1..]))
          case None => None
          case Some((v, afterValue)) => Some((key, v, afterValue))
  }

  /** The members of a non-empty object; `s` starts at the first key's
      opening quote, and the result's text follows the closing brace. */
  function ParseMembers(s: string): (r: Option<(seq<(string, Json)>, string)>)
    ensures r.Some? ==> |r.value.1| < |s|
    decreases |s|, 1
  {
    match ParseMember(s)
    case None => None
    case Some((key, v, afterValue)) => MembersAfter(key, v, SkipWs(afterValue), |s|)
  }

  /** What follows a member: `}` ends the object, `,` starts the next
      member. `bound` is the length of the text the member started at. */
  function MembersAfter(key: string, v: Json, w: string, bound: nat): (r: Option<(seq<(string, Json)>, string)>)
    requires |w| < bound
    ensures r.Some? ==> |r.value.1| < |w|
    decreases bound, 0
  {
    if w == [] then None
    else if w[0] == '}' then Some(([(key, v)], w[1..]))
    else if w[0] == ',' then
      match ParseMembers(SkipWs(w[1..]))
      case None => None
      case Some((more, rest)) => Some(([(key, v)] + more, rest))
    else None
  }

  /** The elements of a non-empty array; `s` starts at the first element,
      and the result's text follows the closing bracket. */
  function ParseElements(s: string): (r: Option<(seq<Json>, string)>)
    ensures r.Some? ==> |r.value.1| < |s|
    decreases |s|, 2
  {
    match ParseValue(s)
    case None => None
    case Some((v, afterValue)) =>
      var w := SkipWs(afterValue);
      if w == [] then None
      else if w[0] == ']' then Some(([v], w[1..]))
      else if w[0] == ',' then
        match ParseElements(SkipWs(w[1..]))
        case None => None
        case Some((more, rest)) => Some(([v] + more, rest))
      else None
  }

  /** `json.loads` on a whole text: one value, with only whitespace around
      it. `None` stands for `JSONDecodeError`. */
  function Parse(s: string): Option<Json> {
    match ParseValue(SkipWs(s))
    case None => None
    case Some((v, rest)) => if SkipWs(rest) == [] then Some(v) else None
  }

  /** A text whose first non-blank character is `{` decodes to an object or
      not at all. */
  lemma ParseBraceIsObject(s: string)
    requires s != [] && s[0] == '{'
    ensures Parse(s).Some? ==> Parse(s).value.JObject?
  {
    SkipWsNoWs(s);
  }

  // ---------------------------------------------------------------------
  // Python dicts

  /** The names of an object's members. */
  function Names(ms: seq<(string, Json)>): set<string> {
    set i | 0 <= i < |ms| :: ms[i].0
  }

  /** The names of all members are those of all but the last, and the
      last's. */
  lemma NamesSnoc(ms: seq<(string, Json)>)
    requires ms != []
    ensures Names(ms) == Names(ms[..|ms| - 1]) + {ms[|ms| - 1].0}
  {
    var init := ms[..|ms| - 1];
    assert forall i | 0 <= i < |init| :: init[i] == ms[i];
    assert ms == init + [ms[|ms| - 1]];
  }

  /** The dict a decoded object becomes: one entry per member name, later
      members overwriting earlier ones (`ToDictLastWins`). */
  function ToDict(ms: seq<(string, Json)>): (d: map<string, Json>)
    ensures d.Keys == Names(ms)
  {
    if ms == [] then map[]
    else
      NamesSnoc(ms);
      ToDict(ms[..|ms| - 1])[ms[|ms| - 1].0 := ms[|ms| - 1].1]
  }

  /** A name's value in the dict is that of its last member. */
  lemma {:induction false} ToDictLastWins(ms: seq<(string, Json)>, i: nat)
    requires i < |ms|
    requires forall j | i < j < |ms| :: ms[j].0 != ms[i].0
    ensures ms[i].0 in ToDict(ms) && ToDict(ms)[ms[i].0] == ms[i].1
  {
    if i < |ms| - 1 {
      var init := ms[..|ms| - 1];
      assert init[i] == ms[i];
      forall j | i < j < |init| ensures init[j].0 != init[i].0 {
        assert init[j] == ms[j];
      }
      ToDictLastWins(init, i);
    }
  }

  // ---------------------------------------------------------------------
  // Writing JSON text, for the round-trip properties

  /** Characters a string can hold without an escape other than `\"` and
      `\\`. */
  predicate Printable(x: string) {
    forall i | 0 <= i < |x| :: x[i] >= ' '
  }

  /** The characters of `x` escaped, then the closing quote, then `rest`. */
  function WriteStringBody(x: string, rest: string): string {
    if x == [] then ['"'] + rest
    else if x[0] == '"' || x[0] == '\\' then ['\\', x[0]] + WriteStringBody(x[1..], rest)
    else [x[0]] + WriteStringBody(x[1..], rest)
  }

  /** `x` as a JSON string literal, followed by `rest`. */
  function WriteString(x: string, rest: string): string {
    ['"'] + WriteStringBody(x, rest)
  }

  /** `"k1": "v1", "k2": "v2", ...` followed by `rest`, with the separators
      `json.dumps` uses. */
  function WriteMembers(ps: seq<(string, string)>, rest: string): string
    requires ps != []
  {
    var after := if |ps| == 1 then rest else [',', ' '] + WriteMembers(ps[1..], rest);
    WriteString(ps[0].0, [':', ' '] + WriteString(ps[0].1, after))
  }

  /** A flat object of string members written as JSON text. */
  function ObjectText(ps: seq<(string, string)>): string {
    if ps == [] then "{}" else ['{'] + WriteMembers(ps, "}")
  }

  function StringMembers(ps: seq<(string, string)>): (ms: seq<(string, Json)>)
    ensures |ms| == |ps|
    ensures forall i | 0 <= i < |ps| :: ms[i] == (ps[i].0, JString(ps[i].1))
  {
    if ps == [] then [] else [(ps[0].0, JString(ps[0].1))] + StringMembers(ps[1..])
  }

  predicate AllPrintable(ps: seq<(string, string)>) {
    forall i | 0 <= i < |ps| :: Printable(ps[i].0) && Printable(ps[i].1)
  }

  lemma {:induction false} StringRoundTrip(x: string, rest: string)
    requires Printable(x)
    ensures ParseStringBody(WriteStringBody(x, rest)) == Some((x, rest))
  {
    var s := WriteStringBody(x, rest);
    if x != [] {
      var tail := WriteStringBody(x[1..], rest);
      StringRoundTrip(x[1..], rest);
      if x[0] == '"' || x[0] == '\\' {
        assert s[1..] == [x[0]] + tail;
        assert Escape(s[1..]) == Some((x[0], tail));
      } else {
        assert s[1..] == tail;
      }
      assert [x[0]] + x[1..] == x;
    }
  }

  lemma QuotedRoundTrip(x: string, rest: string)
    requires Printable(x)
    ensures ParseValue(WriteString(x, rest)) == Some((JString(x), rest))
  {
    StringRoundTrip(x, rest);
  }

  lemma ParseMemberSteps(s: string, k: string, afterKey: string, v: Json, tail: string)
    requires s != [] && s[0] == '"'
    requires ParseStringBody(s[1..]) == Some((k, afterKey))
    requires SkipWs(afterKey) == afterKey && afterKey != [] && afterKey[0] == ':'
    requires ParseValue(SkipWs(afterKey[1..])) == Some((v, tail))
    ensures ParseMember(s) == Some((k, v, tail))
  {
  }

  lemma MemberRoundTrip(k: string, v: string, tail: string)
    requires Printable(k) && Printable(v)
    ensures ParseMember(WriteString(k, [':', ' '] + WriteString(v, tail))) == Some((k, JString(v), tail))
  {
    var u := WriteString(v, tail);
    var afterKey := [':', ' '] + u;
    var s := WriteString(k, afterKey);
    StringRoundTrip(k, afterKey);
    assert SkipWs(afterKey) == afterKey;
    assert SkipWs(afterKey[1..]) == u by {
      assert afterKey[1..] == [' '] + u;
    }
    QuotedRoundTrip(v, tail);
    ParseMemberSteps(s, k, afterKey, JString(v), tail);
  }

  lemma ParseMembersClose(s: string, k: string, v: Json, w: string)
    requires ParseMember(s) == Some((k, v, w))
    requires w != [] && w[0] == '}'
    ensures ParseMembers(s) == Some(([(k, v)], w[1..]))
  {
  }

  lemma ParseMembersNext(s: string, k: string, v: Json, w: string, more: seq<(string, Json)>, rest: string)
    requires ParseMember(s) == Some((k, v, w))
    requires w != [] && w[0] == ','
    requires ParseMembers(SkipWs(w[1..])) == Some((more, rest))
    ensures ParseMembers(s) == Some(([(k, v)] + more, rest))
  {
  }

  lemma AllPrintableTail(ps: seq<(string, string)>)
    requires ps != [] && AllPrintable(ps)
    ensures AllPrintable(ps[1..])
  {
    forall i | 0 <= i < |ps[1..]| ensures Printable(ps[1..][i].0) && Printable(ps[1..][i].1) {
      assert ps[1..][i] == ps[i + 1];
    }
  }

  lemma {:induction false} MembersRoundTrip(ps: seq<(string, string)>, rest: string)
    requires ps != [] && AllPrintable(ps)
    ensures ParseMembers(WriteMembers(ps, ['}'] + rest)) == Some((StringMembers(ps), rest))
  {
    var k, v := ps[0].0, ps[0].1;
    var s := WriteMembers(ps, ['}'] + rest);
    if |ps| == 1 {
      MemberRoundTrip(k, v, ['}'] + rest);
      assert s == WriteString(k, [':', ' '] + WriteString(v, ['}'] + rest));
      ParseMembersClose(s, k, JString(v), ['}'] + rest);
      assert (['}'] + rest)[1..] == rest;
      assert StringMembers(ps) == [(k, JString(v))];
    } else {
      var more := WriteMembers(ps[1..], ['}'] + rest);
      var w := [',', ' '] + more;
      MemberRoundTrip(k, v, w);
      AllPrintableTail(ps);
      MembersRoundTrip(ps[1..], rest);
      assert SkipWs(w[1..]) == more by {
        assert w[1..] == [' '] + more;
      }
      assert s == WriteString(k, [':', ' '] + WriteString(v, w));
      ParseMembersNext(s, k, JString(v), w, StringMembers(ps[1..]), rest);
      assert StringMembers(ps) == [(k, JString(v))] + StringMembers(ps[1..]);
    }
  }

  /** A flat object of printable string members, written as JSON text,
      decodes back to the same members in the same order. */
  lemma ObjectRoundTrip(ps: seq<(string, string)>)
    requires AllPrintable(ps)
    ensures Parse(ObjectText(ps)) == Some(JObject(StringMembers(ps)))
  {
    var s := ObjectText(ps);
    assert SkipWs(s) == s;
    if ps == [] {
      assert s[1..] == "}";
      assert ParseObject(s) == Some((JObject([]), []));
    } else {
      MembersRoundTrip(ps, []);
      assert ['}'] + [] == "}";
      var t := WriteMembers(ps, "}");
      assert s[1..] == t;
      assert t[0] == '"';
      assert ParseObject(s) == Some((JObject(StringMembers(ps)), []));
    }
    assert ParseValue(s) == Some((JObject(StringMembers(ps)), []));
  }

  // ---------------------------------------------------------------------
  // The characters of written text

  /** A text without `"` or `\` is written as it is, then the quote. */
  lemma {:induction false} PlainStringBody(x: string, rest: string)
    requires '"' !in x && '\\' !in x
    ensures WriteStringBody(x, rest) == x + ['"'] + rest
  {
    if x != [] {
      var y := x[1..];
      assert x == [x[0]] + y;
      assert x[0] in x;
      assert forall c | c in y :: c in x;
      PlainStringBody(y, rest);
      assert WriteStringBody(x, rest) == [x[0]] + (y + ['"'] + rest);
    }
  }

  /** The text after a string is only appended. */
  lemma {:induction false} StringBodyThen(x: string, rest: string)
    ensures WriteStringBody(x, rest) == WriteStringBody(x, []) + rest
  {
    if x != [] {
      StringBodyThen(x[1..], rest);
    }
  }

  lemma Associative(a: string, b: string, c: string)
    ensures a + (b + c) == (a + b) + c
  {
  }

  /** The text after the members is only appended. */
  lemma {:induction false} MembersThen(ps: seq<(string, string)>, rest: string)
    requires ps != []
    ensures WriteMembers(ps, rest) == WriteMembers(ps, []) + rest
    decreases |ps|
  {
    var k, v := ps[0].0, ps[0].1;
    var after := if |ps| == 1 then rest else [',', ' '] + WriteMembers(ps[1..], rest);
    var after0 := if |ps| == 1 then [] else [',', ' '] + WriteMembers(ps[1..], []);
    if |ps| > 1 {
      MembersThen(ps[1..], rest);
    }
    assert after == after0 + rest;
    var bv, bk := WriteStringBody(v, []), WriteStringBody(k, []);
    StringBodyThen(v, after);
    StringBodyThen(v, after0);
    var u0 := ['"'] + (bv + after0);
    var w0 := [':', ' '] + u0;
    StringBodyThen(k, [':', ' '] + (['"'] + (bv + after)));
    StringBodyThen(k, w0);
    Associative(bv, after0, rest);
    Associative(['"'], bv + after0, rest);
    Associative([':', ' '], u0, rest);
    Associative(bk, w0, rest);
    Associative(['"'], bk + w0, rest);
  }

  /** A written object is `{`, its members, `}`. */
  lemma ObjectTextShape(ps: seq<(string, string)>)
    requires ps != []
    ensures ObjectText(ps) == ['{'] + WriteMembers(ps, []) + ['}']
  {
    MembersThen(ps, "}");
  }

  /** The character `c` occurs in none of the texts. */
  predicate AbsentFrom(c: char, ps: seq<(string, string)>) {
    forall i | 0 <= i < |ps| :: c !in ps[i].0 && c !in ps[i].1
  }

  /** The writer adds only `"` and `\` to a string. */
  lemma {:induction false} StringBodyAbsent(c: char, x: string, rest: string)
    requires c != '"' && c != '\\' && c !in x && c !in rest
    ensures c !in WriteStringBody(x, rest)
  {
    if x != [] {
      assert forall d | d in x[1..] :: d in x;
      StringBodyAbsent(c, x[1..], rest);
    }
  }

  /** The writer adds only `"`, `\`, `:`, `,` and space to the members. */
  lemma {:induction false} MembersAbsent(c: char, ps: seq<(string, string)>, rest: string)
    requires ps != [] && c != '"' && c != '\\' && c != ':' && c != ',' && c != ' '
    requires AbsentFrom(c, ps) && c !in rest
    ensures c !in WriteMembers(ps, rest)
    decreases |ps|
  {
    var after := if |ps| == 1 then rest else [',', ' '] + WriteMembers(ps[1..], rest);
    if |ps| > 1 {
      forall i | 0 <= i < |ps[1..]| ensures c !in ps[1..][i].0 && c !in ps[1..][i].1 {
        assert ps[1..][i] == ps[i + 1];
      }
      MembersAbsent(c, ps[1..], rest);
    }
    StringBodyAbsent(c, ps[0].1, after);
    StringBodyAbsent(c, ps[0].0, [':', ' '] + WriteString(ps[0].1, after));
  }
}
