/** The text searches the verdict extraction does with Python's `re`
    module and `str` methods, each written as the scan the regular
    expression engine performs for that one pattern. Positions are indices
    into the searched text. */
module Scanners {
  import opened Wrappers

  /** Python's `\s` and `str.isspace` on text: the ASCII blanks (tab to
      carriage return, the four separators 0x1C to 0x1F, space) and the
      Unicode white space characters. */
  predicate IsSpace(c: char) {
    || ('\t' <= c <= '\r')
    || ('\U{1C}' <= c <= '\U{1F}')
    || c == ' '
    || c == '\U{85}'
    || c == '\U{A0}'
    || c == '\U{1680}'
    || ('\U{2000}' <= c <= '\U{200A}')
    || c == '\U{2028}'
    || c == '\U{2029}'
    || c == '\U{202F}'
    || c == '\U{205F}'
    || c == '\U{3000}'
  }

  /** The text `p` occurs in `s` at position `i`. */
  predicate At(s: string, i: nat, p: string) {
    i + |p| <= |s| && s[i..i + |p|] == p
  }

  /** The text `p` occurs somewhere in `s`. */
  predicate Occurs(s: string, p: string) {
    exists i | 0 <= i <= |s| :: At(s, i, p)
  }

  /** Where a greedy `\s*` that starts at `i` stops. */
  function SpaceEnd(s: string, i: nat): (j: nat)
    requires i <= |s|
    ensures i <= j <= |s|
    ensures forall k | i <= k < j :: IsSpace(s[k])
    ensures j == |s| || !IsSpace(s[j])
    decreases |s| - i
  {
    if i == |s| || !IsSpace(s[i]) then i else SpaceEnd(s, i + 1)
  }

  // ---------------------------------------------------------------------
  // The fenced block: re.search(r'```(?:json)?\s*(\{.*?\})\s*```', text, re.DOTALL)

  const Fence: string := "```"
  const JsonTag: string := "json"

  /** Where the captured group can begin after an opening fence at `i`:
      past the `json` tag when it is there, then past the blanks. Only the
      longest run of blanks can be followed by `{`, and when the tag is
      there, leaving it out puts `j` where `{` is needed; so the engine's
      backtracking has no other choice to try. */
  function BodyStart(s: string, i: nat): (q: nat)
    requires i + |Fence| <= |s|
    ensures i + |Fence| <= q <= |s|
  {
    SpaceEnd(s, if At(s, i + 3, JsonTag) then i + 7 else i + 3)
  }

  /** An opening fence at `i` followed by the group's `{`. */
  predicate Opens(s: string, i: nat) {
    At(s, i, Fence) && BodyStart(s, i) < |s| && s[BodyStart(s, i)] == '{'
  }

  /** A `}` at `e`, then blanks, then a closing fence. */
  predicate Closes(s: string, e: nat) {
    e < |s| && s[e] == '}' && At(s, SpaceEnd(s, e + 1), Fence)
  }

  /** The pattern matches from `i` with the group ending at `e`. */
  predicate FenceMatch(s: string, i: nat, e: nat) {
    Opens(s, i) && BodyStart(s, i) < e && Closes(s, e)
  }

  /** The first closing position at or after `j`: the lazy `.*?`. */
  function CloseFrom(s: string, j: nat): (r: Option<nat>)
    requires j <= |s|
    ensures r.Some? ==> j <= r.value && Closes(s, r.value) && forall e | j <= e < r.value :: !Closes(s, e)
    ensures r.None? ==> forall e: nat | j <= e :: !Closes(s, e)
    decreases |s| - j
  {
    if j == |s| then None
    else if Closes(s, j) then Some(j)
    else CloseFrom(s, j + 1)
  }

  /** The search from position `i`: the leftmost start with a match, and
      for it the shortest group. */
  function OpenFrom(s: string, i: nat): (r: Option<(nat, nat)>)
    requires i <= |s|
    ensures r.Some? ==>
      && i <= r.value.0
      && FenceMatch(s, r.value.0, r.value.1)
      && (forall e: nat | e < r.value.1 :: !FenceMatch(s, r.value.0, e))
      && (forall a: nat, e: nat | i <= a < r.value.0 :: !FenceMatch(s, a, e))
    ensures r.None? ==> forall a: nat, e: nat | i <= a :: !FenceMatch(s, a, e)
    decreases |s| - i
  {
    if i == |s| then None
    else if Opens(s, i) then
      match CloseFrom(s, BodyStart(s, i) + 1)
      case Some(e) => Some((i, e))
      case None => NoMatchAt(s, i); OpenFrom(s, i + 1)
    else NoMatchAt(s, i); OpenFrom(s, i + 1)
  }

  /** No match starts at `i` when no opening fence is there, or when no
      closing one follows it. */
  lemma NoMatchAt(s: string, i: nat)
    requires i < |s|
    requires !Opens(s, i) || CloseFrom(s, BodyStart(s, i) + 1).None?
    ensures forall e: nat :: !FenceMatch(s, i, e)
  {
  }

  /** The captured group of the search, if the pattern matches. */
  function FindFenced(s: string): (r: Option<string>)
    ensures r.Some? ==> |r.value| >= 2 && r.value[0] == '{' && r.value[|r.value| - 1] == '}'
  {
    match OpenFrom(s, 0)
    case None => None
    case Some((a, e)) => Some(s[BodyStart(s, a)..e + 1])
  }

  /** The search finds a group exactly when the pattern matches somewhere,
      and the group it finds belongs to the leftmost match, ending at the
      first `}` that a closing fence follows. */
  lemma FencedSearch(s: string)
    ensures FindFenced(s).None? <==> forall a: nat, e: nat :: !FenceMatch(s, a, e)
    ensures FindFenced(s).Some? ==> exists a: nat, e: nat ::
      && FenceMatch(s, a, e)
      && FindFenced(s).value == s[BodyStart(s, a)..e + 1]
      && (forall a': nat, e': nat | a' < a :: !FenceMatch(s, a', e'))
      && (forall e': nat | e' < e :: !FenceMatch(s, a, e'))
  {
    var r := OpenFrom(s, 0);
    if r.Some? {
      var a, e := r.value.0, r.value.1;
      assert FindFenced(s).value == s[BodyStart(s, a)..e + 1];
      assert FenceMatch(s, a, e);
      assert forall a': nat, e': nat | a' < a :: !FenceMatch(s, a', e');
      assert forall e': nat | e' < e :: !FenceMatch(s, a, e');
    } else {
      assert forall a: nat, e: nat :: !FenceMatch(s, a, e);
      assert FindFenced(s).None?;
    }
  }

  /** The converse of `FencedSearch`: a match with none to its left and
      none shorter is the one the search finds. */
  lemma FencedAt(s: string, a: nat, e: nat)
    requires FenceMatch(s, a, e)
    requires forall a': nat, e': nat | a' < a :: !FenceMatch(s, a', e')
    requires forall e': nat | e' < e :: !FenceMatch(s, a, e')
    ensures FindFenced(s) == Some(s[BodyStart(s, a)..e + 1])
  {
    LeftmostShortest(s, a, e);
  }

  /** The search from the start stops at the leftmost, shortest match. */
  lemma LeftmostShortest(s: string, a: nat, e: nat)
    requires FenceMatch(s, a, e)
    requires forall a': nat, e': nat | a' < a :: !FenceMatch(s, a', e')
    requires forall e': nat | e' < e :: !FenceMatch(s, a, e')
    ensures OpenFrom(s, 0) == Some((a, e))
  {
    LeftmostStart(s, a, e);
    var r := OpenFrom(s, 0);
    ShortestUnique(s, a, e, r.value.1);
  }

  /** Two shortest matches from the same start end at the same place. */
  lemma ShortestUnique(s: string, a: nat, e: nat, e0: nat)
    requires FenceMatch(s, a, e) && forall e': nat | e' < e :: !FenceMatch(s, a, e')
    requires FenceMatch(s, a, e0) && forall e': nat | e' < e0 :: !FenceMatch(s, a, e')
    ensures e == e0
  {
  }

  lemma LeftmostStart(s: string, a: nat, e: nat)
    requires FenceMatch(s, a, e)
    requires forall a': nat, e': nat | a' < a :: !FenceMatch(s, a', e')
    ensures OpenFrom(s, 0).Some? && OpenFrom(s, 0).value.0 == a
  {
  }

  /** No closing fence follows a `}` that comes before a later character
      other than a blank, when no backtick lies between. */
  lemma NoCloseBefore(s: string, lo: nat, hi: nat)
    requires lo <= hi < |s| && !IsSpace(s[hi])
    requires forall m | lo <= m <= hi :: s[m] != '`'
    ensures forall e | lo <= e < hi :: !Closes(s, e)
  {
    forall e | lo <= e < hi ensures !Closes(s, e) {
      var j := SpaceEnd(s, e + 1);
      assert j <= hi;
      if j + |Fence| <= |s| {
        assert s[j..j + |Fence|][0] == s[j];
      }
    }
  }

  /** A text without backticks holds no fenced block. */
  lemma NoFenceWithoutTicks(s: string)
    requires '`' !in s
    ensures FindFenced(s).None?
  {
    forall a: nat | a + |Fence| <= |s| ensures !At(s, a, Fence) {
      assert s[a..a + |Fence|][0] == s[a];
    }
  }

  // ---------------------------------------------------------------------
  // Loose objects: re.findall(r'\{[^{}]*"False Positive"[^{}]*\}', text, re.DOTALL)

  /** The quoted key the loose objects and the first field pattern look
      for. */
  const FalsePositivePattern: string := "\"False Positive\""

  predicate IsBrace(c: char) {
    c == '{' || c == '}'
  }

  /** The first brace at or after `j`, or the end of the text. */
  function NextBrace(s: string, j: nat): (k: nat)
    requires j <= |s|
    ensures j <= k <= |s|
    ensures forall m | j <= m < k :: !IsBrace(s[m])
    ensures k == |s| || IsBrace(s[k])
    decreases |s| - j
  {
    if j == |s| || IsBrace(s[j]) then j else NextBrace(s, j + 1)
  }

  /** The pattern matches at `j`: a `{`, then text free of braces holding
      the quoted key, then `}`. Both `[^{}]*` stop at braces, so the match
      can only end at the first brace after `j`, which must be `}`. */
  predicate LooseAt(s: string, j: nat) {
    j < |s| && s[j] == '{'
    && NextBrace(s, j + 1) < |s| && s[NextBrace(s, j + 1)] == '}'
    && Occurs(s[j + 1..NextBrace(s, j + 1)], FalsePositivePattern)
  }

  /** The text of the match at `j`. */
  function LooseSpan(s: string, j: nat): string
    requires LooseAt(s, j)
  {
    s[j..NextBrace(s, j + 1) + 1]
  }

  /** `findall` from position `j`: after a match, the scan resumes where it
      ended; elsewhere, one character further. */
  function LooseFrom(s: string, j: nat): seq<string>
    requires j <= |s|
    decreases |s| - j
  {
    if j == |s| then []
    else if LooseAt(s, j) then [LooseSpan(s, j)] + LooseFrom(s, NextBrace(s, j + 1) + 1)
    else LooseFrom(s, j + 1)
  }

  /** The candidates of the loose stage. */
  function LooseCandidates(s: string): seq<string> {
    LooseFrom(s, 0)
  }

  /** A reference for `findall`: the match at every position where there is
      one, in text order. */
  function LooseMatches(s: string, j: nat): seq<string>
    requires j <= |s|
    decreases |s| - j
  {
    if j == |s| then []
    else (if LooseAt(s, j) then [LooseSpan(s, j)] else []) + LooseMatches(s, j + 1)
  }

  /** No match starts where there is no `{`. */
  lemma {:induction false} LooseMatchesSkip(s: string, a: nat, b: nat)
    requires a <= b <= |s|
    requires forall m | a <= m < b :: s[m] != '{'
    ensures LooseMatches(s, a) == LooseMatches(s, b)
    decreases b - a
  {
    if a < b {
      LooseMatchesSkip(s, a + 1, b);
    }
  }

  /** After a match, the next match starts past its closing brace. */
  lemma LooseMatchesAfter(s: string, j: nat)
    requires LooseAt(s, j)
    ensures LooseMatches(s, j) == [LooseSpan(s, j)] + LooseMatches(s, NextBrace(s, j + 1) + 1)
  {
    var k := NextBrace(s, j + 1);
    assert k < |s| && s[k] == '}';
    forall m | j + 1 <= m < k + 1 ensures s[m] != '{' {
      if m < k {
        assert !IsBrace(s[m]);
      }
    }
    LooseMatchesSkip(s, j + 1, k + 1);
    assert LooseMatches(s, j) == [LooseSpan(s, j)] + LooseMatches(s, j + 1);
  }

  /** Resuming after a match loses none: matches cannot overlap, since one
      ends at the first brace after its start. */
  lemma {:induction false} LooseFromIsMatches(s: string, j: nat)
    requires j <= |s|
    ensures LooseFrom(s, j) == LooseMatches(s, j)
    decreases |s| - j
  {
    if j < |s| {
      if LooseAt(s, j) {
        var k := NextBrace(s, j + 1);
        LooseMatchesAfter(s, j);
        LooseFromIsMatches(s, k + 1);
        assert LooseFrom(s, j) == [LooseSpan(s, j)] + LooseFrom(s, k + 1);
      } else {
        LooseFromIsMatches(s, j + 1);
        assert LooseMatches(s, j) == LooseMatches(s, j + 1);
      }
    }
  }

  /** Every match from `j` on is in the list, and everything in the list is
      a match from `j` on. */
  lemma {:induction false} LooseMatchesComplete(s: string, j: nat)
    requires j <= |s|
    ensures forall i | j <= i < |s| && LooseAt(s, i) :: LooseSpan(s, i) in LooseMatches(s, j)
    ensures forall c | c in LooseMatches(s, j) :: exists i | j <= i < |s| :: LooseAt(s, i) && c == LooseSpan(s, i)
    decreases |s| - j
  {
    if j < |s| {
      LooseMatchesComplete(s, j + 1);
      if LooseAt(s, j) {
        assert LooseMatches(s, j) == [LooseSpan(s, j)] + LooseMatches(s, j + 1);
      }
    }
  }

  /** The shape of every candidate: a `{`, text free of braces that holds
      the quoted key, and a `}`. */
  lemma LooseShape(s: string, j: nat)
    requires LooseAt(s, j)
    ensures var c := LooseSpan(s, j);
      && |c| >= 2 && c[0] == '{' && c[|c| - 1] == '}'
      && (forall m | 0 < m < |c| - 1 :: !IsBrace(c[m]))
      && Occurs(c[1..|c| - 1], FalsePositivePattern)
  {
    var k := NextBrace(s, j + 1);
    var c := LooseSpan(s, j);
    assert |c| == k + 1 - j;
    var inner, middle := c[1..|c| - 1], s[j + 1..k];
    forall m | 0 <= m < |inner| ensures inner[m] == middle[m] {
      assert inner[m] == c[m + 1];
    }
    assert inner == middle;
    forall m | 0 < m < |c| - 1 ensures !IsBrace(c[m]) {
      assert c[m] == s[j + m];
    }
  }

  /** `findall` returns exactly the matches, each of that shape, in text
      order. */
  lemma LooseCandidatesRule(s: string)
    ensures LooseCandidates(s) == LooseMatches(s, 0)
    ensures forall i | 0 <= i < |s| && LooseAt(s, i) :: LooseSpan(s, i) in LooseCandidates(s)
    ensures forall c | c in LooseCandidates(s) :: exists i | 0 <= i < |s| :: LooseAt(s, i) && c == LooseSpan(s, i)
  {
    LooseFromIsMatches(s, 0);
    LooseMatchesComplete(s, 0);
  }

  /** Text written after an opening brace does not move a brace search
      that starts before it. */
  lemma {:induction false} NextBraceBefore(a: string, t: string, j: nat)
    requires j <= |a| && t != [] && t[0] == '{'
    ensures NextBrace(a + t, j) == NextBrace(a, j)
    decreases |a| - j
  {
    if j < |a| {
      assert (a + t)[j] == a[j];
      if !IsBrace(a[j]) {
        NextBraceBefore(a, t, j + 1);
      }
    } else {
      assert (a + t)[j] == t[0];
    }
  }

  /** `findall` over a text followed by one starting with `{`: the
      matches of the first text, then those from where the second
      starts. */
  lemma {:induction false} LooseFromBefore(a: string, t: string, j: nat)
    requires j <= |a| && t != [] && t[0] == '{'
    ensures LooseFrom(a + t, j) == LooseFrom(a, j) + LooseFrom(a + t, |a|)
    decreases |a| - j
  {
    var s := a + t;
    if j < |a| {
      LooseAtBefore(a, t, j);
      if LooseAt(a, j) {
        var k := NextBrace(a, j + 1);
        LooseFromBefore(a, t, k + 1);
        assert LooseFrom(s, j) == [LooseSpan(a, j)] + LooseFrom(s, k + 1);
      } else {
        LooseFromBefore(a, t, j + 1);
      }
    }
  }

  /** A match starting inside the first text is the same match whatever
      follows, when what follows starts with `{`. */
  lemma LooseAtBefore(a: string, t: string, j: nat)
    requires j < |a| && t != [] && t[0] == '{'
    ensures LooseAt(a + t, j) == LooseAt(a, j)
    ensures LooseAt(a, j) ==> NextBrace(a + t, j + 1) == NextBrace(a, j + 1) && LooseSpan(a + t, j) == LooseSpan(a, j)
  {
    var s := a + t;
    NextBraceBefore(a, t, j + 1);
    var k := NextBrace(a, j + 1);
    assert s[j] == a[j];
    if k < |a| {
      assert s[k] == a[k];
      assert s[j + 1..k] == a[j + 1..k];
      assert s[j..k + 1] == a[j..k + 1];
    } else {
      assert s[k] == '{';
    }
  }

  // ---------------------------------------------------------------------
  // One field: re.search(r'"<Field>"\s*:\s*"([^"]+)"', text)

  /** The first `"` at or after `j`, or the end of the text. */
  function QuoteEnd(s: string, j: nat): (k: nat)
    requires j <= |s|
    ensures j <= k <= |s|
    ensures forall m | j <= m < k :: s[m] != '"'
    ensures k == |s| || s[k] == '"'
    decreases |s| - j
  {
    if j == |s| || s[j] == '"' then j else QuoteEnd(s, j + 1)
  }

  /** The pattern for the quoted key `key` matched at `i`: the key, blanks,
      a colon, blanks, then a quoted value of one or more characters other
      than `"`; the captured value. Each greedy part can only end where the
      next literal character is, so there is nothing to backtrack to. */
  function FieldAt(s: string, i: nat, key: string): (r: Option<string>)
    ensures r.Some? ==> r.value != [] && forall m | 0 <= m < |r.value| :: r.value[m] != '"'
  {
    if !At(s, i, key) then None
    else
      var a := SpaceEnd(s, i + |key|);
      if a == |s| || s[a] != ':' then None
      else
        var b := SpaceEnd(s, a + 1);
        if b == |s| || s[b] != '"' then None
        else
          var e := QuoteEnd(s, b + 1);
          if e == |s| || e == b + 1 then None else Some(s[b + 1..e])
  }

  /** The search from `i`: the leftmost position where the pattern
      matches. */
  function FieldFrom(s: string, key: string, i: nat): (r: Option<nat>)
    requires i <= |s|
    ensures r.Some? ==> i <= r.value <= |s| && FieldAt(s, r.value, key).Some?
    ensures r.Some? ==> forall b | i <= b < r.value :: FieldAt(s, b, key).None?
    ensures r.None? ==> forall a | i <= a <= |s| :: FieldAt(s, a, key).None?
    decreases |s| - i
  {
    if FieldAt(s, i, key).Some? then Some(i)
    else if i == |s| then None
    else FieldFrom(s, key, i + 1)
  }

  /** `group(1)` of the search, if the pattern matches. */
  function FindField(s: string, key: string): (r: Option<string>)
    ensures r.Some? ==> r.value != [] && forall m | 0 <= m < |r.value| :: r.value[m] != '"'
  {
    match FieldFrom(s, key, 0)
    case None => None
    case Some(a) => FieldAt(s, a, key)
  }

  /** The search finds a value exactly when the pattern matches somewhere,
      and the value is that of the leftmost match. */
  lemma FieldSearch(s: string, key: string)
    ensures FindField(s, key).None? <==> forall a | 0 <= a <= |s| :: FieldAt(s, a, key).None?
    ensures FindField(s, key).Some? ==> exists a | 0 <= a <= |s| ::
      && FindField(s, key) == FieldAt(s, a, key)
      && forall b | 0 <= b < a :: FieldAt(s, b, key).None?
  {
    var r := FieldFrom(s, key, 0);
    if r.Some? {
      assert FindField(s, key) == FieldAt(s, r.value, key);
    }
  }

  // ---------------------------------------------------------------------
  // str.strip and str.replace

  /** `str.strip()`: the text without its leading and trailing white
      space. */
  function Strip(s: string): (r: string)
    ensures r == [] || (!IsSpace(r[0]) && !IsSpace(r[|r| - 1]))
    ensures |r| <= |s|
  {
    if s == [] then []
    else if IsSpace(s[0]) then Strip(s[1..])
    else if IsSpace(s[|s| - 1]) then Strip(s[..|s| - 1])
    else s
  }

  /** A text that begins and ends with other characters is its own
      strip. */
  lemma StripKeeps(s: string)
    requires s != [] && !IsSpace(s[0]) && !IsSpace(s[|s| - 1])
    ensures Strip(s) == s
  {
  }

  /** `str.replace(pat, rep)` for a non-empty `pat`: occurrences replaced
      left to right, each search resuming after the last replacement. */
  function ReplaceAll(t: string, pat: string, rep: string): string
    requires pat != []
    decreases |t|
  {
    if |t| < |pat| then t
    else if t[..|pat|] == pat then rep + ReplaceAll(t[|pat|..], pat, rep)
    else [t[0]] + ReplaceAll(t[1..], pat, rep)
  }

  /** A text without the pattern comes back unchanged. */
  lemma {:induction false} ReplaceAbsent(t: string, pat: string, rep: string)
    requires pat != []
    ensures !Occurs(t, pat) ==> ReplaceAll(t, pat, rep) == t
    decreases |t|
  {
    if !Occurs(t, pat) && |pat| <= |t| {
      assert !At(t, 0, pat);
      assert t[..|pat|] != pat;
      if Occurs(t[1..], pat) {
        var i :| 0 <= i <= |t[1..]| && At(t[1..], i, pat);
        assert t[1..][i..i + |pat|] == t[i + 1..i + 1 + |pat|];
        assert At(t, i + 1, pat);
      }
      ReplaceAbsent(t[1..], pat, rep);
    }
  }

  /** The parts with `sep` between each two of them, as `sep.join(parts)`
      makes them. */
  function Join(parts: seq<string>, sep: string): string
    requires parts != []
  {
    if |parts| == 1 then parts[0] else parts[0] + sep + Join(parts[1..], sep)
  }

  /** A prefix at which the pattern starts nowhere is copied as it is. */
  lemma {:induction false} ReplaceSkips(a: string, t: string, pat: string, rep: string)
    requires pat != []
    requires forall i | 0 <= i < |a| :: !At(a + t, i, pat)
    ensures ReplaceAll(a + t, pat, rep) == a + ReplaceAll(t, pat, rep)
    decreases |a|
  {
    if a == [] {
      assert a + t == t;
    } else {
      var s := a + t;
      assert !At(s, 0, pat);
      assert s[1..] == a[1..] + t;
      forall i | 0 <= i < |a[1..]| ensures !At(a[1..] + t, i, pat) {
        assert !At(s, i + 1, pat);
        if i + |pat| <= |a[1..] + t| {
          assert (a[1..] + t)[i..i + |pat|] == s[i + 1..i + 1 + |pat|];
        }
      }
      ReplaceSkips(a[1..], t, pat, rep);
      if |s| >= |pat| {
        assert s[..|pat|] != pat;
        assert ReplaceAll(s, pat, rep) == [s[0]] + ReplaceAll(s[1..], pat, rep);
        assert s[0] == a[0];
        assert ReplaceAll(s[1..], pat, rep) == a[1..] + ReplaceAll(t, pat, rep);
        assert a + ReplaceAll(t, pat, rep) == [a[0]] + (a[1..] + ReplaceAll(t, pat, rep));
      } else {
        assert ReplaceAll(s, pat, rep) == s;
        assert ReplaceAll(t, pat, rep) == t;
      }
    }
  }

  /** A pattern whose first character occurs in it nowhere else cannot
      start inside a text free of it and run into a copy of itself written
      right after that text. */
  lemma NoStraddle(a: string, pat: string, rest: string)
    requires pat != [] && forall k | 0 < k < |pat| :: pat[k] != pat[0]
    requires !Occurs(a, pat)
    ensures forall i | 0 <= i < |a| :: !At(a + pat + rest, i, pat)
  {
    var s := a + pat + rest;
    forall i | 0 <= i < |a| ensures !At(s, i, pat) {
      if i + |pat| <= |a| {
        assert s[i..i + |pat|] == a[i..i + |pat|];
        assert !At(a, i, pat);
      } else if i + |pat| <= |s| {
        var d := |a| - i;
        assert s[i..i + |pat|][d] == s[|a|] == pat[0];
        assert pat[d] != pat[0];
      }
    }
  }

  /** Every occurrence is replaced: a text made of pieces free of the
      pattern, joined by the pattern, becomes the same pieces joined by the
      replacement. */
  lemma {:induction false} ReplaceJoin(parts: seq<string>, pat: string, rep: string)
    requires parts != []
    requires pat != [] && forall k | 0 < k < |pat| :: pat[k] != pat[0]
    requires forall i | 0 <= i < |parts| :: !Occurs(parts[i], pat)
    ensures ReplaceAll(Join(parts, pat), pat, rep) == Join(parts, rep)
    decreases |parts|
  {
    if |parts| == 1 {
      ReplaceAbsent(parts[0], pat, rep);
    } else {
      var tail := Join(parts[1..], pat);
      NoStraddle(parts[0], pat, tail);
      assert Join(parts, pat) == parts[0] + (pat + tail);
      ReplaceSkips(parts[0], pat + tail, pat, rep);
      assert (pat + tail)[..|pat|] == pat && (pat + tail)[|pat|..] == tail;
      ReplaceJoin(parts[1..], pat, rep);
      assert Join(parts, rep) == parts[0] + (rep + Join(parts[1..], rep));
    }
  }

  /** Replacing the pattern by itself changes nothing. */
  lemma {:induction false} ReplaceSelf(t: string, pat: string)
    requires pat != []
    ensures ReplaceAll(t, pat, pat) == t
    decreases |t|
  {
    if |pat| <= |t| {
      if t[..|pat|] == pat {
        ReplaceSelf(t[|pat|..], pat);
        assert t == t[..|pat|] + t[|pat|..];
      } else {
        ReplaceSelf(t[1..], pat);
        assert t == [t[0]] + t[1..];
      }
    }
  }
}
