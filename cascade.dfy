/** Whole answers that reach each recovery stage of the verdict extraction:
    a verdict in a fenced block after prose (stage 2), a verdict written as
    one of several brace-delimited spans in prose (stage 3), and a verdict
    written as four bare `"key": "value"` lines (stage 4). Each lemma
    follows one family of answers through `Extract`, showing that the
    earlier stages let it pass and that the stage meant for it gives the
    verdict back. */
module Cascade {
  import opened Wrappers
  import opened Json
  import opened Scanners
  import opened Extraction

  /** A character no JSON text can begin with: no blank, and not the
      first character of a string, object, array, keyword or number. */
  predicate Prose(c: char) {
    !IsWs(c) && c !in "\"{[-0123456789ntfNI"
  }

  /** An answer opening with prose is no JSON text. */
  lemma ProseIsNoJson(s: string)
    requires s != [] && Prose(s[0])
    ensures Parse(s).None?
  {
    SkipWsNoWs(s);
    assert NumberEnd(s).None?;
    assert ParseScalar(s).None?;
  }

  // ---------------------------------------------------------------------
  // Stage 2

  /** Prose, then the verdict in a `json` fence, then anything. */
  function FencedAnswer(prose: string, ps: seq<(string, string)>, after: string): string {
    prose + "```json\n" + ObjectText(ps) + "\n```" + after
  }

  /** The written object begins and ends with its braces and holds no
      backtick. */
  lemma ObjectTextEnds(ps: seq<(string, string)>)
    requires AbsentFrom('`', ps)
    ensures var t := ObjectText(ps);
      |t| >= 2 && t[0] == '{' && t[|t| - 1] == '}' && '`' !in t
  {
    if ps != [] {
      MembersAbsent('`', ps, []);
      ObjectTextShape(ps);
    }
  }

  /** The opening fence after the prose, with the tag and the line feed
      before the group. */
  lemma FenceOpensAfter(prose: string, t: string, after: string)
    requires t != [] && t[0] == '{'
    ensures var s := prose + "```json\n" + t + "\n```" + after;
      var p := |prose|;
      Opens(s, p) && BodyStart(s, p) == p + 8
  {
    var s := prose + "```json\n" + t + "\n```" + after;
    var p := |prose|;
    assert s == prose + ("```json\n" + (t + ("\n```" + after)));
    assert s[p..p + 3] == Fence && s[p + 3..p + 7] == JsonTag && s[p + 7] == '\n' && s[p + 8] == t[0];
  }

  /** The closing fence after the group's last brace. */
  lemma FenceClosesAfter(prose: string, t: string, after: string)
    requires t != [] && t[|t| - 1] == '}'
    ensures var s := prose + "```json\n" + t + "\n```" + after;
      Closes(s, |prose| + 8 + |t| - 1)
  {
    var s := prose + "```json\n" + t + "\n```" + after;
    var e := |prose| + 8 + |t| - 1;
    assert s == (prose + "```json\n" + t) + ("\n```" + after);
    assert s[e] == t[|t| - 1];
    assert s[e + 1] == '\n' && s[e + 2..e + 5] == Fence;
    assert SpaceEnd(s, e + 1) == e + 2;
  }

  /** The fenced search on prose, a `json` fence around a braced text,
      and anything after: the braced text is the group found. */
  lemma FencedLayout(prose: string, t: string, after: string)
    requires '`' !in prose
    requires |t| >= 2 && t[0] == '{' && t[|t| - 1] == '}' && '`' !in t
    ensures FindFenced(prose + "```json\n" + t + "\n```" + after) == Some(t)
  {
    FencedFacts(prose, t, after);
    FencedGroup(prose + "```json\n" + t + "\n```" + after, |prose|, t);
  }

  /** The same over any text holding those facts, so that the search is
      reasoned about apart from how the answer was put together. */
  lemma FencedGroup(s: string, p: nat, t: string)
    requires FencedAtText(s, p, t)
    ensures FindFenced(s) == Some(t)
  {
    GroupFound(s, p, t);
  }

  /** What the search needs to know about a fenced braced text at `p`. */
  ghost predicate FencedAtText(s: string, p: nat, t: string) {
    && |t| >= 2 && t[0] == '{' && t[|t| - 1] == '}' && '`' !in t
    && p + 8 + |t| <= |s| && s[p + 8..p + 8 + |t|] == t
    && Opens(s, p) && BodyStart(s, p) == p + 8
    && Closes(s, p + 8 + |t| - 1)
    && (forall a: nat, e: nat | a < p :: !FenceMatch(s, a, e))
  }

  /** Prose without backticks, then a fenced braced text: the facts the
      search needs, gathered from the pieces of the answer. */
  lemma FencedFacts(prose: string, t: string, after: string)
    requires '`' !in prose
    requires |t| >= 2 && t[0] == '{' && t[|t| - 1] == '}' && '`' !in t
    ensures FencedAtText(prose + "```json\n" + t + "\n```" + after, |prose|, t)
  {
    var s := prose + "```json\n" + t + "\n```" + after;
    FenceOpensAfter(prose, t, after);
    FenceClosesAfter(prose, t, after);
    NoFenceIn(prose, s);
    FencedBody(prose, t, after);
  }

  /** The group found is the braced text when the first fence opens at
      `p` right before it and a closing fence follows its last brace, with
      no backtick in between. */
  lemma GroupFound(s: string, p: nat, t: string)
    requires FencedAtText(s, p, t)
    ensures FindFenced(s) == Some(s[p + 8..p + 8 + |t|])
  {
    var e := p + 8 + |t| - 1;
    GroupShortest(s, p, t);
    FencedAt(s, p, e);
    assert BodyStart(s, p) == p + 8 && e + 1 == p + 8 + |t|;
    var g := s[BodyStart(s, p)..e + 1];
    assert g == s[p + 8..p + 8 + |t|];
  }

  /** The match at `p` ends at the text's last brace, and at no earlier
      one. */
  lemma GroupShortest(s: string, p: nat, t: string)
    requires FencedAtText(s, p, t)
    ensures var e := p + 8 + |t| - 1;
      FenceMatch(s, p, e) && forall e': nat | e' < e :: !FenceMatch(s, p, e')
  {
    var e := p + 8 + |t| - 1;
    forall m | p + 9 <= m <= e ensures s[m] != '`' {
      assert s[m] == s[p + 8..p + 8 + |t|][m - p - 8];
      assert t[m - p - 8] in t;
    }
    NoCloseBefore(s, p + 9, e);
  }

  /** No fence starts inside a prefix without backticks. */
  lemma NoFenceIn(prose: string, s: string)
    requires '`' !in prose && prose <= s
    ensures forall a: nat, e: nat | a < |prose| :: !FenceMatch(s, a, e)
  {
    forall a: nat, e: nat | a < |prose| ensures !FenceMatch(s, a, e) {
      assert s[a] == prose[a];
      if a + 3 <= |s| {
        assert s[a..a + 3][0] == s[a];
      }
    }
  }

  /** The group's text sits right after the tag and its line feed. */
  lemma FencedBody(prose: string, t: string, after: string)
    ensures var s := prose + "```json\n" + t + "\n```" + after;
      var p := |prose|;
      s[p + 8..p + 8 + |t|] == t
  {
    var s := prose + "```json\n" + t + "\n```" + after;
    assert s == (prose + "```json\n") + t + ("\n```" + after);
  }

  /** A verdict in a fenced block after prose comes back from the fenced
      stage, with `model_used` set. */
  lemma FencedVerdict(prose: string, ps: seq<(string, string)>, after: string, model: string)
    requires prose != [] && Prose(prose[0]) && '`' !in prose
    requires AllPrintable(ps) && AbsentFrom('`', ps)
    ensures Extract(FencedAnswer(prose, ps, after), model) == Some(Stamp(ToDict(StringMembers(ps)), model))
  {
    var s := FencedAnswer(prose, ps, after);
    assert s[0] == prose[0];
    ProseIsNoJson(s);
    ObjectTextEnds(ps);
    FencedLayout(prose, ObjectText(ps), after);
    ObjectRoundTrip(ps);
  }

  // ---------------------------------------------------------------------
  // Stage 3

  /** Prose holding brace-delimited spans, the verdict as JSON text, then
      anything. */
  function LooseAnswer(prose: string, ps: seq<(string, string)>, after: string): string {
    prose + ObjectText(ps) + after
  }

  /** A written object whose first member is `False Positive` and whose
      texts hold no braces is a match of the loose pattern. */
  lemma ObjectTextLoose(ps: seq<(string, string)>)
    requires ps != [] && ps[0].0 == FalsePositive
    requires AbsentFrom('{', ps) && AbsentFrom('}', ps)
    ensures LooseText(ObjectText(ps))
  {
    ObjectTextShape(ps);
    MembersAbsent('{', ps, []);
    MembersAbsent('}', ps, []);
    FirstKeyWritten(ps);
    BracedLoose(WriteMembers(ps, []));
  }

  /** The members' text opens with the first key, quoted. */
  lemma FirstKeyWritten(ps: seq<(string, string)>)
    requires ps != [] && ps[0].0 == FalsePositive
    ensures At(WriteMembers(ps, []), 0, FalsePositivePattern)
  {
    FirstKeyBare();
    MembersOpen(ps);
    assert FalsePositivePattern == ['"'] + FalsePositive + ['"'];
  }

  /** The members' text opens with the first key, quoted, when that key
      needs no escapes. */
  lemma MembersOpen(ps: seq<(string, string)>)
    requires ps != [] && '"' !in ps[0].0 && '\\' !in ps[0].0
    ensures var k := ['"'] + ps[0].0 + ['"'];
      At(WriteMembers(ps, []), 0, k)
  {
    var after := if |ps| == 1 then [] else [',', ' '] + WriteMembers(ps[1..], []);
    var w := [':', ' '] + WriteString(ps[0].1, after);
    PlainStringBody(ps[0].0, w);
    Associative(['"'] + ps[0].0, ['"'], w);
    PrefixAt(['"'] + ps[0].0 + ['"'], w);
  }

  /** A text occurs at the start of itself followed by anything. */
  lemma PrefixAt(k: string, w: string)
    ensures At(k + w, 0, k)
  {
    assert (k + w)[..|k|] == k;
  }

  /** Braces around a text without braces that opens with the quoted key
      make a loose text. */
  lemma BracedLoose(inner: string)
    requires '{' !in inner && '}' !in inner && At(inner, 0, FalsePositivePattern)
    ensures LooseText(['{'] + inner + ['}'])
  {
    var t := ['{'] + inner + ['}'];
    assert t[1..|t| - 1] == inner;
    forall m | 0 < m < |t| - 1 ensures !IsBrace(t[m]) {
      assert t[m] == inner[m - 1];
    }
  }

  /** A braced text without inner braces, holding the quoted key right
      after its opening brace. */
  predicate LooseText(t: string) {
    && |t| >= 2 && t[0] == '{' && t[|t| - 1] == '}'
    && (forall m | 0 < m < |t| - 1 :: !IsBrace(t[m]))
    && At(t[1..|t| - 1], 0, FalsePositivePattern)
  }

  /** A loose text placed at `p` is the match there. */
  lemma LooseAtText(s: string, p: nat, t: string)
    requires LooseText(t)
    requires p + |t| <= |s| && s[p..p + |t|] == t
    ensures LooseAt(s, p) && NextBrace(s, p + 1) == p + |t| - 1 && LooseSpan(s, p) == t
  {
    assert forall m | 0 <= m < |t| :: s[p + m] == t[m] by {
      forall m | 0 <= m < |t| ensures s[p + m] == t[m] {
        assert s[p..p + |t|][m] == s[p + m];
      }
    }
    var k := NextBrace(s, p + 1);
    assert s[p + |t| - 1] == '}';
    assert k == p + |t| - 1;
    assert s[p + 1..k] == t[1..|t| - 1];
  }

  /** The candidates of prose, a loose text, and anything: those of the
      prose, then the text, then those after it. */
  lemma LooseLayout(prose: string, t: string, after: string)
    requires LooseText(t)
    ensures var s := prose + t + after;
      LooseCandidates(s) == LooseCandidates(prose) + [t] + LooseFrom(s, |prose| + |t|)
  {
    var s := prose + t + after;
    Associative(prose, t, after);
    LooseFromBefore(prose, t + after, 0);
    Middle(prose, t, after);
    LooseStep(s, |prose|, t);
  }

  /** The middle of three joined texts. */
  lemma Middle(a: string, b: string, c: string)
    ensures |a| + |b| <= |a + b + c| && (a + b + c)[|a|..|a| + |b|] == b
  {
  }

  /** The scan reaching a loose text takes it whole and resumes after it. */
  lemma LooseStep(s: string, p: nat, t: string)
    requires LooseText(t)
    requires p + |t| <= |s| && s[p..p + |t|] == t
    ensures LooseFrom(s, p) == [t] + LooseFrom(s, p + |t|)
  {
    LooseAtText(s, p, t);
    assert NextBrace(s, p + 1) + 1 == p + |t|;
    assert LooseFrom(s, p) == [LooseSpan(s, p)] + LooseFrom(s, NextBrace(s, p + 1) + 1);
  }

  /** The first acceptable candidate is the first one not refused. */
  lemma FirstAcceptableAfter(before: seq<string>, t: string, rest: seq<string>)
    requires forall c | c in before :: !Acceptable(c)
    requires Acceptable(t)
    ensures FirstAcceptable(before + [t] + rest, 0) == Some(|before|)
  {
    var cs := before + [t] + rest;
    assert cs[|before|] == t;
    forall j | 0 <= j < |before| ensures !Acceptable(cs[j]) {
      assert cs[j] == before[j];
    }
  }

  /** A verdict written as JSON text after prose whose own spans are no
      verdicts comes back from the loose stage, with `model_used` set:
      the spans before it are tried first and refused, and the spans after
      it are never reached. */
  lemma LooseVerdict(prose: string, ps: seq<(string, string)>, after: string, model: string)
    requires prose != [] && Prose(prose[0]) && '`' !in prose && '`' !in after
    requires forall c | c in LooseCandidates(prose) :: !Acceptable(c)
    requires ps != [] && ps[0].0 == FalsePositive
    requires AllPrintable(ps) && AbsentFrom('`', ps) && AbsentFrom('{', ps) && AbsentFrom('}', ps)
    requires HasRequired(ToDict(StringMembers(ps)))
    ensures Extract(LooseAnswer(prose, ps, after), model) == Some(Stamp(ToDict(StringMembers(ps)), model))
  {
    var t := ObjectText(ps);
    var s := LooseAnswer(prose, ps, after);
    ObjectTextEnds(ps);
    ObjectTextLoose(ps);
    assert s[0] == prose[0];
    ProseIsNoJson(s);
    NoFenceWithoutTicks(s);
    LooseLayout(prose, t, after);
    ObjectRoundTrip(ps);
    assert Acceptable(t);
    FirstAcceptableAfter(LooseCandidates(prose), t, LooseFrom(s, |prose| + |t|));
    assert Decoded(t) == ToDict(StringMembers(ps));
  }

  // ---------------------------------------------------------------------
  // Stage 4

  /** One line `"name": "value"`. */
  function FieldLine(name: string, value: string): string {
    ['"'] + name + ['"', ':', ' ', '"'] + value + ['"']
  }

  /** The four fields as bare lines, without braces around them. */
  function FieldLines(fp: string, sf: string, af: string, cf: string): string {
    FieldLine(FalsePositive, fp) + ['\n'] + FieldLine(SanitizationFound, sf) + ['\n']
      + FieldLine(AttackFeasible, af) + ['\n'] + FieldLine(Confidence, cf)
  }

  /** A value that the field pattern captures whole, and that holds nothing
      an earlier stage could take. */
  predicate BareValue(v: string) {
    v != [] && '"' !in v && '`' !in v && '{' !in v && '}' !in v
  }

  /** What may follow a line: the end of the text, or a line feed and the
      next line's opening quote. */
  predicate LineEnd(post: string) {
    post == [] || (|post| >= 2 && post[0] == '\n' && post[1] == '"')
  }

  /** The characters of `FieldLine(name, value)` at `l`, followed by the
      end of the text or by a line feed and a quote. */
  predicate LineAt(s: string, l: nat, name: string, value: string) {
    var n, c := |name|, l + |name| + 5 + |value|;
    && c < |s|
    && s[l] == '"' && s[l + n + 1] == '"' && s[l + n + 2] == ':' && s[l + n + 3] == ' '
    && s[l + n + 4] == '"' && s[c] == '"'
    && (forall m | 0 <= m < n :: s[l + 1 + m] == name[m])
    && (forall m | 0 <= m < |value| :: s[l + n + 5 + m] == value[m])
    && (c + 1 == |s| || (c + 2 < |s| && s[c + 1] == '\n' && s[c + 2] == '"'))
  }

  /** A line placed in a text, before a line end. */
  lemma PlacedLine(pre: string, name: string, value: string, post: string)
    requires LineEnd(post)
    ensures LineAt(pre + FieldLine(name, value) + post, |pre|, name, value)
  {
    var s := pre + FieldLine(name, value) + post;
    var l, n := |pre|, |name|;
    assert s == pre + (['"'] + name + ['"', ':', ' ', '"'] + value + ['"'] + post);
    assert forall m | 0 <= m < n :: s[l + 1 + m] == name[m];
    assert forall m | 0 <= m < |value| :: s[l + n + 5 + m] == value[m];
  }

  /** The pattern for a line's own key matches at the line's start, and
      captures the line's value. */
  lemma FieldAtLine(s: string, l: nat, name: string, value: string)
    requires '"' !in name && BareValue(value) && LineAt(s, l, name, value)
    ensures FieldAt(s, l, ['"'] + name + ['"']) == Some(value)
  {
    var n := |name|;
    var key := ['"'] + name + ['"'];
    assert s[l..l + |key|] == key;
    assert SpaceEnd(s, l + n + 2) == l + n + 2;
    assert SpaceEnd(s, l + n + 3) == l + n + 4;
    var c := l + n + 5 + |value|;
    assert forall m | l + n + 5 <= m < c :: s[m] != '"' by {
      forall m | l + n + 5 <= m < c ensures s[m] != '"' {
        assert s[m] == value[m - (l + n + 5)];
      }
    }
    assert QuoteEnd(s, l + n + 5) == c;
    assert s[l + n + 5..c] == value;
  }

  /** The pattern for a key whose first letter differs from the line's
      key matches nowhere in the line, nor at the line feed after it. */
  lemma NoFieldInLine(s: string, l: nat, name: string, value: string, other: string)
    requires name != [] && '"' !in name && BareValue(value) && LineAt(s, l, name, value)
    requires other != [] && '"' !in other && other[0] != name[0] && other[0] != ':' && other[0] != '\n'
    ensures forall i | l <= i <= l + |name| + |value| + 6 :: FieldAt(s, i, ['"'] + other + ['"']).None?
  {
    var n := |name|;
    var key := ['"'] + other + ['"'];
    var c := l + n + 5 + |value|;
    forall i | l <= i <= c + 1 ensures FieldAt(s, i, key).None? {
      if i == l + n + 4 {
        ValueQuoteNoField(s, l, name, value, other);
      } else {
        NotAtInLine(s, l, name, value, other, i);
      }
    }
  }

  /** Away from the value's opening quote, the quoted key does not even
      start anywhere in the line. */
  lemma NotAtInLine(s: string, l: nat, name: string, value: string, other: string, i: nat)
    requires name != [] && '"' !in name && BareValue(value) && LineAt(s, l, name, value)
    requires other != [] && other[0] != name[0] && other[0] != ':' && other[0] != '\n'
    requires l <= i <= l + |name| + |value| + 6 && i != l + |name| + 4
    ensures !At(s, i, ['"'] + other + ['"'])
  {
    var n := |name|;
    var key := ['"'] + other + ['"'];
    AtHead(s, i, key);
    if l < i <= l + n {
      assert s[i] == name[i - l - 1];
    } else if l + n + 5 <= i < l + n + 5 + |value| {
      assert s[i] == value[i - (l + n + 5)];
    }
  }

  /** A match of a pattern begins with the pattern's first two
      characters. */
  lemma AtHead(s: string, i: nat, key: string)
    requires |key| >= 2
    ensures At(s, i, key) ==> i + 1 < |s| && s[i] == key[0] && s[i + 1] == key[1]
  {
    if At(s, i, key) {
      assert s[i..i + |key|][0] == s[i] && s[i..i + |key|][1] == s[i + 1];
    }
  }

  /** At the value's opening quote, a quoted key can only end at the
      value's closing quote, and no colon follows that. */
  lemma ValueQuoteNoField(s: string, l: nat, name: string, value: string, other: string)
    requires BareValue(value) && LineAt(s, l, name, value)
    requires other != [] && '"' !in other
    ensures FieldAt(s, l + |name| + 4, ['"'] + other + ['"']).None?
  {
    var i := l + |name| + 4;
    var key := ['"'] + other + ['"'];
    var c := l + |name| + 5 + |value|;
    if At(s, i, key) {
      assert forall k | 0 <= k < |key| :: s[i + k] == key[k] by {
        forall k | 0 <= k < |key| ensures s[i + k] == key[k] {
          assert s[i..i + |key|][k] == s[i + k];
        }
      }
      var z := i + |key| - 1;
      assert forall m | i < m < z :: s[m] != '"' by {
        forall m | i < m < z ensures s[m] != '"' {
          assert s[m] == key[m - i] == other[m - i - 1];
        }
      }
      assert forall m | i < m < c :: s[m] != '"' by {
        forall m | i < m < c ensures s[m] != '"' {
          assert s[m] == value[m - (i + 1)];
        }
      }
      assert s[z] == key[|key| - 1] == '"';
      assert z == c;
      if c + 1 < |s| {
        assert SpaceEnd(s, c + 1) == c + 2;
      }
    }
  }

  /** A verdict written as four bare lines comes back from the field
      stage: the text is no JSON, holds no fence and no brace, and each
      field pattern first matches on its own line. */
  lemma FieldVerdict(fp: string, sf: string, af: string, cf: string, model: string)
    requires BareValue(fp) && BareValue(sf) && BareValue(af) && BareValue(cf)
    ensures Extract(FieldLines(fp, sf, af, cf), model) == Some(FieldRecord(fp, sf, af, cf, model))
  {
    FieldLinesNoJson(fp, sf, af, cf);
    FieldLinesPlain(fp, sf, af, cf);
    FieldLineSearch(fp, sf, af, cf);
    FieldsOnly(FieldLines(fp, sf, af, cf), fp, sf, af, cf, model);
  }

  /** The four lines are no JSON text. */
  lemma FieldLinesNoJson(fp: string, sf: string, af: string, cf: string)
    ensures Parse(FieldLines(fp, sf, af, cf)).None?
  {
    FieldLinesLayout(fp, sf, af, cf);
    FirstKeyBare();
    KeyFirstNoJson(FieldLines(fp, sf, af, cf), FalsePositive, fp);
  }

  /** The first key is written without escapes. */
  lemma FirstKeyBare()
    ensures '"' !in FalsePositive && '\\' !in FalsePositive && Printable(FalsePositive)
  {
  }

  /** A text that is no JSON text, holds no backtick and no brace, and
      in which the four patterns find their values goes to the field
      stage, which keeps those values. */
  lemma FieldsOnly(s: string, fp: string, sf: string, af: string, cf: string, model: string)
    requires Parse(s).None? && '`' !in s && '{' !in s && '}' !in s
    requires FindField(s, FalsePositivePattern) == Some(fp)
    requires FindField(s, SanitizationPattern) == Some(sf)
    requires FindField(s, AttackPattern) == Some(af)
    requires FindField(s, ConfidencePattern) == Some(cf)
    ensures Extract(s, model) == Some(FieldRecord(fp, sf, af, cf, model))
  {
    NoFenceWithoutTicks(s);
    NoBraceChars(s);
    NoBracesNoCandidates(s);
    assert FencedStage(s, model).None?;
    assert FirstComplete(LooseCandidates(s), model).None?;
    assert FieldStage(s, model) == Some(FieldRecord(fp, sf, af, cf, model));
  }

  /** No character of a text without braces is a brace. */
  lemma NoBraceChars(s: string)
    requires '{' !in s && '}' !in s
    ensures forall m | 0 <= m < |s| :: !IsBrace(s[m])
  {
    forall m | 0 <= m < |s| ensures !IsBrace(s[m]) {
      assert s[m] in s;
    }
  }

  /** A text opening with a line is no JSON text: after the key string
      comes a colon. */
  lemma KeyFirstNoJson(s: string, name: string, value: string)
    requires '"' !in name && '\\' !in name && Printable(name) && LineAt(s, 0, name, value)
    ensures Parse(s).None?
  {
    var n := |name|;
    var rest := s[n + 2..];
    assert rest[0] == s[n + 2] == ':';
    assert s == ['"'] + name + ['"'] + rest;
    KeyThenColon(name, rest);
  }

  /** A string literal followed by a colon is no JSON text. */
  lemma KeyThenColon(name: string, rest: string)
    requires '"' !in name && '\\' !in name && Printable(name)
    requires rest != [] && rest[0] == ':'
    ensures Parse(['"'] + name + ['"'] + rest).None?
  {
    var s := ['"'] + name + ['"'] + rest;
    PlainStringBody(name, rest);
    StringRoundTrip(name, rest);
    assert s[1..] == name + ['"'] + rest;
    assert ParseValue(s) == Some((JString(name), rest));
    SkipWsNoWs(s);
    SkipWsNoWs(rest);
  }

  /** The four lines hold no backtick and no brace. */
  lemma FieldLinesPlain(fp: string, sf: string, af: string, cf: string)
    requires BareValue(fp) && BareValue(sf) && BareValue(af) && BareValue(cf)
    ensures var s := FieldLines(fp, sf, af, cf);
      '`' !in s && '{' !in s && '}' !in s
  {
    KeysPlain();
    LinePlain(FalsePositive, fp);
    LinePlain(SanitizationFound, sf);
    LinePlain(AttackFeasible, af);
    LinePlain(Confidence, cf);
  }

  /** A text without backticks and braces, stated character by
      character. */
  predicate PlainText(t: string) {
    forall i | 0 <= i < |t| :: t[i] != '`' && t[i] != '{' && t[i] != '}'
  }

  /** None of the four keys holds a backtick or a brace. */
  lemma KeysPlain()
    ensures PlainText(FalsePositive) && PlainText(SanitizationFound)
    ensures PlainText(AttackFeasible) && PlainText(Confidence)
  {
  }

  /** A line adds only quotes, a colon and a space to its key and value. */
  lemma LinePlain(name: string, value: string)
    requires PlainText(name)
    requires '`' !in value && '{' !in value && '}' !in value
    ensures var t := FieldLine(name, value);
      '`' !in t && '{' !in t && '}' !in t
  {
    assert '`' !in name && '{' !in name && '}' !in name;
  }

  /** Where each of the four lines starts. */
  lemma FieldLinesLayout(fp: string, sf: string, af: string, cf: string)
    ensures var s := FieldLines(fp, sf, af, cf);
      var l2 := |FalsePositive| + |fp| + 7;
      var l3 := l2 + |SanitizationFound| + |sf| + 7;
      var l4 := l3 + |AttackFeasible| + |af| + 7;
      && LineAt(s, 0, FalsePositive, fp) && LineAt(s, l2, SanitizationFound, sf)
      && LineAt(s, l3, AttackFeasible, af) && LineAt(s, l4, Confidence, cf)
  {
    var a, b, c, d := FieldLine(FalsePositive, fp), FieldLine(SanitizationFound, sf),
      FieldLine(AttackFeasible, af), FieldLine(Confidence, cf);
    assert b[0] == '"' && c[0] == '"' && d[0] == '"';
    Joined(a, b, c, d);
    PlacedLine([], FalsePositive, fp, ['\n'] + b + ['\n'] + c + ['\n'] + d);
    PlacedLine(a + ['\n'], SanitizationFound, sf, ['\n'] + c + ['\n'] + d);
    PlacedLine(a + ['\n'] + b + ['\n'], AttackFeasible, af, ['\n'] + d);
    PlacedLine(a + ['\n'] + b + ['\n'] + c + ['\n'], Confidence, cf, []);
  }

  /** Four texts joined by line feeds, split around each of them. */
  lemma Joined(a: string, b: string, c: string, d: string)
    ensures var s := a + ['\n'] + b + ['\n'] + c + ['\n'] + d;
      && s == [] + a + (['\n'] + b + ['\n'] + c + ['\n'] + d)
      && s == (a + ['\n']) + b + (['\n'] + c + ['\n'] + d)
      && s == (a + ['\n'] + b + ['\n']) + c + (['\n'] + d)
      && s == (a + ['\n'] + b + ['\n'] + c + ['\n']) + d + []
  {
  }

  /** Each field pattern finds the value on its own line of the four. */
  lemma FieldLineSearch(fp: string, sf: string, af: string, cf: string)
    requires BareValue(fp) && BareValue(sf) && BareValue(af) && BareValue(cf)
    ensures var s := FieldLines(fp, sf, af, cf);
      && FindField(s, FalsePositivePattern) == Some(fp)
      && FindField(s, SanitizationPattern) == Some(sf)
      && FindField(s, AttackPattern) == Some(af)
      && FindField(s, ConfidencePattern) == Some(cf)
  {
    var l2 := |FalsePositive| + |fp| + 7;
    var l3 := l2 + |SanitizationFound| + |sf| + 7;
    var l4 := l3 + |AttackFeasible| + |af| + 7;
    FieldLinesLayout(fp, sf, af, cf);
    FourLineSearch(FieldLines(fp, sf, af, cf), l2, l3, l4, fp, sf, af, cf);
  }

  /** The searches over any text holding the four lines, one after the
      other. */
  lemma FourLineSearch(s: string, l2: nat, l3: nat, l4: nat, fp: string, sf: string, af: string, cf: string)
    requires BareValue(fp) && BareValue(sf) && BareValue(af) && BareValue(cf)
    requires l2 == |FalsePositive| + |fp| + 7
    requires l3 == l2 + |SanitizationFound| + |sf| + 7
    requires l4 == l3 + |AttackFeasible| + |af| + 7
    requires LineAt(s, 0, FalsePositive, fp) && LineAt(s, l2, SanitizationFound, sf)
    requires LineAt(s, l3, AttackFeasible, af) && LineAt(s, l4, Confidence, cf)
    ensures FindField(s, FalsePositivePattern) == Some(fp)
    ensures FindField(s, SanitizationPattern) == Some(sf)
    ensures FindField(s, AttackPattern) == Some(af)
    ensures FindField(s, ConfidencePattern) == Some(cf)
  {
    KeyPatterns();
    FoundOnLine(s, 0, FalsePositive, fp);
    SecondLineSearch(s, l2, fp, sf);
    ThirdLineSearch(s, l2, l3, fp, sf, af);
    FourthLineSearch(s, l2, l3, l4, fp, sf, af, cf);
  }

  /** Each pattern is its key between quotes; the keys hold no quote and
      begin with different letters. */
  lemma KeyPatterns()
    ensures FalsePositivePattern == ['"'] + FalsePositive + ['"']
    ensures SanitizationPattern == ['"'] + SanitizationFound + ['"']
    ensures AttackPattern == ['"'] + AttackFeasible + ['"']
    ensures ConfidencePattern == ['"'] + Confidence + ['"']
    ensures '"' !in FalsePositive && '"' !in SanitizationFound && '"' !in AttackFeasible && '"' !in Confidence
    ensures FalsePositive[0] == 'F' && SanitizationFound[0] == 'S' && AttackFeasible[0] == 'A' && Confidence[0] == 'C'
  {
  }

  /** The second key's pattern matches first on the second line; the
      third and fourth likewise, past the lines before them. */
  lemma SecondLineSearch(s: string, l2: nat, fp: string, sf: string)
    requires BareValue(fp) && BareValue(sf)
    requires l2 == |FalsePositive| + |fp| + 7
    requires LineAt(s, 0, FalsePositive, fp) && LineAt(s, l2, SanitizationFound, sf)
    ensures FindField(s, SanitizationPattern) == Some(sf)
  {
    KeyPatterns();
    NoFieldInLine(s, 0, FalsePositive, fp, SanitizationFound);
    FoundOnLine(s, l2, SanitizationFound, sf);
  }

  lemma ThirdLineSearch(s: string, l2: nat, l3: nat, fp: string, sf: string, af: string)
    requires BareValue(fp) && BareValue(sf) && BareValue(af)
    requires l2 == |FalsePositive| + |fp| + 7
    requires l3 == l2 + |SanitizationFound| + |sf| + 7
    requires LineAt(s, 0, FalsePositive, fp) && LineAt(s, l2, SanitizationFound, sf)
    requires LineAt(s, l3, AttackFeasible, af)
    ensures FindField(s, AttackPattern) == Some(af)
  {
    KeyPatterns();
    NoFieldInLine(s, 0, FalsePositive, fp, AttackFeasible);
    NoFieldInLine(s, l2, SanitizationFound, sf, AttackFeasible);
    FoundOnLine(s, l3, AttackFeasible, af);
  }

  lemma FourthLineSearch(s: string, l2: nat, l3: nat, l4: nat, fp: string, sf: string, af: string, cf: string)
    requires BareValue(fp) && BareValue(sf) && BareValue(af) && BareValue(cf)
    requires l2 == |FalsePositive| + |fp| + 7
    requires l3 == l2 + |SanitizationFound| + |sf| + 7
    requires l4 == l3 + |AttackFeasible| + |af| + 7
    requires LineAt(s, 0, FalsePositive, fp) && LineAt(s, l2, SanitizationFound, sf)
    requires LineAt(s, l3, AttackFeasible, af) && LineAt(s, l4, Confidence, cf)
    ensures FindField(s, ConfidencePattern) == Some(cf)
  {
    KeyPatterns();
    NoFieldInLine(s, 0, FalsePositive, fp, Confidence);
    NoFieldInLine(s, l2, SanitizationFound, sf, Confidence);
    NoFieldInLine(s, l3, AttackFeasible, af, Confidence);
    FoundOnLine(s, l4, Confidence, cf);
  }

  /** The search for a line's key finds that line's value when no match
      lies before the line. */
  lemma FoundOnLine(s: string, l: nat, name: string, value: string)
    requires '"' !in name && BareValue(value) && LineAt(s, l, name, value)
    requires forall b | 0 <= b < l :: FieldAt(s, b, ['"'] + name + ['"']).None?
    ensures FindField(s, ['"'] + name + ['"']) == Some(value)
  {
    FieldAtLine(s, l, name, value);
    var r := FieldFrom(s, ['"'] + name + ['"'], 0);
    assert r.Some?;
    assert r.value == l;
  }
}
