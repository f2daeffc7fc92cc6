/**
  `String.prototype.replaceTemplateVariable(name, value)` (src/string.extensions.ts):
  every match of the regular expression `\{\{\s*name\s*\}\}` with the flags `i`
  and `g` is replaced by `value`.

  The name is restricted to ASCII letters, digits and `_` (no regular-expression
  metacharacters) and the value to text without `$` replacement patterns, so the
  replacement is plain text. For such names the greedy left-to-right reading of
  the pattern is the only one: a name never starts with whitespace and never
  contains `}`, so no backtracking alternative exists.
*/
module Template {
  import opened Wrappers
  import opened Strings

  /** The characters JavaScript's `\s` class matches. */
  predicate IsSpace(c: char) {
    var n := c as int;
    (9 <= n <= 13) || n == 32 || n == 0xA0 || n == 0x1680 || (0x2000 <= n <= 0x200A)
    || n == 0x2028 || n == 0x2029 || n == 0x202F || n == 0x205F || n == 0x3000 || n == 0xFEFF
  }

  predicate AllSpace(s: string) {
    forall i :: 0 <= i < |s| ==> IsSpace(s[i])
  }

  predicate IsNameChar(c: char) {
    'a' <= c <= 'z' || 'A' <= c <= 'Z' || '0' <= c <= '9' || c == '_'
  }

  /** A variable name the model admits: a non-empty identifier. */
  predicate IsVariableName(name: string) {
    |name| > 0 && forall i :: 0 <= i < |name| ==> IsNameChar(name[i])
  }

  /** Case folding keeps a variable name a variable name. */
  lemma CaseVariantIsName(id: string, name: string)
    requires IsVariableName(name) && SameIgnoringCase(id, name)
    ensures IsVariableName(id)
  {
    forall i | 0 <= i < |id| ensures IsNameChar(id[i]) {
      assert AsciiUpper(id[i]) == AsciiUpper(name[i]);
    }
  }

  /** The length of the run of whitespace at the start of `s` (greedy `\s*`). */
  function SpaceRun(s: string): (n: nat)
    ensures n <= |s|
  {
    if s != [] && IsSpace(s[0]) then 1 + SpaceRun(s[1..]) else 0
  }

  /** The run is all whitespace and is the longest such run. */
  lemma {:induction false} SpaceRunIsLongest(s: string)
    ensures AllSpace(s[..SpaceRun(s)])
    ensures SpaceRun(s) < |s| ==> !IsSpace(s[SpaceRun(s)])
    decreases |s|
  {
    if s != [] && IsSpace(s[0]) {
      SpaceRunIsLongest(s[1..]);
      var n := SpaceRun(s);
      assert s[..n] == [s[0]] + s[1..][..n - 1];
      assert n < |s| ==> s[n] == s[1..][n - 1];
    }
  }

  lemma {:induction false} SpaceRunOver(lead: string, rest: string)
    requires AllSpace(lead)
    ensures SpaceRun(lead + rest) == |lead| + SpaceRun(rest)
    decreases |lead|
  {
    if lead == [] {
      assert lead + rest == rest;
    } else {
      assert (lead + rest)[1..] == lead[1..] + rest;
      SpaceRunOver(lead[1..], rest);
    }
  }

  /** The text of a placeholder: `{{`, whitespace, a name, whitespace, `}}`. */
  function PlaceholderText(lead: string, id: string, trail: string): string {
    "{{" + lead + id + trail + "}}"
  }

  /** `PlaceholderText(lead, id, trail)` is one the pattern for `name` accepts. */
  predicate IsPlaceholderFor(lead: string, id: string, trail: string, name: string) {
    AllSpace(lead) && AllSpace(trail) && IsVariableName(id) && SameIgnoringCase(id, name)
  }

  /** The length of the match of `\{\{\s*name\s*\}\}` (flag `i`) at the start of `s`, if any. */
  function MatchAt(s: string, name: string): (m: Option<nat>)
    ensures m.Some? ==> 4 + |name| <= m.value <= |s|
  {
    if |s| < 2 || s[0] != '{' || s[1] != '{' then None
    else MatchName(s, 2 + SpaceRun(s[2..]), name)
  }

  /** The rest of the match once `{{` and the whitespace after it end at `a`. */
  function MatchName(s: string, a: nat, name: string): (m: Option<nat>)
    requires 2 <= a <= |s|
    ensures m.Some? ==> a + |name| + 2 <= m.value <= |s|
  {
    if a + |name| > |s| || !SameIgnoringCase(s[a..a + |name|], name) then None
    else MatchClose(s, a + |name|)
  }

  /** The rest of the match once the name ends at `c`: whitespace, then `}}`. */
  function MatchClose(s: string, c: nat): (m: Option<nat>)
    requires c <= |s|
    ensures m.Some? ==> c + 2 <= m.value <= |s|
  {
    var b := c + SpaceRun(s[c..]);
    if b + 2 <= |s| && s[b] == '}' && s[b + 1] == '}' then Some(b + 2) else None
  }

  lemma SliceSplit(s: string, i: nat, j: nat, k: nat, l: nat, m: nat)
    requires i <= j <= k <= l <= m <= |s|
    ensures s[..m] == s[..i] + s[i..j] + s[j..k] + s[k..l] + s[l..m]
  {
    assert s[..j] == s[..i] + s[i..j];
    assert s[..k] == s[..j] + s[j..k];
    assert s[..l] == s[..k] + s[k..l];
    assert s[..m] == s[..l] + s[l..m];
  }

  /** Where the parts of what `MatchAt` finds sit: `{{`, whitespace, the name, whitespace, `}}`. */
  lemma MatchLayout(s: string, name: string) returns (a: nat, c: nat, b: nat)
    requires MatchAt(s, name).Some?
    ensures 2 <= a && c == a + |name| && c <= b && b + 2 == MatchAt(s, name).value
    ensures s[0] == '{' && s[1] == '{' && s[b] == '}' && s[b + 1] == '}'
    ensures AllSpace(s[2..a]) && SameIgnoringCase(s[a..c], name) && AllSpace(s[c..b])
  {
    a := 2 + SpaceRun(s[2..]);
    c := a + |name|;
    b := c + SpaceRun(s[c..]);
    assert MatchAt(s, name) == MatchName(s, a, name) == MatchClose(s, c) == Some(b + 2);
    SpaceRunIsLongest(s[2..]);
    SpaceRunIsLongest(s[c..]);
    assert s[2..a] == s[2..][..a - 2];
    assert s[c..b] == s[c..][..b - c];
  }

  /** Text laid out as a placeholder reads as one. */
  lemma LayoutText(s: string, a: nat, c: nat, b: nat)
    requires 2 <= a <= c <= b && b + 2 <= |s|
    requires s[0] == '{' && s[1] == '{' && s[b] == '}' && s[b + 1] == '}'
    ensures s[..b + 2] == PlaceholderText(s[2..a], s[a..c], s[c..b])
  {
    assert s[..2] == "{{";
    assert s[b..b + 2] == "}}";
    SliceSplit(s, 2, a, c, b, b + 2);
  }

  /** What `MatchAt` finds is a placeholder for `name`. */
  lemma MatchIsPlaceholder(s: string, name: string)
    requires IsVariableName(name) && MatchAt(s, name).Some?
    ensures exists lead, id, trail :: IsPlaceholderFor(lead, id, trail, name)
                                      && s[..MatchAt(s, name).value] == PlaceholderText(lead, id, trail)
  {
    var a, c, b := MatchLayout(s, name);
    LayoutText(s, a, c, b);
    var lead, id, trail := s[2..a], s[a..c], s[c..b];
    CaseVariantIsName(id, name);
    assert IsPlaceholderFor(lead, id, trail, name);
  }

  /** Whitespace then `}}` closes the match. */
  lemma MatchCloseAfterSpace(s: string, c: nat, trail: string)
    requires c + |trail| + 2 <= |s| && s[c..c + |trail|] == trail && AllSpace(trail)
    requires s[c + |trail|] == '}' && s[c + |trail| + 1] == '}'
    ensures MatchClose(s, c) == Some(c + |trail| + 2)
  {
    var after := s[c + |trail|..];
    assert s[c..] == trail + after;
    SpaceRunOver(trail, after);
    assert SpaceRun(after) == 0 by {
      assert after[0] == '}';
    }
  }

  /** After `{{` and whitespace, a name character is where the match goes on with the name. */
  lemma MatchAtOpening(s: string, a: nat, name: string)
    requires 2 <= a < |s| && s[0] == '{' && s[1] == '{' && AllSpace(s[2..a]) && IsNameChar(s[a])
    ensures MatchAt(s, name) == MatchName(s, a, name)
  {
    assert s[2..] == s[2..a] + s[a..];
    SpaceRunOver(s[2..a], s[a..]);
    assert SpaceRun(s[a..]) == 0 by {
      assert s[a..][0] == s[a];
    }
  }

  /** A name character where whitespace or `}}` should follow ends the match. */
  lemma MatchCloseAtNameChar(s: string, c: nat)
    requires c < |s| && IsNameChar(s[c])
    ensures MatchClose(s, c) == None
  {
    assert SpaceRun(s[c..]) == 0 by {
      assert s[c..][0] == s[c];
    }
  }

  /** A name that matches `name` hands over to the closing part. */
  lemma MatchNameAt(s: string, a: nat, name: string)
    requires 2 <= a && a + |name| <= |s| && SameIgnoringCase(s[a..a + |name|], name)
    ensures MatchName(s, a, name) == MatchClose(s, a + |name|)
  {
  }

  /** `{{`, whitespace, a name like `name`, whitespace and `}}` at the start of `s` are matched. */
  lemma MatchAtParts(s: string, a: nat, c: nat, b: nat, name: string)
    requires 2 <= a < c <= b && b + 2 <= |s| && c - a == |name|
    requires s[0] == '{' && s[1] == '{' && AllSpace(s[2..a]) && IsNameChar(s[a])
    requires SameIgnoringCase(s[a..c], name) && AllSpace(s[c..b]) && s[b] == '}' && s[b + 1] == '}'
    ensures MatchAt(s, name) == Some(b + 2)
  {
    MatchAtOpening(s, a, name);
    MatchNameAt(s, a, name);
    MatchCloseAfterSpace(s, c, s[c..b]);
  }

  /** Where the parts of a placeholder sit in the text. */
  lemma PlaceholderParts(lead: string, id: string, trail: string, rest: string)
    ensures var s := PlaceholderText(lead, id, trail) + rest;
            var a, c, b := 2 + |lead|, 2 + |lead| + |id|, 2 + |lead| + |id| + |trail|;
            && b + 2 <= |s| && s[0] == '{' && s[1] == '{' && s[2..a] == lead
            && s[a..c] == id && s[c..b] == trail && s[b] == '}' && s[b + 1] == '}'
  {
    var s := PlaceholderText(lead, id, trail) + rest;
    var a, c, b := 2 + |lead|, 2 + |lead| + |id|, 2 + |lead| + |id| + |trail|;
    assert s == "{{" + lead + id + trail + "}}" + rest;
    assert s[2..a] == lead;
    assert s[a..c] == id;
    assert s[c..b] == trail;
  }

  /** A placeholder laid out at the start of `s` is matched up to its closing braces. */
  lemma PlaceholderAtMatches(s: string, a: nat, c: nat, b: nat, lead: string, id: string, trail: string, name: string)
    requires IsPlaceholderFor(lead, id, trail, name)
    requires a == 2 + |lead| && c == a + |id| && b == c + |trail| && b + 2 <= |s|
    requires s[0] == '{' && s[1] == '{' && s[2..a] == lead && s[a..c] == id && s[c..b] == trail
    requires s[b] == '}' && s[b + 1] == '}'
    ensures MatchAt(s, name) == Some(b + 2)
  {
    assert s[a] == id[0];
    MatchAtParts(s, a, c, b, name);
  }

  /** Every placeholder for `name` is matched, in full, whatever follows it. */
  lemma PlaceholderMatches(lead: string, id: string, trail: string, name: string, rest: string)
    requires IsPlaceholderFor(lead, id, trail, name)
    ensures MatchAt(PlaceholderText(lead, id, trail) + rest, name) == Some(|PlaceholderText(lead, id, trail)|)
  {
    var s := PlaceholderText(lead, id, trail) + rest;
    var a, c, b := 2 + |lead|, 2 + |lead| + |id|, 2 + |lead| + |id| + |trail|;
    PlaceholderParts(lead, id, trail, rest);
    PlaceholderAtMatches(s, a, c, b, lead, id, trail, name);
  }

  /** A name that is not `name`, and not followed by more name characters, does not match it. */
  lemma NameMismatchRejected(s: string, a: nat, id: string, name: string)
    requires 2 <= a && a + |id| < |s| && s[a..a + |id|] == id && !IsNameChar(s[a + |id|])
    requires IsVariableName(id) && IsVariableName(name) && !SameIgnoringCase(id, name)
    ensures MatchName(s, a, name) == None
  {
    if |name| < |id| {
      assert s[a + |name|] == id[|name|];
      MatchCloseAtNameChar(s, a + |name|);
    } else if |name| == |id| {
      assert !SameIgnoringCase(s[a..a + |name|], name);
    } else if a + |name| <= |s| {
      assert s[a..a + |name|][|id|] == s[a + |id|];
      assert AsciiUpper(s[a + |id|]) != AsciiUpper(name[|id|]);
    }
  }

  /** A placeholder whose name is another variable's is not matched. */
  lemma OtherPlaceholderRejected(lead: string, id: string, trail: string, name: string, rest: string)
    requires AllSpace(lead) && AllSpace(trail) && IsVariableName(id)
    requires IsVariableName(name) && !SameIgnoringCase(id, name)
    ensures MatchAt(PlaceholderText(lead, id, trail) + rest, name) == None
  {
    var s := PlaceholderText(lead, id, trail) + rest;
    var a, c, b := 2 + |lead|, 2 + |lead| + |id|, 2 + |lead| + |id| + |trail|;
    PlaceholderParts(lead, id, trail, rest);
    OtherPlaceholderAtRejected(s, a, c, b, lead, id, trail, name);
  }

  /** A placeholder for another variable laid out at the start of `s` is not matched. */
  lemma OtherPlaceholderAtRejected(s: string, a: nat, c: nat, b: nat, lead: string, id: string, trail: string, name: string)
    requires AllSpace(lead) && AllSpace(trail) && IsVariableName(id)
    requires IsVariableName(name) && !SameIgnoringCase(id, name)
    requires a == 2 + |lead| && c == a + |id| && b == c + |trail| && b + 2 <= |s|
    requires s[0] == '{' && s[1] == '{' && s[2..a] == lead && s[a..c] == id && s[c..b] == trail
    requires s[b] == '}'
    ensures MatchAt(s, name) == None
  {
    assert s[a] == id[0];
    MatchAtOpening(s, a, name);
    if |trail| > 0 {
      assert s[c] == trail[0];
    }
    NameMismatchRejected(s, a, id, name);
  }

  /**
    The template with every match for `name` replaced by `value`, scanning left
    to right; the scan resumes after each replaced span, so the value is never
    searched again.
  */
  function Replace(s: string, name: string, value: string): string
    decreases |s|
  {
    if s == [] then []
    else match MatchAt(s, name)
      case Some(e) => value + Replace(s[e..], name, value)
      case None => [s[0]] + Replace(s[1..], name, value)
  }

  /** A template in which no placeholder for `name` starts anywhere is returned unchanged. */
  lemma {:induction false} ReplaceWithoutPlaceholder(s: string, name: string, value: string)
    requires forall i :: 0 <= i < |s| ==> MatchAt(s[i..], name).None?
    ensures Replace(s, name, value) == s
    decreases |s|
  {
    if s != [] {
      assert s[0..] == s;
      forall i | 0 <= i < |s| - 1 ensures MatchAt(s[1..][i..], name).None? {
        assert s[1..][i..] == s[i + 1..];
      }
      ReplaceWithoutPlaceholder(s[1..], name, value);
    }
  }

  /** Text that holds no `{{` and does not end with `{`: no placeholder can start in it. */
  predicate PlainText(t: string) {
    (forall i :: 0 <= i < |t| - 1 ==> !(t[i] == '{' && t[i + 1] == '{'))
    && (|t| > 0 ==> t[|t| - 1] != '{')
  }

  /** Where no placeholder starts, the scan copies one character and moves on. */
  lemma ReplaceCopiesOne(s: string, name: string, value: string)
    requires |s| > 0 && MatchAt(s, name).None?
    ensures Replace(s, name, value) == [s[0]] + Replace(s[1..], name, value)
  {
  }

  /** Text that does not open with `{{` starts no match. */
  lemma NoOpeningNoMatch(s: string, name: string)
    requires |s| < 2 || s[0] != '{' || s[1] != '{'
    ensures MatchAt(s, name).None?
  {
  }

  /** No match starts at plain text, whatever follows it. */
  lemma PlainStartNoMatch(t: string, rest: string, name: string)
    requires PlainText(t) && t != []
    ensures MatchAt(t + rest, name).None?
  {
    var s := t + rest;
    assert s[0] == t[0];
    if |t| > 1 {
      assert s[1] == t[1];
      assert !(t[0] == '{' && t[1] == '{');
    }
    NoOpeningNoMatch(s, name);
  }

  /** Plain text stays plain without its first character. */
  lemma PlainTextTail(t: string)
    requires PlainText(t) && t != []
    ensures PlainText(t[1..])
  {
    forall i | 0 <= i < |t| - 2 ensures !(t[1..][i] == '{' && t[1..][i + 1] == '{') {
      assert t[1..][i] == t[i + 1] && t[1..][i + 1] == t[i + 2];
    }
  }

  /** Dropping the first character of a concatenation drops it from the first part. */
  lemma ConcatTail(t: string, r: string)
    requires t != []
    ensures (t + r)[0] == t[0] && (t + r)[1..] == t[1..] + r
  {
  }

  /** The first character, then the tail, then more text: the text, then the more. */
  lemma ConsTail(t: string, r: string)
    requires t != []
    ensures [t[0]] + (t[1..] + r) == t + r
  {
    assert [t[0]] + t[1..] == t;
  }

  /** Plain text before the rest of a template is copied unchanged. */
  lemma {:induction false} ReplaceKeepsPlainText(t: string, rest: string, name: string, value: string)
    requires PlainText(t)
    ensures Replace(t + rest, name, value) == t + Replace(rest, name, value)
    decreases |t|
  {
    if t == [] {
      assert t + rest == rest;
    } else {
      PlainStartNoMatch(t, rest, name);
      ConcatTail(t, rest);
      ReplaceCopiesOne(t + rest, name, value);
      PlainTextTail(t);
      ReplaceKeepsPlainText(t[1..], rest, name, value);
      ConsTail(t, Replace(rest, name, value));
    }
  }

  /** A template as a sequence of plain text pieces and placeholders. */
  datatype Segment = Text(text: string) | Slot(lead: string, id: string, trail: string)

  predicate WellFormed(seg: Segment) {
    match seg
    case Text(t) => PlainText(t)
    case Slot(lead, id, trail) => AllSpace(lead) && AllSpace(trail) && IsVariableName(id)
  }

  function SegmentText(seg: Segment): string {
    match seg
    case Text(t) => t
    case Slot(lead, id, trail) => PlaceholderText(lead, id, trail)
  }

  function Render(segs: seq<Segment>): string
    decreases |segs|
  {
    if segs == [] then "" else SegmentText(segs[0]) + Render(segs[1..])
  }

  /** The placeholders for `name` turned into the text `value`; everything else kept in order. */
  function Substitute(segs: seq<Segment>, name: string, value: string): (r: seq<Segment>)
    ensures |r| == |segs|
    ensures forall k :: 0 <= k < |segs| ==>
              r[k] == if segs[k].Slot? && SameIgnoringCase(segs[k].id, name) then Text(value) else segs[k]
    decreases |segs|
  {
    if segs == [] then []
    else
      var seg := segs[0];
      [if seg.Slot? && SameIgnoringCase(seg.id, name) then Text(value) else seg]
        + Substitute(segs[1..], name, value)
  }

  /** A placeholder without its first `{` is plain text: only one `{` is left, followed by no `{`. */
  lemma PlaceholderTailPlain(lead: string, id: string, trail: string)
    requires AllSpace(lead) && AllSpace(trail) && IsVariableName(id)
    ensures PlainText(PlaceholderText(lead, id, trail)[1..])
  {
    var tail := PlaceholderText(lead, id, trail)[1..];
    assert tail == "{" + lead + id + trail + "}}";
    forall i | 1 <= i < |tail| ensures tail[i] != '{' {
      if i < 1 + |lead| {
        assert tail[i] == lead[i - 1];
      } else if i < 1 + |lead| + |id| {
        assert tail[i] == id[i - 1 - |lead|];
      } else if i < 1 + |lead| + |id| + |trail| {
        assert tail[i] == trail[i - 1 - |lead| - |id|];
      }
    }
  }

  /** Text where no match starts, and whose tail is plain, is copied unchanged. */
  lemma ReplaceKeepsUnmatched(p: string, rest: string, name: string, value: string)
    requires p != [] && MatchAt(p + rest, name).None? && PlainText(p[1..])
    ensures Replace(p + rest, name, value) == p + Replace(rest, name, value)
  {
    ConcatTail(p, rest);
    ReplaceCopiesOne(p + rest, name, value);
    ReplaceKeepsPlainText(p[1..], rest, name, value);
    ConsTail(p, Replace(rest, name, value));
  }

  /** An unmatched placeholder is copied unchanged. */
  lemma ReplaceKeepsOtherPlaceholder(lead: string, id: string, trail: string, name: string, value: string, rest: string)
    requires AllSpace(lead) && AllSpace(trail) && IsVariableName(id)
    requires IsVariableName(name) && !SameIgnoringCase(id, name)
    ensures Replace(PlaceholderText(lead, id, trail) + rest, name, value)
            == PlaceholderText(lead, id, trail) + Replace(rest, name, value)
  {
    var p := PlaceholderText(lead, id, trail);
    OtherPlaceholderRejected(lead, id, trail, name, rest);
    PlaceholderTailPlain(lead, id, trail);
    ReplaceKeepsUnmatched(p, rest, name, value);
  }

  /** A character that makes `$` a replacement pattern when no group is captured: `$$`, `$&`, `` $` ``, `$'`. */
  predicate IsPatternChar(c: char) {
    c == '$' || c == '&' || c == '`' || c == '\''
  }

  /** A value that JavaScript's `replace` inserts as it is: no `$` starts a replacement pattern. */
  predicate NoReplacementPattern(value: string) {
    forall i :: 0 <= i < |value| - 1 && value[i] == '$' ==> !IsPatternChar(value[i + 1])
  }

  /**
    Replacing `name` in a rendered template turns exactly the placeholders for
    `name` (in any letter case, with any surrounding whitespace) into `value`
    and keeps all other text, in order.
  */
  lemma {:induction false} ReplaceRendered(segs: seq<Segment>, name: string, value: string)
    requires IsVariableName(name) && NoReplacementPattern(value)
    requires forall k :: 0 <= k < |segs| ==> WellFormed(segs[k])
    ensures Replace(Render(segs), name, value) == Render(Substitute(segs, name, value))
    decreases |segs|
  {
    if segs != [] {
      var seg, rest := segs[0], Render(segs[1..]);
      ReplaceRendered(segs[1..], name, value);
      assert Substitute(segs, name, value)[1..] == Substitute(segs[1..], name, value);
      match seg
      case Text(t) =>
        ReplaceKeepsPlainText(t, rest, name, value);
      case Slot(lead, id, trail) =>
        if SameIgnoringCase(id, name) {
          var p := PlaceholderText(lead, id, trail);
          PlaceholderMatches(lead, id, trail, name, rest);
          assert (p + rest)[|p|..] == rest;
        } else {
          ReplaceKeepsOtherPlaceholder(lead, id, trail, name, value, rest);
        }
    }
  }

  /** Matching ignores the letter case of the name too. */
  lemma {:induction false} ReplaceIgnoresNameCase(s: string, name: string, other: string, value: string)
    requires SameIgnoringCase(name, other)
    ensures Replace(s, name, value) == Replace(s, other, value)
    decreases |s|
  {
    if s != [] {
      assert MatchAt(s, name) == MatchAt(s, other) by {
        if |s| >= 2 && s[0] == '{' && s[1] == '{' {
          var a := 2 + SpaceRun(s[2..]);
          if a + |name| <= |s| {
            assert SameIgnoringCase(s[a..a + |name|], name) <==> SameIgnoringCase(s[a..a + |name|], other);
          }
        }
      }
      match MatchAt(s, name)
      case Some(e) => ReplaceIgnoresNameCase(s[e..], name, other, value);
      case None => ReplaceIgnoresNameCase(s[1..], name, other, value);
    }
  }
}
