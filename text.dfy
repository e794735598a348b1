/** String helpers shared by every part of the planner: ASCII case mapping,
    substring search, splitting on a separator, trimming, and the
    "snake_case goal tag to Title Words" formatter that four components use. */
module Text {

  predicate IsLowerAscii(c: char) { 'a' <= c <= 'z' }
  predicate IsUpperAscii(c: char) { 'A' <= c <= 'Z' }

  /** `toUpperCase` of one character, ASCII letters only. */
  function UpperChar(c: char): (r: char)
    ensures IsLowerAscii(c) ==> IsUpperAscii(r)
    ensures !IsLowerAscii(c) ==> r == c
  {
    if IsLowerAscii(c) then (c as int - 32) as char else c
  }

  /** `toLowerCase` of one character, ASCII letters only. */
  function LowerChar(c: char): (r: char)
    ensures IsUpperAscii(c) ==> IsLowerAscii(r)
    ensures !IsUpperAscii(c) ==> r == c
  {
    if IsUpperAscii(c) then (c as int + 32) as char else c
  }

  /** `s.toLowerCase()` */
  function ToLower(s: string): (r: string)
    ensures |r| == |s|
    ensures forall i :: 0 <= i < |s| ==> r[i] == LowerChar(s[i])
  {
    if s == [] then [] else [LowerChar(s[0])] + ToLower(s[1..])
  }

  /** `s.includes(sub)`: `sub` occurs as a contiguous block of `s`. */
  predicate Includes(s: string, sub: string) {
    exists i | 0 <= i <= |s| - |sub| :: OccursAt(s, sub, i)
  }

  /** `sub` is the block of `s` that starts at index `i`. */
  predicate OccursAt(s: string, sub: string, i: int) {
    0 <= i <= |s| - |sub| && s[i..i + |sub|] == sub
  }

  lemma IncludesEmpty(s: string)
    ensures Includes(s, "")
  {
    assert OccursAt(s, "", 0);
  }

  lemma IncludesMiddle(a: string, b: string, c: string)
    ensures Includes(a + b + c, b)
  {
    var s := a + b + c;
    assert OccursAt(s, b, |a|);
  }

  lemma IncludesSecondOfFour(a: string, b: string, c: string, d: string)
    ensures Includes(a + b + c + d, b)
  {
    assert a + b + c + d == a + b + (c + d);
    IncludesMiddle(a, b, c + d);
  }

  lemma IncludesFirstOfThree(a: string, b: string, c: string)
    ensures Includes(a + b + c, a)
  {
    assert a + b + c == [] + a + (b + c);
    IncludesMiddle([], a, b + c);
  }

  /** Text between a fixed lead and tail determines the whole. */
  lemma MiddleDiffers(lead: string, x: string, y: string, tail: string)
    requires x != y
    ensures lead + x + tail != lead + y + tail
  {
    var sx, sy := lead + x + tail, lead + y + tail;
    if |x| == |y| {
      assert sx[|lead|..|lead| + |x|] == x;
      assert sy[|lead|..|lead| + |y|] == y;
    }
  }

  /** Case-insensitive `includes`, as the search boxes use it. */
  predicate IncludesIgnoringCase(s: string, sub: string) {
    Includes(ToLower(s), ToLower(sub))
  }

  /** `s.split(sep)` for a one-character separator: always at least one
      field, and separators are never part of a field. */
  function Split(s: string, sep: char): (r: seq<string>)
    ensures |r| >= 1
    ensures forall i :: 0 <= i < |r| ==> sep !in r[i]
  {
    if s == [] then [""]
    else
      var rest := Split(s[1..], sep);
      if s[0] == sep then [""] + rest
      else [[s[0]] + rest[0]] + rest[1..]
  }

  /** `ws.join(sep)` */
  function Join(ws: seq<string>, sep: string): string {
    if ws == [] then ""
    else if |ws| == 1 then ws[0]
    else ws[0] + sep + Join(ws[1..], sep)
  }

  /** Splitting and joining again gives back the original string. */
  lemma {:induction false} JoinSplit(s: string, sep: char)
    ensures Join(Split(s, sep), [sep]) == s
  {
    if s != [] {
      var rest := Split(s[1..], sep);
      JoinSplit(s[1..], sep);
      if s[0] == sep {
        assert Split(s, sep) == [""] + rest;
        assert s == [sep] + s[1..];
      } else {
        var ws := [[s[0]] + rest[0]] + rest[1..];
        assert Split(s, sep) == ws;
        if |rest| == 1 {
          assert Join(ws, [sep]) == [s[0]] + rest[0];
        } else {
          assert Join(rest, [sep]) == rest[0] + [sep] + Join(rest[1..], [sep]);
          assert Join(ws, [sep]) == [s[0]] + rest[0] + [sep] + Join(rest[1..], [sep]);
        }
        assert s == [s[0]] + s[1..];
      }
    }
  }

  /** `s.split(sep)[0]`: the longest prefix of `s` without `sep`. */
  function FirstField(s: string, sep: char): string {
    Split(s, sep)[0]
  }

  lemma {:induction false} FirstFieldIsPrefix(s: string, sep: char)
    ensures var f := FirstField(s, sep);
      |f| <= |s| && s[..|f|] == f && sep !in f && (|f| == |s| || s[|f|] == sep)
  {
    if s != [] && s[0] != sep {
      FirstFieldIsPrefix(s[1..], sep);
    }
  }

  /** Characters JavaScript's `trim` removes, restricted to ASCII. */
  predicate IsSpace(c: char) {
    c == ' ' || c == '\t' || c == '\n' || c == '\r' || c == '\U{000B}' || c == '\U{000C}'
  }

  /** The number of spaces that open `s`. */
  function LeadingSpaces(s: string): (n: nat)
    ensures n <= |s|
    ensures forall i :: 0 <= i < n ==> IsSpace(s[i])
    ensures n < |s| ==> !IsSpace(s[n])
  {
    if s != [] && IsSpace(s[0]) then 1 + LeadingSpaces(s[1..]) else 0
  }

  /** The number of spaces that close `s`. */
  function TrailingSpaces(s: string): (n: nat)
    ensures n <= |s|
    ensures forall i :: |s| - n <= i < |s| ==> IsSpace(s[i])
    ensures n < |s| ==> !IsSpace(s[|s| - n - 1])
  {
    if s != [] && IsSpace(s[|s| - 1]) then 1 + TrailingSpaces(s[..|s| - 1]) else 0
  }

  /** Every character of `t` is a space. */
  predicate AllSpaces(t: string) {
    forall i :: 0 <= i < |t| ==> IsSpace(t[i])
  }

  /** `s.trim()`: `s` with only spaces cut off either end, starting and
      ending in a non-space (or empty). */
  function Trim(s: string): (r: string)
    ensures Includes(s, r)
    ensures r == [] || (!IsSpace(r[0]) && !IsSpace(r[|r| - 1]))
    ensures (s == [] || (!IsSpace(s[0]) && !IsSpace(s[|s| - 1]))) ==> r == s
  {
    var a := LeadingSpaces(s);
    if a == |s| then
      assert OccursAt(s, [], 0);
      []
    else
      var e := |s| - TrailingSpaces(s);
      assert !IsSpace(s[a]);
      assert OccursAt(s, s[a..e], a);
      s[a..e]
  }

  /** What `trim` cuts off is white space and nothing else: `s` is the
      trimmed string between an all-space prefix and an all-space suffix. */
  lemma TrimDecomposes(s: string)
    ensures exists p, q :: s == p + Trim(s) + q && AllSpaces(p) && AllSpaces(q)
  {
    var a := LeadingSpaces(s);
    if a == |s| {
      assert s == s + Trim(s) + [] && AllSpaces(s) && AllSpaces([]);
    } else {
      var e := |s| - TrailingSpaces(s);
      assert Trim(s) == s[a..e];
      assert s == s[..a] + Trim(s) + s[e..] && AllSpaces(s[..a]) && AllSpaces(s[e..]);
    }
  }

  /** `w.charAt(0).toUpperCase() + w.slice(1)` */
  function Capitalize(w: string): (r: string)
    ensures |r| == |w|
    ensures w != [] ==> r[0] == UpperChar(w[0]) && r[1..] == w[1..]
  {
    if w == [] then [] else [UpperChar(w[0])] + w[1..]
  }

  function CapitalizeAll(ws: seq<string>): (r: seq<string>)
    ensures |r| == |ws|
    ensures forall i :: 0 <= i < |ws| ==> r[i] == Capitalize(ws[i])
  {
    if ws == [] then [] else [Capitalize(ws[0])] + CapitalizeAll(ws[1..])
  }

  /** `goal.split('_').map(capitalize).join(' ')`, the goal-tag formatter
      that the goals, history, results and insights pages each define. */
  function FormatGoalName(goal: string): string {
    Join(CapitalizeAll(Split(goal, '_')), " ")
  }

  /** Reference definition of FormatGoalName, character by character:
      underscores become spaces and a letter that starts a word is
      upper-cased. `atStart` says whether the next character starts a word. */
  function TitleWords(s: string, atStart: bool): string {
    if s == [] then []
    else if s[0] == '_' then " " + TitleWords(s[1..], true)
    else [if atStart then UpperChar(s[0]) else s[0]] + TitleWords(s[1..], false)
  }

  lemma {:induction false} TitleWordsAt(s: string, atStart: bool, i: nat)
    requires i < |s|
    ensures |TitleWords(s, atStart)| == |s|
    ensures TitleWords(s, atStart)[i] ==
      if s[i] == '_' then ' '
      else if (if i == 0 then atStart else s[i - 1] == '_') then UpperChar(s[i])
      else s[i]
  {
    if i > 0 {
      TitleWordsAt(s[1..], s[0] == '_', i - 1);
    } else if |s| > 1 {
      TitleWordsAt(s[1..], s[0] == '_', 0);
    }
  }

  lemma {:induction false} JoinCons(w: string, ws: seq<string>, sep: string)
    ensures Join([w] + ws, sep) == w + (if ws == [] then "" else sep + Join(ws, sep))
  {
    assert ([w] + ws)[1..] == ws;
  }

  /** The pipeline on `s` with its first word capitalized or not. */
  function Pipeline(s: string, atStart: bool): string {
    var ws := Split(s, '_');
    Join([if atStart then Capitalize(ws[0]) else ws[0]] + CapitalizeAll(ws[1..]), " ")
  }

  /** A leading `_` closes an empty first word and capitalizes the next. */
  lemma PipelineUnderscore(s: string, atStart: bool)
    requires s != [] && s[0] == '_'
    ensures Pipeline(s, atStart) == " " + Pipeline(s[1..], true)
  {
    var ws, rest := Split(s, '_'), Split(s[1..], '_');
    assert ws == [""] + rest;
    assert ws[1..] == rest;
    assert CapitalizeAll(rest) == [Capitalize(rest[0])] + CapitalizeAll(rest[1..]);
    JoinCons("", CapitalizeAll(rest), " ");
  }

  /** Any other leading character opens the first word, upper-cased when
      it starts a word. */
  lemma PipelineLetter(s: string, atStart: bool)
    requires s != [] && s[0] != '_'
    ensures Pipeline(s, atStart) == [if atStart then UpperChar(s[0]) else s[0]] + Pipeline(s[1..], false)
  {
    var rest := Split(s[1..], '_');
    var c := if atStart then UpperChar(s[0]) else s[0];
    var word, more := rest[0], CapitalizeAll(rest[1..]);
    assert Pipeline(s, atStart) == Join([[c] + word] + more, " ") by {
      var ws := Split(s, '_');
      assert ws == [[s[0]] + word] + rest[1..];
      assert (if atStart then Capitalize(ws[0]) else ws[0]) == [c] + word;
    }
    assert Pipeline(s[1..], false) == Join([word] + more, " ");
    var tail := if more == [] then "" else " " + Join(more, " ");
    assert Join([[c] + word] + more, " ") == [c] + (word + tail) by {
      JoinCons([c] + word, more, " ");
    }
    JoinCons(word, more, " ");
  }

  /** The split/capitalize/join pipeline agrees with the character-wise
      reference, with the first word capitalized or not. */
  lemma {:induction false} FormatAgreesWithTitleWords(s: string, atStart: bool)
    ensures Pipeline(s, atStart) == TitleWords(s, atStart)
  {
    if s == [] {
      assert Split(s, '_') == [""];
    } else {
      FormatAgreesWithTitleWords(s[1..], s[0] == '_');
      if s[0] == '_' {
        PipelineUnderscore(s, atStart);
      } else {
        PipelineLetter(s, atStart);
      }
    }
  }

  /** What FormatGoalName does to each character: `_` becomes a space, the
      first character and every character after a `_` are upper-cased, and
      everything else is kept. */
  lemma FormatGoalNameAt(goal: string, i: nat)
    requires i < |goal|
    ensures |FormatGoalName(goal)| == |goal|
    ensures FormatGoalName(goal)[i] ==
      if goal[i] == '_' then ' '
      else if i == 0 || goal[i - 1] == '_' then UpperChar(goal[i])
      else goal[i]
  {
    var ws := Split(goal, '_');
    FormatAgreesWithTitleWords(goal, true);
    assert CapitalizeAll(ws) == [Capitalize(ws[0])] + CapitalizeAll(ws[1..]);
    TitleWordsAt(goal, true, i);
  }

  /** `s.replace(c, d)` with a one-character pattern: only the first
      occurrence is replaced. */
  function ReplaceFirst(s: string, c: char, d: char): (r: string)
    ensures |r| == |s|
    ensures c !in s ==> r == s
  {
    if s == [] then []
    else if s[0] == c then [d] + s[1..]
    else [s[0]] + ReplaceFirst(s[1..], c, d)
  }

  /** When the first `c` of `s` is at `k`, `replace` puts `d` there and
      leaves every other character as it was. */
  lemma {:induction false} ReplaceFirstAt(s: string, c: char, d: char, k: nat)
    requires k < |s| && s[k] == c && c !in s[..k]
    ensures ReplaceFirst(s, c, d) == s[..k] + [d] + s[k + 1..]
  {
    if k > 0 {
      assert s[0] in s[..k];
      var t := s[1..];
      assert t[..k - 1] == s[1..k];
      ReplaceFirstAt(t, c, d, k - 1);
      assert s[..k] == [s[0]] + t[..k - 1] && s[k + 1..] == t[k..];
    }
  }

  /** The character of one decimal digit. */
  function Digit(d: nat): (c: char)
    requires d < 10
    ensures '0' <= c <= '9'
  {
    ('0' as int + d) as char
  }

  /** Decimal rendering of an integer, as template literals print numbers. */
  function NatToString(n: nat): (r: string)
    ensures |r| >= 1
    ensures '0' <= r[0] <= '9'
  {
    if n < 10 then [Digit(n)]
    else NatToString(n / 10) + [Digit(n % 10)]
  }

  function IntToString(n: int): (r: string)
    ensures |r| >= 1
  {
    if n < 0 then "-" + NatToString(-n) else NatToString(n)
  }

  /** Reads a run of decimal digits back as a number. */
  function ParseNat(s: string): nat {
    if s == [] then 0
    else
      var d := s[|s| - 1] as int - '0' as int;
      ParseNat(s[..|s| - 1]) * 10 + (if 0 <= d < 10 then d else 0)
  }

  /** Reads an optionally signed run of decimal digits back as a number. */
  function ParseInt(s: string): int {
    if |s| > 0 && s[0] == '-' then -(ParseNat(s[1..]) as int) else ParseNat(s)
  }

  /** Printing a number and reading it back gives the number. */
  lemma {:induction false} NatToStringRoundTrip(n: nat)
    ensures ParseNat(NatToString(n)) == n
  {
    var s := NatToString(n);
    if n < 10 {
      assert s[..0] == [];
    } else {
      NatToStringRoundTrip(n / 10);
      assert s[..|s| - 1] == NatToString(n / 10);
    }
  }

  lemma IntToStringRoundTrip(n: int)
    ensures ParseInt(IntToString(n)) == n
  {
    if n < 0 {
      NatToStringRoundTrip(-n);
      assert IntToString(n)[1..] == NatToString(-n);
    } else {
      NatToStringRoundTrip(n);
    }
  }

  /** Different numbers print differently. */
  lemma IntToStringInjective(a: int, b: int)
    requires a != b
    ensures IntToString(a) != IntToString(b)
  {
    IntToStringRoundTrip(a);
    IntToStringRoundTrip(b);
  }
}
