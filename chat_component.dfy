/** The chat component of the browser client: the character-level clean-up that turns a
    Markdown answer into plain structured text for the PDF export, the classification of that
    text's lines into section headers, bullets and gaps, the filter that decides which sources
    a bot message lists, and the send action that appends the user's prompt and the answer (or
    an error bubble) to the message list.

    The regular-expression rewrites of headings, emphasis, code spans and list markers are a
    function parameter; the HTTP call, the router and the parent's callbacks are outcomes or
    recorded effects. */
module ChatComponent {
  import opened Common
  import opened Text
  import opened JsValues
  import ChatRoute

  // ---------------------------------------------------------------- Markdown to structured text

  /** The bullet that the rewrites put before list items and section titles. */
  const Bullet: char := '•'

  /** `[Ø=Þ€]`: stray characters that the export deletes. */
  predicate IsStray(c: char) {
    c == 'Ø' || c == '=' || c == 'Þ' || c == '€'
  }

  predicate IsKept(c: char) { !IsStray(c) }

  /** A character other than `>` and whitespace: what the quote-mark pass never removes. */
  predicate IsVisible(c: char) { c != '>' && !IsJsWhitespace(c) }

  predicate IsNotNewline(c: char) { c != '\n' }

  /** No three newlines in a row. */
  predicate NoTripleNewline(s: string) {
    forall i :: 0 <= i < |s| - 2 && s[i] == '\n' && s[i + 1] == '\n' ==> s[i + 2] != '\n'
  }

  /** The `>` pass (`>` then any whitespace, replaced by nothing, globally): every `>` is deleted together with the whitespace after it. */
  function StripQuoteMarks(s: string): (r: string)
    ensures '>' !in r
    ensures |r| <= |s|
    ensures forall c :: c in r ==> c in s
    decreases |s|
  {
    if s == [] then []
    else if s[0] == '>' then
      var t := s[1..];
      var r := StripQuoteMarks(t[SkipSpace(t, 0)..]);
      assert forall c :: c in r ==> c in s by {
        assert forall c :: c in t[SkipSpace(t, 0)..] ==> c in s;
      }
      r
    else
      var r := [s[0]] + StripQuoteMarks(s[1..]);
      assert forall c :: c in r ==> c in s by {
        assert forall c :: c in s[1..] ==> c in s;
      }
      r
  }

  /** The quote-mark pass deletes only quote marks and whitespace: every other character
      survives, in order. */
  lemma {:induction false} StripKeepsVisible(s: string)
    ensures Filter(StripQuoteMarks(s), IsVisible) == Filter(s, IsVisible)
    decreases |s|
  {
    if s == [] {
    } else if s[0] == '>' {
      var t := s[1..];
      var k := SkipSpace(t, 0);
      StripKeepsVisible(t[k..]);
      assert t == t[..k] + t[k..];
      FilterConcat(t[..k], t[k..], IsVisible);
      FilterNone(t[..k], IsVisible);
      assert s == [s[0]] + t;
      FilterConcat([s[0]], t, IsVisible);
    } else {
      StripKeepsVisible(s[1..]);
      assert s == [s[0]] + s[1..];
      FilterConcat([s[0]], s[1..], IsVisible);
      FilterConcat([s[0]], StripQuoteMarks(s[1..]), IsVisible);
    }
  }

  /** `.replace(/\|/g, ' ')`: each pipe becomes a space and nothing else moves. */
  function BlankPipes(s: string): (r: string)
    ensures |r| == |s| && '|' !in r
    ensures forall i :: 0 <= i < |s| && s[i] != '|' ==> r[i] == s[i]
  {
    seq(|s|, i requires 0 <= i < |s| => if s[i] == '|' then ' ' else s[i])
  }

  /** `s` starts with three newlines. */
  predicate StartsWithTripleNewline(s: string) {
    |s| >= 3 && s[0] == '\n' && s[1] == '\n' && s[2] == '\n'
  }

  /** `.replace(/\n{3,}/g, '\n\n')`: every run of three or more newlines shrinks to two. A
      newline is dropped exactly when two more follow it, which leaves the last two of every
      longer run. The first two characters always survive, and so does every character other
      than a newline. */
  function CollapseNewlines(s: string): (r: string)
    ensures |r| <= |s|
    ensures r != [] <==> s != []
    ensures r != [] ==> r[0] == s[0]
    ensures |s| >= 2 ==> |r| >= 2 && r[1] == s[1]
    decreases |s|
  {
    if s == [] then []
    else if StartsWithTripleNewline(s) then CollapseNewlines(s[1..])
    else [s[0]] + CollapseNewlines(s[1..])
  }

  /** Collapsing only deletes: what is left is taken from the text in order. */
  lemma {:induction false} CollapseIsSubsequence(s: string)
    ensures IsSubsequence(CollapseNewlines(s), s)
    decreases |s|
  {
    if s != [] {
      var rest := CollapseNewlines(s[1..]);
      CollapseIsSubsequence(s[1..]);
      if StartsWithTripleNewline(s) {
        SubsequenceSkip(rest, s);
      } else {
        assert ([s[0]] + rest)[1..] == rest;
      }
    }
  }

  /** No three newlines in a row survive the collapse. */
  lemma {:induction false} CollapseLeavesNoTriple(s: string)
    ensures NoTripleNewline(CollapseNewlines(s))
    decreases |s|
  {
    if s != [] {
      CollapseLeavesNoTriple(s[1..]);
      if !StartsWithTripleNewline(s) {
        var rest := CollapseNewlines(s[1..]);
        var r := [s[0]] + rest;
        forall i | 0 <= i < |r| - 2 && r[i] == '\n' && r[i + 1] == '\n' ensures r[i + 2] != '\n' {
          if i == 0 {
            assert r[1] == s[1] && r[2] == s[2];
          } else {
            assert r[i] == rest[i - 1] && r[i + 1] == rest[i] && r[i + 2] == rest[i + 1];
          }
        }
      }
    }
  }

  /** Collapsing removes newlines only: the other characters stay, in order. */
  lemma {:induction false} CollapseKeepsText(s: string)
    ensures Filter(CollapseNewlines(s), IsNotNewline) == Filter(s, IsNotNewline)
    decreases |s|
  {
    if s != [] {
      CollapseKeepsText(s[1..]);
      if !StartsWithTripleNewline(s) {
        assert ([s[0]] + CollapseNewlines(s[1..]))[1..] == CollapseNewlines(s[1..]);
      }
    }
  }

  /** Collapsing leaves a text unchanged exactly when it has no three newlines in a row. */
  lemma {:induction false} CollapseFixedPoint(s: string)
    ensures CollapseNewlines(s) == s <==> NoTripleNewline(s)
    decreases |s|
  {
    CollapseLeavesNoTriple(s);
    if s != [] && NoTripleNewline(s) {
      assert !StartsWithTripleNewline(s);
      assert NoTripleNewline(s[1..]) by {
        forall i | 0 <= i < |s[1..]| - 2 && s[1..][i] == '\n' && s[1..][i + 1] == '\n'
          ensures s[1..][i + 2] != '\n'
        {
          assert s[i + 1] == '\n' && s[i + 2] == '\n';
        }
      }
      CollapseFixedPoint(s[1..]);
      assert s == [s[0]] + s[1..];
    }
  }

  /** A piece cut out of a text without three newlines in a row has none either. */
  lemma SliceKeepsNoTripleNewline(s: string, i: nat, j: nat)
    requires i <= j <= |s| && NoTripleNewline(s)
    ensures NoTripleNewline(s[i..j])
  {
    forall k | 0 <= k < |s[i..j]| - 2 && s[i..j][k] == '\n' && s[i..j][k + 1] == '\n'
      ensures s[i..j][k + 2] != '\n'
    {
      assert s[i + k] == '\n' && s[i + k + 1] == '\n';
    }
  }

  /** The character-level passes that end markdownToStructuredText, in order: quote marks,
      pipes, stray characters, newline runs, then trim. */
  function CleanUp(s: string): (r: string)
    ensures '|' !in r && '>' !in r
    ensures forall i :: 0 <= i < |r| ==> !IsStray(r[i])
    ensures NoTripleNewline(r)
    ensures r == [] || (!IsJsWhitespace(r[0]) && !IsJsWhitespace(r[|r| - 1]))
  {
    var collapsed := CollapseNewlines(Filter(BlankPipes(StripQuoteMarks(s)), IsKept));
    CollapsedIsClean(s);
    CollapseLeavesNoTriple(Filter(BlankPipes(StripQuoteMarks(s)), IsKept));
    TrimKeepsClean(collapsed);
    Trim(collapsed)
  }

  /** Before the final trim, the text is free of pipes, quote marks and stray characters. */
  lemma CollapsedIsClean(s: string)
    ensures var c := CollapseNewlines(Filter(BlankPipes(StripQuoteMarks(s)), IsKept));
      '|' !in c && '>' !in c && forall i :: 0 <= i < |c| ==> !IsStray(c[i])
  {
    var noQuotes := StripQuoteMarks(s);
    var noPipes := BlankPipes(noQuotes);
    forall i | 0 <= i < |noPipes| ensures noPipes[i] != '>' {
      assert noQuotes[i] != '>';
    }
    var noStray := Filter(noPipes, IsKept);
    FilterIsSubsequence(noPipes, IsKept);
    forall i | 0 <= i < |noStray| ensures noStray[i] != '|' && noStray[i] != '>' {
      SubsequenceMember(noStray, noPipes, i);
    }
    var c := CollapseNewlines(noStray);
    CollapseIsSubsequence(noStray);
    forall i | 0 <= i < |c| ensures c[i] != '|' && c[i] != '>' && !IsStray(c[i]) {
      SubsequenceMember(c, noStray, i);
    }
  }

  /** Trimming keeps a clean text clean and leaves no whitespace at either end. */
  lemma TrimKeepsClean(c: string)
    requires '|' !in c && '>' !in c && forall i :: 0 <= i < |c| ==> !IsStray(c[i])
    requires NoTripleNewline(c)
    ensures var r := Trim(c);
      && '|' !in r && '>' !in r && (forall i :: 0 <= i < |r| ==> !IsStray(r[i]))
      && NoTripleNewline(r)
  {
    var r := Trim(c);
    var (i, j) := TrimBounds(c);
    assert r == c[i..j];
    SliceKeepsNoTripleNewline(c, i, j);
    SliceKeepsClean(c, i, j);
  }

  lemma SliceKeepsClean(c: string, i: nat, j: nat)
    requires i <= j <= |c|
    requires '|' !in c && '>' !in c && forall k :: 0 <= k < |c| ==> !IsStray(c[k])
    ensures var r := c[i..j];
      '|' !in r && '>' !in r && forall k :: 0 <= k < |r| ==> !IsStray(r[k])
  {
    forall k | 0 <= k < j - i ensures c[i..j][k] != '|' && c[i..j][k] != '>' && !IsStray(c[i..j][k]) {
      assert c[i..j][k] == c[i + k];
    }
  }

  /** `markdownToStructuredText(md)`: "" unless `md` is a non-empty string; otherwise the
      Markdown rewrites (`rewrite`) followed by the character-level clean-up. The result has
      no pipes, no quote marks, no stray characters, no three newlines in a row and no
      whitespace at either end, whatever the rewrites produced. */
  function MarkdownToStructuredText(md: JsVal, rewrite: string -> string): (r: string)
    ensures !(md.Str? && md.s != "") ==> r == ""
    ensures '|' !in r && '>' !in r
    ensures forall i :: 0 <= i < |r| ==> !IsStray(r[i])
    ensures NoTripleNewline(r)
    ensures r == [] || (!IsJsWhitespace(r[0]) && !IsJsWhitespace(r[|r| - 1]))
  {
    if !Truthy(md) || !md.Str? then "" else CleanUp(rewrite(md.s))
  }

  /** Text that has already been cleaned up passes through the clean-up unchanged. */
  lemma CleanUpIdempotent(s: string)
    ensures CleanUp(CleanUp(s)) == CleanUp(s)
  {
    var c := CleanUp(s);
    assert StripQuoteMarks(c) == c by { NoQuoteMarksUnchanged(c); }
    assert BlankPipes(c) == c;
    FilterAll(c, IsKept);
    assert CollapseNewlines(c) == c by { CollapseFixedPoint(c); }
    TrimUnchanged(c);
  }

  lemma {:induction false} NoQuoteMarksUnchanged(s: string)
    requires '>' !in s
    ensures StripQuoteMarks(s) == s
    decreases |s|
  {
    if s != [] {
      NoQuoteMarksUnchanged(s[1..]);
      assert s == [s[0]] + s[1..];
    }
  }

  /** A `>` and the whitespace after it vanish together: the pass resumes at the first
      character that is not whitespace. */
  lemma StripQuoteRun(w: string, t: string)
    requires AllWhitespace(w) && (t == [] || !IsJsWhitespace(t[0]))
    ensures StripQuoteMarks(['>'] + w + t) == StripQuoteMarks(t)
  {
    var s := ['>'] + w + t;
    var u := s[1..];
    assert u == w + t;
    assert forall m :: 0 <= m < |w| ==> IsJsWhitespace(u[m]);
    assert |w| < |u| ==> !IsJsWhitespace(u[|w|]);
    assert SkipSpace(u, 0) == |w|;
    assert u[|w|..] == t;
  }

  /** Text without quote marks passes through the `>` pass untouched, whatever follows it. */
  lemma {:induction false} StripPlainPrefix(a: string, t: string)
    requires '>' !in a
    ensures StripQuoteMarks(a + t) == a + StripQuoteMarks(t)
    decreases |a|
  {
    if a == [] {
      assert a + t == t;
    } else {
      assert (a + t)[0] == a[0] && (a + t)[1..] == a[1..] + t;
      StripPlainPrefix(a[1..], t);
      assert a == [a[0]] + a[1..];
    }
  }

  /** `k` newlines in a row. */
  function Newlines(k: nat): (r: string)
    ensures |r| == k && forall i :: 0 <= i < k ==> r[i] == '\n'
  {
    if k == 0 then [] else ['\n'] + Newlines(k - 1)
  }

  /** A run of newlines at the start shrinks to two when it is three or longer, and is kept
      as it is otherwise. */
  lemma {:induction false} CollapseRun(k: nat, b: string)
    requires b == [] || b[0] != '\n'
    ensures CollapseNewlines(Newlines(k) + b) == Newlines(if k >= 3 then 2 else k) + CollapseNewlines(b)
    decreases k
  {
    if k == 0 {
      assert Newlines(k) + b == b;
    } else {
      var u := Newlines(k - 1) + b;
      assert Newlines(k) + b == ['\n'] + u;
      CollapseNewlineFirst(u);
      CollapseRun(k - 1, b);
      if k >= 3 {
        assert u[0] == '\n' && u[1] == '\n';
      } else {
        if k == 1 {
          assert u == b;
        } else {
          assert |u| >= 2 ==> u[1] == b[0];
        }
        ConcatRegroup(['\n'], Newlines(k - 1), CollapseNewlines(b));
      }
    }
  }

  /** A leading newline is dropped exactly when two more follow it. */
  lemma CollapseNewlineFirst(u: string)
    ensures var twoMore := |u| >= 2 && u[0] == '\n' && u[1] == '\n';
      && (twoMore ==> CollapseNewlines(['\n'] + u) == CollapseNewlines(u))
      && (!twoMore ==> CollapseNewlines(['\n'] + u) == ['\n'] + CollapseNewlines(u))
  {
    assert (['\n'] + u)[1..] == u;
  }

  /** Collapsing works piece by piece across a point where no newline run is cut. */
  lemma {:induction false} CollapseSplits(a: string, t: string)
    requires a == [] || a[|a| - 1] != '\n'
    ensures CollapseNewlines(a + t) == CollapseNewlines(a) + CollapseNewlines(t)
    decreases |a|
  {
    if a == [] {
      assert a + t == t;
    } else {
      var s := a + t;
      assert s[0] == a[0] && s[1..] == a[1..] + t;
      if |a| < 3 {
        assert s[|a| - 1] != '\n';
        assert !StartsWithTripleNewline(s) && !StartsWithTripleNewline(a);
      } else {
        assert s[..3] == a[..3];
        assert StartsWithTripleNewline(s) == StartsWithTripleNewline(a);
      }
      CollapseSplits(a[1..], t);
    }
  }

  /** `.replace(/\n{3,}/g, '\n\n')` on one whole run of newlines: a run of three or more
      becomes exactly two, a shorter one stays, and the text on either side is collapsed on
      its own. */
  lemma CollapseRuns(a: string, k: nat, b: string)
    requires a == [] || a[|a| - 1] != '\n'
    requires b == [] || b[0] != '\n'
    ensures CollapseNewlines(a + Newlines(k) + b)
      == CollapseNewlines(a) + Newlines(if k >= 3 then 2 else k) + CollapseNewlines(b)
  {
    var run := Newlines(k);
    var short := Newlines(if k >= 3 then 2 else k);
    assert a + run + b == a + (run + b);
    CollapseSplits(a, run + b);
    CollapseRun(k, b);
    assert CollapseNewlines(run + b) == short + CollapseNewlines(b);
    ConcatRegroup(CollapseNewlines(a), short, CollapseNewlines(b));
  }

  /** The characters that no clean-up pass touches: visible, not a pipe, not stray. */
  predicate IsPlain(c: char) { IsVisible(c) && c != '|' && IsKept(c) }

  /** Blanking pipes keeps every plain character, in order. */
  lemma {:induction false} BlankPipesKeepsPlain(s: string)
    ensures Filter(BlankPipes(s), IsPlain) == Filter(s, IsPlain)
    decreases |s|
  {
    if s != [] {
      var r := BlankPipes(s);
      assert r == [r[0]] + BlankPipes(s[1..]);
      assert IsPlain(r[0]) == IsPlain(s[0]);
      BlankPipesKeepsPlain(s[1..]);
      FilterConcat([r[0]], BlankPipes(s[1..]), IsPlain);
    }
  }

  /** The clean-up deletes and blanks only quote marks, pipes, stray characters, newlines
      and outer whitespace: every other character of the text survives, in order. */
  lemma CleanUpKeepsText(s: string)
    ensures Filter(CleanUp(s), IsPlain) == Filter(s, IsPlain)
  {
    var q0 := StripQuoteMarks(s);
    StripKeepsVisible(s);
    FilterFilter(q0, IsVisible, IsPlain);
    FilterFilter(s, IsVisible, IsPlain);
    var q1 := BlankPipes(q0);
    BlankPipesKeepsPlain(q0);
    var q2 := Filter(q1, IsKept);
    FilterFilter(q1, IsKept, IsPlain);
    var q3 := CollapseNewlines(q2);
    CollapseKeepsText(q2);
    FilterFilter(q3, IsNotNewline, IsPlain);
    FilterFilter(q2, IsNotNewline, IsPlain);
    TrimKeepsPlain(q3);
    assert CleanUp(s) == Trim(q3);
  }

  /** Trimming cuts whitespace only, so it keeps every plain character. */
  lemma TrimKeepsPlain(c: string)
    ensures Filter(Trim(c), IsPlain) == Filter(c, IsPlain)
  {
    var (i, j) := TrimBounds(c);
    FilterInner(c, i, j, IsPlain);
  }

  // ---------------------------------------------------------------- line classification

  /** One line of the PDF layout: a blank line only moves the pen down by `dy`; any other line
      is drawn trimmed, with an indent, a weight and a font size. */
  datatype LineStep = Skip(dy: real) | Draw(text: string, indent: nat, bold: bool, fontSize: nat)

  /** `!line.trim()`. */
  predicate IsBlank(line: string) { Trim(line) == "" }

  /** How many decimal digits `s` starts with. */
  function LeadingDigits(s: string): (k: nat)
    ensures k <= |s|
    ensures forall i :: 0 <= i < k ==> IsDigit(s[i])
    ensures k < |s| ==> !IsDigit(s[k])
    decreases |s|
  {
    if s != [] && IsDigit(s[0]) then 1 + LeadingDigits(s[1..]) else 0
  }

  /** The bullet-line test: optional whitespace, the bullet, then a whitespace character. */
  predicate IsBulletForm(raw: string) {
    var t := TrimStart(raw);
    |t| >= 2 && t[0] == Bullet && IsJsWhitespace(t[1])
  }

  /** The numbered-line test: optional whitespace, digits, a dot, then a whitespace character. */
  predicate IsNumberedForm(raw: string) {
    var t := TrimStart(raw);
    var k := LeadingDigits(t);
    k >= 1 && k + 1 < |t| && t[k] == '.' && IsJsWhitespace(t[k + 1])
  }

  /** `/^\s*\u2022\s/` matches with `k` leading whitespace characters. */
  predicate BulletAt(raw: string, k: nat) {
    k + 1 < |raw| && AllWhitespace(raw[..k]) && raw[k] == Bullet && IsJsWhitespace(raw[k + 1])
  }

  /** `/^\s*\d+\.\s/` matches with `k` leading whitespace characters and `n` digits. */
  predicate NumberAt(raw: string, k: nat, n: nat) {
    && n >= 1 && k + n + 1 < |raw| && AllWhitespace(raw[..k])
    && (forall i :: k <= i < k + n ==> IsDigit(raw[i]))
    && raw[k + n] == '.' && IsJsWhitespace(raw[k + n + 1])
  }

  /** The bullet test agrees with the regular expression: some run of leading whitespace is
      followed by the bullet and a whitespace character. */
  lemma BulletFormMatches(raw: string)
    ensures IsBulletForm(raw) <==> exists k: nat :: BulletAt(raw, k)
  {
    var k := SkipSpace(raw, 0);
    assert TrimStart(raw) == raw[k..];
    if IsBulletForm(raw) {
      assert BulletAt(raw, k);
    }
    forall j: nat | BulletAt(raw, j) ensures IsBulletForm(raw) {
      assert forall m :: 0 <= m < j ==> IsJsWhitespace(raw[..j][m]);
      assert SkipSpace(raw, 0) == j;
    }
  }

  /** The numbered test agrees with the regular expression: leading whitespace, one or more
      digits, a dot and a whitespace character. */
  lemma NumberedFormMatches(raw: string)
    ensures IsNumberedForm(raw) <==> exists k: nat, n: nat :: NumberAt(raw, k, n)
  {
    if IsNumberedForm(raw) {
      NumberedWitness(raw);
    }
    forall j: nat, n: nat | NumberAt(raw, j, n) ensures IsNumberedForm(raw) {
      NumberAtIsNumbered(raw, j, n);
    }
  }

  /** A numbered line matches where its trimmed text begins, with its leading digits. */
  lemma NumberedWitness(raw: string)
    requires IsNumberedForm(raw)
    ensures NumberAt(raw, SkipSpace(raw, 0), LeadingDigits(TrimStart(raw)))
  {
    var k := SkipSpace(raw, 0);
    var t := raw[k..];
    assert TrimStart(raw) == t;
    var n := LeadingDigits(t);
    assert forall i :: k <= i < k + n ==> raw[i] == t[i - k];
  }

  /** Where the regular expression matches, the trimmed line starts with the digits. */
  lemma NumberAtIsNumbered(raw: string, j: nat, n: nat)
    requires NumberAt(raw, j, n)
    ensures IsNumberedForm(raw)
  {
    assert forall m :: 0 <= m < j ==> IsJsWhitespace(raw[..j][m]);
    assert IsDigit(raw[j]);
    assert SkipSpace(raw, 0) == j;
    var t := raw[j..];
    assert TrimStart(raw) == t;
    assert forall i :: 0 <= i < n ==> t[i] == raw[j + i];
    DigitsThenDot(t, n);
  }

  /** Digits up to a dot are exactly the leading digits. */
  lemma DigitsThenDot(t: string, n: nat)
    requires n < |t| && t[n] == '.'
    requires forall i :: 0 <= i < n ==> IsDigit(t[i])
    ensures LeadingDigits(t) == n
  {
    assert !IsDigit(t[n]);
  }

  /** Line i opens a section: its trimmed text starts with the bullet, is shorter than 55
      characters, and it is the first line or follows a blank one. */
  predicate IsSectionHeader(lines: seq<string>, i: nat)
    requires i < |lines|
  {
    var t := Trim(lines[i]);
    && t != "" && t[0] == Bullet && |t| < 55
    && (i == 0 || IsBlank(lines[i - 1]))
  }

  /** How line i is laid out: a blank line advances by 0.8 line heights and draws nothing;
      another line is drawn trimmed, bold at size 11 exactly when it is a section header
      (plain at 10 otherwise), indented by 10 exactly when it has bullet or numbered form. */
  predicate LaidOut(lines: seq<string>, i: nat, step: LineStep, lineHeight: real)
    requires i < |lines|
  {
    && (step.Skip? <==> IsBlank(lines[i]))
    && (step.Skip? ==> step.dy == lineHeight * 0.8)
    && (step.Draw? ==>
          && step.text == Trim(lines[i])
          && step.bold == IsSectionHeader(lines, i)
          && step.fontSize == (if step.bold then 11 else 10)
          && step.indent == (if IsBulletForm(lines[i]) || IsNumberedForm(lines[i]) then 10 else 0))
  }

  /** The body of addStructuredContent's line loop for line i: a blank line only moves the pen;
      another line is drawn trimmed, bold at size 11 when it opens a section, indented when it
      is a bullet or numbered item. */
  function StepFor(lines: seq<string>, i: nat, lineHeight: real): (step: LineStep)
    requires i < |lines|
    ensures LaidOut(lines, i, step, lineHeight)
  {
    var raw := lines[i];
    var trimmed := Trim(raw);
    if trimmed == "" then Skip(lineHeight * 0.8)
    else
      var prevEmpty := i == 0 || Trim(lines[i - 1]) == "";
      var isSection := trimmed[0] == Bullet && |trimmed| < 55 && prevEmpty;
      var isBullet := IsBulletForm(raw) || IsNumberedForm(raw);
      Draw(trimmed, if isBullet then 10 else 0, isSection, if isSection then 11 else 10)
  }

  /** The line loop of addStructuredContent: one layout step per line of `text`. */
  method LayOutLines(text: string, lineHeight: real) returns (steps: seq<LineStep>)
    ensures |steps| == |Split(text, '\n')|
    ensures forall i :: 0 <= i < |steps| ==> LaidOut(Split(text, '\n'), i, steps[i], lineHeight)
  {
    var lines := Split(text, '\n');
    steps := [];
    for i := 0 to |lines|
      invariant |steps| == i
      invariant forall k :: 0 <= k < i ==> LaidOut(lines, k, steps[k], lineHeight)
    {
      steps := steps + [StepFor(lines, i, lineHeight)];
    }
  }

  /** Two consecutive lines are never both section headers. */
  lemma HeadersNotAdjacent(lines: seq<string>, i: nat)
    requires i + 1 < |lines| && IsSectionHeader(lines, i + 1)
    ensures !IsSectionHeader(lines, i)
  {
  }

  /** A text with no whitespace at either end starts and ends with a line that is drawn. */
  lemma OuterLinesNotBlank(t: string)
    requires t != [] && !IsJsWhitespace(t[0]) && !IsJsWhitespace(t[|t| - 1])
    ensures var lines := Split(t, '\n');
      !IsBlank(lines[0]) && !IsBlank(lines[|lines| - 1])
  {
    FirstLineNotBlank(t);
    LastLineNotBlank(t);
  }

  lemma FirstLineNotBlank(t: string)
    requires t != [] && !IsJsWhitespace(t[0])
    ensures !IsBlank(Split(t, '\n')[0])
  {
    var k := IndexOf(t, '\n');
    assert k > 0;
    var first := t[..k];
    assert Split(t, '\n')[0] == first;
    assert !IsJsWhitespace(first[0]);
    TrimEmptyIffBlank(first);
  }

  lemma LastLineNotBlank(t: string)
    requires t != [] && !IsJsWhitespace(t[|t| - 1])
    ensures var lines := Split(t, '\n'); !IsBlank(lines[|lines| - 1])
  {
    var lines := Split(t, '\n');
    var last := lines[|lines| - 1];
    LastPieceEnd(t);
    TrimEmptyIffBlank(last);
  }

  /** A string that does not end with a newline has a last line that is not empty and ends
      with the string's last character. */
  lemma {:induction false} LastPieceEnd(s: string)
    requires s != [] && s[|s| - 1] != '\n'
    ensures var p := Split(s, '\n'); var last := p[|p| - 1];
      last != [] && last[|last| - 1] == s[|s| - 1]
    decreases |s|
  {
    var k := IndexOf(s, '\n');
    if k < |s| {
      var rest := s[k + 1..];
      assert rest != [] && rest[|rest| - 1] == s[|s| - 1];
      LastPieceEnd(rest);
      var p, q := Split(s, '\n'), Split(rest, '\n');
      assert p == [s[..k]] + q;
      var last := q[|q| - 1];
      assert p[|p| - 1] == last;
      assert last != [] && last[|last| - 1] == s[|s| - 1];
    } else {
      assert Split(s, '\n') == [s];
    }
  }

  /** In the export of a non-empty answer, the first and the last line are drawn, not skipped. */
  lemma ExportFramedByText(md: JsVal, rewrite: string -> string, lineHeight: real, steps: seq<LineStep>)
    requires MarkdownToStructuredText(md, rewrite) != ""
    requires var lines := Split(MarkdownToStructuredText(md, rewrite), '\n');
      |steps| == |lines| && forall i :: 0 <= i < |steps| ==> LaidOut(lines, i, steps[i], lineHeight)
    ensures steps[0].Draw? && steps[|steps| - 1].Draw?
  {
    var t := MarkdownToStructuredText(md, rewrite);
    FramedSteps(t, lineHeight, steps);
  }

  /** The layout of a text with no whitespace at either end begins and ends with a drawn line. */
  lemma FramedSteps(t: string, lineHeight: real, steps: seq<LineStep>)
    requires t != [] && !IsJsWhitespace(t[0]) && !IsJsWhitespace(t[|t| - 1])
    requires var lines := Split(t, '\n');
      |steps| == |lines| && forall i :: 0 <= i < |steps| ==> LaidOut(lines, i, steps[i], lineHeight)
    ensures steps[0].Draw? && steps[|steps| - 1].Draw?
  {
    var lines := Split(t, '\n');
    OuterLinesNotBlank(t);
    DrawnUnlessBlank(lines, 0, steps[0], lineHeight);
    DrawnUnlessBlank(lines, |lines| - 1, steps[|steps| - 1], lineHeight);
  }

  lemma DrawnUnlessBlank(lines: seq<string>, i: nat, step: LineStep, lineHeight: real)
    requires i < |lines| && LaidOut(lines, i, step, lineHeight) && !IsBlank(lines[i])
    ensures step.Draw?
  {
  }

  // ---------------------------------------------------------------- sources in a bot message

  /** The BotMessage filter: a truthy entry whose `url` is a truthy string starting with "http". */
  predicate IsListedSource(s: JsVal) {
    Truthy(s) && Truthy(Prop(s, "url")) && StringPropStartsWith(s, "url", "http")
  }

  /** `validSources`: the listed entries of an array, in order; nothing for any other value
      (the prop's default `[]` when it is not passed gives nothing as well). */
  function ListedSources(sources: JsVal): (r: seq<JsVal>)
    ensures !sources.Arr? ==> r == []
    ensures sources.Arr? ==> IsSubsequence(r, sources.elems)
    ensures sources.Arr? ==>
      forall k :: 0 <= k < |sources.elems| && IsListedSource(sources.elems[k]) ==> sources.elems[k] in r
    ensures forall k :: 0 <= k < |r| ==> Prop(r[k], "url").Str? && "http" <= Prop(r[k], "url").s
  {
    if sources.Arr? then
      FilterIsSubsequence(sources.elems, IsListedSource);
      FilterKeeps(sources.elems, IsListedSource);
      Filter(sources.elems, IsListedSource)
    else []
  }

  /** The link text `source.title || source.url`: the title when truthy, otherwise the url,
      which is never empty. */
  function SourceLabel(s: JsVal): (shown: JsVal)
    requires IsListedSource(s)
    ensures Truthy(shown)
    ensures Truthy(Prop(s, "title")) ==> shown == Prop(s, "title")
    ensures !Truthy(Prop(s, "title")) ==> shown == Prop(s, "url")
  {
    Or(Prop(s, "title"), Prop(s, "url"))
  }

  /** The JSON object the server sends for one source. */
  function SourceJson(src: ChatRoute.Source): JsVal {
    Obj(map["title" := src.title, "url" := Str(src.url)])
  }

  /** The JSON array the server sends for a list of sources. */
  function SourcesJson(src: seq<ChatRoute.Source>): (js: seq<JsVal>)
    ensures |js| == |src|
    ensures forall k :: 0 <= k < |src| ==> js[k] == SourceJson(src[k])
  {
    seq(|src|, k requires 0 <= k < |src| => SourceJson(src[k]))
  }

  /** Every source the server returns is listed by the client, in the server's order, and
      labelled with the server's title. */
  lemma ServerSourcesAllListed(search: ChatRoute.SearchOutcome)
    ensures var src := ChatRoute.SourcesOf(search);
      var js := SourcesJson(src);
      && ListedSources(Arr(js)) == js
      && forall k :: 0 <= k < |js| ==> IsListedSource(js[k]) && SourceLabel(js[k]) == src[k].title
  {
    var src := ChatRoute.SourcesOf(search);
    var js := SourcesJson(src);
    forall k | 0 <= k < |js| ensures IsListedSource(js[k]) && SourceLabel(js[k]) == src[k].title {
      assert Prop(js[k], "url") == Str(src[k].url);
      assert Prop(js[k], "title") == src[k].title;
    }
    FilterAll(js, IsListedSource);
  }

  // ---------------------------------------------------------------- sending a message

  datatype Message =
    | UserMessage(text: string)
    | BotReply(answer: JsVal, isError: bool, sources: JsVal)

  /** What `api.post('/chat', ...)` produced: a response body, or a rejection that carries the
      HTTP status when a response arrived. */
  datatype PostOutcome = Answered(data: JsVal) | Rejected(status: Option<int>)

  const GenericErrorText := "Could not get response. Please try again."
  const SessionErrorText := "Session expired or no tokens left. Please sign in again."
  const HomePath := "/"

  /** The error bubble's text: the session text for 401 and 403, the generic text otherwise. */
  function ErrorText(status: Option<int>): (t: string)
    ensures t == SessionErrorText <==> status == Some(401) || status == Some(403)
    ensures t == GenericErrorText <==> !(status == Some(401) || status == Some(403))
  {
    if status == Some(401) || status == Some(403) then SessionErrorText else GenericErrorText
  }

  /** The status the catch block sees, or None when the request succeeded. Reading
      `res.data.response` of a null or undefined body throws a TypeError, which has no
      response and so no status. */
  function Failure(outcome: PostOutcome): (f: Option<Option<int>>)
    ensures f.None? <==> outcome.Answered? && !ReadThrows(outcome.data)
    ensures outcome.Rejected? ==> f == Some(outcome.status)
  {
    match outcome
    case Answered(data) => if ReadThrows(data) then Some(None) else None
    case Rejected(status) => Some(status)
  }

  /** The bot message appended for an outcome: the answer with its sources (`[]` when absent)
      on success, otherwise an error bubble. */
  function BotMessageFor(outcome: PostOutcome): (m: Message)
    ensures m.BotReply?
    ensures m.isError <==> Failure(outcome).Some?
    ensures m.isError ==> m.answer == Str(ErrorText(Failure(outcome).value)) && m.sources == Undefined
    ensures !m.isError ==>
      && m.answer == Prop(outcome.data, "response")
      && m.sources == Or(Prop(outcome.data, "sources"), Arr([]))
  {
    match Failure(outcome)
    case Some(status) => BotReply(Str(ErrorText(status)), true, Undefined)
    case None =>
      BotReply(Prop(outcome.data, "response"), false, Or(Prop(outcome.data, "sources"), Arr([])))
  }

  /** The body of a successful POST /chat reply: the three fields the client reads back. */
  function AnswerJson(response: string, tokensLeft: int, sources: seq<ChatRoute.Source>): (r: JsVal)
    ensures Prop(r, "response") == Str(response)
    ensures Prop(r, "tokens_left") == Num(tokensLeft)
    ensures Prop(r, "sources") == Arr(SourcesJson(sources))
  {
    Obj(map[
      "response" := Str(response),
      "tokens_left" := Num(tokensLeft),
      "sources" := Arr(SourcesJson(sources))])
  }

  /** A server answer shows up as a non-error bubble with the answer text and every source. */
  lemma AnswerShownInFull(response: string, tokensLeft: int, search: ChatRoute.SearchOutcome)
    ensures var src := ChatRoute.SourcesOf(search);
      var m := BotMessageFor(Answered(AnswerJson(response, tokensLeft, src)));
      && !m.isError && m.answer == Str(response)
      && |ListedSources(m.sources)| == |src|
  {
    var src := ChatRoute.SourcesOf(search);
    var js := SourcesJson(src);
    var data := AnswerJson(response, tokensLeft, src);
    assert Prop(data, "response") == Str(response);
    assert Prop(data, "sources") == Arr(js);
    var m := BotMessageFor(Answered(data));
    assert m.sources == Arr(js);
    ServerSourcesAllListed(search);
  }

  /** The client's reaction to whatever status a turn answers with: the session text shows
      exactly when there was no token or the user's quota was used up, and the status that
      leads home (401) comes exactly from a missing token. A token that fails verification,
      an unknown user, a failed generation or a failed save all show the generic text. */
  lemma RefusalsShown(records: map<ChatRoute.UserId, ChatRoute.UserData>, credential: ChatRoute.Credential,
                      prompt: string, search: ChatRoute.SearchOutcome, generation: ChatRoute.GenOutcome,
                      saveSucceeds: bool, now: nat)
    ensures var t := ChatRoute.ChatTurn(records, credential, prompt, search, generation, saveSucceeds, now);
      t.reply.Status? ==>
        && (ErrorText(Some(t.reply.code)) == SessionErrorText <==>
              || credential.NoToken?
              || (credential.Token? && credential.userId in records && records[credential.userId].tokensLeft <= 0))
        && (t.reply.code == 401 <==> credential.NoToken?)
  {
    ChatRoute.ChatTurnRefusals(records, credential, prompt, search, generation, saveSucceeds, now);
    if ChatRoute.MayTurn(records, credential) {
      ChatRoute.ChatTurnPermitted(records, credential, prompt, search, generation, saveSucceeds, now);
    }
  }

  /** The chat component's state and the effects it has on its surroundings. */
  class ChatView {
    var messages: seq<Message>
    var input: string
    var loading: bool
    /** Arguments of the calls to `onTokensUpdate`. */
    var tokenUpdates: seq<int>
    /** Number of calls to `onHistoryUpdate`. */
    var historyUpdates: nat
    /** Paths passed to `navigate`. */
    var navigations: seq<string>
    /** Whether the parent passed the callbacks as functions. */
    const hasTokensCallback: bool
    const hasHistoryCallback: bool

    constructor (hasTokensCallback: bool, hasHistoryCallback: bool)
      ensures messages == [] && input == "" && !loading
      ensures tokenUpdates == [] && historyUpdates == 0 && navigations == []
      ensures this.hasTokensCallback == hasTokensCallback
      ensures this.hasHistoryCallback == hasHistoryCallback
    {
      messages := [];
      input := "";
      loading := false;
      tokenUpdates := [];
      historyUpdates := 0;
      navigations := [];
      this.hasTokensCallback := hasTokensCallback;
      this.hasHistoryCallback := hasHistoryCallback;
    }

    /** The `onChange` handler of the input field. */
    method SetInput(text: string)
      modifies this`input
      ensures input == text
    {
      input := text;
    }

    /** `sendMessage`: with a blank input nothing happens; otherwise the trimmed input is
        posted, the input is cleared, and exactly two messages are appended after the existing
        ones: the user's trimmed text, then the answer or an error bubble. The quota callback
        receives `tokens_left` only when it is a number; only a 401 leads home. */
    method SendMessage(outcome: PostOutcome) returns (posted: Option<string>)
      modifies this
      ensures Trim(old(input)) == "" ==> posted == None && unchanged(this)
      ensures Trim(old(input)) != "" ==>
        && posted == Some(Trim(old(input)))
        && messages == old(messages) + [UserMessage(Trim(old(input))), BotMessageFor(outcome)]
        && input == "" && !loading
      ensures Trim(old(input)) != "" ==>
        var ok := Failure(outcome).None?;
        var left := if ok then Prop(outcome.data, "tokens_left") else Undefined;
        && tokenUpdates == old(tokenUpdates) + (if ok && left.Num? && hasTokensCallback then [left.n] else [])
        && historyUpdates == old(historyUpdates) + (if ok && hasHistoryCallback then 1 else 0)
        && navigations == old(navigations) + (if Failure(outcome) == Some(Some(401)) then [HomePath] else [])
    {
      var text := Trim(input);
      if text == "" {
        return None;
      }
      messages := messages + [UserMessage(text)];
      input := "";
      loading := true;
      posted := Some(text);

      match Failure(outcome) {
        case None =>
          var data := outcome.data;
          messages := messages + [BotReply(Prop(data, "response"), false, Or(Prop(data, "sources"), Arr([])))];
          var left := Prop(data, "tokens_left");
          if left.Num? && hasTokensCallback {
            tokenUpdates := tokenUpdates + [left.n];
          }
          if hasHistoryCallback {
            historyUpdates := historyUpdates + 1;
          }
        case Some(status) =>
          var errorText := GenericErrorText;
          if status == Some(401) || status == Some(403) {
            errorText := SessionErrorText;
            if status == Some(401) {
              navigations := navigations + [HomePath];
            }
          }
          messages := messages + [BotReply(Str(errorText), true, Undefined)];
      }
      loading := false;
    }
  }
}
