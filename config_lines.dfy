/**
 * The line format of the configuration files, `key = value # comment`, as
 * `configLoadLine` of src/config.c reads it.
 */
module ConfigLines {

  import opened Wrappers
  import opened Text
  import opened ConfigSpec
  import opened ConfigSetter
  import opened ConfigProperties

  /** Trimming the end leaves nothing exactly when only whitespace was there. */
  lemma TrimEndEmpty(s: string)
    ensures TrimEnd(s) == [] <==> AllSpace(s)
  {
    if AllSpace(s) {
      TrailingStartUnique(s, 0);
    }
  }

  /**
   * A line is blank (ignored) exactly when nothing but whitespace precedes its
   * first '#' after the leading whitespace: it is empty or all whitespace, or its
   * first non-space character starts a comment.
   */
  lemma BlankLine(c: Settings, line: string)
    ensures ParseLine(line) == Blank <==> TrimStart(line) == [] || TrimStart(line)[0] == '#'
    ensures ParseLine(line) == Blank ==> ApplyLine(c, line) == Ok(c)
  {
    var u := TrimStart(line);
    var t := TrimEnd(u);
    TrimEndEmpty(u);
    if u != [] {
      assert !AllSpace(u);
      assert t != [] && t[0] == u[0];
    }
  }

  /** A non-space character stops the trimming of the start. */
  lemma TrimStartBefore(a: string, c: char, b: string)
    requires !IsSpace(c)
    ensures TrimStart(a + ([c] + b)) == TrimStart(a) + ([c] + b)
  {
    TrimStartAppend(a, [c] + b);
    if TrimStart(a) == [] {
      LeadingSpacesUnique([c] + b, 0);
    }
  }

  /** A non-space character stops the trimming of the end. */
  lemma TrimEndAfter(a: string, c: char, b: string)
    requires !IsSpace(c)
    ensures TrimEnd(a + ([c] + b)) == a + ([c] + TrimEnd(b))
  {
    assert a + ([c] + b) == (a + [c]) + b;
    TrimEndAppend(a + [c], b);
    if TrimEnd(b) == [] {
      TrailingStartUnique(a + [c], |a| + 1);
      assert TrimEnd(a + [c]) == a + [c];
      assert a + ([c] + TrimEnd(b)) == a + [c];
    } else {
      assert (a + [c]) + TrimEnd(b) == a + ([c] + TrimEnd(b));
    }
  }

  /** Trimming only removes characters. */
  lemma TrimKeepsOut(s: string, c: char)
    requires c !in s
    ensures c !in TrimStart(s) && c !in TrimEnd(s)
  {
  }

  /**
   * Everything from the first '#' on is a comment, and the text before it counts
   * with its leading whitespace removed but its trailing whitespace kept.
   */
  lemma CommentCut(p: string, t: string)
    requires '#' !in p
    ensures LineBody(p + ("#" + t)) == TrimStart(p)
  {
    var a := TrimStart(p);
    TrimStartBefore(p, '#', t);
    TrimEndAfter(a, '#', t);
    TrimKeepsOut(p, '#');
    FindPast(a, "#" + TrimEnd(t), '#');
    var text := a + ("#" + TrimEnd(t));
    assert Find(text, '#') == |a|;
    assert text[..|a|] == a;
  }

  /** The body of a line `k = v` without '#' runs from the key's first non-space to the value's last. */
  lemma AssignmentBody(k: string, v: string)
    requires '#' !in k && '#' !in v
    ensures LineBody(k + ("=" + v)) == TrimStart(k) + ("=" + TrimEnd(v))
  {
    TrimAroundEquals(k, v);
    TrimKeepsOut(k, '#');
    TrimKeepsOut(v, '#');
    NoComment(k + ("=" + v), TrimStart(k) + ("=" + TrimEnd(v)));
  }

  /** Trimming `k = v` trims the start of the key and the end of the value. */
  lemma TrimAroundEquals(k: string, v: string)
    ensures TrimEnd(TrimStart(k + ("=" + v))) == TrimStart(k) + ("=" + TrimEnd(v))
  {
    TrimStartBefore(k, '=', v);
    TrimEndAfter(TrimStart(k), '=', v);
  }

  /** A line whose trimmed text holds no '#' has that text as its body. */
  lemma NoComment(line: string, text: string)
    requires TrimEnd(TrimStart(line)) == text && '#' !in text
    ensures LineBody(line) == text
  {
    FindAbsent(text, '#');
    assert text[..|text|] == text;
  }

  /** `strchr` finds nothing in a string without the character. */
  lemma FindAbsent(s: string, c: char)
    requires c !in s
    ensures Find(s, c) == |s|
  {
  }

  /** A body splits at its first '=', the key losing trailing and the value leading whitespace. */
  lemma SplitAtEquals(a: string, w: string)
    requires '=' !in a
    ensures ParseBody(a + ("=" + w)) == Assignment(TrimEnd(a), TrimStart(w))
  {
    var text := a + ("=" + w);
    FindPast(a, "=" + w, '=');
    assert text[..|a|] == a && text[|a| + 1..] == w;
  }

  /**
   * A line `k = v` without '#' and with no '=' in `k` assigns `v` to `k`, both
   * with the whitespace around them removed.
   */
  lemma AssignmentLine(k: string, v: string)
    requires '=' !in k && '#' !in k && '#' !in v
    ensures ParseLine(k + ("=" + v)) == Assignment(TrimEnd(TrimStart(k)), TrimEnd(TrimStart(v)))
  {
    AssignmentBody(k, v);
    TrimKeepsOut(k, '=');
    SplitAtEquals(TrimStart(k), TrimEnd(v));
    TrimCommutes(v);
  }

  /**
   * A line is fatal for its format exactly when something is left after the
   * comment is cut and it holds no '='.
   */
  lemma MissingEquals(c: Settings, line: string)
    ensures ApplyLine(c, line) == Err(BadLine) <==> LineBody(line) != [] && '=' !in LineBody(line)
  {
    var b := LineBody(line);
    var eq := Find(b, '=');
    if eq == |b| {
      assert b[..eq] == b;
    }
    match ParseLine(line)
    case Blank =>
    case Malformed =>
    case Assignment(k, v) => SetFailure(c, k, v);
  }

  /**
   * A comment after an assignment is cut off, but the whitespace before the '#'
   * stays in the value.
   */
  lemma CommentedAssignment(k: string, v: string, t: string)
    requires '=' !in k && '#' !in k && '#' !in v
    ensures ParseLine(k + ("=" + (v + ("#" + t)))) == Assignment(TrimEnd(TrimStart(k)), TrimStart(v))
  {
    var line := k + ("=" + v);
    assert k + ("=" + (v + ("#" + t))) == line + ("#" + t);
    assert '#' !in "=" + v;
    assert '#' !in line;
    CommentCut(line, t);
    TrimStartBefore(k, '=', v);
    TrimKeepsOut(k, '=');
    SplitAtEquals(TrimStart(k), v);
  }

  /**
   * So `width = <digits> # px` is fatal: the value the setter sees keeps the
   * space before the '#'.
   */
  lemma CommentAfterNumber(c: Settings, digits: string)
    requires AllDigits(digits) && |digits| > 0
    ensures ParseLine("width = " + digits + " # px") == Assignment("width", digits + " ")
    ensures ApplyLine(c, "width = " + digits + " # px") == Err(BadInteger(digits + " "))
  {
    CommentedWidthLine(digits);
    ConfigIntRejectsTrailing("", NoSign, digits, " ");
    assert "" + (SignText(NoSign) + (digits + " ")) == digits + " ";
    WidthRefuses(c, digits + " ");
  }

  lemma CommentedWidthLine(digits: string)
    requires AllDigits(digits) && |digits| > 0
    ensures ParseLine("width = " + digits + " # px") == Assignment("width", digits + " ")
  {
    var v := " " + (digits + " ");
    assert "width = " + digits + " # px" == "width " + ("=" + (v + ("#" + " px")));
    PaddedDigits(digits);
    CommentedAssignment("width ", v, " px");
    WidthKeyTrims();
  }

  /** Digits between two spaces hold no '#', and trimming the start drops the first space. */
  lemma PaddedDigits(digits: string)
    requires AllDigits(digits) && |digits| > 0
    ensures '#' !in " " + (digits + " ")
    ensures TrimStart(" " + (digits + " ")) == digits + " "
  {
    var v := " " + (digits + " ");
    forall i | 0 <= i < |v| ensures v[i] != '#' {
      if 0 < i < |v| - 1 { assert v[i] == digits[i - 1]; }
    }
    assert (digits + " ")[0] == digits[0];
    LeadingSpacesOf(" ", digits + " ");
  }

  lemma WidthKeyTrims()
    ensures TrimEnd(TrimStart("width ")) == "width"
  {
    LeadingSpacesUnique("width ", 0);
    TrailingStartUnique("width ", 5);
    assert "width "[..5] == "width";
  }

  /** `width` is an integer entry: a value its setter refuses makes `configSet` fail. */
  lemma WidthRefuses(c: Settings, value: string)
    requires ConfigInt(value) == Err(BadInteger(value))
    ensures SetValue(c, "width", value) == Err(BadInteger(value))
  {
    KnownKey(c, 2, value);
  }
}
