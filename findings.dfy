/** One warning reported by the scanner, the order in which the plugin lists
    warnings, and the one-line rendering of a warning
    (lib/guard/brakeman.rb, `decorate_warning` and `relative_warning_path`). */
module Findings {
  import opened Wrappers
  import opened Text

  /** The scanner's file reference; `relative` is the path relative to the application root. */
  datatype FilePath = FilePath(relative: string)

  /** A scanner warning as the plugin reads it. `code` holds the already
      formatted code snippet (the scanner's `format_code`), present exactly
      when the warning has code. */
  datatype Warning = Warning(
    confidence: int,
    warningType: string,
    message: string,
    file: Option<FilePath>,
    line: Option<int>,
    code: Option<string>)

  /** Non-decreasing by confidence: the most certain warnings (0) first. */
  predicate SortedByConfidence(ws: seq<Warning>) {
    forall i, j :: 0 <= i < j < |ws| ==> ws[i].confidence <= ws[j].confidence
  }

  function InsertByConfidence(w: Warning, ws: seq<Warning>): (r: seq<Warning>)
    requires SortedByConfidence(ws)
    ensures SortedByConfidence(r)
    ensures multiset(r) == multiset(ws) + multiset{w}
    ensures |r| == |ws| + 1
    decreases |ws|
  {
    if ws == [] then [w]
    else if w.confidence <= ws[0].confidence then [w] + ws
    else
      assert ws == [ws[0]] + ws[1..];
      var rest := InsertByConfidence(w, ws[1..]);
      RestAbove(w, ws, rest);
      PrependSorted(ws[0], rest);
      [ws[0]] + rest
  }

  /** After the head of a sorted list, everything left and an inserted warning
      that does not go first are at least as confident as the head. */
  lemma RestAbove(w: Warning, ws: seq<Warning>, rest: seq<Warning>)
    requires SortedByConfidence(ws) && |ws| > 0 && ws[0].confidence < w.confidence
    requires multiset(rest) == multiset(ws[1..]) + multiset{w}
    ensures forall x :: x in rest ==> ws[0].confidence <= x.confidence
  {
    forall x | x in rest ensures ws[0].confidence <= x.confidence {
      assert x in multiset(rest);
      if x != w {
        assert x in multiset(ws[1..]);
        var k :| 0 <= k < |ws[1..]| && ws[1..][k] == x;
        assert ws[k + 1] == x;
      }
    }
  }

  lemma PrependSorted(x: Warning, rest: seq<Warning>)
    requires SortedByConfidence(rest)
    requires forall y :: y in rest ==> x.confidence <= y.confidence
    ensures SortedByConfidence([x] + rest)
  {
    var r := [x] + rest;
    forall i, j | 0 <= i < j < |r| ensures r[i].confidence <= r[j].confidence {
      assert r[j] == rest[j - 1];
      if i > 0 {
        assert r[i] == rest[i - 1];
      }
    }
  }

  /** `warnings.sort_by { |w| w.confidence }`: the same warnings, ordered by confidence. */
  function SortByConfidence(ws: seq<Warning>): (r: seq<Warning>)
    ensures SortedByConfidence(r)
    ensures |r| == |ws|
    ensures multiset(r) == multiset(ws)
    decreases |ws|
  {
    if ws == [] then []
    else
      assert ws == [ws[0]] + ws[1..];
      InsertByConfidence(ws[0], SortByConfidence(ws[1..]))
  }

  /** The path shown for a warning: none when the warning has no file. */
  function RelativeWarningPath(w: Warning): (p: Option<string>)
    ensures p.None? <==> w.file.None?
  {
    match w.file
    case None => None
    case Some(f) => Some(f.relative)
  }

  /** The fixed head of every rendered warning: confidence text, type and message. */
  function DecoratedHead(w: Warning, confText: string): string {
    confText + " - " + w.warningType + " - " + w.message
  }

  function NearLine(line: Option<int>): string {
    if line.Some? then " near line " + IntToString(line.value) else ""
  }

  function InPath(path: Option<string>): string {
    if path.Some? then " in " + path.value else ""
  }

  function CodeSuffix(code: Option<string>): string {
    if code.Some? then ": " + code.value else ""
  }

  /** The rendered warning: the head, then the line, path and code fragments,
      each present only when the warning carries that datum. */
  function DecoratedText(w: Warning, confText: string): string {
    DecoratedHead(w, confText) + NearLine(w.line) + InPath(RelativeWarningPath(w)) + CodeSuffix(w.code)
  }

  /** `decorate_warning`: builds the line fragment by fragment. `confText` is the
      scanner's text for the warning's confidence. */
  method DecorateWarning(w: Warning, confText: string) returns (output: string)
    ensures output == DecoratedText(w, confText)
  {
    output := confText;
    output := output + " - " + w.warningType + " - " + w.message;
    assert output == DecoratedHead(w, confText);
    if w.line.Some? {
      output := output + " near line " + IntToString(w.line.value);
    }
    assert output == DecoratedHead(w, confText) + NearLine(w.line);
    ghost var upToLine := output;
    var path := RelativeWarningPath(w);
    if path.Some? {
      output := output + " in " + path.value;
    }
    assert output == upToLine + InPath(path);
    ghost var upToPath := output;
    if w.code.Some? {
      output := output + ": " + w.code.value;
    }
    assert output == upToPath + CodeSuffix(w.code);
  }

  /** What the rendering shows: the head first; the code fragment last when
      there is code, else the path fragment when there is a file, else the line
      fragment when there is a line; and nothing beyond the head exactly when
      the warning has no line, no file and no code. */
  lemma DecoratedFragments(w: Warning, confText: string)
    ensures var r := DecoratedText(w, confText);
      && StartsWith(r, DecoratedHead(w, confText))
      && (w.code.Some? ==> EndsWith(r, ": " + w.code.value))
      && (w.code.None? && w.file.Some? ==> EndsWith(r, " in " + w.file.value.relative))
      && (w.code.None? && w.file.None? && w.line.Some? ==> EndsWith(r, " near line " + IntToString(w.line.value)))
      && (|r| == |DecoratedHead(w, confText)| <==> w.line.None? && w.file.None? && w.code.None?)
  {
    var head := DecoratedHead(w, confText);
    var r := DecoratedText(w, confText);
    assert r[..|head|] == head;
  }
}
