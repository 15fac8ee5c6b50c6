/** Small, self-contained string helpers: decimal rendering and parsing,
    joining and splitting on a separator, prefix/suffix and substring search,
    and the two Ruby string operations the plugin relies on (`chomp` and the
    `inspect` rendering of an array of strings). */
module Wrappers {
  datatype Option<+T> = None | Some(value: T)
}

module Text {
  import opened Wrappers

  predicate IsDigit(c: char) {
    '0' <= c <= '9'
  }

  predicate AllDigits(s: string) {
    forall i :: 0 <= i < |s| ==> IsDigit(s[i])
  }

  function Digit(d: nat): (c: char)
    requires d < 10
    ensures IsDigit(c)
  {
    ('0' as int + d) as char
  }

  function DigitValue(c: char): (d: nat)
    requires IsDigit(c)
    ensures d < 10 && Digit(d) == c
  {
    c as int - '0' as int
  }

  /** Decimal rendering of a natural number, as Ruby's `Integer#to_s`:
      at least one digit and no leading zero. */
  function NatToString(n: nat): (s: string)
    ensures |s| >= 1 && AllDigits(s)
    ensures s[0] == '0' ==> n == 0
    decreases n
  {
    if n < 10 then [Digit(n)] else NatToString(n / 10) + [Digit(n % 10)]
  }

  /** Decimal rendering of an integer, with a leading '-' for negatives. */
  function IntToString(i: int): (s: string)
    ensures |s| >= 1
    ensures i >= 0 ==> AllDigits(s)
  {
    if i < 0 then "-" + NatToString(-i) else NatToString(i)
  }

  /** Reads a string of digits back as a number. */
  function ParseNat(s: string): nat
    requires AllDigits(s)
  {
    if |s| == 0 then 0 else 10 * ParseNat(s[..|s| - 1]) + DigitValue(s[|s| - 1])
  }

  /** Reading back a rendered number gives the number. */
  lemma {:induction false} ParseNatToString(n: nat)
    ensures ParseNat(NatToString(n)) == n
    decreases n
  {
    if n >= 10 {
      var s := NatToString(n);
      assert s[..|s| - 1] == NatToString(n / 10);
      ParseNatToString(n / 10);
    }
  }

  /** Ruby's `Array#join(sep)` on an array of strings. */
  function Join(parts: seq<string>, sep: string): string
  {
    if |parts| == 0 then ""
    else if |parts| == 1 then parts[0]
    else parts[0] + sep + Join(parts[1..], sep)
  }

  /** Joining two non-empty lists is joining each and putting one separator between. */
  lemma {:induction false} JoinAppend(a: seq<string>, b: seq<string>, sep: string)
    requires |a| >= 1 && |b| >= 1
    ensures Join(a + b, sep) == Join(a, sep) + sep + Join(b, sep)
    decreases |a|
  {
    if |a| == 1 {
      assert (a + b)[1..] == b;
    } else {
      assert (a + b)[1..] == a[1..] + b;
      JoinAppend(a[1..], b, sep);
    }
  }

  /** The maximal pieces of `s` between occurrences of `sep`, empty pieces
      included; the reference inverse of `Join` with a one-character separator. */
  function Fields(s: string, sep: char): (r: seq<string>)
    ensures |r| >= 1
    decreases |s|
  {
    if |s| == 0 then [""]
    else
      var rest := Fields(s[1..], sep);
      if s[0] == sep then [""] + rest else [[s[0]] + rest[0]] + rest[1..]
  }

  lemma {:induction false} FieldsNoSep(s: string, sep: char)
    requires sep !in s
    ensures Fields(s, sep) == [s]
    decreases |s|
  {
    if |s| > 0 {
      FieldsNoSep(s[1..], sep);
      assert [s[0]] + s[1..] == s;
    }
  }

  /** Splitting around one separator splits each side independently. */
  lemma {:induction false} FieldsAround(a: string, b: string, sep: char)
    ensures Fields(a + [sep] + b, sep) == Fields(a, sep) + Fields(b, sep)
    decreases |a|
  {
    var s := a + [sep] + b;
    if |a| == 0 {
      assert s[1..] == b;
    } else {
      assert s[1..] == a[1..] + [sep] + b;
      FieldsAround(a[1..], b, sep);
    }
  }

  /** Splitting a joined list gives the list back, when no element holds the separator. */
  lemma {:induction false} FieldsOfJoin(parts: seq<string>, sep: char)
    requires |parts| >= 1
    requires forall i :: 0 <= i < |parts| ==> sep !in parts[i]
    ensures Fields(Join(parts, [sep]), sep) == parts
    decreases |parts|
  {
    if |parts| == 1 {
      FieldsNoSep(parts[0], sep);
    } else {
      FieldsAround(parts[0], Join(parts[1..], [sep]), sep);
      assert parts[0] + [sep] + Join(parts[1..], [sep]) == Join(parts, [sep]);
      FieldsNoSep(parts[0], sep);
      FieldsOfJoin(parts[1..], sep);
      assert [parts[0]] + parts[1..] == parts;
    }
  }

  predicate StartsWith(s: string, prefix: string) {
    |prefix| <= |s| && s[..|prefix|] == prefix
  }

  predicate EndsWith(s: string, suffix: string) {
    |suffix| <= |s| && s[|s| - |suffix|..] == suffix
  }

  /** `pat` occurs in `s` starting at index `j`. */
  predicate OccursAt(s: string, pat: string, j: int) {
    0 <= j && j + |pat| <= |s| && s[j..j + |pat|] == pat
  }

  predicate Contains(s: string, pat: string) {
    exists j :: 0 <= j <= |s| && OccursAt(s, pat, j)
  }

  /** Ruby's `String#index(pat)` searching from `from`: the first occurrence at or after it. */
  function IndexFrom(s: string, pat: string, from: nat): (r: Option<nat>)
    ensures r.Some? ==> from <= r.value && OccursAt(s, pat, r.value)
    ensures r.Some? ==> forall j :: from <= j < r.value ==> !OccursAt(s, pat, j)
    ensures r.None? ==> forall j :: from <= j ==> !OccursAt(s, pat, j)
    decreases |s| - from
  {
    if from + |pat| > |s| then None
    else if s[from..from + |pat|] == pat then Some(from)
    else IndexFrom(s, pat, from + 1)
  }

  /** Ruby's `String#index(pat)`: nil, or the first position where `pat` occurs. */
  function Index(s: string, pat: string): (r: Option<nat>)
    ensures r.Some? <==> Contains(s, pat)
    ensures r.Some? ==> OccursAt(s, pat, r.value) && forall j :: 0 <= j < r.value ==> !OccursAt(s, pat, j)
  {
    IndexFrom(s, pat, 0)
  }

  /** Ruby's `String#chomp` with no argument: drops one trailing "\r\n", "\n" or "\r". */
  function Chomp(s: string): (r: string)
    ensures StartsWith(s, r) && |s| - 2 <= |r|
    ensures |s| > 0 && s[|s| - 1] != '\n' && s[|s| - 1] != '\r' ==> r == s
    ensures EndsWith(s, "\r\n") ==> r == s[..|s| - 2]
    ensures !EndsWith(s, "\r\n") && |s| > 0 && (s[|s| - 1] == '\n' || s[|s| - 1] == '\r') ==> r == s[..|s| - 1]
    ensures s == r || s == r + "\n" || s == r + "\r" || s == r + "\r\n"
  {
    if |s| >= 2 && s[|s| - 2..] == "\r\n" then
      assert s == s[..|s| - 2] + s[|s| - 2..];
      s[..|s| - 2]
    else if |s| >= 1 && (s[|s| - 1] == '\n' || s[|s| - 1] == '\r') then
      assert s == s[..|s| - 1] + [s[|s| - 1]];
      s[..|s| - 1]
    else s
  }

  /** Text around a string that opens with `open` and closes with `close` opens
      and closes with that text around them. */
  lemma Surround(pre: string, mid: string, post: string, open: string, close: string)
    requires StartsWith(mid, open) && EndsWith(mid, close)
    ensures StartsWith(pre + mid + post, pre + open) && EndsWith(pre + mid + post, close + post)
  {
    var r := pre + mid + post;
    assert r[..|pre + open|] == pre + mid[..|open|];
    assert r[|r| - |close + post|..] == mid[|mid| - |close|..] + post;
  }

  /** Ruby's `Array#inspect` on an array of strings (`["a", "b"]`), for strings
      that need no escaping. */
  function Inspect(items: seq<string>): (r: string)
    ensures StartsWith(r, "[") && EndsWith(r, "]")
  {
    "[" + Join(seq(|items|, i requires 0 <= i < |items| => "\"" + items[i] + "\""), ", ") + "]"
  }

  /** The inspected array shows each string quoted, in order, between brackets. */
  lemma InspectShows(p: string, q: string)
    ensures Inspect([]) == "[]"
    ensures Inspect([p]) == "[\"" + p + "\"]"
    ensures Inspect([p, q]) == "[\"" + p + "\", \"" + q + "\"]"
  {
    var quoted := seq(2, i requires 0 <= i < 2 => "\"" + [p, q][i] + "\"");
    assert quoted == ["\"" + p + "\"", "\"" + q + "\""];
    assert quoted[1..] == ["\"" + q + "\""];
    assert Join(quoted, ", ") == "\"" + p + "\"" + ", " + ("\"" + q + "\"");
    assert "[" + ("\"" + p + "\"" + ", " + ("\"" + q + "\"")) + "]" == "[\"" + p + "\", \"" + q + "\"]";
    assert seq(1, i requires 0 <= i < 1 => "\"" + [p][i] + "\"") == ["\"" + p + "\""];
  }
}
