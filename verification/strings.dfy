/** String helpers with the exact semantics of the Python and Rust library
    calls the core relies on: prefix tests, `str.split(sep, maxsplit)`,
    `str.strip()`, Rust's `str::trim()`, ASCII lower-casing and the
    joining of pipe-separated fields. */
module Strings {

  predicate StartsWith(s: string, prefix: string) {
    |prefix| <= |s| && s[..|prefix|] == prefix
  }

  predicate EndsWith(s: string, suffix: string) {
    |suffix| <= |s| && s[|s| - |suffix|..] == suffix
  }

  /** Number of occurrences of `c` in `s`. */
  function Count(s: string, c: char): (n: nat)
    ensures n <= |s|
    ensures n == 0 <==> c !in s
  {
    if s == [] then 0
    else (if s[0] == c then 1 else 0) + Count(s[1..], c)
  }

  /** Index of the first occurrence of `c` in `s`. */
  function IndexOf(s: string, c: char): (i: nat)
    requires c in s
    ensures i < |s| && s[i] == c
    ensures c !in s[..i]
  {
    if s[0] == c then 0 else 1 + IndexOf(s[1..], c)
  }

  /** Python's `s.split(c, maxsplit)`: at most `maxsplit` cuts, made at the
      leftmost occurrences of `c`; the last piece keeps any further `c`. */
  function Split(s: string, c: char, maxsplit: nat): (parts: seq<string>)
    ensures |parts| >= 1
  {
    if maxsplit == 0 || c !in s then [s]
    else
      var i := IndexOf(s, c);
      [s[..i]] + Split(s[i + 1..], c, maxsplit - 1)
  }

  /** Python's `s.split(c)` without a limit: a cut at every `c`. */
  function SplitAll(s: string, c: char): (parts: seq<string>)
    ensures |parts| >= 1
    decreases |s|
  {
    if c !in s then [s]
    else
      var i := IndexOf(s, c);
      [s[..i]] + SplitAll(s[i + 1..], c)
  }

  /** Inverse of `Split`: the pieces glued back with the separator. */
  function Join(parts: seq<string>, c: char): string
  {
    if |parts| == 0 then ""
    else if |parts| == 1 then parts[0]
    else parts[0] + [c] + Join(parts[1..], c)
  }

  /** Every piece but the last is free of the separator. */
  lemma {:induction false} SplitPiecesFree(s: string, c: char, n: nat)
    ensures forall k :: 0 <= k < |Split(s, c, n)| - 1 ==> c !in Split(s, c, n)[k]
    decreases n
  {
    if n != 0 && c in s {
      var i := IndexOf(s, c);
      SplitPiecesFree(s[i + 1..], c, n - 1);
    }
  }

  /** Splitting loses nothing: joining the pieces restores the input. */
  lemma {:induction false} JoinSplit(s: string, c: char, n: nat)
    ensures Join(Split(s, c, n), c) == s
    decreases n
  {
    if n != 0 && c in s {
      var i := IndexOf(s, c);
      var head, tail := s[..i], s[i + 1..];
      var rest := Split(tail, c, n - 1);
      calc {
        Join(Split(s, c, n), c);
        Join([head] + rest, c);
        { JoinCons(head, rest, c); }
        head + [c] + Join(rest, c);
        { JoinSplit(tail, c, n - 1); }
        head + [c] + tail;
        { CutAt(s, i); }
        s;
      }
    }
  }

  lemma JoinCons(head: string, rest: seq<string>, c: char)
    requires |rest| >= 1
    ensures Join([head] + rest, c) == head + [c] + Join(rest, c)
  {
    assert ([head] + rest)[1..] == rest;
  }

  lemma CutAt(s: string, i: nat)
    requires i < |s|
    ensures s[..i] + [s[i]] + s[i + 1..] == s
  {
  }

  /** Joining n+1 pieces whose first n are free of the separator and then
      splitting with limit n gives the pieces back; the last piece may hold
      the separator. */
  lemma {:induction false} SplitJoin(parts: seq<string>, c: char, n: nat)
    requires |parts| == n + 1
    requires forall k :: 0 <= k < n ==> c !in parts[k]
    ensures Split(Join(parts, c), c, n) == parts
    decreases n
  {
    if n > 0 {
      var tail := Join(parts[1..], c);
      assert Join(parts, c) == parts[0] + [c] + tail;
      SplitFirst(parts[0], tail, c, n);
      SplitJoin(parts[1..], c, n - 1);
      assert parts == [parts[0]] + parts[1..];
    }
  }

  /** One cut at the first separator, when the head holds none. */
  lemma SplitFirst(head: string, tail: string, c: char, n: nat)
    requires c !in head && n > 0
    ensures Split(head + [c] + tail, c, n) == [head] + Split(tail, c, n - 1)
  {
    var s := head + [c] + tail;
    var i := |head|;
    assert s[i] == c;
    assert s[..i] == head;
    assert s[i + 1..] == tail;
    assert IndexOf(s, c) == i;
  }

  /** How many leading characters satisfy `ws`. */
  function LeadingCount(s: string, ws: char -> bool): (n: nat)
    ensures n <= |s|
    ensures forall k :: 0 <= k < n ==> ws(s[k])
    ensures n < |s| ==> !ws(s[n])
  {
    if |s| > 0 && ws(s[0]) then
      var m := LeadingCount(s[1..], ws);
      assert forall k :: 1 <= k <= m ==> s[k] == s[1..][k - 1];
      m + 1
    else 0
  }

  /** How many trailing characters satisfy `ws`. */
  function TrailingCount(s: string, ws: char -> bool): (n: nat)
    ensures n <= |s|
    ensures forall k :: |s| - n <= k < |s| ==> ws(s[k])
    ensures n < |s| ==> !ws(s[|s| - n - 1])
  {
    if |s| > 0 && ws(s[|s| - 1]) then
      var m := TrailingCount(s[..|s| - 1], ws);
      assert forall k :: |s| - 1 - m <= k < |s| - 1 ==> s[k] == s[..|s| - 1][k];
      m + 1
    else 0
  }

  /** Drops leading characters satisfying `ws`. */
  function TrimStart(s: string, ws: char -> bool): (r: string)
    ensures |r| <= |s| && r == s[|s| - |r|..]
    ensures forall k :: 0 <= k < |s| - |r| ==> ws(s[k])
    ensures r != [] ==> !ws(r[0])
  {
    s[LeadingCount(s, ws)..]
  }

  /** Drops trailing characters satisfying `ws`. */
  function TrimEnd(s: string, ws: char -> bool): (r: string)
    ensures |r| <= |s| && r == s[..|r|]
    ensures forall k :: |r| <= k < |s| ==> ws(s[k])
    ensures r != [] ==> !ws(r[|r| - 1])
  {
    s[..|s| - TrailingCount(s, ws)]
  }

  function Trim(s: string, ws: char -> bool): string {
    TrimEnd(TrimStart(s, ws), ws)
  }

  /** Trimming cuts a slice out of the string. */
  lemma TrimSlice(s: string, ws: char -> bool)
    ensures |s| - |TrimStart(s, ws)| + |Trim(s, ws)| <= |s|
    ensures Trim(s, ws) == s[|s| - |TrimStart(s, ws)|..|s| - |TrimStart(s, ws)| + |Trim(s, ws)|]
  {
    var a := TrimStart(s, ws);
    var b := TrimEnd(a, ws);
    assert a[..|b|] == s[|s| - |a|..][..|b|];
  }

  /** Trimming keeps only characters of the string. */
  lemma TrimKeepsMembers(s: string, ws: char -> bool, chars: set<char>)
    requires forall k :: 0 <= k < |s| ==> s[k] in chars
    ensures forall k :: 0 <= k < |Trim(s, ws)| ==> Trim(s, ws)[k] in chars
  {
    var t := Trim(s, ws);
    var off := |s| - |TrimStart(s, ws)|;
    TrimSlice(s, ws);
    forall k | 0 <= k < |t| ensures t[k] in chars {
      assert t[k] == s[off + k];
    }
  }

  /** A trimmed string is empty exactly when every character is blank. */
  lemma TrimEmpty(s: string, ws: char -> bool)
    ensures Trim(s, ws) == [] <==> forall k :: 0 <= k < |s| ==> ws(s[k])
  {
    if Trim(s, ws) == [] {
      assert TrimStart(s, ws) == [];
    }
  }

  /** A string with no blank at either end is its own trim. */
  lemma TrimUnchanged(s: string, ws: char -> bool)
    requires s != [] && !ws(s[0]) && !ws(s[|s| - 1])
    ensures Trim(s, ws) == s
  {
    assert TrimStart(s, ws) == s;
  }

  /** Characters Python's `str.isspace()` accepts (its `strip()` set). */
  predicate IsPyWhitespace(ch: char) {
    ch == '\t' || ch == '\n' || ch == '\U{000B}' || ch == '\U{000C}' || ch == '\r'
    || ('\U{001C}' <= ch <= '\U{001F}') || ch == ' ' || ch == '\U{0085}' || ch == '\U{00A0}'
    || ch == '\U{1680}' || ('\U{2000}' <= ch <= '\U{200A}') || ch == '\U{2028}' || ch == '\U{2029}'
    || ch == '\U{202F}' || ch == '\U{205F}' || ch == '\U{3000}'
  }

  /** Characters with the Unicode White_Space property (Rust's `trim()` set);
      unlike Python it does not include U+001C..U+001F. */
  predicate IsRustWhitespace(ch: char) {
    ch == '\t' || ch == '\n' || ch == '\U{000B}' || ch == '\U{000C}' || ch == '\r'
    || ch == ' ' || ch == '\U{0085}' || ch == '\U{00A0}'
    || ch == '\U{1680}' || ('\U{2000}' <= ch <= '\U{200A}') || ch == '\U{2028}' || ch == '\U{2029}'
    || ch == '\U{202F}' || ch == '\U{205F}' || ch == '\U{3000}'
  }

  /** Python's `s.strip()`. */
  function PyStrip(s: string): string {
    Trim(s, IsPyWhitespace)
  }

  /** Rust's `s.trim()`. */
  function RustTrim(s: string): string {
    Trim(s, IsRustWhitespace)
  }

  function AsciiLowerChar(ch: char): char {
    if 'A' <= ch <= 'Z' then (ch as int + 32) as char else ch
  }

  /** Rust's `to_ascii_lowercase` applied to every character. */
  function AsciiLower(s: string): (r: string)
    ensures |r| == |s|
    ensures forall k :: 0 <= k < |s| ==> r[k] == AsciiLowerChar(s[k])
  {
    if s == [] then [] else [AsciiLowerChar(s[0])] + AsciiLower(s[1..])
  }

  /** `s.replace(c, "")`. */
  function Remove(s: string, c: char): (r: string)
    ensures c !in r
    ensures |r| == |s| - Count(s, c)
  {
    if s == [] then [] else (if s[0] == c then [] else [s[0]]) + Remove(s[1..], c)
  }

  /** Decimal rendering of a natural number. */
  function NatToDecimal(n: nat): (s: string)
    ensures |s| >= 1
    ensures forall k :: 0 <= k < |s| ==> '0' <= s[k] <= '9'
  {
    if n < 10 then [('0' as int + n) as char]
    else NatToDecimal(n / 10) + [('0' as int + n % 10) as char]
  }

  /** Joining two POSIX path parts as Rust's `PathBuf::join` and Python's
      `os.path.join` both do: an absolute part replaces the base, and a
      separator is inserted unless the base is empty or already ends in one. */
  function JoinPath(base: string, part: string): string {
    if StartsWith(part, "/") || base == [] then part
    else if EndsWith(base, "/") then base + part
    else base + "/" + part
  }
}
