/** The few Python string and path builtins the downloader relies on, over
    `seq<char>`. Whitespace and case mapping cover the code points below
    U+0080 only. */
module Text {

  /** Python's whitespace for `str.strip`/`str.rstrip` below U+0080: space,
      tab, line feed, vertical tab, form feed, carriage return and the four
      separators U+001C to U+001F. */
  predicate IsSpace(c: char) {
    c == ' ' || c == '\t' || c == '\n' || c == '\r' || c == '\U{000B}' || c == '\U{000C}'
    || ('\U{001C}' <= c <= '\U{001F}')
  }

  /** `s.rstrip()`: the longest prefix of `s` that does not end in whitespace. */
  function RStrip(s: string): (r: string)
    ensures |r| <= |s| && r == s[..|r|]
    ensures r == [] || !IsSpace(r[|r| - 1])
    ensures forall i :: |r| <= i < |s| ==> IsSpace(s[i])
  {
    if s == [] || !IsSpace(s[|s| - 1]) then s else RStrip(s[..|s| - 1])
  }

  /** `s.lstrip()`: the longest suffix of `s` that does not start with whitespace. */
  function LStrip(s: string): (r: string)
    ensures |r| <= |s| && r == s[|s| - |r|..]
    ensures r == [] || !IsSpace(r[0])
    ensures forall i :: 0 <= i < |s| - |r| ==> IsSpace(s[i])
  {
    if s == [] || !IsSpace(s[0]) then s else LStrip(s[1..])
  }

  /** `s.strip()`: whitespace is dropped from both ends. */
  function Strip(s: string): (r: string)
    ensures |r| <= |s|
    ensures r == [] || (!IsSpace(r[0]) && !IsSpace(r[|r| - 1]))
  {
    if s != [] && IsSpace(s[0]) then Strip(s[1..])
    else if s != [] && IsSpace(s[|s| - 1]) then Strip(s[..|s| - 1])
    else s
  }

  /** Stripping both ends at once agrees with `lstrip` after `rstrip`. */
  lemma {:induction false} StripIsBothStrips(s: string)
    ensures Strip(s) == LStrip(RStrip(s))
  {
    if s != [] && IsSpace(s[0]) {
      StripIsBothStrips(s[1..]);
      RStripCons(s);
      if RStrip(s[1..]) != [] {
        assert ([s[0]] + RStrip(s[1..]))[1..] == RStrip(s[1..]);
      }
    } else if s != [] && IsSpace(s[|s| - 1]) {
      StripIsBothStrips(s[..|s| - 1]);
    }
  }

  /** `rstrip` of a string is its first character followed by `rstrip` of
      the rest, unless the rest strips to nothing and that character is
      whitespace too. */
  lemma {:induction false} RStripCons(s: string)
    requires s != []
    ensures RStrip(s[1..]) != [] ==> RStrip(s) == [s[0]] + RStrip(s[1..])
    ensures RStrip(s[1..]) == [] ==> RStrip(s) == (if IsSpace(s[0]) then [] else [s[0]])
  {
    if |s| == 1 {
      assert s[1..] == [];
    } else if IsSpace(s[|s| - 1]) {
      var t := s[..|s| - 1];
      RStripCons(t);
      assert t[0] == s[0];
      assert t[1..] == s[1..][..|s[1..]| - 1];
      assert RStrip(s[1..]) == RStrip(t[1..]);
      assert RStrip(s) == RStrip(t);
    } else {
      assert RStrip(s[1..]) == s[1..];
      assert s == [s[0]] + s[1..];
    }
  }

  /** A string of whitespace strips to nothing. */
  lemma {:induction false} StripAllSpace(s: string)
    requires forall i :: 0 <= i < |s| ==> IsSpace(s[i])
    ensures Strip(s) == []
  {
    if s != [] {
      StripAllSpace(s[1..]);
    }
  }

  /** `s.rstrip(ch)` for one character: drops every trailing `ch`. */
  function RStripChar(s: string, ch: char): (r: string)
    ensures |r| <= |s| && r == s[..|r|]
    ensures r == [] || r[|r| - 1] != ch
    ensures forall i :: |r| <= i < |s| ==> s[i] == ch
  {
    if s == [] || s[|s| - 1] != ch then s else RStripChar(s[..|s| - 1], ch)
  }

  /** Python `s[:n]` for `n >= 0`: at most the first `n` characters. */
  function Prefix(s: string, n: nat): (r: string)
    ensures |r| == if n <= |s| then n else |s|
    ensures r == s[..|r|]
  {
    if n <= |s| then s[..n] else s
  }

  /** Python `s[:-n]` for `n >= 1`: everything but the last `n` characters,
      and the empty string when `s` is not longer than `n`. */
  function DropLast(s: string, n: nat): (r: string)
    requires n >= 1
    ensures |r| == if n < |s| then |s| - n else 0
    ensures r == s[..|r|]
  {
    if n < |s| then s[..|s| - n] else []
  }

  /** `s.endswith(suffix)`. */
  predicate EndsWith(s: string, suffix: string) {
    |suffix| <= |s| && s[|s| - |suffix|..] == suffix
  }

  /** `s.startswith(prefix)`. */
  predicate StartsWith(s: string, prefix: string) {
    |prefix| <= |s| && s[..|prefix|] == prefix
  }

  predicate IsUpper(c: char) { 'A' <= c <= 'Z' }
  predicate IsLower(c: char) { 'a' <= c <= 'z' }

  /** `str.upper` on one character: a lower-case letter moves 32 code points
      down to its capital, every other character is kept. */
  function ToUpper(c: char): (r: char)
    ensures !IsLower(r)
    ensures IsLower(c) ==> IsUpper(r) && r as int == c as int - 32
    ensures !IsLower(c) ==> r == c
  {
    if IsLower(c) then (c as int - 32) as char else c
  }

  /** `str.lower` on one character: a capital moves 32 code points up to its
      lower-case letter, every other character is kept. */
  function ToLower(c: char): (r: char)
    ensures !IsUpper(r)
    ensures IsUpper(c) ==> IsLower(r) && r as int == c as int + 32
    ensures !IsUpper(c) ==> r == c
  {
    if IsUpper(c) then (c as int + 32) as char else c
  }

  /** `s.lower()`. */
  function Lower(s: string): (r: string)
    ensures |r| == |s|
    ensures forall i :: 0 <= i < |s| ==> r[i] == ToLower(s[i])
  {
    if s == [] then [] else [ToLower(s[0])] + Lower(s[1..])
  }

  /** `s.capitalize()`: the first character upper-cased, the rest lower-cased. */
  function Capitalize(s: string): (r: string)
    ensures |r| == |s|
    ensures s != [] ==> r[0] == ToUpper(s[0])
    ensures forall i :: 1 <= i < |s| ==> r[i] == ToLower(s[i])
  {
    if s == [] then [] else [ToUpper(s[0])] + Lower(s[1..])
  }

  /** `s.replace(a, b)` for single characters. */
  function ReplaceChar(s: string, a: char, b: char): (r: string)
    ensures |r| == |s|
    ensures forall i :: 0 <= i < |s| ==> r[i] == if s[i] == a then b else s[i]
  {
    if s == [] then [] else [if s[0] == a then b else s[0]] + ReplaceChar(s[1..], a, b)
  }

  /** `sep.join(parts)`. */
  function Join(sep: string, parts: seq<string>): (r: string)
    ensures parts == [] ==> r == []
    ensures |parts| == 1 ==> r == parts[0]
  {
    if parts == [] then []
    else if |parts| == 1 then parts[0]
    else parts[0] + sep + Join(sep, parts[1..])
  }

  function Digit(d: nat): (c: char)
    requires d < 10
    ensures '0' <= c <= '9'
  {
    ('0' as int + d) as char
  }

  predicate IsDigit(c: char) { '0' <= c <= '9' }

  predicate AllDigits(s: string) {
    forall i :: 0 <= i < |s| ==> IsDigit(s[i])
  }

  /** The number a string of decimal digits denotes, most significant first. */
  function DigitsValue(s: string): nat
    requires AllDigits(s)
  {
    if s == [] then 0 else DigitsValue(s[..|s| - 1]) * 10 + (s[|s| - 1] as int - '0' as int)
  }

  /** `str(n)` for a natural number: decimal digits that denote `n`, with no
      leading zero unless `n` is zero itself. */
  function NatToString(n: nat): (r: string)
    ensures 1 <= |r| && AllDigits(r)
    ensures DigitsValue(r) == n
    ensures n > 0 ==> r[0] != '0'
    ensures n == 0 ==> r == "0"
    ensures |r| == 1 <==> n < 10
  {
    if n < 10 then [Digit(n)]
    else
      var p := NatToString(n / 10);
      assert (p + [Digit(n % 10)])[..|p|] == p;
      p + [Digit(n % 10)]
  }

  /** `str(i)` for any integer: the digits of its magnitude, after a minus
      sign when it is negative. */
  function IntToString(i: int): (r: string)
    ensures 1 <= |r|
    ensures i >= 0 ==> AllDigits(r) && DigitsValue(r) == i && (i > 0 ==> r[0] != '0')
    ensures i < 0 ==> |r| >= 2 && r[0] == '-' && AllDigits(r[1..]) && DigitsValue(r[1..]) == -i && r[1] != '0'
  {
    if i < 0 then
      var m := NatToString(-i);
      assert ("-" + m)[1..] == m;
      "-" + m
    else NatToString(i)
  }

  function Zeros(n: nat): (r: string)
    ensures |r| == n
    ensures forall i :: 0 <= i < n ==> r[i] == '0'
  {
    if n == 0 then [] else Zeros(n - 1) + "0"
  }

  /** `s.zfill(width)`: left-pads with zeros to `width`, after a leading sign. */
  function ZFill(s: string, width: nat): (r: string)
    ensures |r| == if |s| >= width then |s| else width
  {
    if |s| >= width then s
    else if |s| > 0 && (s[0] == '+' || s[0] == '-') then [s[0]] + Zeros(width - |s|) + s[1..]
    else Zeros(width - |s|) + s
  }

  /** `os.path.join(a, b)` on POSIX: an absolute `b` replaces `a`, otherwise a
      single `/` separates them unless `a` is empty or already ends in one. */
  function PathJoin(a: string, b: string): (r: string)
    ensures EndsWith(r, b)
  {
    if StartsWith(b, "/") then b
    else if a == [] || EndsWith(a, "/") then a + b
    else a + "/" + b
  }

  /** Joining a relative, non-empty name gives a path longer than the
      directory, so never the directory itself. */
  lemma PathJoinLonger(a: string, b: string)
    requires b != [] && !StartsWith(b, "/")
    ensures |PathJoin(a, b)| > |a| && PathJoin(a, b) != a
  {
  }

  lemma EndsWithTrans(s: string, m: string, t: string)
    requires EndsWith(s, m) && EndsWith(m, t)
    ensures EndsWith(s, t)
  {
    assert s[|s| - |t|..] == m[|m| - |t|..];
  }

  /** A path ending in `]` is not empty and has no trailing slash. */
  lemma BracketNotSlash(s: string)
    requires EndsWith(s, "]")
    ensures s != [] && !EndsWith(s, "/")
  {
    assert s[|s| - 1] == s[|s| - 1..][0] == ']';
  }

  /** `os.path.join(d, "")` adds one trailing slash to a directory path, and
      stripping slashes gives the directory back. */
  lemma {:induction false} SlashedDirectory(d: string)
    requires d != [] && !EndsWith(d, "/")
    ensures PathJoin(d, "") == d + "/"
    ensures EndsWith(d + "/", "/") && RStripChar(d + "/", '/') == d
  {
    assert d[|d| - 1] != '/' by {
      assert d[|d| - 1..] == [d[|d| - 1]];
    }
    assert (d + "/")[..|d|] == d;
    assert (d + "/")[|d| + 1 - 1..] == "/";
  }

  /** `path.split("/")[-1]`: what follows the last `/`. */
  function LastSegment(path: string): (r: string)
    ensures '/' !in r
    ensures EndsWith(path, r)
    ensures |r| < |path| ==> path[|path| - |r| - 1] == '/'
  {
    if path == [] || path[|path| - 1] == '/' then []
    else LastSegment(path[..|path| - 1]) + [path[|path| - 1]]
  }

  /** The total length of a list of strings. */
  function TotalLength(parts: seq<string>): nat {
    if parts == [] then 0 else |parts[0]| + TotalLength(parts[1..])
  }

  /** The length of a join is the parts' total length plus one separator
      per pair of neighbours. */
  lemma {:induction false} JoinLength(sep: string, parts: seq<string>)
    requires parts != []
    ensures |Join(sep, parts)| == TotalLength(parts) + |sep| * (|parts| - 1)
  {
    if |parts| > 1 {
      JoinLength(sep, parts[1..]);
    } else {
      assert parts[1..] == [];
    }
  }

  /** Joining one more part appends the separator and that part. */
  lemma {:induction false} JoinSnoc(sep: string, parts: seq<string>, x: string)
    requires parts != []
    ensures Join(sep, parts + [x]) == Join(sep, parts) + sep + x
  {
    if |parts| == 1 {
      assert (parts + [x])[1..] == [x];
    } else {
      assert (parts + [x])[1..] == parts[1..] + [x];
      JoinSnoc(sep, parts[1..], x);
    }
  }

  /** `zfill(2)` of `str(i)` for a one-digit `i` puts a zero before it. */
  lemma ZFillOneDigit(i: int)
    requires 0 <= i < 10
    ensures ZFill(IntToString(i), 2) == ['0', Digit(i)]
  {
  }

  /** `zfill(2)` keeps the digits of a number with two or more of them. */
  lemma ZFillManyDigits(i: int)
    requires i >= 10
    ensures ZFill(IntToString(i), 2) == NatToString(i)
  {
  }

  /** A negative one-digit number keeps its sign in front: `str(-3).zfill(2)`
      is already two characters long. */
  lemma ZFillNegative(i: int)
    requires -10 < i < 0
    ensures ZFill(IntToString(i), 2) == ['-', Digit(-i)]
  {
  }

  /** `os.path.dirname(path)` on POSIX: everything up to the last `/`, with
      trailing slashes removed unless it is made only of slashes. */
  function Dirname(path: string): (r: string)
    ensures |r| <= |path| && r == path[..|r|]
  {
    var head := path[..|path| - |LastSegment(path)|];
    if RStripChar(head, '/') != [] then RStripChar(head, '/') else head
  }

  /** The last segment of `a/b` is `b` when `b` has no slash. */
  lemma {:induction false} LastSegmentAfterSlash(a: string, b: string)
    requires '/' !in b
    ensures LastSegment(a + "/" + b) == b
  {
    if b != [] {
      var p := a + "/" + b;
      assert p[..|p| - 1] == a + "/" + b[..|b| - 1];
      LastSegmentAfterSlash(a, b[..|b| - 1]);
      assert b == b[..|b| - 1] + [b[|b| - 1]];
    } else {
      assert a + "/" + b == a + "/";
    }
  }

  /** The directory of a file joined below a directory name is that name. */
  lemma DirnameOfJoin(dir: string, name: string)
    requires dir != [] && !EndsWith(dir, "/") && '/' !in name
    ensures Dirname(PathJoin(dir, name)) == dir
  {
    assert !StartsWith(name, "/") by {
      if |name| >= 1 { assert name[0] != '/'; }
    }
    var p := dir + "/" + name;
    assert PathJoin(dir, name) == p;
    LastSegmentAfterSlash(dir, name);
    assert p[..|p| - |name|] == dir + "/";
    assert (dir + "/")[..|dir|] == dir;
    assert dir[|dir| - 1] != '/' by {
      assert dir[|dir| - 1..] == [dir[|dir| - 1]];
    }
  }
}
