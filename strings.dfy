/**
 The Python string built-ins that the installer relies on, stated over `seq<char>`:
 whitespace as `str.isspace` sees it, `str.split()`, `str.strip()`, `str.replace(c, '')`,
 `str.startswith`, `str.split(sep)[0]` and `[-1]`, `'%d' % n`, `posixpath.join` and
 the ordering `<` that `list.sort()` uses on strings.
 */
module Strings {

  /** The characters for which Python's `str.isspace()` holds; `str.split()` and
      `str.strip()` without arguments cut on exactly these. */
  predicate IsSpace(c: char) {
    || ('\U{9}' <= c <= '\U{D}')
    || ('\U{1C}' <= c <= '\U{20}')
    || c == '\U{85}' || c == '\U{A0}' || c == '\U{1680}'
    || ('\U{2000}' <= c <= '\U{200A}')
    || c == '\U{2028}' || c == '\U{2029}' || c == '\U{202F}' || c == '\U{205F}' || c == '\U{3000}'
  }

  predicate AllSpace(s: string) {
    forall i :: 0 <= i < |s| ==> IsSpace(s[i])
  }

  predicate NoSpace(s: string) {
    forall i :: 0 <= i < |s| ==> !IsSpace(s[i])
  }

  /** `s.startswith(prefix)` */
  predicate StartsWith(s: string, prefix: string) {
    |prefix| <= |s| && s[..|prefix|] == prefix
  }

  // ---------------------------------------------------------------------------
  // str.split() with no separator

  /** The longest prefix of `s` that holds no whitespace. */
  function Word(s: string): (w: string)
    ensures |w| <= |s| && w == s[..|w|] && NoSpace(w)
    ensures |w| < |s| ==> IsSpace(s[|w|])
  {
    if s == [] || IsSpace(s[0]) then [] else [s[0]] + Word(s[1..])
  }

  /** `s.split()`: the maximal runs of non-whitespace characters, in order. */
  function Fields(s: string): (r: seq<string>)
    ensures forall i :: 0 <= i < |r| ==> r[i] != [] && NoSpace(r[i])
    ensures r == [] <==> AllSpace(s)
    decreases |s|
  {
    if s == [] then []
    else if IsSpace(s[0]) then
      var r := Fields(s[1..]);
      assert AllSpace(s[1..]) ==> AllSpace(s) by {
        if AllSpace(s[1..]) {
          forall i | 0 <= i < |s| ensures IsSpace(s[i]) {
            if i > 0 { assert s[i] == s[1..][i - 1]; }
          }
        }
      }
      r
    else
      var w := Word(s);
      [w] + Fields(s[|w|..])
  }

  /** `s.split()[-1]`; Python raises IndexError when `s` is all whitespace. */
  function LastField(s: string): (f: string)
    requires !AllSpace(s)
    ensures f != [] && NoSpace(f)
  {
    var r := Fields(s);
    r[|r| - 1]
  }

  lemma {:induction false} WordOfSpaced(a: string, b: string)
    requires exists i :: 0 <= i < |a| && IsSpace(a[i])
    ensures Word(a + b) == Word(a)
    decreases |a|
  {
    if !IsSpace(a[0]) {
      assert (a + b)[1..] == a[1..] + b;
      var i :| 0 <= i < |a| && IsSpace(a[i]);
      assert IsSpace(a[1..][i - 1]);
      WordOfSpaced(a[1..], b);
    }
  }

  lemma {:induction false} WordOfUnspaced(v: string, b: string)
    requires NoSpace(v)
    requires b == [] || IsSpace(b[0])
    ensures Word(v + b) == v
    decreases |v|
  {
    if v != [] {
      assert (v + b)[1..] == v[1..] + b;
      WordOfUnspaced(v[1..], b);
    }
  }

  /** Splitting at a whitespace boundary: the fields of a concatenation whose left
      part ends in whitespace are the fields of the parts, in order. */
  lemma {:induction false} FieldsAppend(a: string, b: string)
    requires a == [] || IsSpace(a[|a| - 1])
    ensures Fields(a + b) == Fields(a) + Fields(b)
    decreases |a|
  {
    if a == [] {
      assert a + b == b;
    } else if IsSpace(a[0]) {
      assert (a + b)[1..] == a[1..] + b;
      FieldsAppend(a[1..], b);
    } else {
      assert IsSpace(a[|a| - 1]);
      WordOfSpaced(a, b);
      var w := Word(a);
      assert w != [] by { assert a[0] == (a + b)[0]; }
      assert |w| < |a|;
      var a' := a[|w|..];
      assert (a + b)[|w|..] == a' + b;
      assert a' != [] && a'[|a'| - 1] == a[|a| - 1];
      FieldsAppend(a', b);
      assert Fields(a) == [w] + Fields(a');
    }
  }

  lemma {:induction false} FieldsOfSpace(s: string)
    requires AllSpace(s)
    ensures Fields(s) == []
  {
  }

  /** A line `pre + v + post`, with `v` a run of non-whitespace standing after a
      whitespace character (or at the start) and only whitespace after it, has `v`
      as its last field. */
  lemma LastFieldOf(pre: string, v: string, post: string)
    requires pre == [] || IsSpace(pre[|pre| - 1])
    requires v != [] && NoSpace(v)
    requires AllSpace(post)
    ensures !AllSpace(pre + v + post)
    ensures LastField(pre + v + post) == v
  {
    var s := pre + v + post;
    assert s == pre + (v + post);
    assert !IsSpace(s[|pre|]);
    FieldsAppend(pre, v + post);
    WordOfUnspaced(v, post);
    assert (v + post)[|v|..] == post;
    FieldsOfSpace(post);
    assert Fields(v + post) == [v];
  }

  // ---------------------------------------------------------------------------
  // str.strip() with no argument

  /** `s.lstrip()`: no whitespace remains at the front. */
  function TrimStart(s: string): (r: string)
    ensures |r| <= |s|
    ensures r == [] || !IsSpace(r[0])
  {
    if s != [] && IsSpace(s[0]) then TrimStart(s[1..]) else s
  }

  /** `s.rstrip()`: no whitespace remains at the back. */
  function TrimEnd(s: string): (r: string)
    ensures |r| <= |s|
    ensures r == [] || !IsSpace(r[|r| - 1])
  {
    if s != [] && IsSpace(s[|s| - 1]) then TrimEnd(s[..|s| - 1]) else s
  }

  /** Trimming the front cuts only whitespace. */
  lemma {:induction false} TrimStartCuts(s: string)
    ensures var r := TrimStart(s);
      r == s[|s| - |r|..] && AllSpace(s[..|s| - |r|])
    decreases |s|
  {
    if s != [] && IsSpace(s[0]) {
      var r := TrimStart(s[1..]);
      TrimStartCuts(s[1..]);
      assert s[..|s| - |r|] == [s[0]] + s[1..][..|s| - 1 - |r|];
    }
  }

  /** Trimming the back cuts only whitespace. */
  lemma {:induction false} TrimEndCuts(s: string)
    ensures var r := TrimEnd(s);
      r == s[..|r|] && AllSpace(s[|r|..])
    decreases |s|
  {
    if s != [] && IsSpace(s[|s| - 1]) {
      var r := TrimEnd(s[..|s| - 1]);
      TrimEndCuts(s[..|s| - 1]);
      assert s[|r|..] == s[..|s| - 1][|r|..] + [s[|s| - 1]];
    }
  }

  /** `s.strip()`: no whitespace remains at either end. */
  function Strip(s: string): (r: string)
    ensures |r| <= |s|
    ensures r == [] || (!IsSpace(r[0]) && !IsSpace(r[|r| - 1]))
  {
    TrimEndCuts(TrimStart(s));
    TrimEnd(TrimStart(s))
  }

  lemma {:induction false} TrimStartPadded(a: string, x: string)
    requires AllSpace(a)
    requires x == [] || !IsSpace(x[0])
    ensures TrimStart(a + x) == x
    decreases |a|
  {
    if a != [] {
      assert (a + x)[1..] == a[1..] + x;
      TrimStartPadded(a[1..], x);
    } else {
      assert a + x == x;
    }
  }

  lemma {:induction false} TrimEndPadded(x: string, b: string)
    requires AllSpace(b)
    requires x == [] || !IsSpace(x[|x| - 1])
    ensures TrimEnd(x + b) == x
    decreases |b|
  {
    if b != [] {
      assert (x + b)[..|x + b| - 1] == x + b[..|b| - 1];
      TrimEndPadded(x, b[..|b| - 1]);
    } else {
      assert x + b == x;
    }
  }

  lemma {:induction false} TrimStartAllSpace(s: string)
    requires AllSpace(s)
    ensures TrimStart(s) == []
    decreases |s|
  {
    if s != [] {
      TrimStartAllSpace(s[1..]);
    }
  }

  /** Stripping gives back exactly the text between whitespace padding on either side. */
  lemma StripPadded(a: string, core: string, b: string)
    requires AllSpace(a) && AllSpace(b)
    requires core == [] || (!IsSpace(core[0]) && !IsSpace(core[|core| - 1]))
    ensures Strip(a + core + b) == core
  {
    if core == [] {
      assert a + core + b == a + b;
      assert AllSpace(a + b) by {
        forall i | 0 <= i < |a + b| ensures IsSpace((a + b)[i]) {
          if i >= |a| { assert (a + b)[i] == b[i - |a|]; }
        }
      }
      TrimStartAllSpace(a + b);
    } else {
      assert a + core + b == a + (core + b);
      TrimStartPadded(a, core + b);
      TrimEndPadded(core, b);
    }
  }

  // ---------------------------------------------------------------------------
  // str.replace(c, '') for a single character c

  /** `s.replace(c, '')`: every occurrence of `c` deleted, nothing else touched. */
  function RemoveChar(s: string, c: char): (r: string)
    ensures c !in r
    ensures |r| <= |s|
    ensures forall x :: x in r <==> x in s && x != c
  {
    if s == [] then []
    else (if s[0] == c then [] else [s[0]]) + RemoveChar(s[1..], c)
  }

  /** Deleting a character distributes over concatenation, so the characters that
      remain keep their order. */
  lemma {:induction false} RemoveCharConcat(a: string, b: string, c: char)
    ensures RemoveChar(a + b, c) == RemoveChar(a, c) + RemoveChar(b, c)
    decreases |a|
  {
    if a == [] {
      assert a + b == b;
    } else {
      var head := if a[0] == c then [] else [a[0]];
      assert (a + b)[0] == a[0] && (a + b)[1..] == a[1..] + b;
      RemoveCharConcat(a[1..], b, c);
      calc {
        RemoveChar(a + b, c);
        head + RemoveChar(a[1..] + b, c);
        head + (RemoveChar(a[1..], c) + RemoveChar(b, c));
        (head + RemoveChar(a[1..], c)) + RemoveChar(b, c);
        RemoveChar(a, c) + RemoveChar(b, c);
      }
    }
  }

  /** A string that does not hold `c` is left as it is. */
  lemma {:induction false} RemoveCharAbsent(s: string, c: char)
    requires c !in s
    ensures RemoveChar(s, c) == s
    decreases |s|
  {
    if s != [] {
      assert s[0] in s;
      RemoveCharAbsent(s[1..], c);
      assert s == [s[0]] + s[1..];
    }
  }

  // ---------------------------------------------------------------------------
  // str.split(sep)[0] and str.split(sep)[-1] for a one-character separator

  /** `s.split(sep)[0]`: the text before the first `sep`. */
  function UpTo(s: string, sep: char): (r: string)
    ensures |r| <= |s| && r == s[..|r|] && sep !in r
    ensures |r| < |s| ==> s[|r|] == sep
  {
    if s == [] || s[0] == sep then [] else [s[0]] + UpTo(s[1..], sep)
  }

  /** `s.split(sep)[-1]`: the text after the last `sep`. */
  function AfterLast(s: string, sep: char): (r: string)
    ensures |r| <= |s| && r == s[|s| - |r|..] && sep !in r
    ensures |r| < |s| ==> s[|s| - |r| - 1] == sep
  {
    if s == [] || s[|s| - 1] == sep then []
    else
      var r := AfterLast(s[..|s| - 1], sep);
      assert s[|s| - |r| - 1..] == s[..|s| - 1][|s| - 1 - |r|..] + [s[|s| - 1]];
      r + [s[|s| - 1]]
  }

  /** The first component of `d + sep + rest` is `d` when `d` holds no `sep`. */
  lemma UpToPrefix(d: string, sep: char, rest: string)
    requires sep !in d
    ensures UpTo(d + [sep] + rest, sep) == d
  {
    var s := d + [sep] + rest;
    var r := UpTo(s, sep);
    assert s[..|d|] == d && s[|d|] == sep;
  }

  /** The last component of `x + n` is `n` when `n` holds no `sep` and `x` is empty
      or ends with `sep`. */
  lemma AfterLastSuffix(x: string, sep: char, n: string)
    requires sep !in n
    requires x == [] || x[|x| - 1] == sep
    ensures AfterLast(x + n, sep) == n
  {
    var s := x + n;
    var r := AfterLast(s, sep);
    assert s[|x|..] == n;
  }

  // ---------------------------------------------------------------------------
  // posixpath.join(a, b) for two arguments

  /** An absolute second part replaces the first; otherwise the second part follows
      the first, with one `/` added between them unless the first is empty or already
      ends in `/`. */
  function PathJoin(a: string, b: string): (r: string)
    ensures StartsWith(b, "/") ==> r == b
    ensures !StartsWith(b, "/") ==>
      exists x ::
        && r == x + b
        && (x == [] || x[|x| - 1] == '/')
        && (x == a || (x == a + "/" && a != [] && a[|a| - 1] != '/'))
  {
    if StartsWith(b, "/") then b
    else if a == [] || a[|a| - 1] == '/' then a + b
    else
      assert a + "/" + b == (a + "/") + b;
      a + "/" + b
  }

  /** The file name of a joined path: `os.path.join(d, n).split("/")[-1] == n` for a
      name `n` without `/`. */
  lemma FileNameOfJoin(d: string, n: string)
    requires '/' !in n
    ensures AfterLast(PathJoin(d, n), '/') == n
  {
    var x :| PathJoin(d, n) == x + n && (x == [] || x[|x| - 1] == '/');
    AfterLastSuffix(x, '/', n);
  }

  /** A join onto an absolute directory is absolute. */
  lemma JoinAbsolute(d: string, n: string)
    requires StartsWith(d, "/")
    ensures StartsWith(PathJoin(d, n), "/")
  {
  }

  // ---------------------------------------------------------------------------
  // '%d' % n

  function DigitChar(d: nat): (c: char)
    requires d < 10
    ensures '0' <= c <= '9'
  {
    (48 + d) as char
  }

  /** The decimal numeral of `n`, as `'%d' % n` writes it. */
  function NatToString(n: nat): (s: string)
    ensures s != []
    ensures forall i :: 0 <= i < |s| ==> '0' <= s[i] <= '9'
    ensures n >= 10 <==> |s| >= 2
  {
    if n < 10 then [DigitChar(n)] else NatToString(n / 10) + [DigitChar(n % 10)]
  }

  /** Distinct numbers have distinct numerals. */
  lemma {:induction false} NatToStringInjective(a: nat, b: nat)
    requires NatToString(a) == NatToString(b)
    ensures a == b
    decreases a
  {
    var s := NatToString(a);
    if a >= 10 {
      assert b >= 10;
      assert s[..|s| - 1] == NatToString(a / 10) && s[..|s| - 1] == NatToString(b / 10);
      NatToStringInjective(a / 10, b / 10);
      assert s[|s| - 1] == DigitChar(a % 10) == DigitChar(b % 10);
    }
  }

  // ---------------------------------------------------------------------------
  // The ordering `<` of Python strings: code point by code point, a proper prefix first

  predicate LexLess(a: string, b: string)
    decreases |a|
  {
    if a == [] then b != []
    else if b == [] then false
    else if a[0] != b[0] then a[0] < b[0]
    else LexLess(a[1..], b[1..])
  }

  lemma {:induction false} LexLessIrreflexive(a: string)
    ensures !LexLess(a, a)
    decreases |a|
  {
    if a != [] {
      LexLessIrreflexive(a[1..]);
    }
  }

  lemma {:induction false} LexLessTransitive(a: string, b: string, c: string)
    requires LexLess(a, b) && LexLess(b, c)
    ensures LexLess(a, c)
    decreases |a|
  {
    if a != [] && a[0] == b[0] && b[0] == c[0] {
      LexLessTransitive(a[1..], b[1..], c[1..]);
    }
  }

  /** Two different strings are always ordered one way or the other. */
  lemma {:induction false} LexLessTotal(a: string, b: string)
    requires a != b
    ensures LexLess(a, b) || LexLess(b, a)
    decreases |a|
  {
    if a != [] && b != [] && a[0] == b[0] {
      assert a == [a[0]] + a[1..] && b == [b[0]] + b[1..];
      LexLessTotal(a[1..], b[1..]);
    }
  }

  lemma {:induction false} LexLessAsymmetric(a: string, b: string)
    requires LexLess(a, b)
    ensures !LexLess(b, a)
  {
    if LexLess(b, a) {
      LexLessTransitive(a, b, a);
      LexLessIrreflexive(a);
    }
  }
}
