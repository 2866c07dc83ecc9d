/**
 * The handful of Python string operations the core relies on, over `string`
 * (a sequence of Unicode scalar values): `str.lower`, `str.strip`,
 * `str.replace`, substring tests, `str.join` and `str(int)`; `Split` is the
 * reference inverse of `join`, not an operation the core calls.
 */
module Text {

  /** Python's `str.isspace`: the characters `str.strip()` removes. */
  const SpaceChars: set<char> := {
    ' ', '\t', '\n', '\U{0b}', '\U{0c}', '\r', '\U{1c}', '\U{1d}', '\U{1e}', '\U{1f}',
    '\U{85}', '\U{a0}', '\U{1680}', '\U{2000}', '\U{2001}', '\U{2002}', '\U{2003}',
    '\U{2004}', '\U{2005}', '\U{2006}', '\U{2007}', '\U{2008}', '\U{2009}', '\U{200a}',
    '\U{2028}', '\U{2029}', '\U{202f}', '\U{205f}', '\U{3000}'}

  predicate IsUpperAscii(c: char) {
    'A' <= c <= 'Z'
  }

  /** `str.lower` on one character, for the ASCII letters only. */
  function LowerChar(c: char): (r: char)
    ensures !IsUpperAscii(r)
    ensures IsUpperAscii(c) ==> 'a' <= r <= 'z' && r as int == c as int + 32
    ensures !IsUpperAscii(c) ==> r == c
  {
    if IsUpperAscii(c) then (c as int + 32) as char else c
  }

  /**
   * `s.lower()`: no upper-case ASCII letter is left, each one becomes its
   * lower-case letter in place, and every other character is kept.
   */
  function Lower(s: string): (r: string)
    ensures |r| == |s|
    ensures forall i :: 0 <= i < |s| ==> !IsUpperAscii(r[i])
    ensures forall i :: 0 <= i < |s| && IsUpperAscii(s[i]) ==> r[i] as int == s[i] as int + 32
    ensures forall i :: 0 <= i < |s| && !IsUpperAscii(s[i]) ==> r[i] == s[i]
    ensures forall i :: 0 <= i < |s| ==> r[i] == LowerChar(s[i])
  {
    seq(|s|, i requires 0 <= i < |s| => LowerChar(s[i]))
  }

  /** Lowering twice is lowering once. */
  lemma LowerIdempotent(s: string)
    ensures Lower(Lower(s)) == Lower(s)
  {
  }

  /** Number of leading characters of `s` that belong to `chars`. */
  function LeadLen(s: string, chars: set<char>): (n: nat)
    ensures n <= |s|
  {
    if |s| > 0 && s[0] in chars then 1 + LeadLen(s[1..], chars) else 0
  }

  /**
   * `s.strip(chars)`: what is left of `s` once every leading and every
   * trailing character that belongs to `chars` is removed.
   */
  function StripBy(s: string, chars: set<char>): (r: string)
    ensures |r| <= |s|
    decreases |s|
  {
    if |s| > 0 && s[0] in chars then StripBy(s[1..], chars)
    else if |s| > 0 && s[|s| - 1] in chars then StripBy(s[..|s| - 1], chars)
    else s
  }

  /**
   * The stripped string is the slice of `s` after its leading run of
   * characters from `chars`, it starts and ends with a character outside
   * `chars`, and only characters from `chars` precede and follow it in `s`.
   */
  predicate StripShape(s: string, chars: set<char>) {
    var a, r := LeadLen(s, chars), StripBy(s, chars);
    && a + |r| <= |s| && r == s[a..a + |r|]
    && (r != [] ==> r[0] !in chars && r[|r| - 1] !in chars)
    && (forall i :: 0 <= i < a ==> s[i] in chars)
    && (forall i :: a + |r| <= i < |s| ==> s[i] in chars)
  }

  lemma {:induction false} StripBySpec(s: string, chars: set<char>)
    ensures StripShape(s, chars)
    decreases |s|
  {
    if |s| > 0 && s[0] in chars {
      StripBySpec(s[1..], chars);
      StripShapeLeading(s, chars);
    } else if |s| > 0 && s[|s| - 1] in chars {
      StripBySpec(s[..|s| - 1], chars);
      StripShapeTrailing(s, chars);
    } else {
      assert LeadLen(s, chars) == 0 && StripBy(s, chars) == s;
      assert s[0..|s|] == s;
    }
  }

  lemma StripShapeLeading(s: string, chars: set<char>)
    requires |s| > 0 && s[0] in chars
    requires StripShape(s[1..], chars)
    ensures StripShape(s, chars)
  {
    var t := s[1..];
    var a, r := LeadLen(s, chars), StripBy(s, chars);
    assert a == 1 + LeadLen(t, chars) && r == StripBy(t, chars);
    SliceOfSlice(s, 1, |s|, a - 1, a - 1 + |r|);
    forall i | 0 <= i < a ensures s[i] in chars {
      if i > 0 {
        assert s[i] == t[i - 1];
      }
    }
    forall i | a + |r| <= i < |s| ensures s[i] in chars {
      assert s[i] == t[i - 1];
    }
  }

  lemma StripShapeTrailing(s: string, chars: set<char>)
    requires |s| > 0 && s[0] !in chars && s[|s| - 1] in chars
    requires StripShape(s[..|s| - 1], chars)
    ensures StripShape(s, chars)
  {
    var n := |s| - 1;
    var t := s[..n];
    var r := StripBy(s, chars);
    assert r == StripBy(t, chars);
    if n > 0 {
      assert t[0] == s[0];
    }
    assert LeadLen(t, chars) == 0 && LeadLen(s, chars) == 0;
    SliceOfSlice(s, 0, n, 0, |r|);
    forall i | |r| <= i < |s| ensures s[i] in chars {
      if i < n {
        assert s[i] == t[i];
      }
    }
  }

  lemma SliceOfSlice(s: string, a: int, b: int, x: int, y: int)
    requires 0 <= a <= b <= |s| && 0 <= x <= y <= b - a
    ensures s[a..b][x..y] == s[a + x..a + y]
  {
    assert forall k :: 0 <= k < y - x ==> s[a..b][x..y][k] == s[a + x + k];
  }

  /** `s.strip()`. */
  function Strip(s: string): string {
    StripBy(s, SpaceChars)
  }

  /** `w` occurs in `s` at index `i`. */
  predicate OccursAt(s: string, w: string, i: int) {
    0 <= i <= |s| - |w| && s[i..i + |w|] == w
  }

  /** Python's `w in s` for strings. */
  predicate Contains(s: string, w: string) {
    exists i :: 0 <= i <= |s| - |w| && OccursAt(s, w, i)
  }

  /**
   * Stripping `s` cannot hide or reveal an occurrence of a word that begins
   * and ends with a non-space character.
   */
  lemma StripKeepsWords(s: string, w: string)
    requires w != [] && w[0] !in SpaceChars && w[|w| - 1] !in SpaceChars
    ensures Contains(Strip(s), w) <==> Contains(s, w)
  {
    if Contains(s, w) {
      var i :| 0 <= i <= |s| - |w| && OccursAt(s, w, i);
      StripFindsWord(s, w, i);
    }
    if Contains(Strip(s), w) {
      var j :| 0 <= j <= |Strip(s)| - |w| && OccursAt(Strip(s), w, j);
      StrippedWordOccurs(s, w, j);
    }
  }

  lemma StripFindsWord(s: string, w: string, i: int)
    requires w != [] && w[0] !in SpaceChars && w[|w| - 1] !in SpaceChars
    requires OccursAt(s, w, i)
    ensures Contains(Strip(s), w)
  {
    var r := Strip(s);
    var a := LeadLen(s, SpaceChars);
    StripBySpec(s, SpaceChars);
    assert s[i] == s[i..i + |w|][0] == w[0];
    assert s[i + |w| - 1] == s[i..i + |w|][|w| - 1] == w[|w| - 1];
    assert a <= i;
    assert i + |w| <= a + |r|;
    SliceOfSlice(s, a, a + |r|, i - a, i - a + |w|);
    assert OccursAt(r, w, i - a);
  }

  lemma StrippedWordOccurs(s: string, w: string, j: int)
    requires OccursAt(Strip(s), w, j)
    ensures Contains(s, w)
  {
    var r := Strip(s);
    var a := LeadLen(s, SpaceChars);
    StripBySpec(s, SpaceChars);
    SliceOfSlice(s, a, a + |r|, j, j + |w|);
    assert OccursAt(s, w, a + j);
  }

  /** `s.replace(pat, rep)`: non-overlapping occurrences, left to right. */
  function ReplaceAll(s: string, pat: string, rep: string): string
    requires pat != []
    decreases |s|
  {
    if |s| < |pat| then s
    else if s[..|pat|] == pat then rep + ReplaceAll(s[|pat|..], pat, rep)
    else [s[0]] + ReplaceAll(s[1..], pat, rep)
  }

  /**
   * The first occurrence of the pattern is replaced by `rep`; the text before
   * it is copied and the scan resumes after it.
   */
  lemma {:induction false} ReplaceAtFirst(s: string, pat: string, rep: string, i: nat)
    requires pat != [] && OccursAt(s, pat, i)
    requires forall j :: 0 <= j < i ==> !OccursAt(s, pat, j)
    ensures ReplaceAll(s, pat, rep) == s[..i] + rep + ReplaceAll(s[i + |pat|..], pat, rep)
    decreases i
  {
    var after := ReplaceAll(s[i + |pat|..], pat, rep);
    if i == 0 {
      ReplaceStep(s, pat, rep);
      assert s[..0] + rep == rep;
    } else {
      var t := s[1..];
      ReplaceStep(s, pat, rep);
      ShiftOccurrences(s, pat, i);
      ReplaceAtFirst(t, pat, rep, i - 1);
      assert t[i - 1 + |pat|..] == s[i + |pat|..];
      assert [s[0]] + t[..i - 1] == s[..i];
      assert [s[0]] + (t[..i - 1] + rep + after) == ([s[0]] + t[..i - 1]) + rep + after;
    }
  }

  /** One step of the scan, at a text at least as long as the pattern. */
  lemma ReplaceStep(s: string, pat: string, rep: string)
    requires pat != [] && |pat| <= |s|
    ensures OccursAt(s, pat, 0) ==> ReplaceAll(s, pat, rep) == rep + ReplaceAll(s[|pat|..], pat, rep)
    ensures !OccursAt(s, pat, 0) ==> ReplaceAll(s, pat, rep) == [s[0]] + ReplaceAll(s[1..], pat, rep)
  {
  }

  /** Dropping the first character shifts every occurrence before `i + 1` one place left. */
  lemma ShiftOccurrences(s: string, pat: string, i: nat)
    requires 0 < i && OccursAt(s, pat, i)
    requires forall j :: 0 <= j < i ==> !OccursAt(s, pat, j)
    ensures OccursAt(s[1..], pat, i - 1)
    ensures forall j :: 0 <= j < i - 1 ==> !OccursAt(s[1..], pat, j)
  {
    var t := s[1..];
    assert t[i - 1..i - 1 + |pat|] == s[i..i + |pat|];
    forall j | 0 <= j < i - 1
      ensures !OccursAt(t, pat, j)
    {
      assert t[j..j + |pat|] == s[j + 1..j + 1 + |pat|];
      assert !OccursAt(s, pat, j + 1);
    }
  }

  /** Replacing a single character removes every occurrence of it. */
  lemma {:induction false} ReplaceCharRemoves(s: string, c: char, rep: string)
    requires c !in rep
    ensures c !in ReplaceAll(s, [c], rep)
    decreases |s|
  {
    if |s| >= 1 {
      if s[..1] == [c] {
        ReplaceCharRemoves(s[1..], c, rep);
      } else {
        ReplaceCharRemoves(s[1..], c, rep);
        assert s[0] != c;
      }
    }
  }

  /** A string without the pattern is left as it is. */
  lemma {:induction false} ReplaceAbsent(s: string, pat: string, rep: string)
    requires pat != [] && !Contains(s, pat)
    ensures ReplaceAll(s, pat, rep) == s
    decreases |s|
  {
    if |s| >= |pat| {
      assert s[0..|pat|] == s[..|pat|];
      assert !OccursAt(s, pat, 0);
      if Contains(s[1..], pat) {
        var i :| 0 <= i <= |s[1..]| - |pat| && OccursAt(s[1..], pat, i);
        assert s[1..][i..i + |pat|] == pat;
        assert s[i + 1..i + 1 + |pat|] == s[1..][i..i + |pat|];
        assert OccursAt(s, pat, i + 1);
      }
      ReplaceAbsent(s[1..], pat, rep);
    }
  }

  /**
   * Replacing one character by another changes exactly the positions that
   * held it.
   */
  lemma {:induction false} ReplaceCharPointwise(s: string, c: char, d: char)
    ensures |ReplaceAll(s, [c], [d])| == |s|
    ensures forall i :: 0 <= i < |s| ==>
              ReplaceAll(s, [c], [d])[i] == (if s[i] == c then d else s[i])
    decreases |s|
  {
    if |s| >= 1 {
      ReplaceCharPointwise(s[1..], c, d);
      assert s[..1] == [c] <==> s[0] == c;
      forall i | 1 <= i < |s| ensures s[1..][i - 1] == s[i] { }
    }
  }

  /**
   * Replacing a character by one that does not occur in `pat` cannot
   * create an occurrence of `pat`.
   */
  lemma ReplaceCharKeepsAbsent(s: string, c: char, d: char, pat: string)
    requires d !in pat && !Contains(s, pat)
    ensures !Contains(ReplaceAll(s, [c], [d]), pat)
  {
    var r := ReplaceAll(s, [c], [d]);
    ReplaceCharPointwise(s, c, d);
    forall i | 0 <= i <= |r| - |pat| ensures !OccursAt(r, pat, i) {
      if OccursAt(r, pat, i) {
        forall k | 0 <= k < |pat| ensures s[i + k] == pat[k] {
          assert r[i + k] == r[i..i + |pat|][k] == pat[k];
        }
        assert s[i..i + |pat|] == pat;
        assert OccursAt(s, pat, i);
      }
    }
  }

  /**
   * Where a replacement output begins with characters of `pat` only, and the
   * replacement text shares no character with `pat`, that output prefix was
   * copied unchanged from the input.
   */
  lemma {:induction false} ReplacePrefixCopied(t: string, pat: string, rep: string, m: nat)
    requires pat != [] && rep != [] && forall k :: 0 <= k < |rep| ==> rep[k] !in pat
    requires m <= |ReplaceAll(t, pat, rep)|
    ensures (forall k :: 0 <= k < m ==> ReplaceAll(t, pat, rep)[k] in pat) ==>
              m <= |t| && t[..m] == ReplaceAll(t, pat, rep)[..m]
    decreases |t|
  {
    if m > 0 && |t| >= |pat| {
      var r := ReplaceAll(t, pat, rep);
      if t[..|pat|] == pat {
        assert r == rep + ReplaceAll(t[|pat|..], pat, rep);
        assert r[0] == rep[0];
      } else {
        var r' := ReplaceAll(t[1..], pat, rep);
        assert r == [t[0]] + r';
        assert forall k :: 0 <= k < m - 1 ==> r'[k] == r[k + 1];
        ReplacePrefixCopied(t[1..], pat, rep, m - 1);
        ConsPrefix(t, r, r', m);
      }
    }
  }

  lemma ConsPrefix(t: string, r: string, r': string, m: nat)
    requires 0 < m <= |r| && |t| > 0 && r == [t[0]] + r'
    ensures (m - 1 <= |t| - 1 && t[1..][..m - 1] == r'[..m - 1]) ==> t[..m] == r[..m]
  {
    if m - 1 <= |t| - 1 && t[1..][..m - 1] == r'[..m - 1] {
      assert t[..m] == [t[0]] + t[1..][..m - 1];
      assert r[..m] == [t[0]] + r'[..m - 1];
    }
  }

  /**
   * Replacing `pat` by a text sharing no character with it leaves no
   * occurrence of `pat` behind.
   */
  lemma {:induction false} ReplaceLeavesNoPattern(s: string, pat: string, rep: string)
    requires pat != [] && rep != [] && forall k :: 0 <= k < |rep| ==> rep[k] !in pat
    ensures !Contains(ReplaceAll(s, pat, rep), pat)
    decreases |s|
  {
    if |s| >= |pat| {
      if s[..|pat|] == pat {
        ReplaceLeavesNoPattern(s[|pat|..], pat, rep);
        NoPatternAfterReplaced(pat, rep, ReplaceAll(s[|pat|..], pat, rep));
      } else {
        var r' := ReplaceAll(s[1..], pat, rep);
        ReplaceLeavesNoPattern(s[1..], pat, rep);
        if |pat| - 1 <= |r'| {
          ReplacePrefixCopied(s[1..], pat, rep, |pat| - 1);
        }
        NoPatternAfterKept(s, pat, r');
      }
    }
  }

  /** The step of the proof above where `s` starts with `pat`. */
  lemma NoPatternAfterReplaced(pat: string, rep: string, r': string)
    requires pat != [] && forall k :: 0 <= k < |rep| ==> rep[k] !in pat
    requires !Contains(r', pat)
    ensures !Contains(rep + r', pat)
  {
    var r := rep + r';
    forall i | 0 <= i <= |r| - |pat| ensures !OccursAt(r, pat, i) {
      if i < |rep| {
        assert r[i] == rep[i];
        assert pat[0] in pat;
      } else {
        assert r[i..i + |pat|] == r'[i - |rep|..i - |rep| + |pat|];
        assert !OccursAt(r', pat, i - |rep|);
      }
    }
  }

  /** The step of the proof above where the first character of `s` is kept. */
  lemma NoPatternAfterKept(s: string, pat: string, r': string)
    requires pat != [] && |s| >= |pat| && s[..|pat|] != pat
    requires !Contains(r', pat)
    requires |pat| - 1 <= |r'| && (forall k :: 0 <= k < |pat| - 1 ==> r'[k] in pat) ==>
               s[1..][..|pat| - 1] == r'[..|pat| - 1]
    ensures !Contains([s[0]] + r', pat)
  {
    var r := [s[0]] + r';
    forall i | 0 <= i <= |r| - |pat| ensures !OccursAt(r, pat, i) {
      if i == 0 {
        KeptNotAtStart(s, pat, r');
      } else {
        assert r[i..i + |pat|] == r'[i - 1..i - 1 + |pat|];
        assert !OccursAt(r', pat, i - 1);
      }
    }
  }

  lemma KeptNotAtStart(s: string, pat: string, r': string)
    requires pat != [] && |s| >= |pat| && s[..|pat|] != pat
    requires |pat| - 1 <= |r'| && (forall k :: 0 <= k < |pat| - 1 ==> r'[k] in pat) ==>
               s[1..][..|pat| - 1] == r'[..|pat| - 1]
    ensures !OccursAt([s[0]] + r', pat, 0)
  {
    var r := [s[0]] + r';
    if |pat| <= |r| {
      assert forall k :: 0 <= k < |pat| - 1 ==> r'[k] == r[k + 1];
      assert s[..|pat|] == [s[0]] + s[1..][..|pat| - 1];
      assert r[..|pat|] == [s[0]] + r'[..|pat| - 1];
    }
  }

  /** `sep.join(parts)`. */
  function Join(sep: string, parts: seq<string>): string {
    if |parts| == 0 then ""
    else if |parts| == 1 then parts[0]
    else parts[0] + sep + Join(sep, parts[1..])
  }

  /** A join starts with its first part. */
  lemma JoinStartsWithFirst(sep: string, parts: seq<string>)
    ensures |parts| > 0 ==> parts[0] <= Join(sep, parts)
  {
  }

  /** A text occurs inside any text built around it. */
  lemma ContainsMiddle(a: string, w: string, b: string)
    ensures Contains(a + w + b, w)
  {
    var t := a + w + b;
    assert t[|a|..|a| + |w|] == w;
    assert OccursAt(t, w, |a|);
  }

  /** An occurrence inside an occurrence is an occurrence. */
  lemma ContainsTrans(s: string, t: string, w: string)
    requires Contains(s, t) && Contains(t, w)
    ensures Contains(s, w)
  {
    var i :| 0 <= i <= |s| - |t| && OccursAt(s, t, i);
    var j :| 0 <= j <= |t| - |w| && OccursAt(t, w, j);
    assert t == s[i..i + |t|];
    SliceOfSlice(s, i, i + |t|, j, j + |w|);
    assert OccursAt(s, w, i + j);
  }

  /** Every part occurs in the join. */
  lemma {:induction false} JoinContainsPart(sep: string, parts: seq<string>, k: nat)
    requires k < |parts|
    ensures Contains(Join(sep, parts), parts[k])
    decreases |parts|
  {
    if |parts| == 1 {
      ContainsMiddle("", parts[0], "");
      assert "" + parts[0] + "" == Join(sep, parts);
    } else {
      var rest := Join(sep, parts[1..]);
      assert Join(sep, parts) == parts[0] + sep + rest;
      if k == 0 {
        ContainsMiddle("", parts[0], sep + rest);
        assert "" + parts[0] + (sep + rest) == Join(sep, parts);
      } else {
        JoinContainsPart(sep, parts[1..], k - 1);
        ContainsMiddle(parts[0] + sep, rest, "");
        assert parts[0] + sep + rest + "" == Join(sep, parts);
        ContainsTrans(Join(sep, parts), rest, parts[k]);
      }
    }
  }

  /** `s.split(sep)` for a one-character separator. */
  function Split(s: string, sep: char): (r: seq<string>)
    ensures |r| >= 1
  {
    if |s| == 0 then [""]
    else
      var rest := Split(s[1..], sep);
      if s[0] == sep then [""] + rest
      else [[s[0]] + rest[0]] + rest[1..]
  }

  lemma {:induction false} SplitAfterPiece(x: string, sep: char, t: string)
    requires sep !in x
    ensures Split(x + [sep] + t, sep) == [x] + Split(t, sep)
    decreases |x|
  {
    if |x| == 0 {
      assert x + [sep] + t == [sep] + t;
      assert ([sep] + t)[1..] == t;
    } else {
      var y := x + [sep] + t;
      assert y[0] == x[0];
      assert y[1..] == x[1..] + [sep] + t;
      SplitAfterPiece(x[1..], sep, t);
      assert [x[0]] + x[1..] == x;
    }
  }

  lemma {:induction false} SplitOfPlain(x: string, sep: char)
    requires sep !in x
    ensures Split(x, sep) == [x]
    decreases |x|
  {
    if |x| > 0 {
      SplitOfPlain(x[1..], sep);
      assert [x[0]] + x[1..] == x;
    }
  }

  /** Splitting undoes joining, when no part holds the separator. */
  lemma {:induction false} SplitJoin(parts: seq<string>, sep: char)
    requires |parts| >= 1
    requires forall k :: 0 <= k < |parts| ==> sep !in parts[k]
    ensures Split(Join([sep], parts), sep) == parts
    decreases |parts|
  {
    if |parts| == 1 {
      SplitOfPlain(parts[0], sep);
    } else {
      SplitJoin(parts[1..], sep);
      SplitAfterPiece(parts[0], sep, Join([sep], parts[1..]));
      assert [parts[0]] + parts[1..] == parts;
    }
  }

  function DigitChar(d: nat): char
    requires d < 10
  {
    ('0' as int + d) as char
  }

  /** `str(n)` for a natural number: decimal digits, no leading zero. */
  function Decimal(n: nat): (r: string)
    ensures |r| >= 1
    ensures forall i :: 0 <= i < |r| ==> '0' <= r[i] <= '9'
    ensures n > 0 ==> r[0] != '0'
  {
    if n < 10 then [DigitChar(n)] else Decimal(n / 10) + [DigitChar(n % 10)]
  }

  /** The number a string of decimal digits denotes, most significant first. */
  function DigitsValue(s: string): int {
    if |s| == 0 then 0 else DigitsValue(s[..|s| - 1]) * 10 + (s[|s| - 1] as int - '0' as int)
  }

  /** The digits `str(n)` prints denote `n`. */
  lemma {:induction false} DecimalValue(n: nat)
    ensures DigitsValue(Decimal(n)) == n
  {
    if n >= 10 {
      var r := Decimal(n);
      assert r[..|r| - 1] == Decimal(n / 10);
      DecimalValue(n / 10);
    }
  }

  /** Length of the leading run of decimal digits of `s`. */
  function DigitRun(s: string): (n: nat)
    ensures n <= |s|
  {
    if |s| > 0 && '0' <= s[0] <= '9' then 1 + DigitRun(s[1..]) else 0
  }

  lemma {:induction false} DigitRunBeforeColon(a: string, x: string)
    requires forall i :: 0 <= i < |a| ==> '0' <= a[i] <= '9'
    requires x != [] && x[0] == ':'
    ensures DigitRun(a + x) == |a|
  {
    if a != [] {
      assert (a + x)[1..] == a[1..] + x;
      DigitRunBeforeColon(a[1..], x);
    }
  }

  /** A run of digits followed by ':' can be read back off the front of a text. */
  lemma DigitsBeforeColon(a: string, x: string, b: string, y: string)
    requires forall i :: 0 <= i < |a| ==> '0' <= a[i] <= '9'
    requires forall i :: 0 <= i < |b| ==> '0' <= b[i] <= '9'
    requires x != [] && x[0] == ':' && y != [] && y[0] == ':'
    requires a + x == b + y
    ensures a == b
  {
    DigitRunBeforeColon(a, x);
    DigitRunBeforeColon(b, y);
    assert a == (a + x)[..|a|];
    assert b == (b + y)[..|b|];
  }

  /** Different numbers print differently. */
  lemma DecimalInjective(n: nat, m: nat)
    requires Decimal(n) == Decimal(m)
    ensures n == m
  {
    DecimalValue(n);
    DecimalValue(m);
  }
}
