/**
 * The parts of JavaScript's string and number semantics that the program
 * relies on, stated once and shared by every front-end module.
 */
module JsText {
  import opened Wrappers

  /** WhiteSpace and LineTerminator code points: what `trim` removes and `parseInt` skips. */
  predicate IsWhite(c: char) {
    c == '\t' || c == '\n' || c == '\U{000B}' || c == '\U{000C}' || c == '\r' || c == ' '
    || c == '\U{00A0}' || c == '\U{1680}' || ('\U{2000}' <= c <= '\U{200A}')
    || c == '\U{2028}' || c == '\U{2029}' || c == '\U{202F}' || c == '\U{205F}'
    || c == '\U{3000}' || c == '\U{FEFF}'
  }

  predicate AllWhite(s: string) { forall k :: 0 <= k < |s| ==> IsWhite(s[k]) }

  function TrimStart(s: string): (r: string)
    ensures |r| <= |s|
  {
    if s != [] && IsWhite(s[0]) then TrimStart(s[1..]) else s
  }

  /** `TrimStart` drops exactly the leading white space. */
  lemma {:induction false} TrimStartShape(s: string)
    ensures var r := TrimStart(s);
      r == s[|s| - |r|..] && (r == [] || !IsWhite(r[0])) && AllWhite(s[..|s| - |r|])
  {
    if s != [] && IsWhite(s[0]) {
      TrimStartShape(s[1..]);
      var r := TrimStart(s);
      assert s[1..][|s| - 1 - |r|..] == s[|s| - |r|..];
      forall k | 0 <= k < |s| - |r| ensures IsWhite(s[k]) {
        if k > 0 { assert s[k] == s[1..][..|s| - 1 - |r|][k - 1]; }
      }
    }
  }

  function TrimEnd(s: string): (r: string)
    ensures |r| <= |s|
  {
    if s != [] && IsWhite(s[|s| - 1]) then TrimEnd(s[..|s| - 1]) else s
  }

  /** `TrimEnd` drops exactly the trailing white space. */
  lemma {:induction false} TrimEndShape(s: string)
    ensures var r := TrimEnd(s);
      r == s[..|r|] && (r == [] || !IsWhite(r[|r| - 1])) && AllWhite(s[|r|..])
  {
    if s != [] && IsWhite(s[|s| - 1]) {
      var u := s[..|s| - 1];
      TrimEndShape(u);
      var r := TrimEnd(s);
      assert u[..|r|] == s[..|r|];
      forall k | |r| <= k < |s| ensures IsWhite(s[k]) {
        if k < |s| - 1 { assert s[k] == u[|r|..][k - |r|]; }
      }
    }
  }

  /** `String.prototype.trim`. */
  function Trim(s: string): string { TrimEnd(TrimStart(s)) }

  /** A string is blank (`s.trim() === ''`) exactly when every character is white space. */
  lemma {:induction false} TrimEmptyIffAllWhite(s: string)
    ensures Trim(s) == [] <==> AllWhite(s)
  {
    var t := TrimStart(s);
    TrimStartShape(s);
    TrimEndShape(t);
    if Trim(s) == [] {
      assert s == s[..|s| - |t|] + t;
      assert t == t[0..] && AllWhite(t);
    }
  }

  /** A string with no white space at either end is its own trim. */
  lemma {:induction false} TrimNoEdges(s: string)
    requires s == [] || (!IsWhite(s[0]) && !IsWhite(s[|s| - 1]))
    ensures Trim(s) == s
  {
    TrimStartShape(s);
  }

  /** ASCII-only `toLowerCase`. */
  function LowerChar(c: char): char {
    if 'A' <= c <= 'Z' then (c as int + 32) as char else c
  }

  function ToLower(s: string): (r: string)
    ensures |r| == |s| && forall k :: 0 <= k < |s| ==> r[k] == LowerChar(s[k])
  {
    seq(|s|, k requires 0 <= k < |s| => LowerChar(s[k]))
  }

  predicate StartsWith(s: string, p: string) { |p| <= |s| && s[..|p|] == p }

  predicate EndsWith(s: string, p: string) { |p| <= |s| && s[|s| - |p|..] == p }

  /** `sub` occurs in `s` at index `j`. */
  predicate IsAt(s: string, sub: string, j: int) {
    0 <= j && j + |sub| <= |s| && s[j..j + |sub|] == sub
  }

  /** `String.prototype.includes`. */
  predicate Contains(s: string, sub: string) {
    exists j :: 0 <= j <= |s| && IsAt(s, sub, j)
  }

  function IndexFrom(s: string, sub: string, i: nat): (r: Option<nat>)
    requires i <= |s|
    decreases |s| - i
    ensures r.Some? ==> i <= r.value && IsAt(s, sub, r.value)
    ensures r.Some? ==> forall j :: i <= j < r.value ==> !IsAt(s, sub, j)
    ensures r.None? ==> forall j :: i <= j <= |s| ==> !IsAt(s, sub, j)
  {
    if IsAt(s, sub, i) then Some(i) else if i == |s| then None else IndexFrom(s, sub, i + 1)
  }

  /** `String.prototype.indexOf`, with -1 as `None`. */
  function IndexOf(s: string, sub: string): (r: Option<nat>)
    ensures r.Some? <==> Contains(s, sub)
    ensures r.Some? ==> IsAt(s, sub, r.value) && forall j :: 0 <= j < r.value ==> !IsAt(s, sub, j)
  {
    IndexFrom(s, sub, 0)
  }

  function LastIndexBelow(s: string, sub: string, i: nat): (r: Option<nat>)
    requires i <= |s|
    ensures r.Some? ==> r.value <= i && IsAt(s, sub, r.value)
    ensures r.Some? ==> forall j :: r.value < j <= i ==> !IsAt(s, sub, j)
    ensures r.None? ==> forall j :: 0 <= j <= i ==> !IsAt(s, sub, j)
  {
    if IsAt(s, sub, i) then Some(i) else if i == 0 then None else LastIndexBelow(s, sub, i - 1)
  }

  /** `String.prototype.lastIndexOf`, with -1 as `None`. */
  function LastIndexOf(s: string, sub: string): (r: Option<nat>)
    ensures r.Some? <==> Contains(s, sub)
    ensures r.Some? ==> IsAt(s, sub, r.value) && forall j :: r.value < j <= |s| ==> !IsAt(s, sub, j)
  {
    LastIndexBelow(s, sub, |s|)
  }

  /** `parts.join(sep)`. */
  function Join(parts: seq<string>, sep: string): string {
    if |parts| == 0 then [] else if |parts| == 1 then parts[0] else parts[0] + sep + Join(parts[1..], sep)
  }

  /** `s.split(sep)` for a one-character separator. */
  function Split(s: string, sep: char): (r: seq<string>)
    ensures |r| >= 1
  {
    if s == [] then [[]]
    else
      var rest := Split(s[1..], sep);
      if s[0] == sep then [[]] + rest else [[s[0]] + rest[0]] + rest[1..]
  }

  /** Joining the pieces of a split with the separator gives the string back. */
  lemma {:induction false} SplitJoin(s: string, sep: char)
    ensures Join(Split(s, sep), [sep]) == s
  {
    if s != [] {
      var rest := Split(s[1..], sep);
      SplitJoin(s[1..], sep);
      if s[0] == sep {
        assert Split(s, sep) == [[]] + rest;
      } else {
        var r := Split(s, sep);
        assert r == [[s[0]] + rest[0]] + rest[1..];
        if |rest| == 1 {
          assert Join(r, [sep]) == [s[0]] + rest[0];
        } else {
          assert r[1..] == rest[1..];
          assert Join(rest, [sep]) == rest[0] + [sep] + Join(rest[1..], [sep]);
        }
      }
    }
  }

  /** A string without the separator splits into itself alone. */
  lemma {:induction false} SplitNoSep(s: string, sep: char)
    requires sep !in s
    ensures Split(s, sep) == [s]
  {
    if s != [] {
      assert s[0] != sep;
      SplitNoSep(s[1..], sep);
      assert [s[0]] + s[1..] == s;
    }
  }

  /** A split has one piece more than the string has separators. */
  lemma {:induction false} SplitCount(s: string, sep: char)
    ensures |Split(s, sep)| == multiset(s)[sep] + 1
  {
    if s != [] {
      SplitCount(s[1..], sep);
      assert s == [s[0]] + s[1..];
      assert multiset(s) == multiset([s[0]]) + multiset(s[1..]);
    }
  }

  /** Splitting `a + sep + t`, where `a` has no separator, puts `a` in front of the pieces of `t`. */
  lemma {:induction false} SplitAfterPiece(a: string, sep: char, t: string)
    requires sep !in a
    ensures Split(a + [sep] + t, sep) == [a] + Split(t, sep)
  {
    if a == [] {
      assert [] + [sep] + t == [sep] + t;
      assert ([sep] + t)[1..] == t;
    } else {
      SplitAfterPiece(a[1..], sep, t);
      assert (a + [sep] + t)[1..] == a[1..] + [sep] + t;
      assert [a[0]] + a[1..] == a;
    }
  }

  /** Splitting a join of pieces free of the separator gives the pieces back. */
  lemma {:induction false} JoinSplit(parts: seq<string>, sep: char)
    requires parts != []
    requires forall k :: 0 <= k < |parts| ==> sep !in parts[k]
    ensures Split(Join(parts, [sep]), sep) == parts
  {
    if |parts| == 1 {
      SplitNoSep(parts[0], sep);
    } else {
      JoinSplit(parts[1..], sep);
      SplitAfterPiece(parts[0], sep, Join(parts[1..], [sep]));
      assert [parts[0]] + parts[1..] == parts;
    }
  }

  /** Lines joined by line breaks split back into the same lines. */
  lemma {:induction false} JoinLinesSplit(lines: seq<string>)
    requires lines != []
    requires forall k :: 0 <= k < |lines| ==> '\n' !in lines[k]
    ensures Split(Join(lines, "\n"), '\n') == lines
  {
    assert "\n" == ['\n'];
    JoinSplit(lines, '\n');
  }

  /** Two blocks of lines without breaks, joined by a line break, split back into all their lines. */
  lemma {:induction false} JoinLinesSplitAppend(a: seq<string>, b: seq<string>)
    requires a != [] && b != []
    requires forall k :: 0 <= k < |a| ==> '\n' !in a[k]
    requires forall k :: 0 <= k < |b| ==> '\n' !in b[k]
    ensures Split(Join(a, "\n") + "\n" + Join(b, "\n"), '\n') == a + b
  {
    JoinAppend(a, b, "\n");
    forall k | 0 <= k < |a + b| ensures '\n' !in (a + b)[k] {
      if k < |a| {
        assert (a + b)[k] == a[k];
      } else {
        assert (a + b)[k] == b[k - |a|];
      }
    }
    JoinLinesSplit(a + b);
  }

  /** A character in neither the pieces nor the separator is not in their join. */
  lemma {:induction false} JoinAvoids(parts: seq<string>, sep: string, c: char)
    requires c !in sep
    requires forall k :: 0 <= k < |parts| ==> c !in parts[k]
    ensures c !in Join(parts, sep)
  {
    if |parts| > 1 {
      JoinAvoids(parts[1..], sep, c);
    }
  }

  /** `!s || s.trim() === ''` for a string. */
  predicate Blank(s: string) { s == [] || Trim(s) == [] }

  /** A string is blank exactly when it is made of white space only. */
  lemma {:induction false} BlankIffWhite(s: string)
    ensures Blank(s) <==> AllWhite(s)
  {
    TrimEmptyIffAllWhite(s);
  }

  /** A trimmed string has no white space at either end. */
  lemma {:induction false} TrimHasNoWhiteEdges(s: string)
    ensures var r := Trim(s); r == [] || (!IsWhite(r[0]) && !IsWhite(r[|r| - 1]))
  {
    var t := TrimStart(s);
    TrimStartShape(s);
    TrimEndShape(t);
  }

  /**
   * `s.replace(new RegExp(pat, 'g'), rep)` for a pattern without regular-expression
   * metacharacters: every non-overlapping occurrence, left to right. The empty
   * pattern matches before every character and at the end.
   */
  function ReplaceAll(s: string, pat: string, rep: string): string
    decreases |s|
  {
    if pat == [] then rep + (if s == [] then [] else [s[0]] + ReplaceAll(s[1..], pat, rep))
    else if s == [] then []
    else if StartsWith(s, pat) then rep + ReplaceAll(s[|pat|..], pat, rep)
    else [s[0]] + ReplaceAll(s[1..], pat, rep)
  }

  /** Replacing a non-empty pattern that does not occur changes nothing. */
  lemma {:induction false} ReplaceAllAbsent(s: string, pat: string, rep: string)
    requires pat != [] && !Contains(s, pat)
    ensures ReplaceAll(s, pat, rep) == s
  {
    if s != [] {
      assert forall k :: 0 <= k <= |s| ==> !IsAt(s, pat, k);
      assert !IsAt(s, pat, 0);
      assert !StartsWith(s, pat);
      forall j | 0 <= j <= |s[1..]| ensures !IsAt(s[1..], pat, j) {
        assert !IsAt(s, pat, j + 1);
        if j + |pat| <= |s[1..]| {
          assert s[j + 1..j + 1 + |pat|] == s[1..][j..j + |pat|];
        }
      }
      ReplaceAllAbsent(s[1..], pat, rep);
    }
  }

  /** A string found inside the middle piece is found in the whole. */
  lemma {:induction false} ContainsInside(a: string, b: string, c: string, l: string)
    requires Contains(b, l)
    ensures Contains(a + b + c, l)
  {
    var j :| 0 <= j <= |b| && IsAt(b, l, j);
    assert (a + b + c)[|a| + j..|a| + j + |l|] == b[j..j + |l|];
    assert IsAt(a + b + c, l, |a| + j);
  }

  /** Every string contains itself. */
  lemma {:induction false} ContainsSelf(l: string)
    ensures Contains(l, l)
  {
    assert IsAt(l, l, 0) by {
      assert l[0..|l|] == l;
    }
  }

  /** What a prefix contains, the whole contains. */
  lemma {:induction false} PrefixContains(s: string, p: string, l: string)
    requires StartsWith(s, p) && Contains(p, l)
    ensures Contains(s, l)
  {
    var j :| 0 <= j <= |p| && IsAt(p, l, j);
    assert s[j..j + |l|] == p[j..j + |l|];
    assert IsAt(s, l, j);
  }

  /** `s.replace(pat, rep)` with a string pattern: only the first occurrence is replaced. */
  function ReplaceFirst(s: string, pat: string, rep: string): string {
    match IndexOf(s, pat)
    case None => s
    case Some(i) => s[..i] + rep + s[i + |pat|..]
  }

  /** Two overlapping occurrences of a pattern: the later one's first character recurs in it. */
  lemma {:induction false} OverlapChar(s: string, pat: string, i: int, j: int)
    requires IsAt(s, pat, i) && IsAt(s, pat, j) && i < j < i + |pat|
    ensures pat[j - i] == pat[0]
  {
    assert s[j] == s[j..j + |pat|][0];
    assert s[j] == s[i..i + |pat|][j - i];
  }

  /**
   * Removing a marker appended to a text that does not hold it gives the text
   * back, provided the marker's first character does not recur in it.
   */
  lemma {:induction false} RemoveAppendedMarker(t: string, marker: string)
    requires marker != [] && !Contains(t, marker)
    requires forall k :: 0 < k < |marker| ==> marker[k] != marker[0]
    ensures ReplaceFirst(t + marker, marker, "") == t
  {
    var s := t + marker;
    assert s[|t|..|t| + |marker|] == marker;
    assert IsAt(s, marker, |t|);
    var i := IndexOf(s, marker).value;
    if i < |t| {
      if i + |marker| <= |t| {
        assert s[i..i + |marker|] == t[i..i + |marker|];
        assert IsAt(t, marker, i);
        assert false;
      } else {
        OverlapChar(s, marker, i, |t|);
        assert false;
      }
    }
    assert s[..|t|] == t;
  }

  /** A concatenation starts with its first half and ends with its second. */
  lemma {:induction false} ConcatEdges(a: string, b: string)
    ensures StartsWith(a + b, a) && EndsWith(a + b, b)
  {
    assert (a + b)[..|a|] == a;
    assert (a + b)[|a|..] == b;
  }

  /** Joining two non-empty lists is joining each and putting the separator between. */
  lemma {:induction false} JoinAppend(a: seq<string>, b: seq<string>, sep: string)
    requires a != [] && b != []
    ensures Join(a + b, sep) == Join(a, sep) + sep + Join(b, sep)
  {
    if |a| == 1 {
      assert (a + b)[0] == a[0];
      assert (a + b)[1..] == b;
    } else {
      assert (a + b)[0] == a[0];
      assert (a + b)[1..] == a[1..] + b;
      JoinAppend(a[1..], b, sep);
    }
  }

  /** Each part appears in the joined string. */
  lemma {:induction false} JoinContains(parts: seq<string>, sep: string, k: int)
    requires 0 <= k < |parts|
    ensures Contains(Join(parts, sep), parts[k])
  {
    if |parts| == 1 {
      assert IsAt(parts[0], parts[0], 0);
    } else if k == 0 {
      assert (parts[0] + sep + Join(parts[1..], sep))[0..|parts[0]|] == parts[0];
      assert IsAt(Join(parts, sep), parts[0], 0);
    } else {
      JoinContains(parts[1..], sep, k - 1);
      assert parts[1..][k - 1] == parts[k];
      ContainsInside(parts[0] + sep, Join(parts[1..], sep), [], parts[k]);
      assert parts[0] + sep + Join(parts[1..], sep) + [] == Join(parts, sep);
    }
  }

  lemma {:induction false} ReplaceAllAtStart(s: string, pat: string, rep: string)
    requires pat != [] && StartsWith(s, pat)
    ensures Contains(ReplaceAll(s, pat, rep), rep)
  {
    var tail := ReplaceAll(s[|pat|..], pat, rep);
    assert ReplaceAll(s, pat, rep) == rep + tail;
    assert (rep + tail)[0..|rep|] == rep;
    assert IsAt(rep + tail, rep, 0);
  }

  lemma {:induction false} ReplaceAllPastStart(s: string, pat: string, rep: string)
    requires pat != [] && s != [] && !StartsWith(s, pat) && Contains(ReplaceAll(s[1..], pat, rep), rep)
    ensures Contains(ReplaceAll(s, pat, rep), rep)
  {
    ContainsInside([s[0]], ReplaceAll(s[1..], pat, rep), [], rep);
    assert [s[0]] + ReplaceAll(s[1..], pat, rep) + [] == ReplaceAll(s, pat, rep);
  }

  /** Replacing a non-empty pattern that occurs leaves the replacement in the text. */
  lemma {:induction false} ReplaceAllIntroduces(s: string, pat: string, rep: string)
    requires pat != [] && Contains(s, pat)
    ensures Contains(ReplaceAll(s, pat, rep), rep)
    decreases |s|
  {
    if StartsWith(s, pat) {
      ReplaceAllAtStart(s, pat, rep);
    } else {
      var j :| 0 <= j <= |s| && IsAt(s, pat, j);
      assert j != 0;
      assert s[1..][j - 1..j - 1 + |pat|] == s[j..j + |pat|];
      assert IsAt(s[1..], pat, j - 1);
      ReplaceAllIntroduces(s[1..], pat, rep);
      ReplaceAllPastStart(s, pat, rep);
    }
  }

  predicate IsDigit(c: char) { '0' <= c <= '9' }

  predicate AllDigits(s: string) { forall k :: 0 <= k < |s| ==> IsDigit(s[k]) }

  function DigitValue(c: char): nat requires IsDigit(c) { c as int - '0' as int }

  function DigitChar(d: nat): (c: char)
    requires d < 10
    ensures IsDigit(c) && DigitValue(c) == d
  {
    ('0' as int + d) as char
  }

  /** Value of a decimal digit string, most significant digit first; 0 for "". */
  function DecValue(d: string): nat
    requires AllDigits(d)
  {
    if d == [] then 0 else DecValue(d[..|d| - 1]) * 10 + DigitValue(d[|d| - 1])
  }

  /** The longest prefix made of decimal digits. */
  function DigitPrefix(s: string): (r: string)
    ensures AllDigits(r) && StartsWith(s, r)
    ensures |r| < |s| ==> !IsDigit(s[|r|])
  {
    if s != [] && IsDigit(s[0]) then [s[0]] + DigitPrefix(s[1..]) else []
  }

  predicate IsHexDigit(c: char) { IsDigit(c) || 'a' <= c <= 'f' || 'A' <= c <= 'F' }

  function HexDigitValue(c: char): nat
    requires IsHexDigit(c)
  {
    if IsDigit(c) then DigitValue(c) else if 'a' <= c <= 'f' then c as int - 'a' as int + 10
    else c as int - 'A' as int + 10
  }

  function HexPrefix(s: string): (r: string)
    ensures StartsWith(s, r) && forall k :: 0 <= k < |r| ==> IsHexDigit(r[k])
  {
    if s != [] && IsHexDigit(s[0]) then [s[0]] + HexPrefix(s[1..]) else []
  }

  function HexValue(d: string): nat
    requires forall k :: 0 <= k < |d| ==> IsHexDigit(d[k])
  {
    if d == [] then 0 else HexValue(d[..|d| - 1]) * 16 + HexDigitValue(d[|d| - 1])
  }

  /**
   * `parseInt(s)` with no radix: leading white space is skipped, then an optional
   * sign, then either `0x`/`0X` and hexadecimal digits or decimal digits; the
   * longest such prefix is read and the rest ignored; no digits give NaN.
   */
  function ParseInt(s: string): Num {
    var t := TrimStart(s);
    var neg := t != [] && t[0] == '-';
    var u := if t != [] && (t[0] == '-' || t[0] == '+') then t[1..] else t;
    if |u| >= 2 && u[0] == '0' && (u[1] == 'x' || u[1] == 'X') then
      var h := HexPrefix(u[2..]);
      var v: int := HexValue(h);
      if h == [] then NaN else Fin(if neg then -v else v)
    else
      var d := DigitPrefix(u);
      var v: int := DecValue(d);
      if d == [] then NaN else Fin(if neg then -v else v)
  }

  /** `parseInt(s, 10)`: as `ParseInt`, but only decimal digits are read. */
  function ParseInt10(s: string): Num {
    var t := TrimStart(s);
    var neg := t != [] && t[0] == '-';
    var u := if t != [] && (t[0] == '-' || t[0] == '+') then t[1..] else t;
    var d := DigitPrefix(u);
    var v: int := DecValue(d);
    if d == [] then NaN else Fin(if neg then -v else v)
  }

  /** A printed non-negative number parses back to itself. */
  lemma {:induction false} ParseInt10NatToString(n: nat)
    ensures ParseInt10(NatToString(n)) == Fin(n)
  {
    var s := NatToString(n);
    assert TrimStart(s) == s;
    DigitPrefixAllDigits(s);
    NatToStringValue(n);
  }

  lemma {:induction false} DigitPrefixAllDigits(s: string)
    requires AllDigits(s)
    ensures DigitPrefix(s) == s
  {
    if s != [] {
      DigitPrefixAllDigits(s[1..]);
      assert [s[0]] + s[1..] == s;
    }
  }

  /**
   * `Number(s)` for the integer literals this program reads: the trimmed text is
   * empty (0) or an optional sign followed by decimal digits; anything else is NaN.
   */
  function NumberOf(s: string): Num {
    var t := Trim(s);
    var neg := t != [] && t[0] == '-';
    var u := if t != [] && (t[0] == '-' || t[0] == '+') then t[1..] else t;
    if t == [] then Fin(0)
    else if u != [] && AllDigits(u) then
      var v: int := DecValue(u);
      Fin(if neg then -v else v)
    else NaN
  }

  /** `String(n)` for a non-negative integer. */
  function NatToString(n: nat): (r: string)
    ensures r != [] && AllDigits(r)
    decreases n
  {
    if n < 10 then [DigitChar(n)] else NatToString(n / 10) + [DigitChar(n % 10)]
  }

  /** Printing a number and reading it back gives the number. */
  lemma {:induction false} NatToStringValue(n: nat)
    ensures DecValue(NatToString(n)) == n
    decreases n
  {
    if n >= 10 {
      NatToStringValue(n / 10);
      var r := NatToString(n);
      assert r[..|r| - 1] == NatToString(n / 10);
    }
  }

  /** Decimal value of a two-digit string. */
  lemma {:induction false} DecValueTwo(a: char, b: char)
    requires IsDigit(a) && IsDigit(b)
    ensures DecValue([a, b]) == DigitValue(a) * 10 + DigitValue(b)
  {
    assert [a, b][..1] == [a];
    assert [a][..0] == [];
    assert DecValue([a]) == DigitValue(a);
  }

  /** `String(n)` for an integer. */
  function IntToString(n: int): (r: string)
    ensures r != []
  {
    if n < 0 then "-" + NatToString(-n) else NatToString(n)
  }

  /**
   * The `%` operator on integers with a positive divisor: the remainder has the
   * sign of the dividend (Dafny's own `%` is Euclidean).
   */
  function JsRem(a: int, b: int): (r: int)
    requires b > 0
    ensures -b < r < b && (a >= 0 ==> r >= 0) && (a <= 0 ==> r <= 0)
  {
    if a >= 0 then a % b else -((-a) % b)
  }

  /** `((a % 1440) + 1440) % 1440`, a minute count wrapped into one day, is the Euclidean remainder. */
  lemma {:induction false} JsRemDay(a: int)
    ensures JsRem(JsRem(a, 1440) + 1440, 1440) == a % 1440
  {
    if a >= 0 {
      var r := a % 1440;
      DayRemainder(r + 1440, 1, r);
    } else {
      var k := (-a) / 1440;
      var t := (-a) % 1440;
      if t == 0 {
        DayRemainder(1440, 1, 0);
        DayRemainder(a, -k, 0);
      } else {
        DayRemainder(1440 - t, 0, 1440 - t);
        DayRemainder(a, -k - 1, 1440 - t);
      }
    }
  }

  /** The remainder of a division by 1440 is the one `r` with `a == 1440 * q + r`. */
  lemma {:induction false} DayRemainder(a: int, q: int, r: int)
    requires a == 1440 * q + r && 0 <= r < 1440
    ensures a % 1440 == r
  {
  }
}
