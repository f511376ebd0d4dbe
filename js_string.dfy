// JavaScript string primitives used by the editor's parsers and renderers,
// written as total functions on `string` (= seq<char>).  Each function
// follows the ECMAScript behaviour of the built-in it stands for.

module Wrappers {
  datatype Option<T> = None | Some(value: T)
}

module JsString {
  import opened Wrappers

  /** The characters matched by the regex class `\s` and removed by
    * `String.prototype.trim`: WhiteSpace and LineTerminator. */
  predicate IsSpace(c: char)
  {
    c == ' ' || c == '\t' || c == '\n' || c == '\r' || c == '\U{000B}' || c == '\U{000C}'
    || c == '\U{00A0}' || c == '\U{FEFF}' || c == '\U{1680}'
    || ('\U{2000}' <= c <= '\U{200A}') || c == '\U{2028}' || c == '\U{2029}'
    || c == '\U{202F}' || c == '\U{205F}' || c == '\U{3000}'
  }

  predicate IsDigit(c: char) { '0' <= c <= '9' }

  predicate AllSpace(s: string) { forall i :: 0 <= i < |s| ==> IsSpace(s[i]) }

  /** `s.trimStart()` */
  function TrimStart(s: string): (r: string)
    ensures |r| <= |s| && r == s[|s| - |r|..]
    ensures forall k :: 0 <= k < |s| - |r| ==> IsSpace(s[k])
    ensures r == [] || !IsSpace(r[0])
  {
    if s != [] && IsSpace(s[0]) then TrimStart(s[1..]) else s
  }

  /** `s.trimEnd()` */
  function TrimEnd(s: string): (r: string)
    ensures |r| <= |s| && r == s[..|r|]
    ensures forall k :: |r| <= k < |s| ==> IsSpace(s[k])
    ensures r == [] || !IsSpace(r[|r| - 1])
  {
    if s != [] && IsSpace(s[|s| - 1]) then TrimEnd(s[..|s| - 1]) else s
  }

  /** `r` is the slice of `s` at `a` with only white space around it. */
  predicate TrimmedAt(s: string, r: string, a: int)
  {
    0 <= a <= |s| - |r| && r == s[a..a + |r|]
    && (forall k :: 0 <= k < a ==> IsSpace(s[k]))
    && (forall k :: a + |r| <= k < |s| ==> IsSpace(s[k]))
  }

  /** `s.trim()`: the result is the slice of `s` that starts after its
    * leading white space, neither begins nor ends with white space, and
    * only white space was cut off either side. */
  function Trim(s: string): (r: string)
    ensures TrimmedAt(s, r, |s| - |TrimStart(s)|)
    ensures r == [] || (!IsSpace(r[0]) && !IsSpace(r[|r| - 1]))
  {
    TrimSlice(s);
    TrimEdges(s);
    TrimEnd(TrimStart(s))
  }

  lemma TrimSlice(s: string)
    ensures var t := TrimStart(s); TrimmedAt(s, TrimEnd(t), |s| - |t|)
  {
    var t := TrimStart(s);
    SliceOfSuffix(s, t, TrimEnd(t), |s| - |t|);
  }

  /** A prefix `r` of the suffix `t` of `s` at `a`, with only white space
    * before `t` in `s` and after `r` in `t`, is trimmed out of `s` at `a`. */
  lemma SliceOfSuffix(s: string, t: string, r: string, a: nat)
    requires a <= |s| && t == s[a..] && |r| <= |t| && r == t[..|r|]
    requires forall k :: 0 <= k < a ==> IsSpace(s[k])
    requires forall k :: |r| <= k < |t| ==> IsSpace(t[k])
    ensures TrimmedAt(s, r, a)
  {
    forall k | a + |r| <= k < |s|
      ensures IsSpace(s[k])
    {
      assert s[k] == t[k - a];
    }
  }

  lemma TrimEdges(s: string)
    ensures var r := TrimEnd(TrimStart(s)); r == [] || (!IsSpace(r[0]) && !IsSpace(r[|r| - 1]))
  {
    var t := TrimStart(s);
    var r := TrimEnd(t);
    assert r == [] || r[0] == t[0];
  }

  /** A string that neither begins nor ends with white space is its own trim. */
  lemma TrimUnchanged(s: string)
    requires s == [] || (!IsSpace(s[0]) && !IsSpace(s[|s| - 1]))
    ensures Trim(s) == s
  {
  }

  /** Trimming twice is trimming once. */
  lemma TrimIdempotent(s: string)
    ensures Trim(Trim(s)) == Trim(s)
  {
    TrimUnchanged(Trim(s));
  }

  /** A string is "blank" when `s.trim()` is the empty (falsy) string. */
  predicate IsBlank(s: string) { Trim(s) == [] }

  /** `lines.filter(l => l.trim())`: the non-blank lines, untrimmed, in order. */
  function NonBlank(lines: seq<string>): (r: seq<string>)
    ensures |r| <= |lines|
    ensures forall k :: 0 <= k < |r| ==> !IsBlank(r[k]) && r[k] in lines
  {
    if lines == [] then []
    else (if IsBlank(lines[0]) then [] else [lines[0]]) + NonBlank(lines[1..])
  }

  /** `s.trim()` is empty exactly when every character is white space. */
  lemma BlankAllSpace(s: string)
    ensures IsBlank(s) <==> AllSpace(s)
  {
    var a := |s| - |TrimStart(s)|;
    assert TrimmedAt(s, Trim(s), a);
    if Trim(s) != [] {
      assert s[a] == Trim(s)[0];
    }
  }

  /** No line survives `filter(l => l.trim())` exactly when every line is
    * blank. */
  lemma {:induction false} NonBlankEmpty(lines: seq<string>)
    ensures NonBlank(lines) == [] <==> forall k :: 0 <= k < |lines| ==> IsBlank(lines[k])
    decreases |lines|
  {
    if lines != [] {
      var t := lines[1..];
      NonBlankEmpty(t);
      assert NonBlank(lines) == [] <==> IsBlank(lines[0]) && NonBlank(t) == [];
      if forall k :: 0 <= k < |lines| ==> IsBlank(lines[k]) {
        assert forall k :: 0 <= k < |t| ==> IsBlank(t[k]) by {
          forall k | 0 <= k < |t| ensures IsBlank(t[k]) { assert t[k] == lines[k + 1]; }
        }
      }
      if IsBlank(lines[0]) && NonBlank(t) == [] {
        forall k | 0 <= k < |lines| ensures IsBlank(lines[k]) {
          if k > 0 { assert lines[k] == t[k - 1]; }
        }
      }
    }
  }

  lemma ConsAllSpace(x: char, t: string)
    ensures AllSpace([x] + t) <==> IsSpace(x) && AllSpace(t)
  {
    var h := [x] + t;
    assert h[0] == x;
    assert forall k :: 0 <= k < |t| ==> h[k + 1] == t[k];
  }

  /** Every piece of `ps` is white space only. */
  predicate AllPiecesSpace(ps: seq<string>)
  {
    forall k :: 0 <= k < |ps| ==> AllSpace(ps[k])
  }

  lemma ConsPiecesSpace(p: string, ps: seq<string>)
    ensures AllPiecesSpace([p] + ps) <==> AllSpace(p) && AllPiecesSpace(ps)
  {
    var h := [p] + ps;
    assert h[0] == p;
    assert forall k :: 0 <= k < |ps| ==> h[k + 1] == ps[k];
  }

  /** Splitting on a white-space separator yields only blank pieces exactly
    * when the whole string is white space. */
  lemma {:induction false} SplitAllSpace(s: string, c: char)
    requires IsSpace(c)
    ensures AllPiecesSpace(Split(s, c)) <==> AllSpace(s)
    decreases |s|
  {
    if s != [] {
      var rest := Split(s[1..], c);
      SplitAllSpace(s[1..], c);
      assert s == [s[0]] + s[1..];
      ConsAllSpace(s[0], s[1..]);
      assert rest == [rest[0]] + rest[1..];
      ConsPiecesSpace(rest[0], rest[1..]);
      if s[0] != c {
        var h := [s[0]] + rest[0];
        ConsAllSpace(s[0], rest[0]);
        assert Split(s, c) == [h] + rest[1..];
        ConsPiecesSpace(h, rest[1..]);
      } else {
        assert Split(s, c) == [[]] + rest;
        ConsPiecesSpace([], rest);
      }
    }
  }

  /** A string is blank exactly when no line of it is non-blank. */
  lemma NonBlankLinesEmpty(s: string)
    ensures NonBlank(Split(s, '\n')) == [] <==> IsBlank(s)
  {
    var parts := Split(s, '\n');
    NonBlankEmpty(parts);
    SplitAllSpace(s, '\n');
    BlankAllSpace(s);
    forall k | 0 <= k < |parts| ensures IsBlank(parts[k]) <==> AllSpace(parts[k]) {
      BlankAllSpace(parts[k]);
    }
  }

  /** The first white-space-free position at or after `k`. */
  function SpaceEnd(s: string, k: nat): (e: nat)
    requires k <= |s|
    ensures k <= e <= |s|
    ensures forall j :: k <= j < e ==> IsSpace(s[j])
    ensures e == |s| || !IsSpace(s[e])
    decreases |s| - k
  {
    if k < |s| && IsSpace(s[k]) then SpaceEnd(s, k + 1) else k
  }

  /** The position of the first non-digit at or after `k`. */
  function DigitsEnd(s: string, k: nat): (e: nat)
    requires k <= |s|
    ensures k <= e <= |s|
    ensures forall j :: k <= j < e ==> IsDigit(s[j])
    ensures e == |s| || !IsDigit(s[e])
    decreases |s| - k
  {
    if k < |s| && IsDigit(s[k]) then DigitsEnd(s, k + 1) else k
  }

  predicate StartsWith(s: string, p: string) { |p| <= |s| && s[..|p|] == p }

  predicate EndsWith(s: string, p: string) { |p| <= |s| && s[|s| - |p|..] == p }

  /** `p` occurs in `s` at position `k` */
  predicate OccursAt(s: string, p: string, k: int)
  {
    0 <= k && k + |p| <= |s| && s[k..k + |p|] == p
  }

  /** The middle part of a concatenation occurs right after the first. */
  lemma MiddleOccurs(x: string, y: string, z: string)
    ensures OccursAt(x + y + z, y, |x|)
  {
    var s := x + y + z;
    assert forall k :: 0 <= k < |y| ==> s[|x| + k] == y[k];
    assert s[|x|..|x| + |y|] == y;
  }

  lemma PrefixOccurs(p: string, y: string)
    ensures OccursAt(p + y, p, 0)
  {
    assert (p + y)[..|p|] == p;
  }

  /** An occurrence stays one when text is put in front, shifted by its length. */
  lemma OccursShift(x: string, y: string, p: string, k: int)
    requires OccursAt(y, p, k)
    ensures OccursAt(x + y, p, |x| + k)
  {
    assert (x + y)[|x| + k..|x| + k + |p|] == y[k..k + |p|];
  }

  /** The template `a x b y c` with its two values `x` and `y` written in,
    * each at its place. */
  function Fill(a: string, x: string, b: string, y: string, c: string): (r: string)
    ensures OccursAt(r, x, |a|)
    ensures OccursAt(r, y, |a| + |x| + |b|)
  {
    PrefixOccurs(x, b + (y + c));
    OccursShift(a, x + (b + (y + c)), x, 0);
    PrefixOccurs(y, c);
    OccursShift(b, y + c, y, 0);
    OccursShift(x, b + (y + c), y, |b|);
    OccursShift(a, x + (b + (y + c)), y, |x| + |b|);
    a + (x + (b + (y + c)))
  }

  /** `s.indexOf(p, from)` for `0 <= from`: the first occurrence at or after
    * `from`, or -1 */
  function IndexOf(s: string, p: string, from: nat): (r: int)
    ensures r == -1 || (from <= r && OccursAt(s, p, r))
    ensures forall k :: from <= k && (r == -1 || k < r) ==> !OccursAt(s, p, k)
    decreases |s| - from
  {
    if from + |p| > |s| then
      assert forall k :: from <= k ==> !OccursAt(s, p, k);
      -1
    else if s[from..from + |p|] == p then from
    else IndexOf(s, p, from + 1)
  }

  /** `s.includes(p)` */
  predicate Contains(s: string, p: string) { IndexOf(s, p, 0) >= 0 }

  /** The first occurrence at or after `from` of a character satisfying `c`. */
  function IndexOfChar(s: string, c: char, from: nat): (r: int)
    ensures r == -1 || (from <= r < |s| && s[r] == c)
    ensures forall k :: from <= k < |s| && (r == -1 || k < r) ==> s[k] != c
    decreases |s| - from
  {
    if from >= |s| then -1
    else if s[from] == c then from
    else IndexOfChar(s, c, from + 1)
  }

  /** `s.substring(a, b)`: both indices are clamped to [0, |s|] and swapped
    * when the first exceeds the second. */
  function Substring(s: string, a: int, b: int): (r: string)
    ensures var lo := Clamp(if a <= b then a else b, |s|);
            var hi := Clamp(if a <= b then b else a, |s|);
            lo <= hi && r == s[lo..hi]
  {
    var x := Clamp(a, |s|);
    var y := Clamp(b, |s|);
    if x <= y then s[x..y] else s[y..x]
  }

  function Clamp(x: int, n: nat): (r: nat)
    ensures r <= n
    ensures 0 <= x <= n ==> r == x
  {
    if x < 0 then 0 else if x > n then n else x
  }

  /** `s.split(c)` for a one-character separator. */
  function Split(s: string, c: char): (r: seq<string>)
    ensures |r| >= 1
    ensures forall k :: 0 <= k < |r| ==> c !in r[k]
    decreases |s|
  {
    if s == [] then [[]]
    else
      var rest := Split(s[1..], c);
      if s[0] == c then [[]] + rest
      else [[s[0]] + rest[0]] + rest[1..]
  }

  /** `parts.join(sep)` */
  function Join(parts: seq<string>, sep: string): string
  {
    if |parts| == 0 then []
    else if |parts| == 1 then parts[0]
    else parts[0] + sep + Join(parts[1..], sep)
  }

  /** Splitting then joining with the same separator gives back the input. */
  lemma {:induction false} JoinSplit(s: string, c: char)
    ensures Join(Split(s, c), [c]) == s
    decreases |s|
  {
    if s != [] {
      var rest := Split(s[1..], c);
      JoinSplit(s[1..], c);
      if s[0] == c {
        assert Split(s, c) == [[]] + rest;
        assert Join(Split(s, c), [c]) == [] + [c] + Join(rest, [c]);
      } else {
        var r := Split(s, c);
        assert r == [[s[0]] + rest[0]] + rest[1..];
        if |rest| == 1 {
          assert Join(r, [c]) == [s[0]] + rest[0];
        } else {
          assert Join(rest, [c]) == rest[0] + [c] + Join(rest[1..], [c]);
          assert r[1..] == rest[1..];
          assert Join(r, [c]) == [s[0]] + rest[0] + [c] + Join(rest[1..], [c]);
        }
      }
    }
  }

  /** Joining separator-free parts and splitting gives back the parts. */
  lemma {:induction false} SplitJoin(parts: seq<string>, c: char)
    requires |parts| >= 1
    requires forall k :: 0 <= k < |parts| ==> c !in parts[k]
    ensures Split(Join(parts, [c]), c) == parts
    decreases |parts|, |parts[0]|
  {
    if |parts| == 1 {
      SplitNoSep(parts[0], c);
    } else if parts[0] == [] {
      var tail := Join(parts[1..], [c]);
      assert Join(parts, [c]) == [c] + tail;
      SplitJoin(parts[1..], c);
      assert ([c] + tail)[1..] == tail;
      assert parts == [[]] + parts[1..];
    } else {
      var p0 := parts[0];
      var shorter := [p0[1..]] + parts[1..];
      assert shorter[1..] == parts[1..];
      assert c !in p0[1..] by { assert forall x :: x in p0[1..] ==> x in p0; }
      SplitJoin(shorter, c);
      var j := Join(parts, [c]);
      assert j == p0 + [c] + Join(parts[1..], [c]);
      assert Join(shorter, [c]) == p0[1..] + [c] + Join(parts[1..], [c]);
      assert j[1..] == Join(shorter, [c]);
      assert j[0] == p0[0] && p0[0] != c;
      assert [p0[0]] + p0[1..] == p0;
    }
  }

  lemma {:induction false} SplitNoSep(s: string, c: char)
    requires c !in s
    ensures Split(s, c) == [s]
    decreases |s|
  {
    if s != [] {
      assert c !in s[1..] by { assert forall x :: x in s[1..] ==> x in s; }
      SplitNoSep(s[1..], c);
      assert s[0] != c;
      assert [s[0]] + s[1..] == s;
    }
  }

  /** Splitting at one separator splits the two sides independently. */
  lemma {:induction false} SplitAppend(a: string, b: string, c: char)
    ensures Split(a + [c] + b, c) == Split(a, c) + Split(b, c)
    decreases |a|
  {
    if a == [] {
      assert a + [c] + b == [c] + b;
      SplitCons(c, b, c);
    } else {
      var t := a[1..] + [c] + b;
      assert a + [c] + b == [a[0]] + t;
      assert a == [a[0]] + a[1..];
      SplitAppend(a[1..], b, c);
      SplitCons(a[0], t, c);
      SplitCons(a[0], a[1..], c);
      ConsSplitAssoc(a[0], c, Split(a[1..], c), Split(b, c));
    }
  }

  /** One unfolding of Split on a string with a known first character. */
  lemma SplitCons(x: char, t: string, c: char)
    ensures var r := Split(t, c);
      Split([x] + t, c) == if x == c then [[]] + r else [[x] + r[0]] + r[1..]
  {
    assert ([x] + t)[1..] == t;
  }

  lemma ConsSplitAssoc(x: char, c: char, ra: seq<string>, rb: seq<string>)
    requires |ra| >= 1
    ensures (if x == c then [[]] + (ra + rb) else [[x] + (ra + rb)[0]] + (ra + rb)[1..])
         == (if x == c then [[]] + ra else [[x] + ra[0]] + ra[1..]) + rb
  {
    if x != c {
      assert (ra + rb)[1..] == ra[1..] + rb;
    }
  }

  /** `s.replace(/pat/g, rep)` for a literal pattern: occurrences are
    * replaced left to right without overlapping. */
  function ReplaceAll(s: string, pat: string, rep: string): string
    requires |pat| > 0
    decreases |s|
  {
    if |s| < |pat| then s
    else if s[..|pat|] == pat then rep + ReplaceAll(s[|pat|..], pat, rep)
    else [s[0]] + ReplaceAll(s[1..], pat, rep)
  }

  /** `s.replace(/\*\*\/g, '')`: bold markers removed. */
  function RemoveBold(s: string): string
  {
    ReplaceAll(s, "**", "")
  }

  predicate HasBold(s: string)
  {
    exists k :: 0 <= k < |s| - 1 && s[k] == '*' && s[k + 1] == '*'
  }

  /** Removing bold markers leaves no `**` behind and never adds characters. */
  lemma {:induction false} RemoveBoldClean(s: string)
    ensures !HasBold(RemoveBold(s))
    ensures |RemoveBold(s)| <= |s|
    ensures s != [] && s[0] != '*' ==> RemoveBold(s) != [] && RemoveBold(s)[0] == s[0]
    decreases |s|
  {
    if |s| >= 2 && s[..2] == "**" {
      RemoveBoldClean(s[2..]);
    } else if |s| >= 2 {
      RemoveBoldClean(s[1..]);
      var t := RemoveBold(s[1..]);
      var r := RemoveBold(s);
      assert r == [s[0]] + t;
      if s[0] == '*' {
        assert s[1] != '*';
      }
      forall k | 0 <= k < |r| - 1 ensures !(r[k] == '*' && r[k + 1] == '*') {
        if k > 0 {
          assert r[k] == t[k - 1] && r[k + 1] == t[k];
        }
      }
    }
  }

  /** Text without `*` is unchanged by bold removal. */
  lemma {:induction false} RemoveBoldNoStar(s: string)
    requires '*' !in s
    ensures RemoveBold(s) == s
    decreases |s|
  {
    if |s| >= 2 {
      assert s[0] != '*';
      assert '*' !in s[1..] by { assert forall x :: x in s[1..] ==> x in s; }
      RemoveBoldNoStar(s[1..]);
    }
  }

  /** `s.replace(/\n/g, '<br>')` */
  function NewlinesToBr(s: string): string
  {
    ReplaceAll(s, "\n", "<br>")
  }

  function UpperChar(c: char): char
  {
    if 'a' <= c <= 'z' then (c as int - 32) as char else c
  }

  function LowerChar(c: char): char
  {
    if 'A' <= c <= 'Z' then (c as int + 32) as char else c
  }

  /** `s.toUpperCase()` restricted to ASCII letters. */
  function ToUpper(s: string): (r: string)
    ensures |r| == |s|
    ensures forall k :: 0 <= k < |s| ==> r[k] == UpperChar(s[k])
  {
    if s == [] then [] else [UpperChar(s[0])] + ToUpper(s[1..])
  }

  function ToLower(s: string): (r: string)
    ensures |r| == |s|
    ensures forall k :: 0 <= k < |s| ==> r[k] == LowerChar(s[k])
  {
    if s == [] then [] else [LowerChar(s[0])] + ToLower(s[1..])
  }

  /** `/\.(e1|e2|...)$/i.test(s)`: `s` ends with a dot and one of the given
    * lower-case extensions, ignoring ASCII case. */
  predicate EndsWithExt(s: string, exts: seq<string>)
  {
    exists k :: 0 <= k < |exts| && EndsWith(ToLower(s), "." + exts[k])
  }

  function DigitChar(d: nat): char
    requires d < 10
  {
    ('0' as int + d) as char
  }

  /** `String(n)` for a natural number: its decimal digits. */
  function NatToString(n: nat): (r: string)
    ensures |r| >= 1
    ensures forall k :: 0 <= k < |r| ==> IsDigit(r[k])
    ensures r[0] == '0' ==> n == 0
    decreases n
  {
    if n < 10 then [DigitChar(n)] else NatToString(n / 10) + [DigitChar(n % 10)]
  }

  /** The value of a string of decimal digits (the inverse of NatToString). */
  function DecimalValue(s: string): nat
    requires forall k :: 0 <= k < |s| ==> IsDigit(s[k])
  {
    if s == [] then 0
    else
      assert IsDigit(s[|s| - 1]);
      10 * DecimalValue(s[..|s| - 1]) + (s[|s| - 1] as int - '0' as int)
  }

  lemma {:induction false} DecimalRoundTrip(n: nat)
    ensures DecimalValue(NatToString(n)) == n
    decreases n
  {
    if n >= 10 {
      DecimalRoundTrip(n / 10);
      var s := NatToString(n);
      assert s[..|s| - 1] == NatToString(n / 10);
    }
  }

  /** `String(n).padStart(2, '0')` */
  function PadStart2(n: nat): string
  {
    var d := NatToString(n);
    if |d| < 2 then "0" + d else d
  }

  /** The padded number has at least two digits and still denotes `n`, so
    * different numbers are always shown differently. */
  lemma PadStart2Denotes(n: nat)
    ensures |PadStart2(n)| >= 2
    ensures forall k :: 0 <= k < |PadStart2(n)| ==> IsDigit(PadStart2(n)[k])
    ensures DecimalValue(PadStart2(n)) == n
  {
    DecimalRoundTrip(n);
    var d := NatToString(n);
    if |d| < 2 {
      LeadingZero(d);
    }
  }

  lemma {:induction false} LeadingZero(d: string)
    requires forall k :: 0 <= k < |d| ==> IsDigit(d[k])
    ensures DecimalValue("0" + d) == DecimalValue(d)
    decreases |d|
  {
    if d != [] {
      var z := "0" + d;
      assert z[..|z| - 1] == "0" + d[..|d| - 1];
      LeadingZero(d[..|d| - 1]);
    }
  }

  /** `s.replace(/(\d+)\\\./, '$1.')`: the backslash of the first `N\.`
    * (a digit run followed by a backslash and a dot) is removed. */
  function FixEscapedOrdinal(s: string): (r: string)
    ensures OrdinalBackslash(s) == -1 ==> r == s
    ensures OrdinalBackslash(s) >= 0 ==>
      var e := OrdinalBackslash(s); r == s[..e] + s[e + 1..]
  {
    var e := OrdinalBackslash(s);
    if e < 0 then s else s[..e] + s[e + 1..]
  }

  /** `s[k]` is the backslash of an `N\.`: a digit, a backslash, a dot. */
  predicate OrdinalAt(s: string, k: int)
  {
    1 <= k && k + 1 < |s| && IsDigit(s[k - 1]) && s[k] == '\\' && s[k + 1] == '.'
  }

  /** The position of the backslash in the first `N\.` of `s`, or -1. */
  function OrdinalBackslash(s: string): (e: int)
    ensures e == -1 || OrdinalAt(s, e)
    ensures forall k :: 0 <= k && (e == -1 || k < e) ==> !OrdinalAt(s, k)
  {
    OrdinalBackslashFrom(s, 1)
  }

  function OrdinalBackslashFrom(s: string, from: nat): (e: int)
    requires from >= 1
    ensures e == -1 || (from <= e && OrdinalAt(s, e))
    ensures forall k :: from <= k && (e == -1 || k < e) ==> !OrdinalAt(s, k)
    decreases |s| - from
  {
    if from + 1 >= |s| then -1
    else if OrdinalAt(s, from) then from
    else OrdinalBackslashFrom(s, from + 1)
  }

  /** The markdown link shape `o t](h)` read off `s`: `o` at the start, `](`
    * at `j` and `)` at `k` split `s[..k + 1]` into its parts. */
  lemma LinkShape(s: string, o: string, j: nat, k: nat)
    requires StartsWith(s, o) && |o| <= j && OccursAt(s, "](", j) && j + 2 <= k < |s| && s[k] == ')'
    ensures s[..k + 1] == o + s[|o|..j] + "](" + s[j + 2..k] + ")"
  {
    assert s[..k + 1] == s[..|o|] + s[|o|..j] + s[j..j + 2] + s[j + 2..k] + [s[k]];
  }

  /** Value lookup in a record, `content?.KEY`. */
  function Get(m: map<string, string>, key: string): Option<string>
  {
    if key in m then Some(m[key]) else None
  }

  /** `content?.KEY || dflt`: a missing or empty value gives the default. */
  function OrElse(m: map<string, string>, key: string, dflt: string): (r: string)
    ensures key in m && m[key] != [] ==> r == m[key]
    ensures (key !in m || m[key] == []) ==> r == dflt
  {
    if key in m && m[key] != [] then m[key] else dflt
  }
}

module HtmlEscape {
  import opened Wrappers

  predicate Special(c: char) { c == '&' || c == '<' || c == '>' || c == '"' || c == '\'' }

  function EscapeChar(c: char): string
  {
    if c == '&' then "&amp;"
    else if c == '<' then "&lt;"
    else if c == '>' then "&gt;"
    else if c == '"' then "&quot;"
    else if c == '\'' then "&#039;"
    else [c]
  }

  /** `_escapeHtml(s)` for a string argument: `& < > " '` become entities,
    * every other character is kept. */
  function Escape(s: string): string
  {
    if s == [] then [] else EscapeChar(s[0]) + Escape(s[1..])
  }

  /** `_escapeHtml(v)`: a value that is not a string gives the empty string. */
  function EscapeValue(v: Option<string>): (r: string)
    ensures v.None? ==> r == []
  {
    match v
    case None => []
    case Some(s) => Escape(s)
  }

  lemma {:induction false} EscapeConcat(a: string, b: string)
    ensures Escape(a + b) == Escape(a) + Escape(b)
    decreases |a|
  {
    if a == [] {
      assert a + b == b;
    } else {
      assert (a + b)[1..] == a[1..] + b;
      assert (a + b)[0] == a[0];
      EscapeConcat(a[1..], b);
    }
  }

  /** The output contains none of `< > " '`; `&` only as the start of an
    * entity. */
  lemma {:induction false} EscapeSafe(s: string)
    ensures forall k :: 0 <= k < |Escape(s)| ==> Escape(s)[k] !in {'<', '>', '"', '\''}
    decreases |s|
  {
    if s != [] {
      EscapeSafe(s[1..]);
      var e := EscapeChar(s[0]);
      var r := Escape(s);
      assert r == e + Escape(s[1..]);
      forall k | 0 <= k < |r| ensures r[k] !in {'<', '>', '"', '\''} {
        if k >= |e| { assert r[k] == Escape(s[1..])[k - |e|]; }
      }
    }
  }

  /** Text without special characters is left as it is. */
  lemma {:induction false} EscapePlain(s: string)
    requires forall k :: 0 <= k < |s| ==> !Special(s[k])
    ensures Escape(s) == s
    decreases |s|
  {
    if s != [] {
      EscapePlain(s[1..]);
    }
  }

  /** Decodes the five entities produced by Escape. */
  function Unescape(s: string): string
    decreases |s|
  {
    if s == [] then []
    else if |s| >= 5 && s[..5] == "&amp;" then "&" + Unescape(s[5..])
    else if |s| >= 4 && s[..4] == "&lt;" then "<" + Unescape(s[4..])
    else if |s| >= 4 && s[..4] == "&gt;" then ">" + Unescape(s[4..])
    else if |s| >= 6 && s[..6] == "&quot;" then "\"" + Unescape(s[6..])
    else if |s| >= 6 && s[..6] == "&#039;" then "'" + Unescape(s[6..])
    else [s[0]] + Unescape(s[1..])
  }

  /** Escaping loses nothing: Unescape recovers the original text. */
  lemma {:induction false} UnescapeEscape(s: string)
    ensures Unescape(Escape(s)) == s
    decreases |s|
  {
    if s != [] {
      UnescapeEscape(s[1..]);
      UnescapeChar(s[0], Escape(s[1..]));
      assert [s[0]] + s[1..] == s;
    }
  }

  lemma UnescapeChar(c: char, t: string)
    ensures Unescape(EscapeChar(c) + t) == [c] + Unescape(t)
  {
    if c == '&' {
      UnescapeEntity("&amp;", '&', t);
    } else if c == '<' {
      UnescapeEntity("&lt;", '<', t);
    } else if c == '>' {
      UnescapeEntity("&gt;", '>', t);
    } else if c == '"' {
      UnescapeEntity("&quot;", '"', t);
    } else if c == '\'' {
      UnescapeEntity("&#039;", '\'', t);
    } else {
      UnescapePlain(c, t);
    }
  }

  /** Any other character decodes to itself. */
  lemma UnescapePlain(c: char, t: string)
    requires c != '&'
    ensures Unescape([c] + t) == [c] + Unescape(t)
  {
    var u := [c] + t;
    assert u[0] == c && u[1..] == t;
    assert |u| >= 4 ==> u[..4] != "&lt;" && u[..4] != "&gt;" by {
      if |u| >= 4 { assert u[..4][0] == c; }
    }
    assert |u| >= 5 ==> u[..5] != "&amp;" by {
      if |u| >= 5 { assert u[..5][0] == c; }
    }
    assert |u| >= 6 ==> u[..6] != "&quot;" && u[..6] != "&#039;" by {
      if |u| >= 6 { assert u[..6][0] == c; }
    }
  }

  /** An entity followed by any text decodes to its character. */
  lemma UnescapeEntity(e: string, c: char, t: string)
    requires (e, c) in {("&amp;", '&'), ("&lt;", '<'), ("&gt;", '>'), ("&quot;", '"'), ("&#039;", '\'')}
    ensures Unescape(e + t) == [c] + Unescape(t)
  {
    var u := e + t;
    assert u[..|e|] == e && u[|e|..] == t;
    assert u[1] == e[1];
  }

  /** Hence escaping is injective. */
  lemma EscapeInjective(a: string, b: string)
    requires Escape(a) == Escape(b)
    ensures a == b
  {
    UnescapeEscape(a);
    UnescapeEscape(b);
  }
}
