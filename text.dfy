/** The Python `str` operations the core relies on. A `string` here is a sequence
    of Unicode scalar values, as a Python `str` is a sequence of code points, so
    lengths and slices agree with Python's. */
module Text {
  import opened Wrappers

  /** `s.startswith(prefix)` */
  predicate StartsWith(s: string, prefix: string) {
    |prefix| <= |s| && s[..|prefix|] == prefix
  }

  /** `sub in s` */
  predicate Contains(s: string, sub: string)
    decreases |s|
  {
    StartsWith(s, sub) || (|s| > 0 && Contains(s[1..], sub))
  }

  /** A witness position makes `sub in s` true. */
  lemma {:induction false} ContainsAt(s: string, sub: string, i: nat)
    requires i + |sub| <= |s| && s[i..i + |sub|] == sub
    ensures Contains(s, sub)
    decreases i
  {
    if i == 0 {
      assert s[..|sub|] == sub;
    } else {
      assert s[1..][i - 1..i - 1 + |sub|] == s[i..i + |sub|];
      ContainsAt(s[1..], sub, i - 1);
    }
  }

  /** `sub in s` is false when `s` holds no character of `sub`'s first character. */
  lemma {:induction false} NotContainsWithoutFirstChar(s: string, sub: string)
    requires |sub| > 0 && sub[0] !in s
    ensures !Contains(s, sub)
    decreases |s|
  {
    if |s| > 0 {
      assert sub[0] !in s[1..] by {
        forall i | 0 <= i < |s[1..]| ensures s[1..][i] != sub[0] { assert s[1..][i] == s[i + 1]; }
      }
      assert s[0] in s;
      NotContainsWithoutFirstChar(s[1..], sub);
    }
  }

  predicate IsDigit(c: char) { '0' <= c <= '9' }

  predicate AllDigits(s: string) { forall i :: 0 <= i < |s| ==> IsDigit(s[i]) }

  /** Python's `str.isspace()` for one character: the Unicode White_Space
      characters that `str.strip()` and `str.split()` treat as separators. */
  predicate IsSpace(c: char) {
    c == ' ' || '\t' <= c <= '\r' || '\U{1c}' <= c <= '\U{1f}' || c == '\U{85}' || c == '\U{a0}'
    || c == '\U{1680}' || '\U{2000}' <= c <= '\U{200a}' || c == '\U{2028}' || c == '\U{2029}'
    || c == '\U{202f}' || c == '\U{205f}' || c == '\U{3000}'
  }

  /** The number of white-space characters `s` starts with. */
  function LeadingSpaces(s: string): (n: nat)
    ensures n <= |s| && (n < |s| ==> !IsSpace(s[n]))
    ensures forall i :: 0 <= i < n ==> IsSpace(s[i])
    decreases |s|
  {
    if |s| > 0 && IsSpace(s[0]) then 1 + LeadingSpaces(s[1..]) else 0
  }

  /** The number of white-space characters `s` ends with. */
  function TrailingSpaces(s: string): (n: nat)
    ensures n <= |s| && (n < |s| ==> !IsSpace(s[|s| - n - 1]))
    ensures forall i :: |s| - n <= i < |s| ==> IsSpace(s[i])
    decreases |s|
  {
    if |s| > 0 && IsSpace(s[|s| - 1]) then 1 + TrailingSpaces(s[..|s| - 1]) else 0
  }

  /** `s.lstrip()` */
  function TrimStart(s: string): (r: string)
    ensures |r| <= |s| && r == s[|s| - |r|..]
    ensures r == [] || !IsSpace(r[0])
    ensures forall i :: 0 <= i < |s| - |r| ==> IsSpace(s[i])
  {
    s[LeadingSpaces(s)..]
  }

  /** `s.rstrip()` */
  function TrimEnd(s: string): (r: string)
    ensures |r| <= |s| && r == s[..|r|]
    ensures r == [] || !IsSpace(r[|r| - 1])
    ensures forall i :: |r| <= i < |s| ==> IsSpace(s[i])
  {
    s[..|s| - TrailingSpaces(s)]
  }

  /** `s.strip()`: `s` without its leading and trailing white space; the
      result neither starts nor ends with white space (`StripSlice` says
      which slice of `s` it is). */
  function Strip(s: string): (r: string)
    ensures |r| <= |s|
    ensures r == [] || (!IsSpace(r[0]) && !IsSpace(r[|r| - 1]))
  {
    TrimStart(TrimEnd(s))
  }

  /** The strip of `s` is the slice of `s` between a run of white space at the
      front and a run of white space at the back. */
  lemma StripSlice(s: string)
    ensures var r := Strip(s);
            var a := |TrimEnd(s)| - |r|;
            0 <= a && a + |r| <= |s| && r == s[a..a + |r|]
            && (forall i :: 0 <= i < a ==> IsSpace(s[i]))
            && (forall i :: a + |r| <= i < |s| ==> IsSpace(s[i]))
  {
  }

  /** Text that neither starts nor ends with white space is its own strip. */
  lemma StripClean(s: string)
    requires s == [] || (!IsSpace(s[0]) && !IsSpace(s[|s| - 1]))
    ensures Strip(s) == s
  {
    assert TrimEnd(s) == s;
  }

  /** `str(i)` has no white space around it. */
  lemma IntToStringClean(i: int)
    ensures Strip(IntToString(i)) == IntToString(i)
  {
    var s := IntToString(i);
    assert IsDigit(s[|s| - 1]) by {
      if i < 0 { assert s[|s| - 1] == NatToString(-i)[|NatToString(-i)| - 1]; }
    }
    StripClean(s);
  }

  /** `s.rstrip(c)` for a one-character argument. */
  function RStrip(s: string, c: char): (r: string)
    ensures |r| <= |s| && r == s[..|r|]
    ensures r == [] || r[|r| - 1] != c
    ensures forall i :: |r| <= i < |s| ==> s[i] == c
    decreases |s|
  {
    if |s| > 0 && s[|s| - 1] == c then RStrip(s[..|s| - 1], c) else s
  }

  /** Appending the stripped character does not change `rstrip`. */
  lemma RStripAppend(s: string, c: char)
    ensures RStrip(s + [c], c) == RStrip(s, c)
  {
    assert (s + [c])[..|s|] == s;
  }

  /** `c.lower()` for Latin and Cyrillic letters; other characters are kept. */
  function LowerChar(c: char): (r: char)
    ensures 'A' <= c <= 'Z' ==> 'a' <= r <= 'z' && r as int - c as int == 'a' as int - 'A' as int
    ensures '\U{410}' <= c <= '\U{42f}' ==> '\U{430}' <= r <= '\U{44f}' && r as int - c as int == 0x20
    ensures '\U{400}' <= c <= '\U{40f}' ==> '\U{450}' <= r <= '\U{45f}' && r as int - c as int == 0x50
    ensures !('A' <= c <= 'Z' || '\U{400}' <= c <= '\U{42f}') ==> r == c
  {
    if 'A' <= c <= 'Z' || '\U{410}' <= c <= '\U{42f}' then (c as int + 32) as char
    else if '\U{400}' <= c <= '\U{40f}' then (c as int + 80) as char
    else c
  }

  /** `s.lower()` */
  function Lower(s: string): (r: string)
    ensures |r| == |s|
    ensures forall i :: 0 <= i < |s| ==> r[i] == LowerChar(s[i])
  {
    seq(|s|, i requires 0 <= i < |s| => LowerChar(s[i]))
  }

  /** `s.split(sep)` for a one-character separator: the pieces between the
      separators, empty pieces included. */
  function Split(s: string, sep: char): (parts: seq<string>)
    ensures |parts| >= 1
    ensures forall i :: 0 <= i < |parts| ==> sep !in parts[i]
    decreases |s|
  {
    if s == [] then [""]
    else
      var rest := Split(s[1..], sep);
      if s[0] == sep then [""] + rest
      else [[s[0]] + rest[0]] + rest[1..]
  }

  /** `sep.join(parts)` */
  function Join(sep: string, parts: seq<string>): string
    decreases |parts|
  {
    if |parts| == 0 then ""
    else if |parts| == 1 then parts[0]
    else parts[0] + sep + Join(sep, parts[1..])
  }

  /** Splitting loses nothing: joining the pieces back gives the text. */
  lemma {:induction false} JoinSplit(s: string, sep: char)
    ensures Join([sep], Split(s, sep)) == s
    decreases |s|
  {
    if s != [] {
      var rest := Split(s[1..], sep);
      JoinSplit(s[1..], sep);
      if s[0] == sep {
        assert s == [sep] + s[1..];
      } else if |rest| == 1 {
        assert s == [s[0]] + s[1..];
      } else {
        assert rest == [rest[0]] + rest[1..];
        assert Join([sep], rest) == rest[0] + [sep] + Join([sep], rest[1..]);
        assert s == [s[0]] + s[1..];
      }
    }
  }

  /** Splitting text with no separator in front of `t`. */
  lemma {:induction false} SplitPrefix(a: string, t: string, sep: char)
    requires sep !in a
    ensures Split(a + t, sep) == [a + Split(t, sep)[0]] + Split(t, sep)[1..]
    decreases |a|
  {
    if a != [] {
      assert (a + t)[1..] == a[1..] + t;
      assert a[0] in a;
      assert sep !in a[1..] by {
        forall i | 0 <= i < |a[1..]| ensures a[1..][i] != sep { assert a[1..][i] == a[i + 1]; }
      }
      SplitPrefix(a[1..], t, sep);
      assert [a[0]] + (a[1..] + Split(t, sep)[0]) == a + Split(t, sep)[0];
    } else {
      var st := Split(t, sep);
      assert a + t == t;
      assert a + st[0] == st[0];
      assert st == [st[0]] + st[1..];
    }
  }

  /** Splitting inverts joining when no piece holds the separator. */
  lemma {:induction false} SplitJoin(parts: seq<string>, sep: char)
    requires |parts| >= 1
    requires forall i :: 0 <= i < |parts| ==> sep !in parts[i]
    ensures Split(Join([sep], parts), sep) == parts
    decreases |parts|
  {
    if |parts| == 1 {
      SplitPrefix(parts[0], "", sep);
      assert parts[0] + "" == parts[0];
    } else {
      var tail := Join([sep], parts[1..]);
      SplitJoin(parts[1..], sep);
      assert Join([sep], parts) == parts[0] + ([sep] + tail);
      SplitPrefix(parts[0], [sep] + tail, sep);
      assert ([sep] + tail)[1..] == tail;
      var st := Split([sep] + tail, sep);
      assert st == [""] + parts[1..];
      assert st[0] == "" && st[1..] == parts[1..];
      assert parts[0] + st[0] == parts[0];
      assert parts == [parts[0]] + parts[1..];
    }
  }

  /** Length of the run of non-white-space characters that starts `s`. */
  function WordLength(s: string): (n: nat)
    ensures n <= |s|
    ensures forall i :: 0 <= i < n ==> !IsSpace(s[i])
    ensures n == |s| || IsSpace(s[n])
    decreases |s|
  {
    if s == [] || IsSpace(s[0]) then 0 else 1 + WordLength(s[1..])
  }

  /** `gaps[0] + words[0] + gaps[1] + ... + words[k-1] + gaps[k]`. */
  function Interleave(gaps: seq<string>, words: seq<string>): string
    requires |gaps| == |words| + 1
    decreases |words|
  {
    if words == [] then gaps[0] else gaps[0] + words[0] + Interleave(gaps[1..], words[1..])
  }

  /** The runs of white space around and between the words of `s`: the first
      and the last may be empty. */
  function Gaps(s: string): (gaps: seq<string>)
    ensures |gaps| >= 1
    ensures forall i, j :: 0 <= i < |gaps| && 0 <= j < |gaps[i]| ==> IsSpace(gaps[i][j])
    ensures s != [] && IsSpace(s[0]) ==> gaps[0] != []
    decreases |s|
  {
    if s == [] then [""]
    else if IsSpace(s[0]) then
      var g := Gaps(s[1..]);
      [[s[0]] + g[0]] + g[1..]
    else [""] + Gaps(s[WordLength(s)..])
  }

  /** Widening the first gap widens the text at its front. */
  lemma InterleaveFront(c: char, gaps: seq<string>, words: seq<string>)
    requires |gaps| == |words| + 1
    ensures Interleave([[c] + gaps[0]] + gaps[1..], words) == [c] + Interleave(gaps, words)
  {
    var g := [[c] + gaps[0]] + gaps[1..];
    assert g[1..] == gaps[1..];
  }

  /** `s.split()` with no argument: the maximal runs of non-white-space, so no
      piece is empty and the result is empty exactly for all-white-space text.
      Put back between the white-space runs `Gaps(s)`, the words give `s`
      again, and only the outer runs may be empty. */
  function SplitWhitespace(s: string): (words: seq<string>)
    ensures forall i :: 0 <= i < |words| ==> words[i] != []
    ensures forall i, j :: 0 <= i < |words| && 0 <= j < |words[i]| ==> !IsSpace(words[i][j])
    ensures words == [] <==> forall i :: 0 <= i < |s| ==> IsSpace(s[i])
    ensures |Gaps(s)| == |words| + 1
    ensures forall i :: 0 < i < |words| ==> Gaps(s)[i] != []
    ensures Interleave(Gaps(s), words) == s
    decreases |s|
  {
    if s == [] then []
    else if IsSpace(s[0]) then
      var r := SplitWhitespace(s[1..]);
      SpaceGap(s, r);
      AllSpaceTail(s);
      r
    else
      var n := WordLength(s);
      var rest := SplitWhitespace(s[n..]);
      WordGap(s, n, rest);
      [s[..n]] + rest
  }

  /** All of `s` is white space exactly when its tail is, given a white first character. */
  lemma AllSpaceTail(s: string)
    requires s != [] && IsSpace(s[0])
    ensures (forall i :: 0 <= i < |s[1..]| ==> IsSpace(s[1..][i])) <==> (forall i :: 0 <= i < |s| ==> IsSpace(s[i]))
  {
    if forall i :: 0 <= i < |s[1..]| ==> IsSpace(s[1..][i]) {
      forall i | 0 <= i < |s| ensures IsSpace(s[i]) { if i > 0 { assert s[i] == s[1..][i - 1]; } }
    }
  }

  /** A leading white-space character joins the first gap. */
  lemma SpaceGap(s: string, words: seq<string>)
    requires s != [] && IsSpace(s[0])
    requires |Gaps(s[1..])| == |words| + 1 && Interleave(Gaps(s[1..]), words) == s[1..]
    requires forall i :: 0 < i < |words| ==> Gaps(s[1..])[i] != []
    ensures |Gaps(s)| == |words| + 1 && Interleave(Gaps(s), words) == s
    ensures forall i :: 0 < i < |words| ==> Gaps(s)[i] != []
  {
    var g := Gaps(s[1..]);
    assert Gaps(s) == [[s[0]] + g[0]] + g[1..];
    InterleaveFront(s[0], g, words);
    assert s == [s[0]] + s[1..];
  }

  /** A leading word is the first word, after an empty first gap. */
  lemma WordGap(s: string, n: nat, words: seq<string>)
    requires s != [] && !IsSpace(s[0]) && n == WordLength(s)
    requires |Gaps(s[n..])| == |words| + 1 && Interleave(Gaps(s[n..]), words) == s[n..]
    requires forall i :: 0 < i < |words| ==> Gaps(s[n..])[i] != []
    requires words != [] ==> n < |s|
    ensures |Gaps(s)| == |words| + 2 && Interleave(Gaps(s), [s[..n]] + words) == s
    ensures forall i :: 0 < i < |words| + 1 ==> Gaps(s)[i] != []
  {
    var g := Gaps(s[n..]);
    GapsOfWord(s);
    InterleaveWord(s[..n], g, words);
    assert s == s[..n] + s[n..];
    if words != [] {
      assert IsSpace(s[n..][0]);
    }
  }

  lemma GapsOfWord(s: string)
    requires s != [] && !IsSpace(s[0])
    ensures Gaps(s) == [""] + Gaps(s[WordLength(s)..])
  {
  }

  /** A word after an empty gap comes first. */
  lemma InterleaveWord(w: string, gaps: seq<string>, words: seq<string>)
    requires |gaps| == |words| + 1
    ensures Interleave([""] + gaps, [w] + words) == w + Interleave(gaps, words)
  {
    assert ([""] + gaps)[1..] == gaps;
    assert ([w] + words)[1..] == words;
  }

  /** Longest prefix of ASCII digits: what a greedy `(\d+)` captures. */
  function LeadingDigits(s: string): (d: string)
    ensures |d| <= |s| && d == s[..|d|] && AllDigits(d)
    ensures |d| == |s| || !IsDigit(s[|d|])
    decreases |s|
  {
    if s != [] && IsDigit(s[0]) then [s[0]] + LeadingDigits(s[1..]) else ""
  }

  function DigitValue(c: char): nat
    requires IsDigit(c)
  {
    c as int - '0' as int
  }

  function DigitChar(d: nat): (c: char)
    requires d < 10
    ensures IsDigit(c) && DigitValue(c) == d
  {
    ('0' as int + d) as char
  }

  /** The number a run of decimal digits denotes. */
  function DigitsValue(s: string): nat
    requires AllDigits(s)
    decreases |s|
  {
    if s == [] then 0 else 10 * DigitsValue(s[..|s| - 1]) + DigitValue(s[|s| - 1])
  }

  /** `str(n)` for a natural number. */
  function NatToString(n: nat): (r: string)
    ensures |r| >= 1 && AllDigits(r)
  {
    if n < 10 then [DigitChar(n)] else NatToString(n / 10) + [DigitChar(n % 10)]
  }

  /** Reading back what `str(n)` wrote gives `n`. */
  lemma {:induction false} NatToStringValue(n: nat)
    ensures DigitsValue(NatToString(n)) == n
  {
    if n >= 10 {
      var r := NatToString(n);
      assert r[..|r| - 1] == NatToString(n / 10);
      NatToStringValue(n / 10);
    }
  }

  /** `str(i)` for any integer. */
  function IntToString(i: int): (r: string)
    ensures |r| >= 1
  {
    if i < 0 then "-" + NatToString(-i) else NatToString(i)
  }

  /** `int(s)` on text that has already been stripped: an optional sign and a
      non-empty run of ASCII digits; anything else raises `ValueError`, here
      `None`. */
  function ParseInt(s: string): Option<int> {
    if |s| >= 2 && (s[0] == '-' || s[0] == '+') && AllDigits(s[1..]) then
      var v: int := DigitsValue(s[1..]);
      Some(if s[0] == '-' then -v else v)
    else if |s| >= 1 && AllDigits(s) then Some(DigitsValue(s))
    else None
  }

  /** `int(str(i)) == i` */
  lemma ParseIntToString(i: int)
    ensures ParseInt(IntToString(i)) == Some(i)
  {
    var s := IntToString(i);
    if i < 0 {
      var d := NatToString(-i);
      NatToStringValue(-i);
      assert s[1..] == d;
      assert |s| >= 2 && s[0] == '-' && AllDigits(s[1..]);
    } else {
      NatToStringValue(i);
      assert IsDigit(s[0]);
      assert !(s[0] == '-' || s[0] == '+');
    }
  }

  /** Text holding a character that is neither a digit nor a sign is not an integer. */
  lemma ParseIntRejects(s: string, k: nat)
    requires k < |s| && !IsDigit(s[k]) && s[k] != '-' && s[k] != '+'
    ensures ParseInt(s) == None
  {
    if k > 0 {
      assert s[1..][k - 1] == s[k];
    }
  }

  /** `url.find(c)` */
  function Find(s: string, c: char): (i: int)
    ensures -1 <= i < |s|
    ensures i >= 0 ==> s[i] == c && c !in s[..i]
    ensures i == -1 ==> c !in s
    decreases |s|
  {
    if s == [] then -1
    else if s[0] == c then 0
    else
      var k := Find(s[1..], c);
      if k == -1 then -1
      else
        assert s[..k + 1] == [s[0]] + s[1..][..k];
        k + 1
  }

  /** The first occurrence of `c` after a prefix free of it. */
  lemma {:induction false} FindFirst(a: string, b: string, c: char)
    requires c !in a
    ensures Find(a + [c] + b, c) == |a|
    decreases |a|
  {
    if a != [] {
      assert a[0] in a;
      assert (a + [c] + b)[1..] == a[1..] + [c] + b;
      assert c !in a[1..] by {
        forall k | 0 <= k < |a[1..]| ensures a[1..][k] == a[k + 1] { }
      }
      FindFirst(a[1..], b, c);
    } else {
      assert a + [c] + b == [c] + b;
    }
  }

}
