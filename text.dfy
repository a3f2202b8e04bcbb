/** The Python string operations the core uses, each with Python's semantics:
    `str.isspace`/`str.strip`, case-insensitive containment, `str.split(sep)`
    and `sep.join`, `str.replace`, `str(n)` for naturals, `s * n`, and the
    "first n characters, then an ellipsis" previews. */
module Text {
  import opened Base

  /** Python's `str.isspace()` for one character. */
  predicate IsSpace(c: char)
  {
    || c == ' ' || c == '\t' || c == '\n' || c == '\r' || c == '\U{B}' || c == '\U{C}'
    || ('\U{1C}' <= c <= '\U{1F}') || c == '\U{85}' || c == '\U{A0}' || c == '\U{1680}'
    || ('\U{2000}' <= c <= '\U{200A}') || c == '\U{2028}' || c == '\U{2029}' || c == '\U{202F}'
    || c == '\U{205F}' || c == '\U{3000}'
  }

  /** A string whose `strip()` is empty: it is falsy after stripping. */
  predicate IsBlank(s: string)
  {
    forall i :: 0 <= i < |s| ==> IsSpace(s[i])
  }

  function TrimStart(s: string): (r: string)
    ensures |r| <= |s| && r == s[|s| - |r|..]
    ensures IsBlank(s[..|s| - |r|])
    ensures r == [] || !IsSpace(r[0])
  {
    if |s| > 0 && IsSpace(s[0]) then
      var r := TrimStart(s[1..]);
      assert s[1..][..|s| - 1 - |r|] == s[1..|s| - |r|];
      r
    else s
  }

  function TrimEnd(s: string): (r: string)
    ensures |r| <= |s| && r == s[..|r|]
    ensures IsBlank(s[|r|..])
    ensures r == [] || !IsSpace(r[|r| - 1])
  {
    if |s| > 0 && IsSpace(s[|s| - 1]) then
      var r := TrimEnd(s[..|s| - 1]);
      assert s[..|s| - 1][|r|..] == s[|r|..|s| - 1];
      assert IsBlank(s[|r|..]) by {
        assert s[|r|..] == s[|r|..|s| - 1] + [s[|s| - 1]];
        BlankSnoc(s[|r|..|s| - 1], s[|s| - 1]);
      }
      r
    else
      s
  }

  lemma BlankSnoc(t: string, c: char)
    requires IsBlank(t) && IsSpace(c)
    ensures IsBlank(t + [c])
  {
    assert forall i :: 0 <= i < |t| ==> (t + [c])[i] == t[i];
  }

  /** Python's `str.strip()`: the string without leading and trailing whitespace. */
  function Strip(s: string): (r: string)
    ensures |r| <= |s|
    ensures r == [] <==> IsBlank(s)
    ensures r != [] ==> !IsSpace(r[0]) && !IsSpace(r[|r| - 1])
  {
    var t := TrimStart(s);
    var r := TrimEnd(t);
    if r == [] then
      assert s == s[..|s| - |t|] + t[..|r|] + t[|r|..];
      r
    else
      assert !IsSpace(t[0]) && t[0] == r[0];
      assert !IsBlank(s) by { assert s[|s| - |t|] == t[0]; }
      r
  }

  /** Case folding used for case-insensitive matching: ASCII letters, the
      Latin-1 capitals and the Turkish capitals, with both Turkish i's
      folding to the Latin `i`. */
  function Fold(c: char): (f: char)
    ensures 'a' <= f <= 'z' ==> 'a' <= c <= 'z' || 'A' <= c <= 'Z' || c == 'İ' || c == 'ı'
  {
    if 'A' <= c <= 'Z' then (c as int + 32) as char
    else if ('À' <= c <= 'Þ') && c != '×' then (c as int + 32) as char
    else if c == 'Ğ' then 'ğ'
    else if c == 'Ş' then 'ş'
    else if c == 'İ' || c == 'ı' then 'i'
    else c
  }

  function Lower(s: string): string
  {
    seq(|s|, i requires 0 <= i < |s| => Fold(s[i]))
  }

  /** `p` occurs in `s` as a contiguous piece (Python's `p in s`). */
  predicate IsInfix(p: string, s: string)
  {
    InfixFrom(p, s, 0)
  }

  /** `p` occurs in `s` starting at `k` or later. */
  predicate InfixFrom(p: string, s: string, k: nat)
    decreases |s| - k
  {
    k + |p| <= |s| && (s[k..k + |p|] == p || InfixFrom(p, s, k + 1))
  }

  lemma IsInfixAt(p: string, s: string, k: nat)
    requires k + |p| <= |s| && s[k..k + |p|] == p
    ensures IsInfix(p, s)
  {
    InfixFromAt(p, s, 0, k);
  }

  lemma {:induction false} InfixFromAt(p: string, s: string, j: nat, k: nat)
    requires j <= k && k + |p| <= |s| && s[k..k + |p|] == p
    ensures InfixFrom(p, s, j)
    decreases k - j
  {
    if j < k {
      InfixFromAt(p, s, j + 1, k);
    }
  }

  lemma IsInfixWitness(p: string, s: string) returns (k: nat)
    requires IsInfix(p, s)
    ensures k + |p| <= |s| && s[k..k + |p|] == p
  {
    k := InfixFromWitness(p, s, 0);
  }

  lemma {:induction false} InfixFromWitness(p: string, s: string, j: nat) returns (k: nat)
    requires InfixFrom(p, s, j)
    ensures j <= k && k + |p| <= |s| && s[k..k + |p|] == p
    decreases |s| - j
  {
    if s[j..j + |p|] == p {
      k := j;
    } else {
      k := InfixFromWitness(p, s, j + 1);
    }
  }

  /** Case-insensitive containment, the way the law names are searched. */
  predicate ContainsIgnoreCase(haystack: string, needle: string)
  {
    IsInfix(Lower(needle), Lower(haystack))
  }

  /** Occurrence is transitive: a piece of a piece of `s` is a piece of `s`. */
  lemma IsInfixTrans(a: string, b: string, c: string)
    requires IsInfix(a, b) && IsInfix(b, c)
    ensures IsInfix(a, c)
  {
    var i := IsInfixWitness(a, b);
    var j := IsInfixWitness(b, c);
    forall x | 0 <= x < |a|
      ensures c[j + i..j + i + |a|][x] == a[x]
    {
      assert a[x] == b[i..i + |a|][x] == b[i + x];
      assert b[i + x] == c[j..j + |b|][i + x];
    }
    assert c[j + i..j + i + |a|] == a;
    IsInfixAt(a, c, j + i);
  }

  /** Case folding commutes with taking a piece. */
  lemma LowerSlice(s: string, k: nat, n: nat)
    requires k + n <= |s|
    ensures Lower(s[k..k + n]) == Lower(s)[k..k + n]
  {
  }

  /** Case-insensitive containment is transitive. */
  lemma ContainsIgnoreCaseTrans(h: string, m: string, n: string)
    requires ContainsIgnoreCase(h, m) && ContainsIgnoreCase(m, n)
    ensures ContainsIgnoreCase(h, n)
  {
    IsInfixTrans(Lower(n), Lower(m), Lower(h));
  }

  /** The first index at or after `k` that is not whitespace, or `|s|`. */
  function SkipSpaces(s: string, k: nat): (r: nat)
    requires k <= |s|
    ensures k <= r <= |s|
    decreases |s| - k
  {
    if k < |s| && IsSpace(s[k]) then SkipSpaces(s, k + 1) else k
  }

  lemma {:induction false} SkipSpacesMeaning(s: string, k: nat)
    requires k <= |s|
    ensures forall i :: k <= i < SkipSpaces(s, k) ==> IsSpace(s[i])
    ensures SkipSpaces(s, k) < |s| ==> !IsSpace(s[SkipSpaces(s, k)])
    decreases |s| - k
  {
    if k < |s| && IsSpace(s[k]) {
      SkipSpacesMeaning(s, k + 1);
    }
  }

  /** The first index at or after `k` that is whitespace, or `|s|`. */
  function WordEnd(s: string, k: nat): (r: nat)
    requires k <= |s|
    ensures k <= r <= |s|
    decreases |s| - k
  {
    if k < |s| && !IsSpace(s[k]) then WordEnd(s, k + 1) else k
  }

  lemma {:induction false} WordEndMeaning(s: string, k: nat)
    requires k <= |s|
    ensures forall i :: k <= i < WordEnd(s, k) ==> !IsSpace(s[i])
    ensures k < |s| && !IsSpace(s[k]) ==> k < WordEnd(s, k)
    decreases |s| - k
  {
    if k < |s| && !IsSpace(s[k]) {
      WordEndMeaning(s, k + 1);
    }
  }

  /** `s.split()[0]`: the first whitespace-separated word of `s`, or `None`
      where Python raises because `s.split()` is empty (a blank `s`). */
  function FirstWord(s: string): Option<string>
  {
    var a := SkipSpaces(s, 0);
    if a == |s| then None else Some(s[a..WordEnd(s, a)])
  }

  /** There is a first word exactly when `s` is not blank; it is a
      non-empty run of non-whitespace characters found in `s`. */
  lemma FirstWordMeaning(s: string)
    ensures FirstWord(s).None? <==> IsBlank(s)
    ensures FirstWord(s).Some? ==> FirstWord(s).value != [] && IsInfix(FirstWord(s).value, s)
    ensures FirstWord(s).Some? ==>
      forall i :: 0 <= i < |FirstWord(s).value| ==> !IsSpace(FirstWord(s).value[i])
    ensures FirstWord(s).Some? ==>
      var w := FirstWord(s).value; var k := SkipSpaces(s, 0);
      && k + |w| <= |s| && s[k..k + |w|] == w
      && IsBlank(s[..k]) && !IsSpace(s[k])
      && (k + |w| == |s| || IsSpace(s[k + |w|]))
  {
    var a := SkipSpaces(s, 0);
    SkipSpacesMeaning(s, 0);
    if a < |s| {
      var e := WordEnd(s, a);
      WordEndMeaning(s, a);
      WordEndStops(s, a);
      assert !IsBlank(s) by { assert !IsSpace(s[a]); }
      IsInfixAt(s[a..e], s, a);
    }
  }

  lemma {:induction false} WordEndStops(s: string, k: nat)
    requires k <= |s|
    ensures WordEnd(s, k) == |s| || IsSpace(s[WordEnd(s, k)])
    decreases |s| - k
  {
    if k < |s| && !IsSpace(s[k]) {
      WordEndStops(s, k + 1);
    }
  }

  /** A blank prefix followed by a non-space (or by nothing) is exactly
      what `SkipSpaces` skips. */
  lemma LeadingBlankRun(s: string, m: nat)
    requires m <= |s| && IsBlank(s[..m]) && (m == |s| || !IsSpace(s[m]))
    ensures m == SkipSpaces(s, 0)
  {
    SkipSpacesMeaning(s, 0);
    assert forall i :: 0 <= i < m ==> s[..m][i] == s[i];
  }

  /** `strip()` removes a blank run at each end and nothing else: the
      result sits in `s` right after its leading whitespace, and only
      whitespace follows it. */
  lemma StripMeaning(s: string)
    ensures var r := Strip(s); var k := SkipSpaces(s, 0);
      && k + |r| <= |s| && s[k..k + |r|] == r
      && IsBlank(s[..k]) && IsBlank(s[k + |r|..])
  {
    var t := TrimStart(s);
    var r := Strip(s);
    var k := SkipSpaces(s, 0);
    var m := |s| - |t|;
    assert m < |s| ==> t[0] == s[m];
    LeadingBlankRun(s, m);
    StripParts(s, k, t, r);
  }

  lemma StripParts(s: string, k: nat, t: string, r: string)
    requires k <= |s| && t == s[k..] && r == TrimEnd(t)
    ensures k + |r| <= |s| && s[k..k + |r|] == r && IsBlank(s[k + |r|..])
  {
    assert s[k..k + |r|] == t[..|r|];
    assert s[k + |r|..] == t[|r|..];
  }

  /** A text containing a name also contains the name's first word. */
  lemma ContainsFirstWord(h: string, name: string)
    requires FirstWord(name).Some? && ContainsIgnoreCase(h, name)
    ensures ContainsIgnoreCase(h, FirstWord(name).value)
  {
    FirstWordMeaning(name);
    var w := FirstWord(name).value;
    var k := IsInfixWitness(w, name);
    LowerSlice(name, k, |w|);
    IsInfixAt(Lower(w), Lower(name), k);
    ContainsIgnoreCaseTrans(h, name, w);
  }

  /** Pieces of `s` between the non-overlapping occurrences of `sep`,
      scanning left to right; `cur` is the piece read so far. */
  function SplitFrom(s: string, sep: string, cur: string): (r: seq<string>)
    requires |sep| > 0
    ensures |r| >= 1
    decreases |s|
  {
    if |sep| <= |s| && s[..|sep|] == sep then [cur] + SplitFrom(s[|sep|..], sep, "")
    else if s == [] then [cur]
    else SplitFrom(s[1..], sep, cur + [s[0]])
  }

  /** Python's `s.split(sep)` for a non-empty separator. */
  function Split(s: string, sep: string): (r: seq<string>)
    requires |sep| > 0
    ensures |r| >= 1
  {
    SplitFrom(s, sep, "")
  }

  /** Python's `sep.join(parts)`. */
  function Join(parts: seq<string>, sep: string): string
  {
    if |parts| == 0 then ""
    else if |parts| == 1 then parts[0]
    else parts[0] + sep + Join(parts[1..], sep)
  }

  lemma {:induction false} SplitFromJoin(s: string, sep: string, cur: string)
    requires |sep| > 0
    ensures Join(SplitFrom(s, sep, cur), sep) == cur + s
    decreases |s|
  {
    if |sep| <= |s| && s[..|sep|] == sep {
      var rest := SplitFrom(s[|sep|..], sep, "");
      SplitFromJoin(s[|sep|..], sep, "");
      assert ([cur] + rest)[1..] == rest;
      assert s == sep + s[|sep|..];
    } else if s == [] {
    } else {
      SplitFromJoin(s[1..], sep, cur + [s[0]]);
      assert cur + [s[0]] + s[1..] == cur + s;
    }
  }

  /** Splitting and joining back with the same separator gives the text back. */
  lemma SplitJoin(s: string, sep: string)
    requires |sep| > 0
    ensures Join(Split(s, sep), sep) == s
  {
    SplitFromJoin(s, sep, "");
  }

  lemma {:induction false} SplitFromNoSep(s: string, sep: string, cur: string)
    requires |sep| > 0
    requires forall i :: 0 <= i < |s| ==> s[i] != sep[0]
    ensures SplitFrom(s, sep, cur) == [cur + s]
    decreases |s|
  {
    if s != [] {
      assert !(|sep| <= |s| && s[..|sep|] == sep) by {
        if |sep| <= |s| { assert s[..|sep|][0] == s[0] != sep[0]; }
      }
      SplitFromNoSep(s[1..], sep, cur + [s[0]]);
      assert SplitFrom(s, sep, cur) == SplitFrom(s[1..], sep, cur + [s[0]]);
      assert cur + [s[0]] + s[1..] == cur + s;
    } else {
      assert cur + s == cur;
    }
  }

  /** A text in which the separator's first character never occurs is one piece. */
  lemma SplitNoSep(s: string, sep: string)
    requires |sep| > 0
    requires forall i :: 0 <= i < |s| ==> s[i] != sep[0]
    ensures Split(s, sep) == [s]
  {
    SplitFromNoSep(s, sep, "");
    assert "" + s == s;
  }

  /** A text that starts with the separator has an empty first piece. */
  lemma SplitLeadingSep(s: string, sep: string)
    requires |sep| > 0 && |sep| <= |s| && s[..|sep|] == sep
    ensures Split(s, sep)[0] == ""
  {
  }

  /** Python's `s.replace(target, replacement)` for a non-empty `target`. */
  function ReplaceAll(s: string, target: string, replacement: string): (r: string)
    requires |target| > 0
    ensures !IsInfix(target, s) ==> r == s
    decreases |s|
  {
    if |target| <= |s| && s[..|target|] == target then
      replacement + ReplaceAll(s[|target|..], target, replacement)
    else if s == [] then []
    else
      InfixTail(target, s);
      [s[0]] + ReplaceAll(s[1..], target, replacement)
  }

  /** An occurrence in the tail of `s` is an occurrence in `s`. */
  lemma InfixTail(p: string, s: string)
    requires s != []
    ensures IsInfix(p, s[1..]) ==> IsInfix(p, s)
  {
    if IsInfix(p, s[1..]) {
      var k := IsInfixWitness(p, s[1..]);
      assert s[k + 1..k + 1 + |p|] == s[1..][k..k + |p|];
      IsInfixAt(p, s, k + 1);
    }
  }

  /** `c * n` in Python, for a one-character string `c`. */
  function Repeat(c: char, n: nat): string
  {
    seq(n, _ => c)
  }

  function DigitChar(d: nat): char
    requires d < 10
  {
    ('0' as int + d) as char
  }

  /** `str(n)` for a natural number: its decimal digits. */
  function NatToString(n: nat): (r: string)
    ensures |r| >= 1
    ensures forall i :: 0 <= i < |r| ==> '0' <= r[i] <= '9'
    decreases n
  {
    if n < 10 then [DigitChar(n)] else NatToString(n / 10) + [DigitChar(n % 10)]
  }

  /** The value of a string of decimal digits. */
  function ParseNat(s: string): nat
    requires forall i :: 0 <= i < |s| ==> '0' <= s[i] <= '9'
  {
    if s == [] then 0 else ParseNat(s[..|s| - 1]) * 10 + (s[|s| - 1] as int - '0' as int)
  }

  /** Reading back the decimal digits of `n` gives `n`. */
  lemma {:induction false} ParseNatToString(n: nat)
    ensures ParseNat(NatToString(n)) == n
    decreases n
  {
    if n >= 10 {
      var s := NatToString(n);
      assert s[..|s| - 1] == NatToString(n / 10);
      ParseNatToString(n / 10);
    }
  }

  /** Distinct naturals have distinct decimal strings. */
  lemma NatToStringInjective(m: nat, n: nat)
    requires m != n
    ensures NatToString(m) != NatToString(n)
  {
    ParseNatToString(m);
    ParseNatToString(n);
  }

  /** A preview of at most `n` characters, with `...` appended only when
      characters were cut off. */
  function Ellipsize(s: string, n: nat): (r: string)
    ensures |s| <= n ==> r == s
    ensures |s| > n ==> |r| == n + 3 && r[..n] == s[..n] && r[n..] == "..."
  {
    if |s| > n then s[..n] + "..." else s
  }
}
