/** String operations of the JavaScript runtime that the source relies on:
    truthiness, `startsWith`, `includes`, `trim`, `toLowerCase` (ASCII),
    `join`, `replace` with a string pattern, the last path segment and the
    decimal rendering of a number. */
module Text {
  import opened Wrappers

  /** JavaScript truthiness of a string: only the empty string is falsy. */
  predicate Truthy(s: string) { s != "" }

  /** Truthiness of a string that may be `undefined` or `null`. */
  predicate TruthyOpt(o: Option<string>) { o.Some? && o.value != "" }

  /** `a || b` where `a` may be missing. */
  function OrElse(a: Option<string>, b: string): string {
    if TruthyOpt(a) then a.value else b
  }

  /** What a template literal renders for a string that may be `undefined`. */
  function Show(o: Option<string>): string {
    if o.Some? then o.value else "undefined"
  }

  predicate StartsWith(s: string, prefix: string) { prefix <= s }

  /** `sub` occurs in `s` starting at index `i`. */
  predicate OccursAt(s: string, sub: string, i: int) {
    0 <= i && i + |sub| <= |s| && s[i..i + |sub|] == sub
  }

  /** `s.includes(sub)`. */
  predicate Contains(s: string, sub: string) {
    exists i :: 0 <= i <= |s| - |sub| && OccursAt(s, sub, i)
  }

  /** The characters String.prototype.trim removes: WhiteSpace and
      LineTerminator of ECMA-262 (Unicode category Zs included). */
  predicate IsSpace(c: char) {
    var n := c as int;
    n == 0x09 || n == 0x0A || n == 0x0B || n == 0x0C || n == 0x0D || n == 0x20
    || n == 0xA0 || n == 0x1680 || (0x2000 <= n <= 0x200A) || n == 0x2028
    || n == 0x2029 || n == 0x202F || n == 0x205F || n == 0x3000 || n == 0xFEFF
  }

  function TrimStart(s: string): (r: string)
    ensures |r| <= |s|
  {
    if |s| > 0 && IsSpace(s[0]) then TrimStart(s[1..]) else s
  }

  /** `TrimStart` drops exactly the leading run of blank characters. */
  lemma {:induction false} TrimStartDropsBlanks(s: string)
    ensures TrimStart(s) == s[|s| - |TrimStart(s)|..]
    ensures forall k :: 0 <= k < |s| - |TrimStart(s)| ==> IsSpace(s[k])
    ensures TrimStart(s) != [] ==> !IsSpace(TrimStart(s)[0])
    decreases |s|
  {
    if |s| > 0 && IsSpace(s[0]) {
      TrimStartDropsBlanks(s[1..]);
    }
  }

  function TrimEnd(s: string): (r: string)
    ensures |r| <= |s|
  {
    if |s| > 0 && IsSpace(s[|s| - 1]) then TrimEnd(s[..|s| - 1]) else s
  }

  /** `TrimEnd` drops exactly the trailing run of blank characters. */
  lemma {:induction false} TrimEndDropsBlanks(s: string)
    ensures TrimEnd(s) == s[..|TrimEnd(s)|]
    ensures forall k :: |TrimEnd(s)| <= k < |s| ==> IsSpace(s[k])
    ensures TrimEnd(s) != [] ==> !IsSpace(TrimEnd(s)[|TrimEnd(s)| - 1])
    decreases |s|
  {
    if |s| > 0 && IsSpace(s[|s| - 1]) {
      TrimEndDropsBlanks(s[..|s| - 1]);
    }
  }

  /** `s.trim()`. */
  function Trim(s: string): string {
    TrimEnd(TrimStart(s))
  }

  /** The trimmed string is the slice of `s` left after dropping the blank
      characters at both ends. */
  lemma TrimIsSlice(s: string)
    ensures Trim(s) == s[|s| - |TrimStart(s)|..|s| - |TrimStart(s)| + |Trim(s)|]
  {
    var t := TrimStart(s);
    var u := TrimEnd(t);
    TrimStartDropsBlanks(s);
    TrimEndDropsBlanks(t);
    assert u == t[..|u|];
  }

  /** The trimmed string neither starts nor ends with a blank character. */
  lemma TrimHasNoBlankEnds(s: string)
    ensures Trim(s) != [] ==> !IsSpace(Trim(s)[0]) && !IsSpace(Trim(s)[|Trim(s)| - 1])
  {
    var t := TrimStart(s);
    var u := TrimEnd(t);
    TrimStartDropsBlanks(s);
    TrimEndDropsBlanks(t);
    if u != [] {
      assert u[0] == t[0];
    }
  }

  lemma TrimIdempotent(s: string)
    ensures Trim(Trim(s)) == Trim(s)
  {
    var u := Trim(s);
    TrimHasNoBlankEnds(s);
    if u != [] {
      assert TrimStart(u) == u;
      assert TrimEnd(u) == u;
    }
  }

  /** Trimming yields the empty string exactly when every character is blank. */
  lemma TrimEmptyIff(s: string)
    ensures Trim(s) == "" <==> forall k :: 0 <= k < |s| ==> IsSpace(s[k])
  {
    var t := TrimStart(s);
    TrimStartDropsBlanks(s);
    if t != [] {
      assert !IsSpace(s[|s| - |t|]);
      TrimEndDropsBlanks(t);
      assert TrimEnd(t) != [];
    }
  }

  /** `toLowerCase` restricted to ASCII letters. */
  function LowerChar(c: char): char {
    if 'A' <= c <= 'Z' then (c as int + 32) as char else c
  }

  function ToLowerAscii(s: string): (r: string)
    ensures |r| == |s|
    ensures forall k :: 0 <= k < |s| ==> r[k] == LowerChar(s[k])
  {
    seq(|s|, k requires 0 <= k < |s| => LowerChar(s[k]))
  }

  lemma ToLowerIdempotent(s: string)
    ensures ToLowerAscii(ToLowerAscii(s)) == ToLowerAscii(s)
  {
  }

  /** A pattern whose first character does not occur in `s` does not occur
      in `s`. */
  lemma AbsentFirstChar(s: string, sub: string)
    requires sub != [] && sub[0] !in s
    ensures !Contains(s, sub)
  {
  }

  /** What `s` contains, any extension of `s` at the front contains too. */
  lemma PrefixKeepsContains(prefix: string, s: string, sub: string)
    requires Contains(s, sub)
    ensures Contains(prefix + s, sub)
  {
    var at :| 0 <= at <= |s| - |sub| && OccursAt(s, sub, at);
    var t := prefix + s;
    assert t[|prefix| + at..|prefix| + at + |sub|] == s[at..at + |sub|];
    assert OccursAt(t, sub, |prefix| + at);
  }

  /** `parts.join(sep)`. */
  function Join(parts: seq<string>, sep: string): string
    decreases |parts|
  {
    if |parts| == 0 then ""
    else if |parts| == 1 then parts[0]
    else parts[0] + sep + Join(parts[1..], sep)
  }

  /** Every part occurs in the joined string. */
  lemma {:induction false} JoinHasPart(parts: seq<string>, sep: string, k: nat)
    requires k < |parts|
    ensures Contains(Join(parts, sep), parts[k])
  {
    var j := Join(parts, sep);
    var p := parts[k];
    if k == 0 {
      assert j[0..|p|] == p;
      assert OccursAt(j, p, 0);
    } else {
      JoinHasPart(parts[1..], sep, k - 1);
      var rest := Join(parts[1..], sep);
      var i :| 0 <= i <= |rest| - |p| && OccursAt(rest, p, i);
      var off := |parts[0]| + |sep|;
      assert j == parts[0] + sep + rest;
      assert j[off + i..off + i + |p|] == rest[i..i + |p|];
      assert OccursAt(j, p, off + i);
    }
  }

  /** `s.replace(pat, rep)` with a string pattern: the first occurrence only. */
  function ReplaceFirst(s: string, pat: string, rep: string): string
    decreases |s|
  {
    if pat <= s then rep + s[|pat|..]
    else if |s| == 0 then s
    else [s[0]] + ReplaceFirst(s[1..], pat, rep)
  }

  /** Replacing a prefix removes exactly that prefix. */
  lemma ReplaceLeadingPrefix(s: string, pat: string)
    requires StartsWith(s, pat)
    ensures ReplaceFirst(s, pat, "") == s[|pat|..]
  {
  }

  /** When the pattern's first character does not occur in `x`, the first
      occurrence of the pattern in `x + pat + y` is the one after `x`. */
  lemma {:induction false} ReplaceFirstAfter(x: string, pat: string, y: string, rep: string)
    requires pat != [] && pat[0] !in x
    ensures ReplaceFirst(x + pat + y, pat, rep) == x + rep + y
  {
    var s := x + pat + y;
    if x == [] {
      assert s == pat + y;
      assert s[|pat|..] == y;
    } else {
      assert s[0] == x[0] && x[0] != pat[0];
      assert !(pat <= s);
      assert s[1..] == x[1..] + pat + y;
      assert pat[0] !in x[1..];
      ReplaceFirstAfter(x[1..], pat, y, rep);
      assert [x[0]] + (x[1..] + rep + y) == x + rep + y;
    }
  }

  /** A string that does not contain the pattern is left unchanged. */
  lemma {:induction false} ReplaceFirstAbsent(s: string, pat: string, rep: string)
    requires !Contains(s, pat)
    ensures ReplaceFirst(s, pat, rep) == s
  {
    if pat <= s {
      assert s[0..|pat|] == pat;
      assert OccursAt(s, pat, 0);
    }
    if |s| > 0 {
      assert !Contains(s[1..], pat) by {
        forall i | 0 <= i <= |s[1..]| - |pat| && OccursAt(s[1..], pat, i) ensures false {
          assert s[1..][i..i + |pat|] == s[i + 1..i + 1 + |pat|];
          assert OccursAt(s, pat, i + 1);
        }
      }
      ReplaceFirstAbsent(s[1..], pat, rep);
    }
  }

  /** `path.split("/")` followed by taking the last element. */
  function LastSegment(path: string): (r: string)
    ensures '/' !in r
    ensures |r| <= |path| && r == path[|path| - |r|..]
    ensures |r| < |path| ==> path[|path| - |r| - 1] == '/'
  {
    if |path| == 0 then ""
    else if path[|path| - 1] == '/' then ""
    else LastSegment(path[..|path| - 1]) + [path[|path| - 1]]
  }

  /** The segment after the last slash is whatever follows it. */
  lemma LastSegmentAfterSlash(prefix: string, seg: string)
    requires '/' !in seg
    ensures LastSegment(prefix + "/" + seg) == seg
  {
    var p := prefix + "/" + seg;
    assert p[|p| - |seg|..] == seg;
    assert p[|p| - |seg| - 1] == '/';
    assert forall k :: |p| - |seg| <= k < |p| ==> p[k] == seg[k - (|p| - |seg|)];
  }

  function DigitChar(d: nat): char
    requires d < 10
  {
    ('0' as int + d) as char
  }

  predicate IsDigit(c: char) { '0' <= c <= '9' }

  function DigitValue(c: char): nat
    requires IsDigit(c)
  {
    c as int - '0' as int
  }

  /** `String(n)` for a non-negative integer. */
  function NatToDecimal(n: nat): (r: string)
    ensures |r| > 0
    ensures forall k :: 0 <= k < |r| ==> IsDigit(r[k])
    ensures n > 0 ==> r[0] != '0'
    decreases n
  {
    if n < 10 then [DigitChar(n)] else NatToDecimal(n / 10) + [DigitChar(n % 10)]
  }

  function DecimalToNat(s: string): nat
    requires forall k :: 0 <= k < |s| ==> IsDigit(s[k])
    decreases |s|
  {
    if s == [] then 0
    else DecimalToNat(s[..|s| - 1]) * 10 + DigitValue(s[|s| - 1])
  }

  /** Reading back the decimal rendering gives the number again, so distinct
      numbers render differently. */
  lemma {:induction false} DecimalRoundTrip(n: nat)
    ensures DecimalToNat(NatToDecimal(n)) == n
    decreases n
  {
    var r := NatToDecimal(n);
    if n >= 10 {
      DecimalRoundTrip(n / 10);
      assert r[..|r| - 1] == NatToDecimal(n / 10);
    }
  }

  lemma NatToDecimalInjective(a: nat, b: nat)
    requires NatToDecimal(a) == NatToDecimal(b)
    ensures a == b
  {
    DecimalRoundTrip(a);
    DecimalRoundTrip(b);
  }
}
