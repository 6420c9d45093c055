/**
 * The Python 2 `str` operations the experiment scripts rely on, over
 * `string` (= seq<char>): `strip()`, `split()`, `split(c)`, `sep.join(..)`,
 * `int(..)`, `str(n)` and `os.path.join`.
 */
module Text {

  datatype Option<+T> = None | Some(value: T)

  datatype Result<+T, +E> = Ok(value: T) | Err(error: E)

  /** Python 2 `string.whitespace`, which is also what `\s` matches in `re`
      without the UNICODE flag: the space and the codes 9 to 13 (\t \n \v \f \r). */
  predicate IsSpace(c: char) { c == ' ' || '\t' <= c <= '\r' }

  /** `\d` in `re` on a Python 2 `str`. */
  predicate IsDigit(c: char) { '0' <= c <= '9' }

  /** `\w` in `re` without the UNICODE or LOCALE flag. */
  predicate IsWordChar(c: char) { 'a' <= c <= 'z' || 'A' <= c <= 'Z' || IsDigit(c) || c == '_' }

  predicate AllSpace(s: string) { forall k :: 0 <= k < |s| ==> IsSpace(s[k]) }

  predicate NoSpace(s: string) { forall k :: 0 <= k < |s| ==> !IsSpace(s[k]) }

  predicate AllDigits(s: string) { forall k :: 0 <= k < |s| ==> IsDigit(s[k]) }

  /** Length of the whitespace run at the front of `s`. */
  function LeadingSpace(s: string): (n: nat)
    ensures n <= |s| && AllSpace(s[..n])
    ensures n < |s| ==> !IsSpace(s[n])
  {
    if s == [] || !IsSpace(s[0]) then 0 else 1 + LeadingSpace(s[1..])
  }

  /** Length of the whitespace run at the end of `s`. */
  function TrailingSpace(s: string): (n: nat)
    ensures n <= |s| && AllSpace(s[|s| - n..])
    ensures n < |s| ==> !IsSpace(s[|s| - n - 1])
  {
    if s == [] || !IsSpace(s[|s| - 1]) then 0 else 1 + TrailingSpace(s[..|s| - 1])
  }

  /** `s.strip()`: `s` without the whitespace at either end. */
  function Strip(s: string): (r: string)
    ensures LeadingSpace(s) + |r| <= |s|
    ensures r == s[LeadingSpace(s)..LeadingSpace(s) + |r|]
    ensures r != [] ==> !IsSpace(r[0]) && !IsSpace(r[|r| - 1])
    ensures AllSpace(s[LeadingSpace(s) + |r|..])
  {
    var a := LeadingSpace(s);
    var t := s[a..];
    var n := TrailingSpace(t);
    assert s[a + (|t| - n)..] == t[|t| - n..];
    t[..|t| - n]
  }

  /** `strip()` leaves nothing exactly when the string is all whitespace. */
  lemma StripEmpty(s: string)
    ensures Strip(s) == [] <==> AllSpace(s)
  {
    var a := LeadingSpace(s);
    var t := s[a..];
    var n := TrailingSpace(t);
    if n == |t| {
      assert a == |s|;
      forall k | 0 <= k < |s| ensures IsSpace(s[k]) {
        assert s[..a][k] == s[k];
      }
    }
  }

  /** A string whose ends are not whitespace is its own `strip()`. */
  lemma StripUnchanged(s: string)
    requires s != [] ==> !IsSpace(s[0]) && !IsSpace(s[|s| - 1])
    ensures Strip(s) == s
  {
    if s != [] {
      assert LeadingSpace(s) == 0;
      assert s[0..] == s;
      assert TrailingSpace(s) == 0;
    }
  }

  /** A whitespace run of length `m` that stops before a non-space or at the
      end is the run `LeadingSpace` measures. */
  lemma {:induction false} LeadingSpaceExact(s: string, m: nat)
    requires m <= |s| && AllSpace(s[..m])
    requires m < |s| ==> !IsSpace(s[m])
    ensures LeadingSpace(s) == m
  {
    if m > 0 {
      assert IsSpace(s[..m][0]);
      assert s[1..][..m - 1] == s[..m][1..];
      LeadingSpaceExact(s[1..], m - 1);
    }
  }

  /** Length of the run of non-whitespace characters at the front of `s`. */
  function WordLength(s: string): (n: nat)
    ensures n <= |s| && NoSpace(s[..n])
    ensures n < |s| ==> IsSpace(s[n])
  {
    if s == [] || IsSpace(s[0]) then 0 else 1 + WordLength(s[1..])
  }

  /** `s.split()`: the maximal runs of non-whitespace characters, in order. */
  function Words(s: string): (r: seq<string>)
    ensures forall k :: 0 <= k < |r| ==> r[k] != [] && NoSpace(r[k])
    ensures r == [] <==> AllSpace(s)
    decreases |s|
  {
    var a := LeadingSpace(s);
    var t := s[a..];
    if t == [] then
      assert s == s[..a];
      []
    else
      assert t[0] == s[a];
      var n := WordLength(t);
      [t[..n]] + Words(t[n..])
  }

  /** `sep.join(parts)`. */
  function JoinWith(parts: seq<string>, sep: string): string
  {
    if parts == [] then []
    else if |parts| == 1 then parts[0]
    else parts[0] + sep + JoinWith(parts[1..], sep)
  }

  lemma {:induction false} WordLengthOfWord(w: string, rest: string)
    requires NoSpace(w)
    requires rest != [] ==> IsSpace(rest[0])
    ensures WordLength(w + rest) == |w|
  {
    if w != [] {
      assert (w + rest)[1..] == w[1..] + rest;
      WordLengthOfWord(w[1..], rest);
    }
  }

  /** `split()` lists the maximal non-whitespace runs: leading whitespace is
      skipped and a token that ends at whitespace or at the end of the string
      is the first item, followed by the items of the rest. Together with the
      empty case of `Words` (exactly the all-whitespace strings) this
      determines `Words` on every string. */
  lemma {:induction false} WordsCons(sp: string, w: string, rest: string)
    requires AllSpace(sp) && w != [] && NoSpace(w)
    requires rest != [] ==> IsSpace(rest[0])
    ensures Words(sp + w + rest) == [w] + Words(rest)
  {
    var s := sp + w + rest;
    assert s[..|sp|] == sp;
    assert s[|sp|] == w[0];
    LeadingSpaceExact(s, |sp|);
    var t := s[|sp|..];
    assert t == w + rest;
    WordLengthOfWord(w, rest);
    assert t[..|w|] == w;
    assert t[|w|..] == rest;
  }

  lemma JoinStartsWithFirst(parts: seq<string>, sep: string)
    requires parts != [] && parts[0] != []
    ensures JoinWith(parts, sep) != [] && JoinWith(parts, sep)[0] == parts[0][0]
  {
  }

  /** `split()` undoes a join on single spaces of non-empty tokens without whitespace. */
  lemma {:induction false} WordsOfJoin(ws: seq<string>)
    requires forall k :: 0 <= k < |ws| ==> ws[k] != [] && NoSpace(ws[k])
    ensures Words(JoinWith(ws, " ")) == ws
  {
    if ws == [] {
    } else if |ws| == 1 {
      var w := ws[0];
      assert LeadingSpace(w) == 0;
      WordLengthOfWord(w, []);
      assert w + [] == w;
      assert w[|w|..] == [];
    } else {
      var w, tail := ws[0], JoinWith(ws[1..], " ");
      var s := w + " " + tail;
      assert JoinWith(ws, " ") == s;
      assert s[0] == w[0];
      assert LeadingSpace(s) == 0;
      WordLengthOfWord(w, " " + tail);
      assert s == w + (" " + tail);
      assert s[..|w|] == w;
      assert s[|w|..] == " " + tail;
      JoinStartsWithFirst(ws[1..], " ");
      assert (" " + tail)[1..] == tail;
      assert LeadingSpace(" " + tail) == 1;
      assert LeadingSpace(tail) == 0;
      assert tail[0..] == tail;
      WordsOfJoin(ws[1..]);
      assert Words(" " + tail) == Words(tail);
    }
  }

  /** Number of occurrences of `c` in `s`. */
  function Occurrences(s: string, c: char): nat
  {
    if s == [] then 0 else (if s[0] == c then 1 else 0) + Occurrences(s[1..], c)
  }

  /** `s.split(c)` for a one-character separator: the pieces between the
      separators, one more than there are separators. */
  function SplitOn(s: string, c: char): (r: seq<string>)
    ensures |r| == Occurrences(s, c) + 1
    ensures forall k :: 0 <= k < |r| ==> c !in r[k]
    ensures JoinWith(r, [c]) == s
    decreases |s|
  {
    if s == [] then [[]]
    else
      var rest := SplitOn(s[1..], c);
      if s[0] == c then
        assert JoinWith([[]] + rest, [c]) == [c] + JoinWith(rest, [c]);
        [[]] + rest
      else
        var r := [[s[0]] + rest[0]] + rest[1..];
        assert r[1..] == rest[1..];
        assert |rest| > 1 ==> JoinWith(rest, [c]) == rest[0] + [c] + JoinWith(rest[1..], [c]);
        assert JoinWith(r, [c]) == [s[0]] + JoinWith(rest, [c]);
        assert s == [s[0]] + s[1..];
        r
  }

  lemma {:induction false} SplitOnWithoutSeparator(a: string, c: char)
    requires c !in a
    ensures SplitOn(a, c) == [a]
  {
    if a != [] {
      SplitOnWithoutSeparator(a[1..], c);
    }
  }

  lemma {:induction false} SplitOnFirstSeparator(a: string, c: char, b: string)
    requires c !in a
    ensures SplitOn(a + [c] + b, c) == [a] + SplitOn(b, c)
  {
    if a == [] {
      assert (a + [c] + b)[1..] == b;
    } else {
      assert (a + [c] + b)[1..] == a[1..] + [c] + b;
      SplitOnFirstSeparator(a[1..], c, b);
      assert [a[0]] + a[1..] == a;
    }
  }

  /** `s.split(c)` undoes `c.join(parts)` when no part holds `c`. */
  lemma {:induction false} SplitOfJoin(parts: seq<string>, c: char)
    requires |parts| >= 1
    requires forall k :: 0 <= k < |parts| ==> c !in parts[k]
    ensures SplitOn(JoinWith(parts, [c]), c) == parts
  {
    if |parts| == 1 {
      SplitOnWithoutSeparator(parts[0], c);
    } else {
      SplitOfJoin(parts[1..], c);
      SplitOnFirstSeparator(parts[0], c, JoinWith(parts[1..], [c]));
      assert [parts[0]] + parts[1..] == parts;
    }
  }

  function DigitValue(c: char): nat
    requires IsDigit(c)
  {
    c as int - '0' as int
  }

  function DigitChar(d: nat): (c: char)
    requires d < 10
    ensures IsDigit(c) && DigitValue(c) == d
  {
    ('0' as int + d) as char
  }

  /** `str(n)` for a natural number: decimal digits, no leading zero. */
  function Decimal(n: nat): (r: string)
    ensures r != [] && AllDigits(r)
    ensures |r| > 1 ==> r[0] != '0'
  {
    if n < 10 then [DigitChar(n)] else Decimal(n / 10) + [DigitChar(n % 10)]
  }

  /** The number a run of decimal digits denotes. */
  function DigitsValue(s: string): nat
    requires AllDigits(s)
  {
    if s == [] then 0 else 10 * DigitsValue(s[..|s| - 1]) + DigitValue(s[|s| - 1])
  }

  /** `str(c)` for any integer. */
  function IntToString(c: int): string
  {
    if c < 0 then "-" + Decimal(-c) else Decimal(c)
  }

  /** Python 2 `int(s)` in base 10: whitespace around, an optional sign,
      whitespace between the sign and the digits (Python 2 accepts it), then
      one or more ASCII digits; anything else raises ValueError (None here). */
  function ParseInt(s: string): (r: Option<int>)
    ensures s != [] && AllDigits(s) ==> r == Some(DigitsValue(s))
  {
    var t := Strip(s);
    if s != [] && AllDigits(s) then
      StripUnchanged(s);
      Some(DigitsValue(s))
    else if t == [] then None
    else if t[0] == '+' || t[0] == '-' then
      var u := t[1..];
      var digits := u[LeadingSpace(u)..];
      if digits != [] && AllDigits(digits) then
        var v: int := DigitsValue(digits);
        Some(if t[0] == '-' then -v else v)
      else None
    else if AllDigits(t) then Some(DigitsValue(t))
    else None
  }

  lemma {:induction false} DecimalRoundTrip(n: nat)
    ensures DigitsValue(Decimal(n)) == n
  {
    if n >= 10 {
      DecimalRoundTrip(n / 10);
      var d := Decimal(n);
      assert d[..|d| - 1] == Decimal(n / 10);
    }
  }

  /** `int(str(c)) == c`. */
  lemma IntRoundTrip(c: int)
    ensures ParseInt(IntToString(c)) == Some(c)
  {
    var d := Decimal(if c < 0 then -c else c);
    DecimalRoundTrip(if c < 0 then -c else c);
    if c < 0 {
      var s := "-" + d;
      StripUnchanged(s);
      assert s[1..] == d;
      assert LeadingSpace(d) == 0;
      assert d[0..] == d;
      assert !AllDigits(s);
    }
  }

  /** A token without whitespace that `int()` accepts is a sign or digit
      followed by digits; in particular it holds no comma. */
  lemma IntTokenShape(s: string)
    requires NoSpace(s) && ParseInt(s).Some?
    ensures s != [] && forall k :: 0 < k < |s| ==> IsDigit(s[k])
    ensures IsDigit(s[0]) || s[0] == '+' || s[0] == '-'
  {
    if !(s != [] && AllDigits(s)) {
      StripUnchanged(s);
      if s[0] == '+' || s[0] == '-' {
        var u := s[1..];
        if u != [] {
          assert !IsSpace(u[0]);
          assert LeadingSpace(u) == 0;
          assert u[0..] == u;
        }
      }
    }
  }

  /** `os.path.join(dir, name)` (POSIX) for two components. */
  function PathJoin(dir: string, name: string): (r: string)
    ensures |name| <= |r| && r[|r| - |name|..] == name
    ensures name == [] || name[0] != '/' ==> |dir| <= |r| && r[..|dir|] == dir
  {
    if name != [] && name[0] == '/' then name
    else if dir == [] || dir[|dir| - 1] == '/' then dir + name
    else dir + "/" + name
  }
}
