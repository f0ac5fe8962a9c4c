/** String helpers with the semantics of the JavaScript built-ins the source
    uses: `String.prototype.startsWith`, `String.prototype.split` with a
    one-character separator followed by `Array.prototype.pop`, and the
    decimal rendering of a non-negative integer `Number`. */
module Text {
  import opened Outcomes

  /** `s.startsWith(p)` */
  predicate StartsWith(s: string, p: string) {
    |p| <= |s| && s[..|p|] == p
  }

  /** `s.endsWith(p)` */
  predicate EndsWith(s: string, p: string) {
    |p| <= |s| && s[|s| - |p|..] == p
  }

  /** A string starts with `p` exactly when it is `p` followed by something. */
  lemma StartsWithIff(s: string, p: string)
    ensures StartsWith(s, p) <==> exists rest :: s == p + rest
  {
    if StartsWith(s, p) {
      assert s == p + s[|p|..];
    }
    if exists rest :: s == p + rest {
      var rest :| s == p + rest;
      assert s[..|p|] == p;
    }
  }

  // ---------------------------------------------------------------------
  // split('/') and pop()
  // ---------------------------------------------------------------------

  /** `s.split(sep)` for a one-character separator: the pieces between
      separators, always at least one (`"".split("/")` is `[""]`). */
  function Split(s: string, sep: char): (parts: seq<string>)
    ensures |parts| >= 1
    ensures forall i :: 0 <= i < |parts| ==> sep !in parts[i]
    decreases |s|
  {
    if |s| == 0 then [""]
    else
      var rest := Split(s[1..], sep);
      if s[0] == sep then [""] + rest
      else [[s[0]] + rest[0]] + rest[1..]
  }

  /** `parts.join(sep)`, the inverse of `Split`. */
  function Join(parts: seq<string>, sep: char): string
    requires |parts| >= 1
    decreases |parts|
  {
    if |parts| == 1 then parts[0] else parts[0] + [sep] + Join(parts[1..], sep)
  }

  /** Splitting loses nothing: joining the pieces back gives the string. */
  lemma {:induction false} SplitJoin(s: string, sep: char)
    ensures Join(Split(s, sep), sep) == s
    decreases |s|
  {
    if |s| > 0 {
      var rest := Split(s[1..], sep);
      SplitJoin(s[1..], sep);
      if s[0] == sep {
        assert Split(s, sep) == [""] + rest;
        assert ([""] + rest)[1..] == rest;
        assert s == [s[0]] + s[1..];
      } else {
        var parts := Split(s, sep);
        assert parts == [[s[0]] + rest[0]] + rest[1..];
        if |rest| == 1 {
          assert s == [s[0]] + s[1..];
        } else {
          assert parts[1..] == rest[1..];
          assert Join(rest, sep) == rest[0] + [sep] + Join(rest[1..], sep);
          assert s == [s[0]] + s[1..];
        }
      }
    }
  }

  /** `arr[arr.length - 1]`, what `pop()` returns on a non-empty array. */
  function Last<T>(xs: seq<T>): T
    requires |xs| >= 1
  {
    xs[|xs| - 1]
  }

  /** The characters of `s` after its last `sep`, or all of `s` when it has
      none: a suffix free of `sep` that either is the whole string or sits
      right after a `sep`. */
  function AfterLast(s: string, sep: char): (r: string)
    ensures |r| <= |s| && r == s[|s| - |r|..]
    ensures sep !in r
    ensures |r| < |s| ==> s[|s| - |r| - 1] == sep
    decreases |s|
  {
    if |s| == 0 then ""
    else if s[|s| - 1] == sep then ""
    else
      var r := AfterLast(s[..|s| - 1], sep) + [s[|s| - 1]];
      assert s == s[..|s| - 1] + [s[|s| - 1]];
      r
  }

  /** A string without `sep` is its own last segment. */
  lemma AfterLastOfPlain(s: string, sep: char)
    requires sep !in s
    ensures AfterLast(s, sep) == s
  {
  }

  /** The last piece of `Split` has the same three properties as `AfterLast`. */
  lemma {:induction false} LastPieceIsTrailingSegment(s: string, sep: char)
    ensures var r := Last(Split(s, sep));
      && |r| <= |s| && r == s[|s| - |r|..]
      && (|Split(s, sep)| == 1 ==> r == s)
      && (|Split(s, sep)| > 1 ==> |r| < |s| && s[|s| - |r| - 1] == sep)
    decreases |s|
  {
    if |s| > 0 {
      var t := s[1..];
      var rest := Split(t, sep);
      LastPieceIsTrailingSegment(t, sep);
      var r' := Last(rest);
      if s[0] == sep {
        assert Split(s, sep) == [""] + rest;
        assert Last(Split(s, sep)) == r';
        assert s[|s| - |r'|..] == t[|t| - |r'|..];
        if |rest| > 1 {
          assert s[|s| - |r'| - 1] == t[|t| - |r'| - 1];
        } else {
          assert s[|s| - |r'| - 1] == s[0];
        }
      } else {
        var parts := Split(s, sep);
        assert parts == [[s[0]] + rest[0]] + rest[1..];
        if |rest| == 1 {
          assert Last(parts) == [s[0]] + t;
          assert s == [s[0]] + t;
        } else {
          assert Last(parts) == r';
          assert s[|s| - |r'|..] == t[|t| - |r'|..];
          assert s[|s| - |r'| - 1] == t[|t| - |r'| - 1];
        }
      }
    }
  }

  /** At most one suffix of `s` is free of `sep` and either is all of `s` or
      follows a `sep`. */
  lemma TrailingSegmentUnique(s: string, sep: char, a: string, b: string)
    requires |a| <= |s| && a == s[|s| - |a|..] && sep !in a
    requires |b| <= |s| && b == s[|s| - |b|..] && sep !in b
    requires |a| < |s| ==> s[|s| - |a| - 1] == sep
    requires |b| < |s| ==> s[|s| - |b| - 1] == sep
    ensures a == b
  {
  }

  /** `s.split(sep).pop()` is the segment after the last `sep`. */
  lemma SplitPopIsAfterLast(s: string, sep: char)
    ensures Last(Split(s, sep)) == AfterLast(s, sep)
  {
    LastPieceIsTrailingSegment(s, sep);
    var a := Last(Split(s, sep));
    assert sep !in a;
    TrailingSegmentUnique(s, sep, a, AfterLast(s, sep));
  }

  // ---------------------------------------------------------------------
  // Decimal rendering of a non-negative integer
  // ---------------------------------------------------------------------

  predicate IsDigit(c: char) {
    '0' <= c <= '9'
  }

  function DigitChar(d: nat): (c: char)
    requires d < 10
    ensures IsDigit(c)
  {
    ['0', '1', '2', '3', '4', '5', '6', '7', '8', '9'][d]
  }

  function DigitValue(c: char): nat
    requires IsDigit(c)
  {
    (c as int - '0' as int) as nat
  }

  /** `String(n)` for a non-negative integer `n`: its decimal digits, most
      significant first, no leading zero. */
  function Decimal(n: nat): (r: string)
    ensures |r| >= 1
    ensures forall i :: 0 <= i < |r| ==> IsDigit(r[i])
    ensures |r| > 1 ==> r[0] != '0'
    decreases n
  {
    if n < 10 then [DigitChar(n)] else Decimal(n / 10) + [DigitChar(n % 10)]
  }

  /** The number a string of decimal digits denotes. */
  function DecimalValue(s: string): nat
    requires forall i :: 0 <= i < |s| ==> IsDigit(s[i])
    decreases |s|
  {
    if |s| == 0 then 0 else 10 * DecimalValue(s[..|s| - 1]) + DigitValue(s[|s| - 1])
  }

  lemma DigitRoundTrip(d: nat)
    requires d < 10
    ensures DigitValue(DigitChar(d)) == d
  {
  }

  /** Reading the rendering back gives the number. */
  lemma {:induction false} DecimalRoundTrip(n: nat)
    ensures DecimalValue(Decimal(n)) == n
    decreases n
  {
    var r := Decimal(n);
    if n < 10 {
      DigitRoundTrip(n);
      assert r[..0] == [];
    } else {
      DecimalRoundTrip(n / 10);
      DigitRoundTrip(n % 10);
      assert r[..|r| - 1] == Decimal(n / 10);
    }
  }

  /** Everything after the first `c` of `s`, or `None` when `s` has no `c`. */
  function AfterFirst(s: string, c: char): Option<string>
    decreases |s|
  {
    if |s| == 0 then None
    else if s[0] == c then Some(s[1..])
    else AfterFirst(s[1..], c)
  }

  /** Everything before the first `c` of `s`, or `None` when `s` has no `c`. */
  function BeforeFirst(s: string, c: char): Option<string>
    decreases |s|
  {
    if |s| == 0 then None
    else if s[0] == c then Some([])
    else match BeforeFirst(s[1..], c)
      case None => None
      case Some(p) => Some([s[0]] + p)
  }
}
