/**
 * The pieces of the Java standard library the core relies on, stated exactly:
 * 32-bit `int`, `Integer.toString`, `Integer.parseInt` and `String.split`
 * with a one-character literal separator.
 */
module JavaLang {
  import opened Wrappers

  const INT_MIN: int := -0x8000_0000
  const INT_MAX: int := 0x7fff_ffff

  /** Java's `int`. */
  type Int32 = x: int | INT_MIN <= x <= INT_MAX

  /** An unsigned octet as it goes on the wire. */
  newtype Byte = x: int | 0 <= x < 256

  predicate IsDigit(c: char) { '0' <= c <= '9' }

  predicate AllDigits(s: string) { forall k :: 0 <= k < |s| ==> IsDigit(s[k]) }

  function DigitChar(d: int): (c: char)
    requires 0 <= d < 10
    ensures IsDigit(c) && c as int - '0' as int == d
  {
    (d + '0' as int) as char
  }

  /** Decimal digits of `n`, most significant first, without leading zeros. */
  function NatDigits(n: nat): (s: string)
    ensures |s| > 0 && AllDigits(s)
    ensures (|s| > 1 || n > 0) ==> s[0] != '0'
  {
    if n < 10 then [DigitChar(n)] else NatDigits(n / 10) + [DigitChar(n % 10)]
  }

  /** `Integer.toString(n)`, which `"" + n` calls: a '-' for negative values, then the digits. */
  function Decimal(n: int): (s: string)
    ensures forall k :: 0 <= k < |s| ==> IsDigit(s[k]) || (k == 0 && s[k] == '-')
    ensures |s| > 0 && (n >= 0 <==> IsDigit(s[0]))
    ensures n >= 0 && |s| > 1 ==> s[0] != '0'
    ensures n < 0 ==> |s| > 1 && s[1] != '0'
  {
    if n < 0 then "-" + NatDigits(-n) else NatDigits(n)
  }

  /** The value of a string of decimal digits. */
  function DigitsValue(s: string): nat
    requires AllDigits(s)
  {
    if |s| == 0 then 0 else DigitsValue(s[..|s| - 1]) * 10 + (s[|s| - 1] as int - '0' as int)
  }

  /**
   * `Integer.parseInt(s)` (radix 10): an optional '-' or '+', then at least one
   * digit, and a value inside the `int` range; anything else throws
   * `NumberFormatException`, modelled as `None`.
   */
  function ParseInt(s: string): (r: Option<Int32>)
    ensures r.Some? ==> |s| > 0 && (IsDigit(s[0]) || s[0] == '-' || s[0] == '+')
    ensures r.Some? ==> (|s| > 1 || IsDigit(s[0])) && forall k :: 0 < k < |s| ==> IsDigit(s[k])
    ensures |s| > 0 && AllDigits(s) ==>
              (r.Some? <==> DigitsValue(s) <= INT_MAX) && (r.Some? ==> r.value == DigitsValue(s))
    ensures |s| > 1 && s[0] == '+' && AllDigits(s[1..]) ==>
              (r.Some? <==> DigitsValue(s[1..]) <= INT_MAX) && (r.Some? ==> r.value == DigitsValue(s[1..]))
    ensures |s| > 1 && s[0] == '-' && AllDigits(s[1..]) ==>
              (r.Some? <==> DigitsValue(s[1..]) <= -INT_MIN) && (r.Some? ==> r.value == -(DigitsValue(s[1..]) as int))
  {
    if |s| == 0 then None
    else
      var start := if s[0] == '-' || s[0] == '+' then 1 else 0;
      var digits := s[start..];
      if |digits| == 0 || !AllDigits(digits) then None
      else
        var v: int := if s[0] == '-' then -(DigitsValue(digits) as int) else DigitsValue(digits);
        if INT_MIN <= v <= INT_MAX then Some(v) else None
  }

  lemma {:induction false} NatDigitsValue(n: nat)
    ensures DigitsValue(NatDigits(n)) == n
  {
    if n >= 10 {
      var s := NatDigits(n);
      assert s[..|s| - 1] == NatDigits(n / 10);
      NatDigitsValue(n / 10);
    }
  }

  /** Printing an `int` and parsing it back gives the same `int`. */
  lemma ParseDecimal(n: Int32)
    ensures ParseInt(Decimal(n)) == Some(n)
  {
    if n < 0 {
      NatDigitsValue(-(n as int));
      assert Decimal(n)[1..] == NatDigits(-(n as int));
    } else {
      NatDigitsValue(n);
      assert Decimal(n)[0..] == NatDigits(n);
    }
  }

  /**
   * Every piece of `s` between occurrences of `sep`, empty ones included:
   * one more piece than there are separators.
   */
  function Pieces(s: string, sep: char): (r: seq<string>)
    ensures |r| > 0
    ensures forall k :: 0 <= k < |r| ==> sep !in r[k]
    decreases |s|
  {
    if |s| == 0 then [""]
    else
      var rest := Pieces(s[1..], sep);
      if s[0] == sep then [""] + rest else [[s[0]] + rest[0]] + rest[1..]
  }

  /** The pieces glued back together with the separator between them. */
  function Join(parts: seq<string>, sep: char): string
    requires |parts| > 0
  {
    if |parts| == 1 then parts[0] else parts[0] + [sep] + Join(parts[1..], sep)
  }

  /** `k` copies of `c`. */
  function Reps(c: char, k: nat): (r: string)
    ensures |r| == k && forall t :: 0 <= t < k ==> r[t] == c
  {
    if k == 0 then "" else [c] + Reps(c, k - 1)
  }

  /** The list with its trailing empty strings removed. */
  function DropTrailingEmpty(parts: seq<string>): (r: seq<string>)
    ensures |r| <= |parts| && r == parts[..|r|]
    ensures |r| > 0 ==> r[|r| - 1] != ""
    ensures forall k :: |r| <= k < |parts| ==> parts[k] == ""
  {
    if |parts| == 0 then []
    else if parts[|parts| - 1] == "" then DropTrailingEmpty(parts[..|parts| - 1])
    else parts
  }

  /**
   * `s.split(String.valueOf(sep))` for a separator that is not a regular
   * expression metacharacter: the input alone when the separator does not
   * occur; otherwise the pieces, with trailing empty pieces dropped.
   */
  function Split(s: string, sep: char): (r: seq<string>)
    ensures sep !in s ==> r == [s]
    ensures forall k :: 0 <= k < |r| ==> sep !in r[k]
    ensures sep in s && |r| > 0 ==> r[|r| - 1] != ""
  {
    if sep !in s then [s] else DropTrailingEmpty(Pieces(s, sep))
  }

  /** Pieces and Join are inverse: gluing the pieces gives the input back. */
  lemma {:induction false} JoinPieces(s: string, sep: char)
    ensures Join(Pieces(s, sep), sep) == s
    decreases |s|
  {
    if |s| > 0 {
      var rest := Pieces(s[1..], sep);
      JoinPieces(s[1..], sep);
      if s[0] == sep {
        assert ([""] + rest)[1..] == rest;
      } else if |rest| == 1 {
        assert s == [s[0]] + s[1..];
      } else {
        var r := [[s[0]] + rest[0]] + rest[1..];
        assert r[1..] == rest[1..];
        assert s == [s[0]] + s[1..];
      }
    }
  }

  /** Splitting at a separator splits the list of pieces. */
  lemma {:induction false} PiecesAppend(x: string, y: string, sep: char)
    ensures Pieces(x + [sep] + y, sep) == Pieces(x, sep) + Pieces(y, sep)
    decreases |x|
  {
    var s := x + [sep] + y;
    if |x| == 0 {
      assert s[1..] == y;
    } else {
      assert s[1..] == x[1..] + [sep] + y;
      PiecesAppend(x[1..], y, sep);
    }
  }

  /** A string without the separator is a single piece. */
  lemma {:induction false} PiecesOfPlain(a: string, sep: char)
    requires sep !in a
    ensures Pieces(a, sep) == [a]
    decreases |a|
  {
    if |a| > 0 {
      assert sep !in a[1..] by {
        forall t | 0 <= t < |a[1..]| ensures a[1..][t] != sep { assert a[1..][t] == a[t + 1]; }
      }
      PiecesOfPlain(a[1..], sep);
      assert a == [a[0]] + a[1..];
    }
  }

  /** `k` separators in a row split into `k + 1` empty pieces. */
  lemma {:induction false} PiecesOfReps(sep: char, k: nat)
    ensures Pieces(Reps(sep, k), sep) == seq(k + 1, _ => "")
  {
    if k > 0 {
      PiecesOfReps(sep, k - 1);
      assert Reps(sep, k)[1..] == Reps(sep, k - 1);
    }
  }

  lemma {:induction false} JoinEmpties(sep: char, k: nat)
    ensures Join(seq(k + 1, _ => ""), sep) == Reps(sep, k)
  {
    if k > 0 {
      assert seq(k + 1, _ => "")[1..] == seq(k, _ => "");
      JoinEmpties(sep, k - 1);
    }
  }

  /** A separator-free piece followed by `k` separators splits into it and `k` empty pieces. */
  lemma PiecesOfTail(b: string, sep: char, k: nat)
    requires sep !in b
    ensures Pieces(b + Reps(sep, k), sep) == [b] + seq(k, _ => "")
  {
    PiecesOfPlain(b, sep);
    if k == 0 {
      assert b + Reps(sep, k) == b;
    } else {
      assert b + Reps(sep, k) == b + [sep] + Reps(sep, k - 1);
      PiecesAppend(b, Reps(sep, k - 1), sep);
      PiecesOfReps(sep, k - 1);
    }
  }

  /** Trailing empty pieces after a non-empty one are all dropped. */
  lemma {:induction false} DropTrailingOfTail(a: string, b: string, k: nat)
    requires b != ""
    ensures DropTrailingEmpty([a, b] + seq(k, _ => "")) == [a, b]
  {
    var ps := [a, b] + seq(k, _ => "");
    if k == 0 {
      assert ps == [a, b];
    } else {
      assert ps[|ps| - 1] == "";
      assert ps[..|ps| - 1] == [a, b] + seq(k - 1, _ => "");
      DropTrailingOfTail(a, b, k - 1);
    }
  }

  /**
   * The two-piece shape: `a`, the separator, a non-empty `b`, then any number
   * of trailing separators, splits into exactly `[a, b]`.
   */
  lemma SplitOfShape(a: string, b: string, sep: char, k: nat)
    requires sep !in a && sep !in b && b != ""
    ensures Split(a + [sep] + b + Reps(sep, k), sep) == [a, b]
  {
    var s := a + [sep] + b + Reps(sep, k);
    assert s[|a|] == sep;
    assert s == a + [sep] + (b + Reps(sep, k));
    PiecesAppend(a, b + Reps(sep, k), sep);
    PiecesOfPlain(a, sep);
    PiecesOfTail(b, sep, k);
    assert Pieces(s, sep) == [a, b] + seq(k, _ => "");
    DropTrailingOfTail(a, b, k);
  }

  /** One piece followed by `k` empty ones glues back to it followed by `k` separators. */
  lemma JoinTrailing(b: string, sep: char, k: nat)
    ensures Join([b] + seq(k, _ => ""), sep) == b + Reps(sep, k)
  {
    if k > 0 {
      assert ([b] + seq(k, _ => ""))[1..] == seq(k, _ => "");
      JoinEmpties(sep, k - 1);
      assert Reps(sep, k) == [sep] + Reps(sep, k - 1);
    }
  }

  /** Two pieces followed only by empty ones glue back to the two around a separator, then separators. */
  lemma JoinTwoThenEmpty(ps: seq<string>, sep: char)
    requires |ps| >= 2 && forall t :: 2 <= t < |ps| ==> ps[t] == ""
    ensures Join(ps, sep) == ps[0] + [sep] + ps[1] + Reps(sep, |ps| - 2)
  {
    var k := |ps| - 2;
    var tail := [ps[1]] + seq(k, _ => "");
    assert ps[1..] == tail by {
      forall t | 0 <= t < |tail| ensures ps[1..][t] == tail[t] {
        if t > 0 { assert ps[t + 1] == ""; }
      }
    }
    JoinTrailing(ps[1], sep, k);
  }

  /**
   * Conversely, an input that splits into exactly two parts has that shape:
   * neither part holds the separator, the second is non-empty, and only
   * separators follow it.
   */
  lemma SplitTwoShape(s: string, sep: char)
    requires |Split(s, sep)| == 2
    ensures var p := Split(s, sep);
      && sep !in p[0] && sep !in p[1] && p[1] != ""
      && exists k: nat :: s == p[0] + [sep] + p[1] + Reps(sep, k)
  {
    var ps := Pieces(s, sep);
    assert sep in s;
    var p := Split(s, sep);
    assert p == ps[..2];
    JoinPieces(s, sep);
    JoinTwoThenEmpty(ps, sep);
    assert s == p[0] + [sep] + p[1] + Reps(sep, |ps| - 2);
  }

  /** A string without the separator splits into itself alone. */
  lemma SplitOfPlain(a: string, sep: char)
    requires sep !in a
    ensures Split(a, sep) == [a]
  {
  }

  /**
   * A single trailing separator is dropped together with the empty piece
   * after it: `"cat%"` splits into `["cat"]`, and `"%"` into nothing.
   */
  lemma SplitTrailingSeparator(a: string, sep: char)
    requires sep !in a
    ensures Split(a + [sep], sep) == if a == "" then [] else [a]
  {
    var s := a + [sep];
    assert s[|a|] == sep;
    assert s == a + [sep] + "";
    PiecesAppend(a, "", sep);
    PiecesOfPlain(a, sep);
    assert Pieces(s, sep) == [a, ""];
    assert DropTrailingEmpty([a, ""]) == DropTrailingEmpty([a]) by {
      assert [a, ""][..1] == [a];
    }
    if a == "" {
      assert DropTrailingEmpty([a]) == DropTrailingEmpty([]) by { assert [a][..0] == []; }
    }
  }

  /** `Integer.parseInt` rejects an empty string, a sign alone and stray characters. */
  lemma ParseIntRejects()
    ensures ParseInt("") == None && ParseInt("+") == None && ParseInt("-") == None
    ensures ParseInt("1a") == None && ParseInt("1-0") == None
  {
    assert "1a"[1] == 'a' && "1-0"[1] == '-';
  }

  /** `Integer.parseInt` accepts a leading '+', leading zeros and a negative zero. */
  lemma ParseIntAccepts()
    ensures ParseInt("+7") == Some(7) && ParseInt("007") == Some(7) && ParseInt("-0") == Some(0)
  {
    assert "+7"[1..] == "7" && "-0"[1..] == "0";
    assert DigitsValue("7") == 7 by { assert "7"[..0] == ""; }
    assert DigitsValue("0") == 0 by { assert "0"[..0] == ""; }
    assert DigitsValue("007") == 7 by {
      assert "007"[..2] == "00" && "00"[..1] == "0" && "0"[..0] == "";
    }
  }
}
