/** String operations the operator borrows from Go's `strings` and `fmt` packages:
    splitting on a separator, joining, and decimal formatting. A `string` stands for
    a Go string, one `char` per byte. */
module Text {

  datatype Option<+T> = None | Some(value: T)

  /** strings.Split with a one-byte separator: there is always at least one part. */
  function Split(s: string, sep: char): (parts: seq<string>)
    ensures |parts| >= 1
    ensures forall part :: part in parts ==> sep !in part
    ensures Join(parts, sep) == s
  {
    if s == [] then [""]
    else
      var rest := Split(s[1..], sep);
      if s[0] == sep then
        assert ([""] + rest)[1..] == rest;
        [""] + rest
      else
        var parts := [[s[0]] + rest[0]] + rest[1..];
        assert parts[1..] == rest[1..];
        parts
  }

  /** strings.Join */
  function Join(parts: seq<string>, sep: char): string
    requires |parts| >= 1
  {
    if |parts| == 1 then parts[0] else parts[0] + [sep] + Join(parts[1..], sep)
  }

  predicate HasPrefix(s: string, prefix: string) { prefix <= s }

  lemma {:induction false} SplitAppend(a: string, sep: char, b: string)
    ensures Split(a + [sep] + b, sep) == Split(a, sep) + Split(b, sep)
  {
    var whole := a + [sep] + b;
    if a == [] {
      assert whole[1..] == b;
    } else {
      assert whole[1..] == a[1..] + [sep] + b;
      SplitAppend(a[1..], sep, b);
    }
  }

  lemma {:induction false} SplitWithout(s: string, sep: char)
    requires sep !in s
    ensures Split(s, sep) == [s]
  {
    if s != [] {
      SplitWithout(s[1..], sep);
      assert s == [s[0]] + s[1..];
    }
  }

  lemma {:induction false} JoinAppend(a: seq<string>, b: seq<string>, sep: char)
    requires |a| >= 1 && |b| >= 1
    ensures Join(a + b, sep) == Join(a, sep) + [sep] + Join(b, sep)
  {
    if |a| == 1 {
      assert (a + b)[1..] == b;
    } else {
      assert (a + b)[1..] == a[1..] + b;
      JoinAppend(a[1..], b, sep);
    }
  }

  lemma StringPrefixGivesSegments(path: string, dir: string, sep: char)
    requires HasPrefix(path + [sep], dir + [sep])
    ensures Split(dir, sep) <= Split(path, sep)
  {
    var rest := (path + [sep])[|dir| + 1..];
    assert Split(path, sep) + [""] == Split(dir, sep) + Split(rest, sep) by {
      assert path + [sep] == path + [sep] + "" && path + [sep] == dir + [sep] + rest;
      SplitAppend(path, sep, "");
      SplitAppend(dir, sep, rest);
    }
    assert forall i :: 0 <= i < |Split(dir, sep)| ==>
        Split(dir, sep)[i] == (Split(path, sep) + [""])[i] == Split(path, sep)[i];
  }

  lemma JoinOfPrefix(d: seq<string>, p: seq<string>, sep: char)
    requires 1 <= |d| && d <= p
    ensures HasPrefix(Join(p, sep) + [sep], Join(d, sep) + [sep])
  {
    var more := p[|d|..];
    assert p == d + more;
    if more == [] {
      assert p == d;
    } else {
      JoinAppend(d, more, sep);
    }
  }

  lemma SegmentsGiveStringPrefix(path: string, dir: string, sep: char)
    requires Split(dir, sep) <= Split(path, sep)
    ensures HasPrefix(path + [sep], dir + [sep])
  {
    JoinOfPrefix(Split(dir, sep), Split(path, sep), sep);
  }

  function Digit(n: nat): char
    requires n < 10
  {
    "0123456789"[n]
  }

  /** fmt %d of a non-negative integer. */
  function Decimal(n: nat): (s: string)
    ensures |s| >= 1
    ensures forall c :: c in s ==> '0' <= c <= '9'
  {
    if n < 10 then [Digit(n)] else Decimal(n / 10) + [Digit(n % 10)]
  }

  /** fmt %06d: padded on the left with zeros to six digits. */
  function Padded(n: nat): (s: string)
    ensures forall c :: c in s ==> '0' <= c <= '9'
    ensures |s| >= 6 && (|Decimal(n)| >= 6 ==> s == Decimal(n))
  {
    Zeros(6 - |Decimal(n)|) + Decimal(n)
  }

  function Zeros(n: int): (s: string)
    ensures forall i :: 0 <= i < |s| ==> s[i] == '0'
    ensures |s| == if n <= 0 then 0 else n
  {
    if n <= 0 then "" else "0" + Zeros(n - 1)
  }

  /** Reads a decimal numeral back; non-digits count as zero. */
  function Numeral(s: string): nat
  {
    if s == [] then 0
    else 10 * Numeral(s[..|s| - 1]) + DigitValue(s[|s| - 1])
  }

  function DigitValue(c: char): (v: nat)
  {
    if '0' <= c <= '9' then (c - '0') as int else 0
  }

  lemma {:induction false} NumeralOfDecimal(n: nat)
    ensures Numeral(Decimal(n)) == n
  {
    var s := Decimal(n);
    if n >= 10 {
      NumeralOfDecimal(n / 10);
      assert s[..|s| - 1] == Decimal(n / 10);
    } else {
      assert s[..|s| - 1] == [];
    }
  }

  lemma {:induction false} NumeralSkipsZeros(zeros: string, s: string)
    requires forall i :: 0 <= i < |zeros| ==> zeros[i] == '0'
    ensures Numeral(zeros + s) == Numeral(s)
  {
    var whole := zeros + s;
    if s != [] {
      assert whole[..|whole| - 1] == zeros + s[..|s| - 1];
      NumeralSkipsZeros(zeros, s[..|s| - 1]);
    } else if zeros != [] {
      var fewer := zeros[..|zeros| - 1];
      assert whole == zeros && fewer + [] == fewer;
      NumeralSkipsZeros(fewer, []);
    }
  }

  /** Zero padding loses nothing, so numbered identifiers never collide. */
  lemma NumeralOfPadded(n: nat)
    ensures Numeral(Padded(n)) == n
  {
    NumeralOfDecimal(n);
    NumeralSkipsZeros(Zeros(6 - |Decimal(n)|), Decimal(n));
  }
}
