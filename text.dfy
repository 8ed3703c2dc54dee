/** Python's string splitting and joining, and decimal rendering of integers,
    with the facts that the rest of the model relies on. */
module Text {

  /** No character of `s` is in `cs`. */
  predicate Avoids(s: string, cs: set<char>)
  {
    forall j :: 0 <= j < |s| ==> s[j] !in cs
  }

  /** Python's `s.split(sep)`, generalised to a set of separator characters:
      the pieces between separators, left to right. There is always at least
      one piece, and none contains a separator. */
  function Split(s: string, seps: set<char>): (parts: seq<string>)
    ensures |parts| >= 1
    ensures forall i :: 0 <= i < |parts| ==> Avoids(parts[i], seps)
    decreases |s|
  {
    if s == [] then [[]]
    else
      var rest := Split(s[1..], seps);
      if s[0] in seps then [[]] + rest
      else [[s[0]] + rest[0]] + rest[1..]
  }

  /** Python's `sep.join(parts)`. */
  function Join(parts: seq<string>, sep: char): string
  {
    if |parts| == 0 then []
    else if |parts| == 1 then parts[0]
    else parts[0] + [sep] + Join(parts[1..], sep)
  }

  lemma {:induction false} SplitAvoiding(p: string, seps: set<char>)
    requires Avoids(p, seps)
    ensures Split(p, seps) == [p]
    decreases |p|
  {
    if p != [] {
      assert Avoids(p[1..], seps);
      SplitAvoiding(p[1..], seps);
      assert [p[0]] + p[1..] == p;
    }
  }

  /** A piece free of separators, a separator, then anything: the piece comes
      off as the first part. */
  lemma {:induction false} SplitAfterPiece(p: string, c: char, t: string, seps: set<char>)
    requires Avoids(p, seps) && c in seps
    ensures Split(p + [c] + t, seps) == [p] + Split(t, seps)
    decreases |p|
  {
    if p == [] {
      assert p + [c] + t == [c] + t;
      assert ([c] + t)[1..] == t;
    } else {
      var s := p + [c] + t;
      assert s[0] == p[0] && s[1..] == p[1..] + [c] + t;
      assert Avoids(p[1..], seps);
      SplitAfterPiece(p[1..], c, t, seps);
      assert [p[0]] + p[1..] == p;
    }
  }

  /** Joining pieces that contain no separator, then splitting, gives the
      pieces back. */
  lemma {:induction false} SplitJoin(parts: seq<string>, sep: char)
    requires |parts| >= 1
    requires forall i :: 0 <= i < |parts| ==> Avoids(parts[i], {sep})
    ensures Split(Join(parts, sep), {sep}) == parts
    decreases |parts|
  {
    if |parts| == 1 {
      SplitAvoiding(parts[0], {sep});
    } else {
      SplitAfterPiece(parts[0], sep, Join(parts[1..], sep), {sep});
      SplitJoin(parts[1..], sep);
      assert [parts[0]] + parts[1..] == parts;
    }
  }

  /** Splitting, then joining with the one separator, gives the string back. */
  lemma {:induction false} JoinSplit(s: string, sep: char)
    ensures Join(Split(s, {sep}), sep) == s
    decreases |s|
  {
    if s != [] {
      var rest := Split(s[1..], {sep});
      JoinSplit(s[1..], sep);
      if s[0] == sep {
        assert Split(s, {sep}) == [[]] + rest;
        assert ([[]] + rest)[1..] == rest;
        assert s == [sep] + s[1..];
      } else {
        var parts := Split(s, {sep});
        assert parts == [[s[0]] + rest[0]] + rest[1..];
        if |rest| == 1 {
          assert Join(parts, sep) == [s[0]] + rest[0];
        } else {
          assert parts[1..] == rest[1..];
          assert Join(rest, sep) == rest[0] + [sep] + Join(rest[1..], sep);
        }
        assert s == [s[0]] + s[1..];
      }
    }
  }

  /** Joining one more piece onto the end. */
  lemma {:induction false} JoinSnoc(parts: seq<string>, x: string, sep: char)
    requires |parts| >= 1
    ensures Join(parts + [x], sep) == Join(parts, sep) + [sep] + x
    decreases |parts|
  {
    if |parts| > 1 {
      assert (parts + [x])[1..] == parts[1..] + [x];
      JoinSnoc(parts[1..], x, sep);
    }
  }

  lemma AvoidsConcat(a: string, b: string, cs: set<char>)
    requires Avoids(a, cs) && Avoids(b, cs)
    ensures Avoids(a + b, cs)
  {
    forall j | 0 <= j < |a + b| ensures (a + b)[j] !in cs {
      if j >= |a| { assert (a + b)[j] == b[j - |a|]; }
    }
  }

  predicate IsDigit(c: char) { '0' <= c <= '9' }

  function DigitChar(d: nat): (c: char)
    requires d < 10
    ensures IsDigit(c) && c as int - '0' as int == d
  {
    ['0', '1', '2', '3', '4', '5', '6', '7', '8', '9'][d]
  }

  /** Python's `str(n)` for a non-negative integer: its decimal digits, most
      significant first, with no leading zero. */
  function NatToString(n: nat): (s: string)
    ensures |s| >= 1
    ensures forall j :: 0 <= j < |s| ==> IsDigit(s[j])
    decreases n
  {
    if n < 10 then [DigitChar(n)] else NatToString(n / 10) + [DigitChar(n % 10)]
  }

  /** The number a string of decimal digits denotes. */
  function DigitsValue(s: string): nat
    requires forall j :: 0 <= j < |s| ==> IsDigit(s[j])
  {
    if s == [] then 0
    else
      var last := s[|s| - 1];
      assert IsDigit(last);
      DigitsValue(s[..|s| - 1]) * 10 + (last as int - '0' as int)
  }

  /** Reading back the decimal rendering gives the number. */
  lemma {:induction false} NatToStringValue(n: nat)
    ensures DigitsValue(NatToString(n)) == n
    decreases n
  {
    if n >= 10 {
      var s := NatToString(n);
      assert s[..|s| - 1] == NatToString(n / 10);
      NatToStringValue(n / 10);
    }
  }

  /** Python's `str(i)` for any integer. */
  function IntToString(i: int): (s: string)
    ensures i >= 0 ==> s == NatToString(i)
    ensures i < 0 ==> s == "-" + NatToString(-i)
  {
    if i < 0 then "-" + NatToString(-i) else NatToString(i)
  }

  /** A rendering starts with '-' exactly when the integer is negative. */
  lemma IntToStringSign(i: int)
    ensures |IntToString(i)| >= 1
    ensures IntToString(i)[0] == '-' <==> i < 0
  {
    if i >= 0 { assert IsDigit(NatToString(i)[0]); }
  }

  /** Distinct naturals render differently. */
  lemma NatToStringInjective(m: nat, n: nat)
    requires NatToString(m) == NatToString(n)
    ensures m == n
  {
    NatToStringValue(m);
    NatToStringValue(n);
  }

  /** After the '-' of a negative rendering come the digits of its magnitude. */
  lemma NegativeRendering(i: int)
    requires i < 0
    ensures IntToString(i)[1..] == NatToString(-i)
  {
    var a := NatToString(-i);
    assert ("-" + a)[1..] == a;
  }

  /** Distinct integers render differently. */
  lemma IntToStringInjective(i: int, j: int)
    requires IntToString(i) == IntToString(j)
    ensures i == j
  {
    IntToStringSign(i);
    IntToStringSign(j);
    if i >= 0 && j >= 0 {
      NatToStringInjective(i, j);
    } else if i < 0 && j < 0 {
      NegativeRendering(i);
      NegativeRendering(j);
      NatToStringInjective(-i, -j);
    }
  }

  /** A decimal rendering contains no character outside digits and '-'. */
  lemma IntToStringAvoids(i: int, cs: set<char>)
    requires forall c :: c in cs ==> !IsDigit(c) && c != '-'
    ensures Avoids(IntToString(i), cs)
  {
    var s := IntToString(i);
    forall j | 0 <= j < |s| ensures s[j] !in cs {
      if i < 0 && j > 0 { assert s[j] == NatToString(-i)[j - 1]; }
    }
  }
}
