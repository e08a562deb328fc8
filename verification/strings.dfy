/**
  Text operations the JavaScript source relies on: `startsWith`, `split` on a
  one-character separator, joining with a separator, counting a character,
  and the decimal `toString` of the non-negative integers that serve as
  database ids.
 */
module Strings {

  predicate StartsWith(s: string, prefix: string) {
    |prefix| <= |s| && s[..|prefix|] == prefix
  }

  /** Number of occurrences of `c` in `s`. */
  function Count(s: string, c: char): nat
  {
    if s == [] then 0 else (if s[0] == c then 1 else 0) + Count(s[1..], c)
  }

  lemma {:induction false} CountConcat(a: string, b: string, c: char)
    ensures Count(a + b, c) == Count(a, c) + Count(b, c)
  {
    if a == [] {
      assert a + b == b;
    } else {
      assert (a + b)[1..] == a[1..] + b;
      CountConcat(a[1..], b, c);
    }
  }

  lemma {:induction false} CountAbsent(s: string, c: char)
    ensures Count(s, c) == 0 <==> c !in s
  {
    if s != [] {
      CountAbsent(s[1..], c);
      assert c in s <==> s[0] == c || c in s[1..];
    }
  }

  /** Position of the first `c` in `s`, as JavaScript's `indexOf`. */
  function IndexOf(s: string, c: char): (i: nat)
    requires c in s
    ensures i < |s| && s[i] == c && c !in s[..i]
  {
    if s[0] == c then 0 else 1 + IndexOf(s[1..], c)
  }

  /** Past the first `c` there is one `c` fewer. */
  lemma CountAfterFirst(s: string, c: char)
    requires c in s
    ensures Count(s, c) == Count(s[IndexOf(s, c) + 1..], c) + 1
  {
    var i := IndexOf(s, c);
    CountConcat(s[..i], s[i..], c);
    CountAbsent(s[..i], c);
    assert s[..i] + s[i..] == s;
    assert s[i..] == [c] + s[i + 1..];
    CountConcat([c], s[i + 1..], c);
  }

  /** The first `c` is at `j` when `s[j]` is `c` and nothing before it is. */
  lemma {:induction false} IndexOfUnique(s: string, c: char, j: nat)
    requires j < |s| && s[j] == c && c !in s[..j]
    ensures IndexOf(s, c) == j
  {
    if j > 0 {
      assert s[0] == s[..j][0];
      assert s[1..][..j - 1] == s[..j][1..];
      IndexOfUnique(s[1..], c, j - 1);
    }
  }

  /**
    `s.split(sep)` for a one-character separator: the pieces between
    consecutive separators, empty pieces included. There is always one more
    piece than there are separators, and no piece holds the separator.
   */
  function Split(s: string, sep: char): (parts: seq<string>)
    ensures |parts| == Count(s, sep) + 1
    ensures forall k :: 0 <= k < |parts| ==> sep !in parts[k]
    decreases |s|
  {
    if sep in s then
      var i := IndexOf(s, sep);
      CountAfterFirst(s, sep);
      [s[..i]] + Split(s[i + 1..], sep)
    else
      CountAbsent(s, sep);
      [s]
  }

  /** `parts.join(sep)`. */
  function Join(parts: seq<string>, sep: string): string
  {
    if |parts| == 0 then ""
    else if |parts| == 1 then parts[0]
    else parts[0] + sep + Join(parts[1..], sep)
  }

  /** Joining one more piece on the right adds the separator and the piece. */
  lemma {:induction false} JoinSnoc(parts: seq<string>, last: string, sep: string)
    requires |parts| > 0
    ensures Join(parts + [last], sep) == Join(parts, sep) + sep + last
  {
    if |parts| == 1 {
      assert (parts + [last])[1..] == [last];
    } else {
      assert (parts + [last])[1..] == parts[1..] + [last];
      JoinSnoc(parts[1..], last, sep);
    }
  }

  /** Splitting and joining back with the same separator gives the input. */
  lemma {:induction false} JoinOfSplit(s: string, sep: char)
    ensures Join(Split(s, sep), [sep]) == s
    decreases |s|
  {
    if sep in s {
      var i := IndexOf(s, sep);
      JoinOfSplit(s[i + 1..], sep);
      var rest := Split(s[i + 1..], sep);
      assert Split(s, sep) == [s[..i]] + rest;
      assert (Split(s, sep))[1..] == rest;
      assert s == s[..i] + [sep] + s[i + 1..];
    }
  }

  /** Joining separator-free pieces and splitting again recovers the pieces. */
  lemma {:induction false} SplitOfJoin(parts: seq<string>, sep: char)
    requires |parts| > 0
    requires forall k :: 0 <= k < |parts| ==> sep !in parts[k]
    ensures Split(Join(parts, [sep]), sep) == parts
  {
    if |parts| == 1 {
    } else {
      var s := Join(parts, [sep]);
      var tail := Join(parts[1..], [sep]);
      assert s == parts[0] + [sep] + tail;
      var j := |parts[0]|;
      assert s[j] == sep && s[..j] == parts[0];
      IndexOfUnique(s, sep, j);
      var i := IndexOf(s, sep);
      assert s[..i] == parts[0];
      assert s[i + 1..] == tail;
      SplitOfJoin(parts[1..], sep);
    }
  }

  /** The first piece of a split: everything before the first separator. */
  lemma FirstPiece(s: string, sep: char)
    ensures sep in s ==> Split(s, sep)[0] == s[..IndexOf(s, sep)]
    ensures sep !in s ==> Split(s, sep)[0] == s
  {
  }

  /** The first piece is a prefix, followed by the end or by the separator. */
  lemma FirstPieceShape(s: string, sep: char)
    ensures var t := Split(s, sep)[0];
            |t| <= |s| && t == s[..|t|] && (|t| == |s| || s[|t|] == sep)
  {
    FirstPiece(s, sep);
    if sep !in s {
      assert s[..|s|] == s;
    }
  }

  /** The first piece is everything before the first separator, whatever follows it. */
  lemma FirstPieceBefore(a: string, sep: char, b: string)
    requires sep !in a
    ensures Split(a + [sep] + b, sep)[0] == a
  {
    var s := a + [sep] + b;
    assert s[|a|] == sep && s[..|a|] == a;
    IndexOfUnique(s, sep, |a|);
  }

  // Decimal digits.

  predicate IsDigit(c: char) {
    '0' <= c <= '9'
  }

  function DigitChar(d: nat): (c: char)
    requires d < 10
    ensures IsDigit(c)
  {
    (d + '0' as int) as char
  }

  function DigitValue(c: char): (d: nat)
    requires IsDigit(c)
    ensures d < 10 && DigitChar(d) == c
  {
    (c as int - '0' as int)
  }

  predicate AllDigits(s: string) {
    forall k :: 0 <= k < |s| ==> IsDigit(s[k])
  }

  /**
    `n.toString()` for a non-negative integer: its shortest decimal
    numeral, digits only, with no leading zero except for zero itself.
   */
  function NatToString(n: nat): (r: string)
    ensures |r| >= 1 && AllDigits(r)
    ensures |r| > 1 ==> r[0] != '0'
    ensures n < 10 <==> |r| == 1
  {
    if n < 10 then [DigitChar(n)] else NatToString(n / 10) + [DigitChar(n % 10)]
  }

  /** `String(i)` for an integer: a minus sign for negatives. */
  function IntToString(i: int): string
  {
    if i < 0 then "-" + NatToString(-i) else NatToString(i)
  }

  /** The value of a numeral written in decimal digits. */
  function ParseDigits(s: string): nat
    requires AllDigits(s)
  {
    if s == [] then 0 else 10 * ParseDigits(s[..|s| - 1]) + DigitValue(s[|s| - 1])
  }

  /** Reading back the decimal form of a number gives the number. */
  lemma {:induction false} ParseNatToString(n: nat)
    ensures ParseDigits(NatToString(n)) == n
  {
    if n >= 10 {
      ParseNatToString(n / 10);
      var s := NatToString(n);
      assert s[..|s| - 1] == NatToString(n / 10);
    }
  }

  /** Distinct numbers have distinct decimal forms, so ids can be compared as strings. */
  lemma NatToStringInjective(a: nat, b: nat)
    ensures NatToString(a) == NatToString(b) <==> a == b
  {
    if NatToString(a) == NatToString(b) {
      ParseNatToString(a);
      ParseNatToString(b);
    }
  }
}
