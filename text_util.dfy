/**
 * The two string utilities the session code relies on: `TextUtils.join`, which
 * builds the login scope, and the part of `Long.parseLong` that turns an
 * `expires_in` value into a number.
 */
module TextUtil {

  /**
   * `TextUtils.join(sep, parts)`: the parts with `sep` between neighbours, so the
   * result is empty for no parts and otherwise starts with the first part.
   */
  function Join(sep: string, parts: seq<string>): (r: string)
    ensures |parts| == 0 ==> r == ""
    ensures |parts| > 0 ==> parts[0] <= r
  {
    if |parts| == 0 then ""
    else if |parts| == 1 then parts[0]
    else parts[0] + sep + Join(sep, parts[1..])
  }

  /** The index of the first occurrence of `c` in `s`. */
  function IndexOf(s: string, c: char): (i: nat)
    requires c in s
    ensures i < |s| && s[i] == c && c !in s[..i]
  {
    if s[0] == c then 0
    else
      var k := IndexOf(s[1..], c);
      assert s[1..][..k] == s[1..k + 1];
      k + 1
  }

  /**
   * Splitting at every `sep`; the reference reading of a joined scope (the
   * server side reads the scope as space-separated permissions).
   */
  function Split(s: string, sep: char): (parts: seq<string>)
    ensures |parts| >= 1
    decreases |s|
  {
    if sep !in s then [s]
    else
      var i := IndexOf(s, sep);
      [s[..i]] + Split(s[i + 1..], sep)
  }

  /** No part contains the separator character. */
  predicate NoneContains(parts: seq<string>, sep: char)
  {
    forall i :: 0 <= i < |parts| ==> sep !in parts[i]
  }

  /** Joining with a one-character separator can be undone by splitting, as long as no part contains it. */
  lemma {:induction false} SplitJoin(parts: seq<string>, sep: char)
    requires |parts| >= 1
    requires NoneContains(parts, sep)
    ensures Split(Join([sep], parts), sep) == parts
  {
    if |parts| == 1 {
      assert sep !in parts[0];
    } else {
      var head, rest := parts[0], parts[1..];
      assert sep !in head;
      assert NoneContains(rest, sep) by {
        forall i | 0 <= i < |rest| ensures sep !in rest[i] {
          assert rest[i] == parts[i + 1];
        }
      }
      var tail := Join([sep], rest);
      var s := head + [sep] + tail;
      assert Join([sep], parts) == s;
      assert s[|head|] == sep;
      var i := IndexOf(s, sep);
      assert s[..|head|] == head;
      assert s[..i] == head;
      assert s[i + 1..] == tail;
      SplitJoin(rest, sep);
      assert Split(s, sep) == [head] + Split(tail, sep);
    }
  }

  predicate IsDigit(c: char)
  {
    '0' <= c <= '9'
  }

  predicate AllDigits(s: string)
  {
    forall i :: 0 <= i < |s| ==> IsDigit(s[i])
  }

  /** A non-empty run of decimal digits. */
  predicate IsDecimal(s: string)
  {
    |s| > 0 && AllDigits(s)
  }

  /** The numerals `Long.parseLong` accepts, apart from the range of `long`: an optional '-' and digits. */
  predicate IsLongNumeral(s: string)
  {
    if |s| > 0 && s[0] == '-' then IsDecimal(s[1..]) else IsDecimal(s)
  }

  /** The value of a run of decimal digits, read left to right. */
  function DigitsValue(s: string): (v: int)
    requires AllDigits(s)
    ensures v >= 0
    decreases |s|
  {
    if |s| == 0 then 0
    else
      var prefix := s[..|s| - 1];
      assert AllDigits(prefix) by {
        forall i | 0 <= i < |prefix| ensures IsDigit(prefix[i]) {
          assert prefix[i] == s[i];
        }
      }
      DigitsValue(prefix) * 10 + (s[|s| - 1] as int - '0' as int)
  }

  /** `Long.parseLong` on an in-range numeral. */
  function LongValue(s: string): (v: int)
    requires IsLongNumeral(s)
    ensures s[0] != '-' ==> v >= 0 && v == DigitsValue(s)
    ensures s[0] == '-' ==> v <= 0 && v == -DigitsValue(s[1..])
  {
    if s[0] == '-' then -DigitsValue(s[1..]) else DigitsValue(s)
  }

  /** A run of digits has value zero exactly when every digit is '0', however many there are. */
  lemma {:induction false} DigitsValueZeroIff(s: string)
    requires AllDigits(s)
    ensures DigitsValue(s) == 0 <==> forall i :: 0 <= i < |s| ==> s[i] == '0'
  {
    if |s| > 0 {
      var p := s[..|s| - 1];
      assert AllDigits(p) by {
        forall i | 0 <= i < |p| ensures IsDigit(p[i]) {
          assert p[i] == s[i];
        }
      }
      DigitsValueZeroIff(p);
      assert forall i :: 0 <= i < |p| ==> p[i] == s[i];
      if DigitsValue(s) == 0 {
        assert DigitsValue(p) == 0 && s[|s| - 1] == '0';
      }
    }
  }
}
