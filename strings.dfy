/**
 * The few JavaScript string operations the bot relies on, stated over
 * `seq<char>`: `startsWith`, `split(' ')`, `toUpperCase` on ASCII words,
 * the decimal printing of an integral number, and counting the messages
 * that begin with a given prefix.
 */
module Strings {

  /** `s.startsWith(prefix)` */
  predicate StartsWith(s: string, prefix: string)
  {
    |prefix| <= |s| && s[..|prefix|] == prefix
  }

  /** A prefix of the first operand is still a prefix after appending to it. */
  lemma StartsWithAppend(p: string, x: string, q: string)
    requires |q| <= |p|
    ensures StartsWith(p + x, q) == StartsWith(p, q)
  {
    assert (p + x)[..|q|] == p[..|q|];
  }

  /**
   * `s.split(' ')`: the pieces between single spaces. Two adjacent spaces
   * give an empty piece, and the empty string gives one empty piece.
   */
  function Split(s: string): (parts: seq<string>)
    ensures |parts| >= 1
    ensures forall k :: 0 <= k < |parts| ==> ' ' !in parts[k]
  {
    if s == [] then [""]
    else
      var rest := Split(s[1..]);
      if s[0] == ' ' then [""] + rest
      else [[s[0]] + rest[0]] + rest[1..]
  }

  /** `parts.join(' ')` */
  function Join(parts: seq<string>): string
    requires |parts| >= 1
  {
    if |parts| == 1 then parts[0] else parts[0] + " " + Join(parts[1..])
  }

  /** Joining the pieces of a split gives back the original text. */
  lemma {:induction false} JoinSplit(s: string)
    ensures Join(Split(s)) == s
  {
    if s != [] {
      JoinSplit(s[1..]);
      var rest := Split(s[1..]);
      if s[0] == ' ' {
        assert Split(s) == [""] + rest;
        assert ([""] + rest)[1..] == rest;
      } else {
        var parts := [[s[0]] + rest[0]] + rest[1..];
        assert Split(s) == parts;
        if |rest| == 1 {
          assert Join(rest) == rest[0];
        } else {
          assert parts[1..] == rest[1..];
          assert Join(rest) == rest[0] + " " + Join(rest[1..]);
          assert Join(parts) == [s[0]] + (rest[0] + " " + Join(rest[1..]));
        }
        assert s == [s[0]] + s[1..];
      }
    }
  }

  /** Splitting text that opens with a space-free word glues that word onto the first piece. */
  lemma {:induction false} SplitAfterWord(a: string, t: string)
    requires ' ' !in a
    ensures Split(a + t) == [a + Split(t)[0]] + Split(t)[1..]
  {
    if a == [] {
      assert a + t == t;
      var parts := Split(t);
      assert a + parts[0] == parts[0];
      assert parts == [parts[0]] + parts[1..];
    } else {
      SplitAfterWord(a[1..], t);
      assert (a + t)[0] == a[0];
      assert (a + t)[1..] == a[1..] + t;
      assert [a[0]] + (a[1..] + Split(t)[0]) == a + Split(t)[0];
    }
  }

  /** Splitting the join of space-free pieces gives back the pieces. */
  lemma {:induction false} SplitJoin(parts: seq<string>)
    requires |parts| >= 1
    requires forall k :: 0 <= k < |parts| ==> ' ' !in parts[k]
    ensures Split(Join(parts)) == parts
  {
    if |parts| == 1 {
      SplitAfterWord(parts[0], "");
      assert parts[0] + "" == parts[0];
    } else {
      var tail := Join(parts[1..]);
      SplitJoin(parts[1..]);
      assert Join(parts) == parts[0] + (" " + tail);
      SplitAfterWord(parts[0], " " + tail);
      assert (" " + tail)[1..] == tail;
      assert Split(" " + tail) == [""] + parts[1..];
      assert parts[0] + "" == parts[0];
      assert parts == [parts[0]] + parts[1..];
    }
  }

  /** `s.toUpperCase()` on ASCII text. */
  function ToUpper(s: string): string
  {
    if s == [] then [] else [UpperChar(s[0])] + ToUpper(s[1..])
  }

  /**
   * Upper-casing keeps the length; each lower-case ASCII letter becomes its
   * capital, 32 code points lower, every other character is kept, and no
   * lower-case letter is left.
   */
  lemma {:induction false} ToUpperCapitals(s: string)
    ensures |ToUpper(s)| == |s|
    ensures forall i :: 0 <= i < |s| ==> !('a' <= ToUpper(s)[i] <= 'z')
    ensures forall i :: 0 <= i < |s| ==> ('a' <= s[i] <= 'z' ==> ToUpper(s)[i] as int == s[i] as int - 32)
    ensures forall i :: 0 <= i < |s| ==> (!('a' <= s[i] <= 'z') ==> ToUpper(s)[i] == s[i])
  {
    if s != [] {
      ToUpperCapitals(s[1..]);
      assert forall i :: 1 <= i < |s| ==> ToUpper(s)[i] == ToUpper(s[1..])[i - 1];
    }
  }

  function UpperChar(c: char): char
  {
    if 'a' <= c <= 'z' then (c as int - 32) as char else c
  }

  function DigitChar(d: nat): char
    requires d < 10
  {
    ('0' as int + d) as char
  }

  /** Decimal printing of a natural number, most significant digit first. */
  function NatToText(n: nat): string
  {
    if n < 10 then [DigitChar(n)] else NatToText(n / 10) + [DigitChar(n % 10)]
  }

  /** How JavaScript prints an integral number in a template literal. */
  function IntToText(i: int): string
  {
    if i < 0 then "-" + NatToText(-i) else NatToText(i)
  }

  /** The value of a string of decimal digits, read most significant first. */
  function DigitsValue(s: string): nat
  {
    if s == [] then 0
    else DigitsValue(s[..|s| - 1]) * 10 + (if '0' <= s[|s| - 1] <= '9' then s[|s| - 1] as int - '0' as int else 0)
  }

  /**
   * The printed number is made of digits, has no leading zero unless it is
   * zero itself, and reads back as the number.
   */
  lemma {:induction false} NatToTextValue(n: nat)
    ensures |NatToText(n)| >= 1
    ensures forall k :: 0 <= k < |NatToText(n)| ==> '0' <= NatToText(n)[k] <= '9'
    ensures NatToText(n)[0] == '0' ==> n == 0
    ensures DigitsValue(NatToText(n)) == n
  {
    if n < 10 {
      assert NatToText(n)[..0] == [];
    } else {
      NatToTextValue(n / 10);
      var head := NatToText(n / 10);
      assert NatToText(n)[..|NatToText(n)| - 1] == head;
    }
  }

  /** A negative number prints as a minus sign and its magnitude; any other as its digits alone. */
  lemma IntToTextValue(i: int)
    ensures i >= 0 ==> DigitsValue(IntToText(i)) == i && IntToText(i)[0] != '-'
    ensures i < 0 ==> IntToText(i)[0] == '-' && DigitsValue(IntToText(i)[1..]) == -i
  {
    if i >= 0 {
      NatToTextValue(i);
    } else {
      NatToTextValue(-i);
      assert IntToText(i)[1..] == NatToText(-i);
    }
  }

  /** The number of messages that begin with `prefix`. */
  function CountWithPrefix(msgs: seq<string>, prefix: string): nat
  {
    if msgs == [] then 0
    else CountWithPrefix(msgs[..|msgs| - 1], prefix)
         + (if StartsWith(msgs[|msgs| - 1], prefix) then 1 else 0)
  }
}
