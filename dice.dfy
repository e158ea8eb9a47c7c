/**
 * The argument check of the `roll` command: the argument is accepted only
 * when splitting it on 'd' gives exactly two parts and both convert to
 * integers. Only plain decimal digits are accepted
 * here.
 */
module Dice {
  import opened Wrappers

  /** A well-formed `NdN` request. */
  datatype Roll = Roll(rolls: nat, limit: nat)

  /** `str.join`: the parts with `sep` between neighbours. */
  function Join(parts: seq<string>, sep: char): string
    requires |parts| >= 1
  {
    if |parts| == 1 then parts[0] else parts[0] + [sep] + Join(parts[1..], sep)
  }

  /** `str.split(sep)`: the maximal runs between separators. */
  function Split(s: string, sep: char): (parts: seq<string>)
    ensures |parts| >= 1
  {
    if s == [] then [[]]
    else
      var rest := Split(s[1..], sep);
      if s[0] == sep then [[]] + rest
      else [[s[0]] + rest[0]] + rest[1..]
  }

  /** There is one more part than there are separators. */
  lemma {:induction false} SplitCount(s: string, sep: char)
    ensures |Split(s, sep)| == multiset(s)[sep] + 1
  {
    if s != [] {
      SplitCount(s[1..], sep);
      assert s == [s[0]] + s[1..];
      assert multiset(s) == multiset{s[0]} + multiset(s[1..]);
    }
  }

  /** No part holds the separator. */
  lemma {:induction false} SplitPartsFree(s: string, sep: char)
    ensures forall i :: 0 <= i < |Split(s, sep)| ==> sep !in Split(s, sep)[i]
  {
    if s != [] {
      SplitPartsFree(s[1..], sep);
      var rest := Split(s[1..], sep);
      if s[0] != sep {
        var parts := Split(s, sep);
        assert forall i :: 1 <= i < |parts| ==> parts[i] == rest[i];
      }
    }
  }

  /** Joining the parts with the separator gives the string back. */
  lemma {:induction false} SplitJoin(s: string, sep: char)
    ensures Join(Split(s, sep), sep) == s
  {
    if s != [] {
      SplitJoin(s[1..], sep);
      var rest := Split(s[1..], sep);
      var parts := Split(s, sep);
      if s[0] == sep {
        assert parts[1..] == rest;
      } else if |rest| == 1 {
        assert parts == [[s[0]] + rest[0]];
      } else {
        assert parts[1..] == rest[1..];
        assert Join(rest, sep) == rest[0] + [sep] + Join(rest[1..], sep);
        assert Join(parts, sep) == [s[0]] + rest[0] + [sep] + Join(rest[1..], sep);
      }
    }
  }

  predicate IsDigit(c: char)
  {
    '0' <= c <= '9'
  }

  /** The value of one decimal digit. */
  function DigitValue(c: char): (d: nat)
    requires IsDigit(c)
    ensures d < 10
  {
    c as int - '0' as int
  }

  /** The value of a string of decimal digits, most significant first. */
  function DigitsValue(s: string): nat
    requires forall i :: 0 <= i < |s| ==> IsDigit(s[i])
  {
    if s == [] then 0
    else DigitsValue(s[..|s| - 1]) * 10 + DigitValue(s[|s| - 1])
  }

  /** `int(s)`, restricted to non-empty strings of decimal digits. */
  function ParseDecimal(s: string): Option<nat>
  {
    if s != [] && forall i :: 0 <= i < |s| ==> IsDigit(s[i]) then Some(DigitsValue(s)) else None
  }

  /** `str(n)` for a natural number: its decimal digits without leading zeros. */
  function ShowDecimal(n: nat): (s: string)
    ensures s != [] && forall i :: 0 <= i < |s| ==> IsDigit(s[i])
  {
    var last := [(n % 10 + '0' as int) as char];
    if n < 10 then last else ShowDecimal(n / 10) + last
  }

  /** Printing a number and parsing it back gives the number. */
  lemma {:induction false} ParseShowDecimal(n: nat)
    ensures ParseDecimal(ShowDecimal(n)) == Some(n)
    ensures DigitsValue(ShowDecimal(n)) == n
  {
    var s := ShowDecimal(n);
    assert DigitValue(s[|s| - 1]) == n % 10;
    if n >= 10 {
      ParseShowDecimal(n / 10);
      assert s[..|s| - 1] == ShowDecimal(n / 10);
      assert DigitsValue(s) == (n / 10) * 10 + n % 10;
    } else {
      assert s[..|s| - 1] == [];
    }
    assert DigitsValue(s) == n;
  }

  /**
   * The `roll` argument check: None where Python's unpacking or `int()`
   * raises and the bot answers 'Format has to be in NdN!'.
   */
  function ParseRoll(dice: string): (r: Option<Roll>)
    ensures r.Some? ==> multiset(dice)['d'] == 1
  {
    SplitCount(dice, 'd');
    var parts := Split(dice, 'd');
    if |parts| != 2 then None
    else
      match (ParseDecimal(parts[0]), ParseDecimal(parts[1]))
      case (Some(rolls), Some(limit)) => Some(Roll(rolls, limit))
      case _ => None
  }

  /** A string without the separator splits into itself alone. */
  lemma {:induction false} SplitNoSeparator(b: string, sep: char)
    requires sep !in b
    ensures Split(b, sep) == [b]
  {
    if b != [] {
      assert b[0] in b && b[0] != sep;
      assert forall c :: c in b[1..] ==> c in b;
      SplitNoSeparator(b[1..], sep);
      assert [b[0]] + b[1..] == b;
    }
  }

  /** A leading part without the separator comes off as the first part. */
  lemma {:induction false} SplitLeading(a: string, b: string, sep: char)
    requires sep !in a
    ensures Split(a + [sep] + b, sep) == [a] + Split(b, sep)
  {
    var s := a + [sep] + b;
    if a == [] {
      assert s[0] == sep && s[1..] == b;
    } else {
      assert s[0] == a[0] && a[0] != sep;
      assert s[1..] == a[1..] + [sep] + b;
      SplitLeading(a[1..], b, sep);
      var rest := Split(s[1..], sep);
      assert rest == [a[1..]] + Split(b, sep);
      assert [s[0]] + rest[0] == a;
    }
  }

  /** Splitting `a + sep + b` gives `a` and `b` back when neither holds `sep`. */
  lemma SplitAround(a: string, b: string, sep: char)
    requires sep !in a && sep !in b
    ensures Split(a + [sep] + b, sep) == [a, b]
  {
    SplitLeading(a, b, sep);
    SplitNoSeparator(b, sep);
  }

  /** Every well-formed request printed as `NdN` parses back to itself. */
  lemma ParseRollShown(roll: Roll)
    ensures ParseRoll(ShowDecimal(roll.rolls) + "d" + ShowDecimal(roll.limit)) == Some(roll)
  {
    var a, b := ShowDecimal(roll.rolls), ShowDecimal(roll.limit);
    assert forall i :: 0 <= i < |a| ==> a[i] != 'd';
    assert forall i :: 0 <= i < |b| ==> b[i] != 'd';
    SplitAround(a, b, 'd');
    ParseShowDecimal(roll.rolls);
    ParseShowDecimal(roll.limit);
  }

  /**
   * An accepted argument is two decimal strings around a single 'd', and the
   * request holds their values.
   */
  lemma ParseRollSides(s: string, roll: Roll)
    requires ParseRoll(s) == Some(roll)
    ensures exists a, b :: && s == a + "d" + b && 'd' !in a && 'd' !in b
                           && ParseDecimal(a) == Some(roll.rolls) && ParseDecimal(b) == Some(roll.limit)
  {
    SplitCount(s, 'd');
    SplitJoin(s, 'd');
    SplitPartsFree(s, 'd');
    var parts := Split(s, 'd');
    assert Join(parts[1..], 'd') == parts[1];
    assert s == parts[0] + "d" + parts[1];
  }

  /**
   * Conversely, any two decimal strings around a 'd' (leading zeros allowed,
   * as `int` allows them) are accepted with their values.
   */
  lemma ParseRollOfSides(a: string, b: string, rolls: nat, limit: nat)
    requires ParseDecimal(a) == Some(rolls) && ParseDecimal(b) == Some(limit)
    ensures ParseRoll(a + "d" + b) == Some(Roll(rolls, limit))
  {
    assert forall i :: 0 <= i < |a| ==> a[i] != 'd';
    assert forall i :: 0 <= i < |b| ==> b[i] != 'd';
    SplitAround(a, b, 'd');
  }

  /** A missing side, as in "d6" or "2d", is refused, as `int` refuses an empty string. */
  lemma ParseRollNeedsBothSides(s: string)
    requires 'd' !in s
    ensures ParseRoll("d" + s) == None && ParseRoll(s + "d") == None
  {
    SplitAround([], s, 'd');
    SplitAround(s, [], 'd');
    assert [] + ['d'] + s == "d" + s;
    assert s + ['d'] + [] == s + "d";
  }
}
