/** Separator-joined text and decimal numerals, with the facts that make such text readable back. */
module Text {

  /** Two texts that agree, cut at the first occurrence of a separator, agree on both sides of the cut. */
  lemma CutAtFirst(a: string, x: string, b: string, y: string, c: char)
    requires c !in a && c !in b
    requires a + [c] + x == b + [c] + y
    ensures a == b && x == y
  {
    var whole := a + [c] + x;
    assert whole == b + [c] + y;
    assert whole[|a|] == c && whole[|b|] == c;
    assert forall i | 0 <= i < |a| :: whole[i] == a[i];
    assert forall i | 0 <= i < |b| :: whole[i] == b[i];
    assert a == whole[..|a|] == b;
    assert x == whole[|a| + 1..] == y;
  }

  /** The same, cut at the last occurrence. */
  lemma CutAtLast(a: string, x: string, b: string, y: string, c: char)
    requires c !in x && c !in y
    requires a + [c] + x == b + [c] + y
    ensures a == b && x == y
  {
    var whole := a + [c] + x;
    assert whole == b + [c] + y;
    assert whole[|a|] == c && whole[|b|] == c;
    assert forall i | |a| < i < |whole| :: whole[i] == x[i - |a| - 1];
    assert forall i | |b| < i < |whole| :: whole[i] == y[i - |b| - 1];
    assert a == whole[..|a|] == b;
    assert x == whole[|a| + 1..] == y;
  }

  predicate IsDigit(c: char) {
    '0' <= c <= '9'
  }

  /** Base-ten numeral of a natural number, as the verb %d prints it. */
  function Digits(n: nat): (s: string)
    ensures s != []
    ensures forall i | 0 <= i < |s| :: IsDigit(s[i])
  {
    var last := ['0' + (n % 10) as char];
    if n < 10 then last else Digits(n / 10) + last
  }

  function ReadDigits(s: string): nat
    requires forall i | 0 <= i < |s| :: IsDigit(s[i])
  {
    if s == [] then 0 else
    assert IsDigit(s[|s| - 1]);
    10 * ReadDigits(s[..|s| - 1]) + (s[|s| - 1] as int - '0' as int)
  }

  lemma {:induction false} ReadDigitsOfDigits(n: nat)
    ensures ReadDigits(Digits(n)) == n
  {
    var s := Digits(n);
    if n < 10 {
      assert s[..0] == [];
    } else {
      ReadDigitsOfDigits(n / 10);
      assert s[..|s| - 1] == Digits(n / 10);
    }
  }

  /** The numerals are the digit texts without needless zeros in front: there is one for each number. */
  lemma {:induction false} DigitsOfReadDigits(s: string)
    requires IsNumeral(s)
    ensures Digits(ReadDigits(s)) == s
  {
    var front, last := s[..|s| - 1], s[|s| - 1];
    assert s == front + [last];
    assert IsDigit(last);
    if front != [] {
      assert IsNumeral(front);
      DigitsOfReadDigits(front);
      NumeralIsPositive(front);
    }
  }

  predicate IsNumeral(s: string) {
    s != [] && (forall i | 0 <= i < |s| :: IsDigit(s[i])) && (|s| == 1 || s[0] != '0')
  }

  lemma {:induction false} NumeralIsPositive(s: string)
    requires IsNumeral(s) && s[0] != '0'
    ensures ReadDigits(s) > 0
  {
    assert IsDigit(s[0]);
    if |s| > 1 {
      NumeralIsPositive(s[..|s| - 1]);
    } else {
      assert s[..0] == [];
    }
  }

  lemma {:induction false} DigitsIsNumeral(n: nat)
    ensures IsNumeral(Digits(n))
    ensures n > 0 ==> Digits(n)[0] != '0'
  {
    if n >= 10 {
      DigitsIsNumeral(n / 10);
      assert Digits(n)[0] == Digits(n / 10)[0];
    }
  }

  /** The fields between the separators of a text. */
  function Fields(s: string, c: char): (fields: seq<string>)
    ensures fields != []
  {
    if s == [] then [""]
    else if s[0] == c then [""] + Fields(s[1..], c)
    else
      var rest := Fields(s[1..], c);
      [[s[0]] + rest[0]] + rest[1..]
  }

  lemma {:induction false} FieldsCut(a: string, x: string, c: char)
    requires c !in a
    ensures Fields(a + [c] + x, c) == [a] + Fields(x, c)
  {
    var s := a + [c] + x;
    if a == [] {
      assert s[1..] == x;
    } else {
      assert s[0] == a[0] != c && s[1..] == a[1..] + [c] + x && a == [a[0]] + a[1..];
      FieldsCut(a[1..], x, c);
      assert ([a[1..]] + Fields(x, c))[1..] == Fields(x, c);
    }
  }

  lemma {:induction false} OneField(a: string, c: char)
    requires c !in a
    ensures Fields(a, c) == [a]
  {
    if a != [] {
      OneField(a[1..], c);
      assert a[0] != c && a == [a[0]] + a[1..];
    }
  }

  /** The text is its first field, and what the other fields are those of. */
  lemma {:induction false} FieldsJoin(s: string, c: char) returns (x: string)
    ensures var f := Fields(s, c);
            if |f| == 1 then s == f[0] else s == f[0] + [c] + x && Fields(x, c) == f[1..]
  {
    x := "";
    if s != [] {
      if s[0] == c {
        x := s[1..];
      } else {
        x := FieldsJoin(s[1..], c);
        assert s == [s[0]] + s[1..];
      }
    }
  }

  /** A number is read back off the front of a text that goes on with a dot. */
  lemma ReadFront(m: nat, x: string, n: nat, y: string)
    requires Digits(m) + "." + x == Digits(n) + "." + y
    ensures m == n && x == y
  {
    CutAtFirst(Digits(m), x, Digits(n), y, '.');
    ReadDigitsOfDigits(m);
    ReadDigitsOfDigits(n);
  }

  function Decimal(n: int): (s: string)
    ensures s != []
    ensures forall i | 0 <= i < |s| :: IsDigit(s[i]) || s[i] == '-'
  {
    if n < 0 then "-" + Digits(-n) else Digits(n)
  }

  lemma DecimalInjective(m: int, n: int)
    requires Decimal(m) == Decimal(n)
    ensures m == n
  {
    if m < 0 && n < 0 {
      assert Decimal(m)[1..] == Digits(-m) && Decimal(n)[1..] == Digits(-n);
    }
    assert (m < 0) == (Decimal(m)[0] == '-') == (Decimal(n)[0] == '-') == (n < 0);
    ReadDigitsOfDigits(if m < 0 then -m else m);
    ReadDigitsOfDigits(if n < 0 then -n else n);
  }
}
