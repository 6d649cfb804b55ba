/**
 * The visited-table key of a state: the decimal amounts of its containers,
 * in container order, joined by commas ("3,0,9").
 */
module StateKeys {
  import opened Containers

  /** The decimal digit character for 0..9. */
  function DigitChar(d: int): (ch: char)
    requires 0 <= d < 10
    ensures '0' <= ch <= '9'
    ensures ch as int - '0' as int == d
  {
    ('0' as int + d) as char
  }

  /** The decimal form of a natural number, without leading zeros. */
  function NatToString(n: nat): (r: string)
    ensures |r| > 0
    ensures forall i :: 0 <= i < |r| ==> '0' <= r[i] <= '9'
    ensures n < 10 <==> |r| == 1
  {
    if n < 10 then [DigitChar(n)] else NatToString(n / 10) + [DigitChar(n % 10)]
  }

  /** The decimal form of an integer, with a leading '-' when negative. */
  function IntToString(n: int): (r: string)
    ensures |r| > 0
    ensures ',' !in r
    ensures n < 0 <==> r[0] == '-'
  {
    if n < 0 then "-" + NatToString(-n) else NatToString(n)
  }

  /** The amounts, each in decimal, separated by commas. */
  function JoinAmounts(xs: seq<int>): (r: string)
    ensures |xs| == 0 <==> |r| == 0
    ensures |xs| >= 2 <==> ',' in r
  {
    if |xs| == 0 then ""
    else if |xs| == 1 then IntToString(xs[0])
    else IntToString(xs[0]) + "," + JoinAmounts(xs[1..])
  }

  /** The key under which a state is remembered in the visited table. */
  function GetStateKey(s: State): (r: string)
    ensures |s| == 0 <==> |r| == 0
    ensures |s| >= 2 <==> ',' in r
  {
    JoinAmounts(Amounts(s))
  }

  lemma {:induction false} NatToStringInjective(n: nat, m: nat)
    requires NatToString(n) == NatToString(m)
    ensures n == m
  {
    var r := NatToString(n);
    if n >= 10 && m >= 10 {
      assert r[|r| - 1] == DigitChar(n % 10) == DigitChar(m % 10);
      assert r[..|r| - 1] == NatToString(n / 10) == NatToString(m / 10);
      NatToStringInjective(n / 10, m / 10);
    }
  }

  lemma IntToStringInjective(n: int, m: int)
    requires IntToString(n) == IntToString(m)
    ensures n == m
  {
    var r := IntToString(n);
    if n < 0 {
      assert r[1..] == NatToString(-n) == NatToString(-m);
      NatToStringInjective(-n, -m);
    } else {
      NatToStringInjective(n, m);
    }
  }

  /** In `a + "," + r` with a comma-free `a`, the first comma stands right after `a`. */
  lemma CommaPosition(a: string, r: string)
    requires ',' !in a
    ensures (a + "," + r)[|a|] == ','
    ensures forall i :: 0 <= i < |a| ==> (a + "," + r)[i] != ','
  {
  }

  /** Splitting at the first comma is unique. */
  lemma SplitAtComma(a: string, b: string, ra: string, rb: string)
    requires ',' !in a && ',' !in b
    requires a + "," + ra == b + "," + rb
    ensures a == b && ra == rb
  {
    var u := a + "," + ra;
    CommaPosition(a, ra);
    CommaPosition(b, rb);
    assert |a| == |b|;
    assert a == u[..|a|] == b;
    assert ra == u[|a| + 1..] == rb;
  }

  /** Joining with a separator that no decimal form contains loses nothing. */
  lemma {:induction false} JoinAmountsInjective(xs: seq<int>, ys: seq<int>)
    requires JoinAmounts(xs) == JoinAmounts(ys)
    ensures xs == ys
  {
    if |xs| == 1 {
      assert |ys| == 1;
      assert IntToString(xs[0]) == IntToString(ys[0]);
      IntToStringInjective(xs[0], ys[0]);
    } else if |xs| >= 2 {
      assert |ys| >= 2;
      var a, b := IntToString(xs[0]), IntToString(ys[0]);
      var ra, rb := JoinAmounts(xs[1..]), JoinAmounts(ys[1..]);
      assert a + "," + ra == b + "," + rb;
      SplitAtComma(a, b, ra, rb);
      IntToStringInjective(xs[0], ys[0]);
      JoinAmountsInjective(xs[1..], ys[1..]);
      assert xs == [xs[0]] + xs[1..] == [ys[0]] + ys[1..] == ys;
    }
  }

  /** Two states share a key exactly when their amount sequences are equal. */
  lemma GetStateKeyInjective(s: State, t: State)
    ensures GetStateKey(s) == GetStateKey(t) <==> Amounts(s) == Amounts(t)
  {
    if GetStateKey(s) == GetStateKey(t) {
      JoinAmountsInjective(Amounts(s), Amounts(t));
    }
  }
}
