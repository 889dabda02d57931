/** Decimal rendering of integers and the reading of the rendered text. */
module Decimal {
  import opened Types

  predicate IsDigit(c: char) {
    '0' <= c <= '9'
  }

  function Digit(d: nat): (c: char)
    requires d < 10
    ensures IsDigit(c)
  {
    '0' + d as char
  }

  function RenderNat(n: nat): (s: string)
    ensures s != [] && forall i :: 0 <= i < |s| ==> IsDigit(s[i])
  {
    if n < 10 then [Digit(n)] else RenderNat(n / 10) + [Digit(n % 10)]
  }

  /** JavaScript `String(n)` of an integer. */
  function Render(n: int): (s: string)
    ensures s != [] && IsDigit(s[|s| - 1])
    ensures forall i :: 0 <= i < |s| ==> IsDigit(s[i]) || s[i] == '-'
  {
    if n < 0 then ['-'] + RenderNat(-n) else RenderNat(n)
  }

  function ParseNat(s: string): Option<nat> {
    if s == [] || !IsDigit(s[|s| - 1]) then None
    else
      var d := s[|s| - 1] as int - '0' as int;
      if |s| == 1 then Some(d)
      else match ParseNat(s[..|s| - 1])
        case None => None
        case Some(high) => Some(10 * high + d)
  }

  /** The integer that Redis sees in a stored text, if it holds one. */
  function Parse(s: string): Option<int> {
    if s != [] && s[0] == '-' then
      match ParseNat(s[1..])
      case None => None
      case Some(n) => Some(0 - n as int)
    else
      match ParseNat(s)
      case None => None
      case Some(n) => Some(n)
  }

  /** JavaScript `Number(text)` on decimal integers and on the empty text. */
  function ToNum(s: string): Num {
    if s == [] then Finite(0.0)
    else match Parse(s)
      case None => NaN
      case Some(n) => Finite(n as real)
  }

  lemma {:induction false} ParseNatRenderNat(n: nat)
    ensures ParseNat(RenderNat(n)) == Some(n)
  {
    if n >= 10 {
      ParseNatRenderNat(n / 10);
      var s := RenderNat(n);
      assert s[..|s| - 1] == RenderNat(n / 10);
    }
  }

  /** Reading a rendered integer gives it back. */
  lemma ParseRender(n: int)
    ensures Parse(Render(n)) == Some(n)
    ensures ToNum(Render(n)) == Finite(n as real)
  {
    if n < 0 {
      hide ParseNat, RenderNat;
      ParseNatRenderNat(-n);
      assert Render(n)[1..] == RenderNat(-n);
    } else {
      hide ParseNat, RenderNat;
      ParseNatRenderNat(n);
      assert IsDigit(Render(n)[0]);
    }
  }

  predicate Digits(s: string) {
    s != [] && forall i :: 0 <= i < |s| ==> IsDigit(s[i])
  }

  lemma {:induction false} ParseNatAccepts(s: string)
    ensures ParseNat(s).Some? <==> Digits(s)
  {
    if |s| > 1 {
      ParseNatAccepts(s[..|s| - 1]);
      assert s == s[..|s| - 1] + [s[|s| - 1]];
    }
  }

  /** A text is an integer when it is digits, with a minus sign in front or not, and nothing else. */
  lemma ParseAccepts(s: string)
    ensures Parse(s).Some? <==> Digits(s) || (s != [] && s[0] == '-' && Digits(s[1..]))
  {
    if s != [] && s[0] == '-' {
      ParseNatAccepts(s[1..]);
    } else {
      ParseNatAccepts(s);
    }
  }

  lemma RenderInjective(m: int, n: int)
    requires Render(m) == Render(n)
    ensures m == n
  {
    ParseRender(m);
    ParseRender(n);
  }
}
