/** Python's `str` and `int` on integers, over ASCII text. */
module PythonInt {
  import opened Wrappers

  predicate IsDigit(c: char) {
    '0' <= c <= '9'
  }

  function NatText(n: nat): (s: string)
    ensures s != "" && forall i :: 0 <= i < |s| ==> IsDigit(s[i])
  {
    if n < 10 then ['0' + n as char] else NatText(n / 10) + ['0' + (n % 10) as char]
  }

  function IntText(n: int): (s: string)
    ensures s != "" && '.' !in s && ':' !in s
  {
    if n < 0 then "-" + NatText(-n) else NatText(n)
  }

  predicate IsSpace(c: char) {
    c == ' ' || '\t' <= c <= '\r'
  }

  function StripSpaces(s: string): string
    decreases |s|
  {
    if s == "" then s
    else if IsSpace(s[0]) then StripSpaces(s[1..])
    else if IsSpace(s[|s| - 1]) then StripSpaces(s[..|s| - 1])
    else s
  }

  /** Digits, with single underscores allowed between them. */
  function ReadNat(s: string): Option<nat> {
    if s == "" || !IsDigit(s[|s| - 1]) then None
    else
      var last := (s[|s| - 1] - '0') as nat;
      if |s| == 1 then Some(last)
      else
        match ReadNat(if s[|s| - 2] == '_' then s[..|s| - 2] else s[..|s| - 1])
        case None => None
        case Some(high) => Some(high * 10 + last)
  }

  function ReadInt(s: string): Option<int> {
    var t := StripSpaces(s);
    if t != "" && t[0] == '-' then
      match ReadNat(t[1..]) case None => None case Some(n) => Some(0 - n)
    else
      match ReadNat(if t != "" && t[0] == '+' then t[1..] else t) case None => None case Some(n) => Some(n)
  }

  lemma {:induction false} ReadNatText(n: nat)
    ensures ReadNat(NatText(n)) == Some(n)
  {
    if n >= 10 {
      ReadNatText(n / 10);
      var s := NatText(n);
      assert s[..|s| - 1] == NatText(n / 10);
      assert IsDigit(NatText(n / 10)[|s| - 2]);
    }
  }

  lemma ReadIntText(n: int)
    ensures ReadInt(IntText(n)) == Some(n)
  {
    var s := IntText(n);
    if n < 0 {
      ReadNatText(-n);
      assert s[1..] == NatText(-n);
      assert IsDigit(s[|s| - 1]) by {
        assert s[|s| - 1] == NatText(-n)[|s| - 2];
      }
    } else {
      ReadNatText(n);
    }
    assert StripSpaces(s) == s;
  }
}
