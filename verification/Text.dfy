/** The string operations the keys of this system are built with. Letters are ASCII. */
module Text {

  predicate IsBlank(c: char) {
    c == ' ' || '\t' <= c <= '\r'
  }

  function LowerChar(c: char): char {
    if 'A' <= c <= 'Z' then (c as int - 'A' as int + 'a' as int) as char else c
  }

  function Lower(s: string): (t: string)
    ensures |t| == |s| && forall i :: 0 <= i < |s| ==> t[i] == LowerChar(s[i])
  {
    seq(|s|, i requires 0 <= i < |s| => LowerChar(s[i]))
  }

  function TrimLeft(s: string): (t: string)
    ensures |t| <= |s|
    ensures t != [] ==> !IsBlank(t[0])
  {
    if s == [] || !IsBlank(s[0]) then s else TrimLeft(s[1..])
  }

  function TrimRight(s: string): (t: string)
    ensures t <= s
    ensures t != [] ==> !IsBlank(t[|t| - 1])
  {
    if s == [] || !IsBlank(s[|s| - 1]) then s else TrimRight(s[..|s| - 1])
  }

  function Trim(s: string): (t: string)
    ensures t != [] ==> !IsBlank(t[0]) && !IsBlank(t[|t| - 1])
  {
    TrimRight(TrimLeft(s))
  }

  lemma {:induction false} TrimRightKeeps(s: string)
    requires s == [] || !IsBlank(s[|s| - 1])
    ensures TrimRight(s) == s
  {
  }

  lemma {:induction false} TrimLeftIsSuffix(s: string)
    ensures TrimLeft(s) == s[|s| - |TrimLeft(s)|..]
  {
    if s != [] && IsBlank(s[0]) {
      TrimLeftIsSuffix(s[1..]);
    }
  }

  lemma LowerIsStable(s: string)
    ensures Lower(Lower(s)) == Lower(s)
  {
    assert forall i :: 0 <= i < |s| ==> LowerChar(LowerChar(s[i])) == LowerChar(s[i]);
  }
}
