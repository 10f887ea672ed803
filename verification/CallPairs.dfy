/** Identity labels and the keys of unordered pairs of parties (CallPairRef.js). */
module CallPairs {
  import opened Text

  /** The first place of c in s, or -1. */
  function IndexOf(s: string, c: char): (i: int)
    ensures -1 <= i < |s|
    ensures i >= 0 ==> s[i] == c && c !in s[..i]
    ensures i < 0 ==> c !in s
  {
    if s == [] then -1
    else if s[0] == c then 0
    else
      var i := IndexOf(s[1..], c);
      if i < 0 then -1 else i + 1
  }

  /** The part before an '@', else the part before a '.', unless it would be empty. */
  function IdentityLabel(identity: string): string {
    var trimmed := Trim(identity);
    var at, dot := IndexOf(trimmed, '@'), IndexOf(trimmed, '.');
    if at > 0 then trimmed[..at] else if dot > 0 then trimmed[..dot] else trimmed
  }

  function Label(identity: string): string {
    IdentityLabel(Lower(identity))
  }

  /** The order strings are sorted in: by code units, a prefix first. */
  predicate Leq(a: string, b: string) {
    a == [] || (b != [] && (a[0] < b[0] || (a[0] == b[0] && Leq(a[1..], b[1..]))))
  }

  lemma {:induction false} LeqIsTotal(a: string, b: string)
    ensures Leq(a, b) || Leq(b, a)
    ensures Leq(a, b) && Leq(b, a) ==> a == b
  {
    if a != [] && b != [] && a[0] == b[0] {
      LeqIsTotal(a[1..], b[1..]);
      assert a == [a[0]] + a[1..] && b == [b[0]] + b[1..];
    }
  }

  /** Two strings in order, with a bar between them. */
  function Joined(x: string, y: string): string {
    if Leq(x, y) then x + "|" + y else y + "|" + x
  }

  function PairKey(a: string, b: string): string {
    Joined(Label(a), Label(b))
  }

  lemma JoinIsSymmetric(x: string, y: string)
    ensures Joined(x, y) == Joined(y, x)
  {
    LeqIsTotal(x, y);
  }

  predicate BarFree(s: string) {
    '|' !in s
  }

  predicate SamePair(x: string, y: string, u: string, v: string) {
    (x == u && y == v) || (x == v && y == u)
  }

  lemma PairKeyIsNotEmpty(a: string, b: string)
    ensures PairKey(a, b) != ""
  {
    hide Label;
  }

  /** A string without c is what stands before the first c. */
  lemma CutsAtFirst(c: char, x: string, y: string, u: string, v: string)
    requires c !in x && c !in u && x + [c] + y == u + [c] + v
    ensures x == u && y == v
  {
    var s := x + [c] + y;
    assert s[..|x|] == x && s[..|u|] == u && s[|x|] == c && s[|u|] == c;
    assert |x| == |u|;
    assert y == s[|x| + 1..] && v == s[|u| + 1..];
  }

  /** Keys are injective on unordered pairs of labels, for labels without a bar. */
  lemma PairKeyIsInjective(a: string, b: string, c: string, d: string)
    requires BarFree(Label(a)) && BarFree(Label(b)) && BarFree(Label(c)) && BarFree(Label(d))
    ensures PairKey(a, b) == PairKey(c, d) <==> SamePair(Label(a), Label(b), Label(c), Label(d))
  {
    var x, y, u, v := Label(a), Label(b), Label(c), Label(d);
    JoinIsSymmetric(x, y);
    JoinIsSymmetric(u, v);
    if PairKey(a, b) == PairKey(c, d) {
      var x', y' := if Leq(x, y) then x else y, if Leq(x, y) then y else x;
      var u', v' := if Leq(u, v) then u else v, if Leq(u, v) then v else u;
      CutsAtFirst('|', x', y', u', v');
    }
  }

  lemma PairKeyIsSymmetric(a: string, b: string)
    ensures PairKey(a, b) == PairKey(b, a)
  {
    JoinIsSymmetric(Label(a), Label(b));
  }

  /** Already lower case, not blank at its ends, and without the two marks. */
  predicate Plain(s: string) {
    && s != "" && !IsBlank(s[0]) && !IsBlank(s[|s| - 1])
    && (forall i :: 0 <= i < |s| ==> LowerChar(s[i]) == s[i] && s[i] != '@' && s[i] != '.')
  }

  lemma PlainLabel(s: string)
    requires Plain(s)
    ensures Label(s) == s
  {
    assert Lower(s) == s;
    TrimRightKeeps(s);
    assert Trim(s) == s;
  }

  /** The joined text can also be cut at place i, into two strings in order. */
  predicate CutsAt(joined: string, i: nat) {
    i < |joined| && joined[i] == '|' && Leq(joined[..i], joined[i + 1..])
  }

  lemma JoinedCutsAt(u: string, v: string) returns (i: nat)
    ensures CutsAt(Joined(u, v), i) && SamePair(Joined(u, v)[..i], Joined(u, v)[i + 1..], u, v)
  {
    LeqIsTotal(u, v);
    var s, t := if Leq(u, v) then u else v, if Leq(u, v) then v else u;
    hide Leq;
    var key := s + "|" + t;
    assert Joined(u, v) == key && key[..|s|] == s && key[|s| + 1..] == t && key[|s|] == '|';
    i := |s|;
  }

  lemma CutJoins(joined: string, i: nat)
    requires CutsAt(joined, i)
    ensures Joined(joined[..i], joined[i + 1..]) == joined
  {
    hide Leq;
    assert joined[..i] + "|" + joined[i + 1..] == joined;
  }

  /** Some other pair has the key of x and y. */
  ghost predicate Collides(x: string, y: string) {
    exists u, v :: Joined(u, v) == Joined(x, y) && !SamePair(u, v, x, y)
  }

  /** The key of x and y can be cut at another bar than the one between them. */
  predicate SecondCut(x: string, y: string) {
    var key := Joined(x, y);
    exists i :: 0 <= i < |key| && i != (if Leq(x, y) then |x| else |y|) && CutsAt(key, i)
  }

  lemma CutCollides(x: string, y: string, i: nat)
    requires Leq(x, y) && i != |x| && CutsAt(Joined(x, y), i)
    ensures Collides(x, y)
  {
    var key := Joined(x, y);
    var u, v := key[..i], key[i + 1..];
    CutJoins(key, i);
    LeqIsTotal(x, y);
    assert key == x + "|" + y;
    hide Leq, Joined;
    assert |u| == i && |u| + |v| == |x| + |y|;
    assert !SamePair(u, v, x, y) by { SwappedInOrder(u, v, x, y); }
  }

  /** Two strings in order cannot be the same pair the other way round, but for equal ones. */
  lemma SwappedInOrder(u: string, v: string, x: string, y: string)
    requires Leq(u, v) && Leq(x, y) && |u| != |x|
    ensures !SamePair(u, v, x, y)
  {
    LeqIsTotal(x, y);
  }

  lemma CollisionCuts(x: string, y: string, u: string, v: string)
    requires Leq(x, y) && Joined(u, v) == Joined(x, y) && !SamePair(u, v, x, y)
    ensures SecondCut(x, y)
  {
    var key := Joined(x, y);
    var i := JoinedCutsAt(u, v);
    assert key == x + "|" + y && key[..|x|] == x && key[|x| + 1..] == y;
    hide Joined;
    assert i != |x|;
  }

  /** Another pair has the key of x and y if and only if the key has a second bar that leaves
      its two sides in order. */
  lemma CollidesExactly(x: string, y: string)
    ensures Collides(x, y) <==> SecondCut(x, y)
  {
    JoinIsSymmetric(x, y);
    LeqIsTotal(x, y);
    var s, t := if Leq(x, y) then x else y, if Leq(x, y) then y else x;
    assert Leq(s, t) && Joined(s, t) == Joined(x, y);
    hide Joined, Leq;
    if SecondCut(x, y) {
      var i :| 0 <= i < |Joined(x, y)| && i != |s| && CutsAt(Joined(x, y), i);
      CutCollides(s, t, i);
    }
    if u, v :| Joined(u, v) == Joined(x, y) && !SamePair(u, v, x, y) {
      CollisionCuts(s, t, u, v);
    }
  }

  /** A label has a bar when its identity does, and then the keys of different pairs meet. */
  lemma BarsCollide(x: string, y: string, z: string)
    requires Plain(x) && Plain(y) && Plain(z) && x[0] < y[0] && x[0] < z[0]
    ensures PairKey(x + "|" + y, z) == PairKey(x, y + "|" + z)
    ensures !SamePair(Label(x + "|" + y), Label(z), Label(x), Label(y + "|" + z))
  {
    var left, right := x + "|" + y, y + "|" + z;
    assert Plain(left) && Plain(right);
    PlainLabel(x);
    PlainLabel(z);
    PlainLabel(left);
    PlainLabel(right);
    hide Label, Plain;
    assert left[0] == x[0] && Leq(left, z) && Leq(x, right);
    assert left + "|" + z == x + "|" + right;
    assert left != x && left != right;
  }

  /** Lower case and not blank at its ends, so a label keeps what comes before the mark. */
  predicate Trimmed(s: string) {
    && s != "" && !IsBlank(s[0]) && !IsBlank(s[|s| - 1])
    && forall i :: 0 <= i < |s| ==> LowerChar(s[i]) == s[i]
  }

  lemma TrimmedLabel(s: string)
    requires Trimmed(s)
    ensures Label(s) == (
      var at, dot := IndexOf(s, '@'), IndexOf(s, '.');
      if at > 0 then s[..at] else if dot > 0 then s[..dot] else s)
  {
    assert Lower(s) == s;
    TrimRightKeeps(s);
    assert Trim(s) == s;
  }

  lemma FirstIndex(s: string, c: char, i: nat)
    requires i < |s| && s[i] == c && forall j :: 0 <= j < i ==> s[j] != c
    ensures IndexOf(s, c) == i
  {
  }

  /** The label of a dotted mailbox is not its own label. */
  lemma DottedMailboxIsUnstable(x: string, y: string, z: string)
    requires Plain(x) && Plain(y) && Plain(z)
    ensures var mailbox := x + "." + y + "@" + z;
      Label(mailbox) == x + "." + y && Label(Label(mailbox)) == x
  {
    hide Label, IndexOf;
    var mailbox, local := x + "." + y + "@" + z, x + "." + y;
    assert mailbox == local + "@" + z;
    assert Trimmed(local);
    assert Trimmed(mailbox);
    TrimmedLabel(mailbox);
    TrimmedLabel(local);
    assert forall j :: 0 <= j < |local| ==> mailbox[j] == local[j] && local[j] != '@';
    FirstIndex(mailbox, '@', |local|);
    FirstIndex(local, '.', |x|);
    assert '@' !in local;
    assert mailbox[..|local|] == local && local[..|x|] == x;
  }
}
