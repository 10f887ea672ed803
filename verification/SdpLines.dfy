/** Session descriptions as text, as lines and as sections: a section starts at each line that
    starts with "m=". */
module SdpLines {
  import opened Text

  predicate StartsWith(s: string, prefix: string) {
    prefix <= s
  }

  // ---- Lines -----------------------------------------------------------------------------------

  predicate AtBreak(s: string, i: nat) {
    i + 1 < |s| && s[i] == '\r' && s[i + 1] == '\n'
  }

  predicate BreakFree(s: string) {
    forall i :: 0 <= i < |s| ==> !AtBreak(s, i)
  }

  /** The place of the first CRLF from i on, or the end of the text. */
  function NextBreak(s: string, i: nat): (j: nat)
    requires i <= |s|
    ensures i <= j <= |s|
    ensures forall k :: i <= k < j ==> !AtBreak(s, k)
    ensures j < |s| ==> AtBreak(s, j)
    decreases |s| - i
  {
    if i == |s| || AtBreak(s, i) then i else NextBreak(s, i + 1)
  }

  /** The text cut at every CRLF. */
  function Lines(s: string): (ls: seq<string>)
    ensures ls != []
    ensures forall l :: l in ls ==> BreakFree(l)
    decreases |s|
  {
    var j := NextBreak(s, 0);
    assert BreakFree(s[..j]) by { assert forall k :: 0 <= k < |s[..j]| && AtBreak(s[..j], k) ==> AtBreak(s, k); }
    if j == |s| then [s[..j]] else [s[..j]] + Lines(s[j + 2..])
  }

  const CRLF := "\r\n"

  /** The lines with a CRLF between each two. */
  function Unlines(ls: seq<string>): string
    requires ls != []
  {
    if |ls| == 1 then ls[0] else ls[0] + CRLF + Unlines(ls[1..])
  }

  lemma {:induction false} UnlinesOfLines(s: string)
    ensures Unlines(Lines(s)) == s
    decreases |s|
  {
    var j := NextBreak(s, 0);
    if j < |s| {
      UnlinesOfLines(s[j + 2..]);
      assert Lines(s)[1..] == Lines(s[j + 2..]);
      assert s == s[..j] + CRLF + s[j + 2..];
    } else {
      assert s[..j] == s;
    }
  }

  lemma {:induction false} FirstBreak(s: string, i: nat, j: nat)
    requires i <= j < |s| && AtBreak(s, j) && forall k :: i <= k < j ==> !AtBreak(s, k)
    ensures NextBreak(s, i) == j
    decreases j - i
  {
    if i < j { FirstBreak(s, i + 1, j); }
  }

  lemma {:induction false} LinesOfUnlines(ls: seq<string>)
    requires ls != [] && forall l :: l in ls ==> BreakFree(l)
    ensures Lines(Unlines(ls)) == ls
    decreases |ls|
  {
    var s := Unlines(ls);
    if |ls| == 1 {
      assert BreakFree(s);
      var j := NextBreak(s, 0);
      assert s[..j] == s;
    } else {
      var rest := Unlines(ls[1..]);
      assert s == ls[0] + CRLF + rest;
      assert BreakFree(ls[0]);
      assert forall k :: 0 <= k < |ls[0]| ==> AtBreak(s, k) ==> AtBreak(ls[0], k);
      FirstBreak(s, 0, |ls[0]|);
      assert s[..|ls[0]|] == ls[0] && s[|ls[0]| + 2..] == rest;
      LinesOfUnlines(ls[1..]);
    }
  }

  // ---- Sections ----------------------------------------------------------------------------------

  predicate StartsMedia(l: string) {
    StartsWith(l, "m=")
  }

  /** A new section at each line that starts with "m=", the first line apart. */
  function Group(ls: seq<string>): (ss: seq<seq<string>>)
    requires ls != []
    ensures ss != [] && ss[0] != [] && ss[0][0] == ls[0]
  {
    if |ls| == 1 then [ls]
    else
      var ss := Group(ls[1..]);
      if StartsMedia(ls[1]) then [[ls[0]]] + ss else [[ls[0]] + ss[0]] + ss[1..]
  }

  function Flatten(ss: seq<seq<string>>): seq<string> {
    if ss == [] then [] else ss[0] + Flatten(ss[1..])
  }

  /** Sections that a description can be cut into. */
  predicate Section(x: seq<string>) {
    x != [] && forall i :: 1 <= i < |x| ==> !StartsMedia(x[i])
  }

  predicate Grouped(ss: seq<seq<string>>) {
    && ss != [] && (forall i :: 0 <= i < |ss| ==> Section(ss[i]))
    && forall i :: 1 <= i < |ss| ==> StartsMedia(ss[i][0])
  }

  lemma {:induction false} GroupIsGrouped(ls: seq<string>)
    requires ls != []
    ensures Grouped(Group(ls)) && Flatten(Group(ls)) == ls
  {
    if |ls| == 1 {
      assert Group(ls)[1..] == [];
      assert Flatten(Group(ls)) == ls;
    } else {
      GroupIsGrouped(ls[1..]);
      hide StartsMedia;
      var ss, tt := Group(ls[1..]), Group(ls);
      assert ls == [ls[0]] + ls[1..];
      if StartsMedia(ls[1]) {
        assert tt[1..] == ss;
      } else {
        assert tt[1..] == ss[1..];
        assert Flatten(ss) == ss[0] + Flatten(ss[1..]);
        assert tt[0] + Flatten(tt[1..]) == [ls[0]] + (ss[0] + Flatten(ss[1..]));
      }
    }
  }

  lemma FlattenIsNotEmpty(ss: seq<seq<string>>)
    requires Grouped(ss)
    ensures Flatten(ss) != [] && Flatten(ss)[0] == ss[0][0]
  {
    assert Section(ss[0]);
  }

  lemma {:induction false} GroupOfFlatten(ss: seq<seq<string>>)
    requires Grouped(ss)
    ensures Flatten(ss) != [] && Group(Flatten(ss)) == ss
    decreases |ss|, |ss[0]|
  {
    FlattenIsNotEmpty(ss);
    var ls := Flatten(ss);
    var x, more := ss[0], ss[1..];
    assert Section(x);
    if |x| == 1 {
      if more == [] {
        assert ls == x && ss == [x];
      } else {
        assert Grouped(more);
        GroupOfFlatten(more);
        FlattenIsNotEmpty(more);
        assert ls == x + Flatten(more) && x == [ls[0]];
        assert ls[1..] == Flatten(more);
        assert ss == [x] + more;
      }
    } else {
      var tt := [x[1..]] + more;
      assert Section(x[1..]);
      assert Grouped(tt);
      GroupOfFlatten(tt);
      assert tt[1..] == more;
      assert ls == x + Flatten(more) && Flatten(tt) == x[1..] + Flatten(more);
      assert ls[1..] == Flatten(tt) && ls[1] == x[1];
      assert x == [x[0]] + x[1..];
      assert ss == [x] + more;
    }
  }

  /** The sections of a text, each as its lines. */
  function Sections(s: string): seq<seq<string>> {
    Group(Lines(s))
  }

  function Joined(ss: seq<seq<string>>): string
    requires Flatten(ss) != []
  {
    Unlines(Flatten(ss))
  }

  predicate AllBreakFree(ss: seq<seq<string>>) {
    forall i, j :: 0 <= i < |ss| && 0 <= j < |ss[i]| ==> BreakFree(ss[i][j])
  }

  lemma {:induction false} InFlatten(ss: seq<seq<string>>, l: string)
    ensures l in Flatten(ss) <==> exists i :: 0 <= i < |ss| && l in ss[i]
  {
    if ss != [] {
      InFlatten(ss[1..], l);
      if exists i :: 0 <= i < |ss| && l in ss[i] {
        var i :| 0 <= i < |ss| && l in ss[i];
        if i > 0 { assert ss[i] == ss[1..][i - 1]; }
      }
      if l in Flatten(ss[1..]) {
        var i :| 0 <= i < |ss[1..]| && l in ss[1..][i];
        assert ss[i + 1] == ss[1..][i];
      }
    }
  }

  /** Cutting a text into sections and joining them again gives the text back. */
  lemma TextOfSections(s: string)
    ensures var ss := Sections(s);
      Grouped(ss) && AllBreakFree(ss) && Flatten(ss) != [] && Joined(ss) == s
  {
    var ss := Sections(s);
    GroupIsGrouped(Lines(s));
    UnlinesOfLines(s);
    forall i, j | 0 <= i < |ss| && 0 <= j < |ss[i]| ensures BreakFree(ss[i][j]) {
      InFlatten(ss, ss[i][j]);
    }
  }

  /** And the other way round. */
  lemma SectionsOfText(ss: seq<seq<string>>)
    requires Grouped(ss) && AllBreakFree(ss)
    ensures Flatten(ss) != [] && Sections(Joined(ss)) == ss
  {
    GroupOfFlatten(ss);
    forall l | l in Flatten(ss) ensures BreakFree(l) { InFlatten(ss, l); }
    LinesOfUnlines(Flatten(ss));
  }

  // ---- Words ----------------------------------------------------------------------------------------

  function NextSpace(s: string, i: nat): (j: nat)
    requires i <= |s|
    ensures i <= j <= |s|
    ensures forall k :: i <= k < j ==> s[k] != ' '
    ensures j < |s| ==> s[j] == ' '
    decreases |s| - i
  {
    if i == |s| || s[i] == ' ' then i else NextSpace(s, i + 1)
  }

  predicate IsWord(w: string) {
    ' ' !in w
  }

  /** The line cut at every space. */
  function Words(s: string): (ws: seq<string>)
    ensures ws != [] && forall w :: w in ws ==> IsWord(w)
    decreases |s|
  {
    var j := NextSpace(s, 0);
    if j == |s| then [s[..j]] else [s[..j]] + Words(s[j + 1..])
  }

  function Unwords(ws: seq<string>): string
    requires ws != []
  {
    if |ws| == 1 then ws[0] else ws[0] + " " + Unwords(ws[1..])
  }

  lemma {:induction false} UnwordsOfWords(s: string)
    ensures Unwords(Words(s)) == s
    decreases |s|
  {
    var j := NextSpace(s, 0);
    if j < |s| {
      UnwordsOfWords(s[j + 1..]);
      assert Words(s)[1..] == Words(s[j + 1..]);
      assert s == s[..j] + " " + s[j + 1..];
    } else {
      assert s[..j] == s;
    }
  }

  lemma {:induction false} FirstSpace(s: string, i: nat, j: nat)
    requires i <= j < |s| && s[j] == ' ' && forall k :: i <= k < j ==> s[k] != ' '
    ensures NextSpace(s, i) == j
    decreases j - i
  {
    if i < j { FirstSpace(s, i + 1, j); }
  }

  lemma {:induction false} WordsOfUnwords(ws: seq<string>)
    requires ws != [] && forall w :: w in ws ==> IsWord(w)
    ensures Words(Unwords(ws)) == ws
    decreases |ws|
  {
    var s := Unwords(ws);
    assert IsWord(ws[0]);
    if |ws| == 1 {
      var j := NextSpace(s, 0);
      assert s[..j] == s;
    } else {
      var rest := Unwords(ws[1..]);
      FirstSpace(s, 0, |ws[0]|);
      assert s[..|ws[0]|] == ws[0] && s[|ws[0]| + 1..] == rest;
      WordsOfUnwords(ws[1..]);
    }
  }
}
