/** When the end-call transforms do what they are for: mids aligned, bundle set, offer
    normalised once and for all. */
module EndCallPromises {
  import opened Text
  import opened SdpLines
  import opened EndCallSdp
  import opened EndCallTransforms

  // ---- Ports on complete m-lines ------------------------------------------------------------------------

  /** An m-line with something after its port. */
  predicate Complete(l: string) {
    StartsWith(l, AUDIO) ==>
      var b := TrimLeft(l[|AUDIO|..]);
      b != "" && (b[0] == '0' ==> TrimLeft(b[1..]) != "")
  }

  lemma {:induction false} TrimLeftFront(p: string, q: string)
    requires TrimLeft(p) != ""
    ensures TrimLeft(p + q) == TrimLeft(p) + q
  {
    if IsBlank(p[0]) {
      TrimLeftFront(p[1..], q);
      assert (p + q)[1..] == p[1..] + q;
    }
  }

  lemma AfterZeroOfFront(b: string, more: string)
    requires b != "" && (b[0] == '0' ==> TrimLeft(b[1..]) != "")
    ensures AfterZero(b + more) == if AfterZero(b).None? then None else Some(AfterZero(b).value + more)
  {
    if b[0] == '0' {
      var c := b[1..];
      TrimLeftFront(c, more);
      assert (b + more)[1..] == c + more;
      hide TrimLeft;
    }
  }

  lemma AfterBlankZeroOfFront(a: string, more: string)
    requires TrimLeft(a) != "" && (TrimLeft(a)[0] == '0' ==> TrimLeft(TrimLeft(a)[1..]) != "")
    ensures AfterBlankZero(a + more) ==
      if AfterBlankZero(a).None? then None else Some(AfterBlankZero(a).value + more)
  {
    TrimLeftFront(a, more);
    AfterZeroOfFront(TrimLeft(a), more);
    hide AfterZero, TrimLeft;
  }

  lemma AudioFront(l: string, more: string)
    requires StartsWith(l, AUDIO)
    ensures StartsWith(l + more, AUDIO) && (l + more)[|AUDIO|..] == l[|AUDIO|..] + more
  {
    assert (l + more)[..|AUDIO|] == l[..|AUDIO|];
  }

  /** On a complete m-line the port alone changes. */
  lemma PortOfFront(l: string, more: string)
    requires Complete(l) && StartsWith(l, AUDIO)
    ensures PortNine(l + more) == PortNine(l) + more
  {
    var a, t := l[|AUDIO|..], l + more;
    AudioFront(l, more);
    AfterBlankZeroOfFront(a, more);
    hide AfterBlankZero, TrimLeft, StartsWith, Complete;
    assert AfterZeroPort(l) == AfterBlankZero(a);
    assert AfterZeroPort(t) == AfterBlankZero(a + more);
    hide AfterZeroPort;
    if AfterBlankZero(a).Some? { NineInFront(AfterBlankZero(a).value, more); }
  }

  lemma NineInFront(rest: string, more: string)
    ensures AUDIO_ON_NINE + (rest + more) == (AUDIO_ON_NINE + rest) + more
  {
  }

  lemma NineIsNotZero(a: string)
    requires |a| > 1 && a[0] == ' ' && a[1] == '9'
    ensures TrimLeft(a) == a[1..] && AfterBlankZero(a) == None
  {
  }

  lemma OnNineLine(x: seq<string>)
    requires CleanSection(x) && Complete(x[0]) && StartsWith(x[0], AUDIO)
    ensures OnNine(x) == [PortNine(x[0])] + x[1..]
  {
    var more := if |x| == 1 then "" else CRLF + Unlines(x[1..]);
    assert Unlines(x) == x[0] + more;
    PortOfFront(x[0], more);
    var y := [PortNine(x[0])] + x[1..];
    NewlineFreeLines(x);
    assert x[0] in x && '\n' !in x[0];
    PortNineNewlineFree(x[0]);
    hide PortNine, Complete, Section, Kind;
    assert Unlines(y) == PortNine(x[0]) + more;
    hide Unlines;
    assert forall l :: l in y ==> BreakFree(l) by {
      forall l | l in y ensures BreakFree(l) { assert l == PortNine(x[0]) || l in x; }
    }
    LinesOfUnlines(y);
  }

  lemma PortNineNewlineFree(l: string)
    requires '\n' !in l
    ensures '\n' !in PortNine(l) && BreakFree(PortNine(l))
  {
    var r := AfterZeroPort(l);
    AfterZeroPortIsSuffix(l);
    hide AfterZeroPort;
    assert r.Some? ==> '\n' !in r.value;
    assert '\n' !in PortNine(l);
  }

  lemma AudioKindStarts(x: seq<string>)
    requires Section(x) && StartsMedia(x[0]) && Kind(x) == Some("audio")
    ensures StartsWith(x[0], AUDIO)
  {
    MediaKind(x);
    var l := x[0];
    assert l[..7] == l[..2] + l[2..7];
    assert KindOf(l).value == l[2..2 + WordLength(l[2..])];
    assert l[2..7] == "audio";
    assert l[..2] == "m=";
    assert l[..7] == AUDIO;
  }

  lemma MidAfterFirst(first: string, x: seq<string>)
    requires x != [] && !IsMid(first) && !IsMid(x[0])
    ensures Mid([first] + x[1..]) == Mid(x)
  {
    assert ([first] + x[1..])[1..] == x[1..];
  }

  lemma MediaIsNotMid(l: string)
    requires StartsMedia(l)
    ensures !IsMid(l)
  {
    var mid := MID;
    assert l[0] == 'm' && mid[0] == 'a';
  }

  /** The port change leaves the mid alone. */
  lemma OnNineKeepsMid(x: seq<string>)
    requires CleanSection(x) && StartsMedia(x[0]) && Complete(x[0]) && Kind(x) == Some("audio")
    ensures Mid(OnNine(x)) == Mid(x)
  {
    AudioKindStarts(x);
    OnNineLine(x);
    NineKeepsSection(x);
    assert OnNine(x)[0] == PortNine(x[0]);
    MediaIsNotMid(x[0]);
    MediaIsNotMid(PortNine(x[0]));
    MidAfterFirst(PortNine(x[0]), x);
  }

  // ---- What is left after the port change ------------------------------------------------------------------

  /** The lines behind the first one when the port change is done: a port with nothing after it
      takes the next text with it onto the first line. */
  function Behind(x: seq<string>): seq<string>
    requires x != []
  {
    match AfterZeroPort(Unlines(x))
    case None => x[1..]
    case Some(rest) => Lines(rest)[1..]
  }

  lemma OnNineForm(x: seq<string>)
    requires CleanSection(x) && StartsMedia(x[0])
    ensures var y := OnNine(x); StartsMedia(y[0]) && y[1..] == Behind(x)
    ensures forall l :: l in Behind(x) ==> l in x[1..]
  {
    var t := Unlines(x);
    var rest := AfterZeroPort(t);
    if rest.None? {
      NewlineFreeLines(x);
      LinesOfUnlines(x);
    } else {
      AfterZeroPortIsSuffix(t);
      var k := |t| - |rest.value|;
      assert k < |t| ==> t[k] == rest.value[0];
      hide AfterZeroPort, Section;
      LinesOfSuffix(x, k);
      UnlinesOfLines(rest.value);
      var ms := Lines(rest.value);
      assert forall l :: l in ms[1..] ==> BreakFree(l) by { NewlineFreeLines(x); }
      NineHead(ms);
    }
  }

  /** A port is changed once. */
  lemma OnNineTwice(x: seq<string>)
    requires CleanSection(x)
    ensures OnNine(OnNine(x)) == OnNine(x)
  {
    var t := Unlines(x);
    NewlineFreeLines(x);
    LinesOfUnlines(x);
    UnlinesOfLines(PortNine(t));
    PortTwice(t);
  }

  lemma PortTwice(t: string)
    ensures PortNine(PortNine(t)) == PortNine(t)
  {
    var r := AfterZeroPort(t);
    if r.Some? {
      var m := AUDIO_ON_NINE + r.value;
      hide AfterZeroPort;
      assert m[..|AUDIO|] == AUDIO;
      NineIsNotZero(m[|AUDIO|..]);
      assert AfterZeroPort(m) == None by { NineHasNoZero(m); }
    }
  }

  lemma NineHasNoZero(m: string)
    requires StartsWith(m, AUDIO) ==> AfterBlankZero(m[|AUDIO|..]) == None
    ensures AfterZeroPort(m) == None
  {
  }

  lemma MidBehind(y: seq<string>)
    requires y != [] && StartsMedia(y[0])
    ensures Mid(y) == Mid(y[1..])
  {
    MediaIsNotMid(y[0]);
  }

  lemma {:induction false} NoMidAmong(x: seq<string>)
    ensures Mid(x) == None <==> forall l :: l in x ==> MidOf(l) == None
  {
    if x != [] {
      NoMidAmong(x[1..]);
      assert x[0] in x && forall l :: l in x ==> l == x[0] || l in x[1..];
    }
  }

  // ---- Mids ----------------------------------------------------------------------------------------------

  predicate PortChanges(x: seq<string>, offer: seq<string>) {
    Kind(x) == Some("audio") && Inactive(offer)
  }

  /** The line that carries the mid is not taken onto the m-line. */
  predicate MidStays(x: seq<string>, offer: seq<string>)
    requires x != []
  {
    PortChanges(x, offer) ==> Mid(Behind(SetMid(x, Mid(offer)))) == Mid(offer)
  }

  lemma SectionMid(x: seq<string>, offer: seq<string>)
    requires CleanSection(x) && StartsMedia(x[0]) && NewlineFree(offer) && Mid(offer).Some?
    ensures Mid(AlignSection(x, offer)) == Mid(offer) <==> CanTakeMid(x) && MidStays(x, offer)
  {
    MidIsNewlineFree(offer);
    MidKeepsSection(x, Mid(offer));
    SetMidKind(x, Mid(offer));
    MidIsSetExactly(x, Mid(offer).value);
    var z := SetMid(x, Mid(offer));
    if PortChanges(x, offer) {
      OnNineForm(z);
      MidBehind(OnNine(z));
      if !CanTakeMid(x) {
        CannotTakeMid(x, Mid(offer));
        hide SetMid, CanTakeMid, OnNine;
        NoMidAmong(z);
        NoMidAmong(Behind(z));
        assert forall l :: l in Behind(z) ==> l in z;
      }
    }
  }

  /** A section that cannot take the mid has none before and after. */
  lemma CannotTakeMid(x: seq<string>, mid: Option<string>)
    requires x != [] && mid.Some? && mid.value != "" && !CanTakeMid(x)
    ensures Mid(SetMid(x, mid)) == None
  {
    ReplacedMid(x, mid.value);
  }

  /** An aligned answer carries the offer's mid, index by index, exactly where the answer's
      section has a mid that is not empty, or no mid line and an m-line ended by a CRLF, and the
      port change does not take the mid's line onto the m-line. */
  lemma MidsAlignExactly(answer: string, offer: string, i: nat)
    requires var a, o := Split(answer), Split(offer);
      1 <= i < |a| && i < |o| && Mid(o[i]).Some?
    ensures var a, o, r := Split(answer), Split(offer), Split(AlignAnswer(answer, offer));
      |r| == |a| && a[i] != [] && (Mid(r[i]) == Mid(o[i]) <==> CanTakeMid(a[i]) && MidStays(a[i], o[i]))
  {
    var a, o := Split(answer), Split(offer);
    AnswerIsAlignedAnswer(answer, offer);
    hide Split, AlignAnswer;
    AlignedAt(a, o, i);
    assert CleanSection(a[i]) && StartsMedia(a[i][0]) && NewlineFree(o[i]);
    hide AlignSection, AlignedAnswer, MidStays, CanTakeMid, Section, NewlineFree, Mid;
    SectionMid(a[i], o[i]);
  }

  /** On an m-line with something after its port the mid always stays. */
  lemma CompleteKeepsMid(x: seq<string>, offer: seq<string>)
    requires CleanSection(x) && StartsMedia(x[0]) && Complete(x[0]) && NewlineFree(offer) && Mid(offer).Some?
    requires CanTakeMid(x)
    ensures MidStays(x, offer)
  {
    MidIsNewlineFree(offer);
    MidKeepsSection(x, Mid(offer));
    SetMidKind(x, Mid(offer));
    MidIsSetExactly(x, Mid(offer).value);
    var z := SetMid(x, Mid(offer));
    hide SetMid, CanTakeMid, Complete;
    if PortChanges(x, offer) {
      OnNineKeepsMid(z);
      OnNineForm(z);
      MidBehind(OnNine(z));
    }
  }

  /** An m-line that ends with its zero port. */
  predicate EndsWithPort(l: string) {
    StartsWith(l, AUDIO) &&
    var b := TrimLeft(l[|AUDIO|..]);
    |b| < |l| - |AUDIO| && b != "" && b[0] == '0' && TrimLeft(b[1..]) == ""
  }

  lemma {:induction false} TrimLeftBlank(p: string, q: string)
    requires TrimLeft(p) == ""
    ensures TrimLeft(p + q) == TrimLeft(q)
  {
    if p == "" {
      assert p + q == q;
    } else {
      assert (p + q)[1..] == p[1..] + q;
      TrimLeftBlank(p[1..], q);
    }
  }

  lemma ZeroTakesText(b: string, q: string)
    requires b != "" && b[0] == '0' && TrimLeft(b[1..]) == "" && |TrimLeft(q)| < |q|
    ensures AfterZero(b + q) == Some(TrimLeft(q))
  {
    hide TrimLeft, IsBlank;
    var s := b + q;
    assert s[0] == '0' && s[1..] == b[1..] + q && |s| == |b| + |q|;
    TrimLeftBlank(b[1..], q);
    assert AfterZero(s) == Some(TrimLeft(s[1..]));
  }

  lemma BlankZeroTakesText(a: string, q: string)
    requires var b := TrimLeft(a);
      |b| < |a| && b != "" && b[0] == '0' && TrimLeft(b[1..]) == ""
    requires |TrimLeft(q)| < |q|
    ensures AfterBlankZero(a + q) == Some(TrimLeft(q))
  {
    TrimLeftFront(a, q);
    ZeroTakesText(TrimLeft(a), q);
    hide TrimLeft, AfterZero;
  }

  lemma PortTakesText(l: string, gap: string, more: string)
    requires EndsWithPort(l) && gap != "" && TrimLeft(gap) == "" && more != "" && !IsBlank(more[0])
    ensures AfterZeroPort(l + gap + more) == Some(more)
  {
    var q := gap + more;
    assert TrimLeft(more) == more;
    TrimLeftBlank(gap, more);
    AudioFront(l, q);
    BlankZeroTakesText(l[|AUDIO|..], q);
    hide TrimLeft, StartsWith, AfterBlankZero;
    assert l + gap + more == l + q;
  }

  /** Where an m-line ends with its port, an inserted mid is always lost: it is the next text. */
  lemma InsertedMidIsLost(x: seq<string>, offer: seq<string>)
    requires CleanSection(x) && StartsMedia(x[0]) && EndsWithPort(x[0]) && |x| > 1
    requires NewlineFree(offer) && Mid(offer).Some? && PortChanges(x, offer)
    requires forall l :: l in x ==> !IsMid(l)
    ensures !MidStays(x, offer)
  {
    var line := MID + Mid(offer).value;
    var z := [x[0], line] + x[1..];
    var tail := [line] + x[1..];
    assert z == SetMid(x, Mid(offer)) by { assert x[0][..7] == AUDIO; }
    MidIsNewlineFree(offer);
    assert z[1..] == tail && tail[1..] == x[1..];
    assert Unlines(z) == x[0] + CRLF + Unlines(tail);
    assert Unlines(tail)[0] == 'a' by { assert line[0] == 'a'; }
    PortTakesText(x[0], CRLF, Unlines(tail));
    NewlineFreeLines(x);
    assert '\n' !in line;
    assert forall l :: l in tail ==> BreakFree(l);
    LinesOfUnlines(tail);
    NoMidLines(x[1..]) by { assert forall l :: l in x[1..] ==> l in x; }
  }

  // ---- Bundles -----------------------------------------------------------------------------------------------

  /** Nothing but line ends. */
  predicate AllEmpty(ls: seq<string>) {
    forall l :: l in ls ==> l == ""
  }

  lemma {:induction false} CapturesUnlessEmpty(ls: seq<string>)
    ensures Captured(ls).None? <==> AllEmpty(ls)
  {
    if ls != [] {
      CapturesUnlessEmpty(ls[1..]);
      assert ls[0] in ls && forall l :: l in ls[1..] ==> l in ls;
      assert AllEmpty(ls) <==> ls[0] == "" && AllEmpty(ls[1..]) by {
        assert forall l :: l in ls ==> l == ls[0] || l in ls[1..];
      }
      hide AllEmpty;
    }
  }

  lemma {:induction false} EmptyHasNoBundle(ls: seq<string>)
    requires AllEmpty(ls)
    ensures !HasBundle(ls) && Bundle(ls).None?
  {
    if ls != [] {
      assert ls[0] in ls && ls[0] == "";
      assert forall l :: l in ls[1..] ==> l in ls;
      EmptyHasNoBundle(ls[1..]);
    }
  }

  /** An attribute that can read nothing has nothing behind it. */
  lemma OpensInVain(x: seq<string>)
    requires Opens(x) && BundleAt(x).None?
    ensures AllEmpty(x[1..]) && Bundle(x).None?
  {
    var ls := if |x[0]| == |BUNDLE| then x[1..] else [x[0][|BUNDLE| + 1..]] + x[1..];
    CapturesUnlessEmpty(ls);
    assert forall l :: l in x[1..] ==> l in ls;
    EmptyHasNoBundle(x[1..]);
  }

  /** Whether a line opens an attribute does not depend on the lines behind it, if there are any. */
  lemma OpensByItself(l: string, x: seq<string>, y: seq<string>)
    requires x != [] && y != []
    ensures Opens([l] + x) == Opens([l] + y)
  {
  }

  lemma NewLineOpens(mids: string, rest: seq<string>)
    requires mids != ""
    ensures var x := [BundleLine(mids)] + rest;
      && Opens(x) && BundleAt(x) == Captured([mids] + rest) && BundleAt(x).Some?
  {
    var l := BundleLine(mids);
    var x := [l] + rest;
    assert l[..|BUNDLE|] == BUNDLE && l[|BUNDLE|] == ' ' && l[|BUNDLE| + 1..] == mids;
    assert x[1..] == rest;
    CapturesUnlessEmpty([mids] + rest);
    assert mids in [mids] + rest;
  }

  /** The replaced line is the attribute found afterwards; only a value of blanks reads on. */
  lemma NewLineReads(mids: string, rest: seq<string>)
    requires mids != ""
    ensures var c := Captured([mids] + rest).value;
      Captured([mids] + rest).Some? &&
      if TrimLeft(mids) != "" || AllEmpty(rest) then c.rest == rest else |c.rest| < |rest|
    ensures TrimLeft(mids) != "" ==> Captured([mids] + rest).value.value == TrimLeft(mids)
  {
    var ls := [mids] + rest;
    assert ls[1..] == rest;
    CapturesUnlessEmpty(rest);
  }

  /** The lines behind what the section's bundle attribute reads. */
  function BehindBundle(x: seq<string>): seq<string> {
    if x == [] then []
    else if BundleAt(x).Some? then BundleAt(x).value.rest
    else BehindBundle(x[1..])
  }

  /** Setting the bundle a second time, over one that was replaced. */
  lemma {:induction false} ReplacedBundle(x: seq<string>, mids: string, others: string)
    requires Bundle(x).Some? && mids != ""
    ensures var y := ReplaceBundle(x, BundleLine(mids));
      && HasBundle(y) && Bundle(y).Some?
      && (TrimLeft(mids) != "" ==> Bundle(y) == Some(TrimLeft(mids)))
      && (ReplaceBundle(y, BundleLine(others)) == y <==>
           others == mids && (TrimLeft(mids) != "" || AllEmpty(BehindBundle(x))))
  {
    var y := ReplaceBundle(x, BundleLine(mids));
    hide Captured;
    if BundleAt(x).Some? {
      var rest := BundleAt(x).value.rest;
      NewLineOpens(mids, rest);
      NewLineReads(mids, rest);
      OtherLine(mids, others);
      hide Opens, BundleAt, TrimLeft, BundleLine;
      assert y == [BundleLine(mids)] + rest;
      var z := ReplaceBundle(y, BundleLine(others));
      assert z == [BundleLine(others)] + BundleAt(y).value.rest;
      assert z == y ==> z[0] == y[0] && z[1..] == y[1..] && y[1..] == rest;
    } else {
      ReplacedBundle(x[1..], mids, others);
      if Opens(x) { OpensInVain(x); }
      var y1 := ReplaceBundle(x[1..], BundleLine(mids));
      assert [x[0]] + x[1..] == x;
      OpensByItself(x[0], x[1..], y1);
      hide Opens, BundleAt, TrimLeft, BundleLine;
      assert y == [x[0]] + y1 && y[1..] == y1;
      assert BundleAt(y).None? by { ClosedReadsNothing(y); }
      var z := ReplaceBundle(y, BundleLine(others));
      var z1 := ReplaceBundle(y1, BundleLine(others));
      assert z == [x[0]] + z1;
      assert z == y <==> z1 == y1 by { assert z[1..] == z1; }
    }
  }

  lemma ClosedReadsNothing(x: seq<string>)
    requires !Opens(x)
    ensures BundleAt(x).None?
  {
  }

  lemma OtherLine(mids: string, others: string)
    ensures BundleLine(others) == BundleLine(mids) <==> others == mids
  {
    assert BundleLine(mids)[|BUNDLE| + 1..] == mids && BundleLine(others)[|BUNDLE| + 1..] == others;
  }

  /** A section with an attribute that can read nothing is not changed. */
  lemma {:induction false} VainBundleStays(x: seq<string>, line: string)
    requires Bundle(x).None?
    ensures ReplaceBundle(x, line) == x
  {
    if x != [] {
      VainBundleStays(x[1..], line);
      assert [x[0]] + x[1..] == x;
    }
  }

  lemma {:induction false} BundleNeedsOne(x: seq<string>)
    requires Bundle(x).Some?
    ensures HasBundle(x)
  {
    if BundleAt(x).None? { BundleNeedsOne(x[1..]); } else if !Opens(x) { ClosedReadsNothing(x); }
  }

  /** Behind a section front without an attribute, what comes next decides. */
  lemma {:induction false} BehindFront(front: seq<string>, x: seq<string>, y: seq<string>, line: string)
    requires x != [] && y != [] && !HasBundle(front + x)
    ensures HasBundle(front + y) == HasBundle(y) && Bundle(front + y) == Bundle(y)
    ensures ReplaceBundle(front + y, line) == front + ReplaceBundle(y, line)
    ensures !HasBundle(x)
  {
    if front == [] {
      assert front + y == y && front + x == x && front + ReplaceBundle(y, line) == ReplaceBundle(y, line);
    } else {
      var more := front[1..];
      assert (front + x)[1..] == more + x && (front + y)[1..] == more + y;
      assert front + x == [front[0]] + (more + x) && front + y == [front[0]] + (more + y);
      OpensByItself(front[0], more + x, more + y);
      ClosedReadsNothing(front + y);
      hide Opens, BundleAt;
      BehindFront(more, x, y, line);
      assert front + ReplaceBundle(y, line) == [front[0]] + (more + ReplaceBundle(y, line));
    }
  }

  /** A line that is not empty and opens nothing: neither does it with more text behind it. */
  lemma GluedIsNoBundle(last: string, mids: string)
    requires last != "" && !Opens([last])
    ensures !Opens([last + BundleLine(mids), ""]) && !HasBundle([last + BundleLine(mids), ""])
  {
    var s, n, line := last + BundleLine(mids), |last|, BundleLine(mids);
    assert line[0] == 'a' && s[n] == 'a';
    assert forall k :: 1 <= k < |BUNDLE| ==> BUNDLE[k] != 'a';
    if n < |BUNDLE| {
      assert s[n] != BUNDLE[n];
    } else {
      assert s[..|BUNDLE|] == last[..|BUNDLE|];
      assert n > |BUNDLE| ==> s[|BUNDLE|] == last[|BUNDLE|];
    }
    assert [s, ""][1..] == [""];
    assert !Opens([""]) && [""][1..] == [];
  }

  /** The session section after gluing: an attribute only where the last line was empty. */
  lemma GluedBundle(x: seq<string>, mids: string, others: string)
    requires x != [] && !HasBundle(x) && mids != ""
    ensures var y, last := SetBundle(x, mids), x[|x| - 1];
      && (Bundle(y).Some? <==> last == "") && (HasBundle(y) <==> last == "")
      && (last == "" && TrimLeft(mids) != "" ==> Bundle(y) == Some(TrimLeft(mids)))
      && (SetBundle(y, others) == y <==> last == "" && others == mids)
  {
    var front, last, y := x[..|x| - 1], x[|x| - 1], SetBundle(x, mids);
    var line, other := BundleLine(mids), BundleLine(others);
    var tail := [last + line, ""];
    assert x == front + [last] && y == front + tail;
    BehindFront(front, [last], tail, other);
    LastLineCloses(last);
    hide BundleAt, Captured, TrimLeft, Opens, BundleLine;
    if last == "" {
      FreshLine(mids, others);
      assert last + line == line;
      assert (front + [other, ""])[|front|] == other && (front + tail)[|front|] == line;
    } else {
      GluedIsNoBundle(last, mids);
      if Bundle(tail).Some? { BundleNeedsOne(tail); }
      hide HasBundle, Bundle, ReplaceBundle;
      assert |SetBundle(y, others)| == |y| + 1;
    }
  }

  lemma LastLineCloses(last: string)
    requires !HasBundle([last])
    ensures !Opens([last])
  {
  }

  /** A new line with an empty one behind it. */
  lemma FreshLine(mids: string, others: string)
    requires mids != ""
    ensures var x := [BundleLine(mids), ""];
      && HasBundle(x) && Bundle(x).Some? && (TrimLeft(mids) != "" ==> Bundle(x) == Some(TrimLeft(mids)))
      && ReplaceBundle(x, BundleLine(others)) == [BundleLine(others), ""]
      && (BundleLine(others) == BundleLine(mids) <==> others == mids)
  {
    var x := [BundleLine(mids), ""];
    assert x == [BundleLine(mids)] + [""];
    NewLineOpens(mids, [""]);
    NewLineReads(mids, [""]);
    OtherLine(mids, others);
    hide Opens, BundleAt, Captured, TrimLeft, BundleLine;
    assert [BundleLine(others)] + [""] == [BundleLine(others), ""];
  }

  /** When the session section gets the bundle: it has an attribute that reads something, or no
      attribute and an empty last line to become one. Otherwise it has no bundle afterwards. */
  lemma BundleIsSetExactly(x: seq<string>, mids: string)
    requires x != [] && TrimLeft(mids) != ""
    ensures var y := SetBundle(x, mids);
      && (Bundle(y) == Some(TrimLeft(mids)) <==> Bundle(x).Some? || (!HasBundle(x) && x[|x| - 1] == ""))
      && (Bundle(y).Some? ==> Bundle(y) == Some(TrimLeft(mids)))
  {
    hide TrimLeft;
    if !HasBundle(x) {
      if Bundle(x).Some? { BundleNeedsOne(x); }
      GluedBundle(x, mids, mids);
    } else if Bundle(x).Some? {
      ReplacedBundle(x, mids, mids);
    } else {
      VainBundleStays(x, BundleLine(mids));
    }
  }

  /** The place of the attribute that is replaced. */
  function BundlePlace(x: seq<string>): (i: nat)
    requires Bundle(x).Some?
    ensures i < |x| && |BUNDLE| <= |x[i]|
  {
    if BundleAt(x).Some? then 0 else 1 + BundlePlace(x[1..])
  }

  lemma {:induction false} CapturesFirstLine(ls: seq<string>)
    requires ls != [] && Captured(ls).Some?
    ensures |Captured(ls).value.rest| == |ls| - 1 <==> TrimLeft(ls[0]) != "" || AllEmpty(ls[1..])
  {
    CapturesUnlessEmpty(ls[1..]);
  }

  lemma ReadsItsLine(x: seq<string>)
    requires BundleAt(x).Some?
    ensures |BundleAt(x).value.rest| < |x| - 1 <==> TrimLeft(x[0][|BUNDLE|..]) == "" && !AllEmpty(x[1..])
  {
    var l := x[0];
    var after := l[|BUNDLE|..];
    if |l| == |BUNDLE| {
      assert after == "";
      CapturesUnlessEmpty(x[1..]);
    } else {
      var ls := [l[|BUNDLE| + 1..]] + x[1..];
      assert after[1..] == ls[0] && ls[1..] == x[1..];
      CapturesFirstLine(ls);
    }
  }

  lemma {:induction false} PlaceSplits(x: seq<string>, line: string)
    requires Bundle(x).Some?
    ensures var i := BundlePlace(x);
      && BundleAt(x[i..]).Some? && BehindBundle(x) == BundleAt(x[i..]).value.rest
      && ReplaceBundle(x, line) == x[..i] + [line] + BehindBundle(x)
  {
    var i := BundlePlace(x);
    hide Opens;
    if BundleAt(x).Some? {
      assert x[0..] == x && x[..0] + [line] + BehindBundle(x) == [line] + BehindBundle(x);
    } else {
      PlaceSplits(x[1..], line);
      assert x[1..][i - 1..] == x[i..];
      hide BundleAt;
      assert x[..i] == [x[0]] + x[1..][..i - 1];
      assert x[..i] + [line] + BehindBundle(x) == [x[0]] + (x[1..][..i - 1] + [line] + BehindBundle(x));
    }
  }

  /** Replacing the attribute keeps the lines before it, and behind it all but those it reads.
      Lines are lost exactly when the attribute has no mids on its own line and a line with any
      text behind it. */
  lemma BundleTakesLinesExactly(x: seq<string>, mids: string)
    requires Bundle(x).Some?
    ensures var y, i, rest := SetBundle(x, mids), BundlePlace(x), BehindBundle(x);
      && y == x[..i] + [BundleLine(mids)] + rest
      && |rest| < |x| - i && rest == x[|x| - |rest|..]
      && (|y| < |x| <==> TrimLeft(x[i][|BUNDLE|..]) == "" && !AllEmpty(x[i + 1..]))
  {
    hide *;
    var i, rest := BundlePlace(x), BehindBundle(x);
    var z := x[i..];
    BundleIsReplaced(x, mids);
    PlaceSplits(x, BundleLine(mids));
    ReadsItsLine(z);
    BundleAtLines(z);
    assert z[0] == x[i] && z[1..] == x[i + 1..];
    assert x[|x| - |rest|..] == z[|z| - |rest|..];
  }

  lemma BundleIsReplaced(x: seq<string>, mids: string)
    requires Bundle(x).Some?
    ensures x != [] && SetBundle(x, mids) == ReplaceBundle(x, BundleLine(mids))
  {
    BundleNeedsOne(x);
  }

  // ---- Normalising twice ---------------------------------------------------------------------------------

  /** Setting a bundle and then another one changes nothing the second time: the first could not
      be set because an attribute reads nothing, or both are the same and the first became a line
      of its own that reads only itself. */
  predicate Settles(x: seq<string>, mids: string, others: string)
    requires x != []
  {
    if HasBundle(x) then
      Bundle(x).None? || (others == mids && (TrimLeft(mids) != "" || AllEmpty(BehindBundle(x))))
    else others == mids && x[|x| - 1] == ""
  }

  lemma SetBundleTwiceExactly(x: seq<string>, mids: string, others: string)
    requires x != [] && mids != ""
    ensures SetBundle(SetBundle(x, mids), others) == SetBundle(x, mids) <==> Settles(x, mids, others)
  {
    hide TrimLeft, AllEmpty, BundleLine;
    if !HasBundle(x) {
      GluedBundle(x, mids, others);
    } else if Bundle(x).Some? {
      ReplacedBundle(x, mids, others);
    } else {
      VainBundleStays(x, BundleLine(mids));
      VainBundleStays(x, BundleLine(others));
    }
  }

  lemma MediaTwice(x: seq<string>)
    requires CleanSection(x) && StartsMedia(x[0])
    ensures var y := KeepGenerated(x); KeepGenerated(y) == y && (Mid(y).Some? ==> Mid(x).Some?)
  {
    if Kind(x) == Some("audio") {
      var y := OnNine(x);
      OnNineTwice(x);
      OnNineForm(x);
      NineKeepsSection(x);
      MidBehind(y);
      hide OnNine, Section, Kind;
      if Mid(x) == None {
        NoMidAmong(x);
        NoMidAmong(Behind(x));
        assert forall l :: l in Behind(x) ==> l in x;
      }
    }
  }

  /** The mids that are still there when the ports are changed. */
  function KeptMids(ss: seq<seq<string>>): seq<string>
    requires Grouped(ss)
  {
    Mids(NormalOffer(ss)[1..])
  }

  lemma {:induction false} NoMids(m: seq<seq<string>>, n: seq<seq<string>>)
    requires |m| == |n| && forall i :: 0 <= i < |m| && Mid(n[i]).Some? ==> Mid(m[i]).Some?
    ensures Mids(n) != [] ==> Mids(m) != []
  {
    if m != [] {
      assert Mid(n[0]).Some? ==> Mid(m[0]).Some?;
      forall i | 0 <= i < |m| - 1 && Mid(n[1..][i]).Some? ensures Mid(m[1..][i]).Some? {
        assert Mid(n[i + 1]).Some? ==> Mid(m[i + 1]).Some?;
      }
      NoMids(m[1..], n[1..]);
    }
  }

  lemma NormalMedia(ss: seq<seq<string>>)
    requires Clean(ss)
    ensures var tt := NormalOffer(ss);
      && Clean(tt) && (KeptMids(ss) != [] ==> Mids(ss[1..]) != [])
      && forall i :: 1 <= i < |ss| ==> NormalOffer(tt)[i] == tt[i]
  {
    var tt := NormalOffer(ss);
    OfferStaysClean(ss);
    assert forall i :: 1 <= i < |ss| ==> CleanSection(ss[i]) && StartsMedia(ss[i][0]);
    hide Section, NewlineFree, StartsMedia, KeepGenerated, Mid, NormalOffer;
    forall i | 1 <= i < |ss| ensures NormalOffer(tt)[i] == tt[i] && (Mid(tt[i]).Some? ==> Mid(ss[i]).Some?) {
      MediaOnNine(ss, i);
      MediaOnNine(tt, i);
      MediaTwice(ss[i]);
    }
    var m, n := ss[1..], tt[1..];
    forall i | 0 <= i < |m| && Mid(n[i]).Some? ensures Mid(m[i]).Some? {
      assert Mid(tt[i + 1]).Some? ==> Mid(ss[i + 1]).Some?;
    }
    NoMids(m, n);
  }

  lemma NormalSession(ss: seq<seq<string>>)
    requires Grouped(ss)
    ensures ss[0] != []
    ensures NormalOffer(ss)[0] == if Mids(ss[1..]) == [] then ss[0] else SetBundle(ss[0], Unwords(Mids(ss[1..])))
  {
    assert Section(ss[0]);
    hide KeepGenerated, Mids, SetBundle, Unwords;
  }

  lemma {:induction false} UnwordsIsNotEmpty(ws: seq<string>)
    requires ws != [] && ws[0] != ""
    ensures Unwords(ws) != ""
  {
    assert ws[0] <= Unwords(ws);
  }

  /** The session section needs no second change: no mid is left to list, or setting what is left
      of the mids over the bundle that was set changes nothing. */
  predicate SettledSession(ss: seq<seq<string>>)
    requires Grouped(ss)
  {
    var mids, kept := Mids(ss[1..]), KeptMids(ss);
    kept == [] || (mids != [] && Section(ss[0]) && Settles(ss[0], Unwords(mids), Unwords(kept)))
  }

  lemma NormalOfferTwiceExactly(ss: seq<seq<string>>)
    requires Clean(ss) && Section(ss[0])
    ensures var tt := NormalOffer(ss);
      Grouped(tt) && (NormalOffer(tt) == tt <==> SettledSession(ss))
  {
    var tt, mids, kept := NormalOffer(ss), Mids(ss[1..]), KeptMids(ss);
    NormalMedia(ss);
    NormalSession(ss);
    NormalSession(tt);
    NormalSessionTwice(ss[0], mids, kept);
    hide NormalOffer, Mids, NewlineFree, StartsMedia, SetBundle, Bundle, Unwords, Section;
    SameButFirst(NormalOffer(tt), tt);
  }

  lemma SameButFirst(ss: seq<seq<string>>, tt: seq<seq<string>>)
    requires |ss| == |tt| > 0 && forall i :: 1 <= i < |ss| ==> ss[i] == tt[i]
    ensures ss == tt <==> ss[0] == tt[0]
  {
  }

  lemma NormalSessionTwice(x: seq<string>, mids: seq<string>, kept: seq<string>)
    requires x != [] && (kept != [] ==> mids != [])
    requires (forall m :: m in mids ==> m != "") && (forall m :: m in kept ==> m != "")
    ensures kept != [] ==>
      var y := SetBundle(x, Unwords(mids));
      (SetBundle(y, Unwords(kept)) == y <==> Settles(x, Unwords(mids), Unwords(kept)))
  {
    if kept != [] {
      assert mids[0] in mids && kept[0] in kept;
      UnwordsIsNotEmpty(mids);
      hide SetBundle, Settles, Unwords;
      SetBundleTwiceExactly(x, Unwords(mids), Unwords(kept));
    }
  }

  /** Normalising any offer is idempotent exactly when no mid is left to list, or its session
      section has a bundle attribute that can read nothing, or the mids listed stay the same and
      their line reads only itself. */
  lemma NormalizesOnceExactly(sdp: string)
    ensures Grouped(Split(sdp))
    ensures NormalizeOffer(NormalizeOffer(sdp)) == NormalizeOffer(sdp) <==> SettledSession(Split(sdp))
  {
    var ss, once := Split(sdp), NormalizeOffer(sdp);
    OfferIsNormalOffer(sdp);
    OfferIsNormalOffer(once);
    NormalOfferTwiceExactly(ss);
    OfferIsItsSections(sdp);
    OfferIsItsSections(once);
    hide Split, NormalizeOffer, NormalOffer, SettledSession;
    assert Split(NormalizeOffer(once)) == NormalOffer(NormalOffer(ss));
  }

  /** A normalised offer is the joined text of its sections. */
  lemma OfferIsItsSections(sdp: string)
    ensures var t := NormalizeOffer(sdp);
      Flatten(Split(t)) != [] && t == Joined(Split(t))
  {
    SplitThenJoin(sdp);
    OfferIsNormalOffer(sdp);
    OfferStaysClean(Split(sdp));
    JoinThenSplit(NormalOffer(Split(sdp)));
    NormalCollapses(Joined(NormalOffer(Split(sdp))));
  }
}
