/** Normalising an end-call offer and aligning an end-call answer with it
    (negotiation/sdp.js; section 5.3.1 of RFC 8829). */
module EndCallTransforms {
  import opened Text
  import opened SdpLines
  import opened EndCallSdp

  // ---- Kinds and mids ---------------------------------------------------------------------------

  /** How many characters s starts with that are not blank. */
  function WordLength(s: string): (n: nat)
    ensures n <= |s| && (forall i :: 0 <= i < n ==> !IsBlank(s[i])) && (n < |s| ==> IsBlank(s[n]))
  {
    if s == "" || IsBlank(s[0]) then 0 else 1 + WordLength(s[1..])
  }

  function KindOf(l: string): Option<string> {
    if StartsWith(l, "m=") && WordLength(l[2..]) > 0 then Some(l[2..2 + WordLength(l[2..])]) else None
  }

  /** mediaKind. */
  function Kind(x: seq<string>): Option<string> {
    if x == [] then None else if KindOf(x[0]).Some? then KindOf(x[0]) else Kind(x[1..])
  }

  const MID := "a=mid:"

  predicate IsMid(l: string) {
    StartsWith(l, MID)
  }

  function MidOf(l: string): (r: Option<string>)
    ensures r.Some? ==> r.value != "" && l == MID + r.value
  {
    if IsMid(l) && |l| > |MID| then Some(l[|MID|..]) else None
  }

  /** mediaMid: the first mid that is not empty. */
  function Mid(x: seq<string>): (r: Option<string>)
    ensures r.Some? ==> r.value != ""
  {
    if x == [] then None else if MidOf(x[0]).Some? then MidOf(x[0]) else Mid(x[1..])
  }

  function ReplaceMid(x: seq<string>, mid: string): (y: seq<string>)
    ensures |y| == |x|
  {
    if x == [] then []
    else if MidOf(x[0]).Some? then [MID + mid] + x[1..]
    else [x[0]] + ReplaceMid(x[1..], mid)
  }

  /** replaceOrInsertMid: the first mid line replaced, or one inserted after an m-line that a
      CRLF ends. */
  function SetMid(x: seq<string>, mid: Option<string>): seq<string>
    requires x != []
  {
    if mid.None? then x
    else if exists l :: l in x && IsMid(l) then ReplaceMid(x, mid.value)
    else if |x| > 1 && |x[0]| > 2 then [x[0], MID + mid.value] + x[1..]
    else x
  }

  /** The code meets the promise that the mid is set exactly when the section has a mid that is
      not empty, or no mid line and an m-line that a CRLF ends. */
  predicate CanTakeMid(x: seq<string>) {
    Mid(x).Some? || (x != [] && |x| > 1 && |x[0]| > 2 && forall l :: l in x ==> !IsMid(l))
  }

  lemma {:induction false} ReplacedMid(x: seq<string>, mid: string)
    requires mid != ""
    ensures Mid(ReplaceMid(x, mid)) == if Mid(x).Some? then Some(mid) else None
    ensures Mid(x).None? ==> ReplaceMid(x, mid) == x
  {
    if x != [] {
      if MidOf(x[0]).Some? {
        assert (MID + mid)[|MID|..] == mid;
      } else {
        ReplacedMid(x[1..], mid);
      }
    }
  }

  lemma {:induction false} NoMidLines(x: seq<string>)
    requires forall l :: l in x ==> !IsMid(l)
    ensures Mid(x) == None
  {
    if x != [] { NoMidLines(x[1..]); }
  }

  lemma {:induction false} SomeMidLine(x: seq<string>)
    requires Mid(x).Some?
    ensures exists l :: l in x && IsMid(l)
  {
    if MidOf(x[0]).Some? { assert x[0] in x; } else { SomeMidLine(x[1..]); }
  }

  lemma MidIsSetExactly(x: seq<string>, mid: string)
    requires Section(x) && StartsMedia(x[0]) && mid != ""
    ensures Mid(SetMid(x, Some(mid))) == Some(mid) <==> CanTakeMid(x)
  {
    if exists l :: l in x && IsMid(l) {
      ReplacedMid(x, mid);
    } else {
      NoMidLines(x);
      if |x| > 1 && |x[0]| > 2 {
        var y := SetMid(x, Some(mid));
        assert x[0] in x && !IsMid(x[0]);
        assert (MID + mid)[|MID|..] == mid;
        assert y[1..][0] == MID + mid;
      }
    }
  }

  // ---- Ports ------------------------------------------------------------------------------------------

  const AUDIO := "m=audio"
  const AUDIO_ON_NINE := "m=audio 9 "

  /** What follows a zero and blanks, line ends among them. */
  function AfterZero(b: string): Option<string> {
    if b == "" || b[0] != '0' then None
    else
      var d := TrimLeft(b[1..]);
      if |d| == |b| - 1 then None else Some(d)
  }

  function AfterBlankZero(a: string): Option<string> {
    var b := TrimLeft(a);
    if |b| == |a| then None else AfterZero(b)
  }

  function AfterZeroPort(t: string): Option<string> {
    if StartsWith(t, AUDIO) then AfterBlankZero(t[|AUDIO|..]) else None
  }

  lemma AfterZeroPortIsSuffix(t: string)
    ensures var r := AfterZeroPort(t);
      r.Some? ==>
        && |r.value| <= |t| && r.value == t[|t| - |r.value|..]
        && (r.value != "" ==> !IsBlank(r.value[0]))
  {
    if StartsWith(t, AUDIO) {
      var a := t[|AUDIO|..];
      var b := TrimLeft(a);
      TrimLeftIsSuffix(a);
      assert b == t[|t| - |b|..];
      if b != "" {
        TrimLeftIsSuffix(b[1..]);
        var d := TrimLeft(b[1..]);
        assert d == t[|t| - |d|..];
      }
    }
  }

  /** A zero port of an audio m-line made nine. */
  function PortNine(t: string): string {
    match AfterZeroPort(t)
    case None => t
    case Some(rest) => AUDIO_ON_NINE + rest
  }

  function OnNine(x: seq<string>): (y: seq<string>)
    requires x != []
    ensures y != []
  {
    Lines(PortNine(Unlines(x)))
  }

  /** keepGeneratedInactiveAudioReusable. */
  function KeepGenerated(x: seq<string>): (y: seq<string>)
    requires x != []
    ensures y != []
  {
    if Kind(x) == Some("audio") then OnNine(x) else x
  }

  predicate Inactive(x: seq<string>) {
    exists l :: l in x && StartsWith(l, "a=inactive")
  }

  /** keepInactiveAudioReusable. */
  function KeepInactive(x: seq<string>, offer: seq<string>): (y: seq<string>)
    requires x != []
    ensures y != []
  {
    if Kind(x) == Some("audio") && Inactive(offer) then OnNine(x) else x
  }

  // ---- Bundles ------------------------------------------------------------------------------------------

  const BUNDLE := "a=group:BUNDLE"

  /** What a bundle attribute reads, and the lines behind it. */
  datatype Capture = Capture(value: string, rest: seq<string>)

  /** The text behind the attribute's name and one blank, read over line ends: the rest of the
      first line that has any text, else the last blank there is. */
  function Captured(ls: seq<string>): (r: Option<Capture>)
    ensures r.Some? ==> r.value.value != "" && |r.value.rest| < |ls|
  {
    if ls == [] then None
    else if TrimLeft(ls[0]) != "" then Some(Capture(TrimLeft(ls[0]), ls[1..]))
    else if Captured(ls[1..]).Some? then Captured(ls[1..])
    else if ls[0] != "" then Some(Capture(ls[0][|ls[0]| - 1..], ls[1..]))
    else None
  }

  /** The first line is a bundle attribute with a blank or a line end behind its name. */
  predicate Opens(x: seq<string>) {
    && x != [] && StartsWith(x[0], BUNDLE)
    && if |x[0]| == |BUNDLE| then |x| > 1 else IsBlank(x[0][|BUNDLE|])
  }

  /** What the attribute on the first line reads. */
  function BundleAt(x: seq<string>): (r: Option<Capture>)
    ensures r.Some? ==> r.value.value != "" && |r.value.rest| < |x|
  {
    if !Opens(x) then None
    else if |x[0]| == |BUNDLE| then Captured(x[1..])
    else Captured([x[0][|BUNDLE| + 1..]] + x[1..])
  }

  /** A line of the section is a bundle attribute, whether it can read anything or not. */
  predicate HasBundle(x: seq<string>) {
    x != [] && (Opens(x) || HasBundle(x[1..]))
  }

  /** What the first bundle attribute that reads anything reads. */
  function Bundle(x: seq<string>): (r: Option<string>)
    ensures r.Some? ==> r.value != ""
  {
    if x == [] then None
    else if BundleAt(x).Some? then Some(BundleAt(x).value.value)
    else Bundle(x[1..])
  }

  function ReplaceBundle(x: seq<string>, line: string): (y: seq<string>)
    ensures |y| <= |x| && (x != [] ==> y != [])
  {
    if x == [] then []
    else if BundleAt(x).Some? then [line] + BundleAt(x).value.rest
    else [x[0]] + ReplaceBundle(x[1..], line)
  }

  function BundleLine(mids: string): string {
    BUNDLE + " " + mids
  }

  /** The bundle attribute replaced, with all that it reads; without one the new line is
      appended to the text of the session section, whose last line has no line end of its own. */
  function SetBundle(x: seq<string>, mids: string): (y: seq<string>)
    requires x != []
    ensures y != []
  {
    if HasBundle(x) then ReplaceBundle(x, BundleLine(mids))
    else x[..|x| - 1] + [x[|x| - 1] + BundleLine(mids), ""]
  }

  // ---- The two transforms ----------------------------------------------------------------------------------

  function Mids(media: seq<seq<string>>): (ms: seq<string>)
    ensures |ms| <= |media| && forall m :: m in ms ==> m != ""
  {
    if media == [] then []
    else if Mid(media[0]).Some? then [Mid(media[0]).value] + Mids(media[1..])
    else Mids(media[1..])
  }

  function EachOnNine(media: seq<seq<string>>): (out: seq<seq<string>>)
    requires forall i :: 0 <= i < |media| ==> media[i] != []
    ensures |out| == |media| && forall i :: 0 <= i < |media| ==> out[i] == KeepGenerated(media[i])
  {
    seq(|media|, i requires 0 <= i < |media| => KeepGenerated(media[i]))
  }

  /** normalizeEndCallOfferSdp on the sections. */
  function NormalOffer(ss: seq<seq<string>>): (tt: seq<seq<string>>)
    requires Grouped(ss)
    ensures |tt| == |ss|
  {
    var mids := Mids(ss[1..]);
    assert forall i :: 0 <= i < |ss[1..]| ==> ss[1..][i] == ss[i + 1] && Section(ss[i + 1]);
    [if mids == [] then ss[0] else SetBundle(ss[0], Unwords(mids))] + EachOnNine(ss[1..])
  }

  function OfferSection(offer: seq<seq<string>>, i: nat): seq<string> {
    if 1 <= i < |offer| then offer[i] else [""]
  }

  /** alignEndCallAnswerSdp on one media section. */
  function AlignSection(x: seq<string>, offer: seq<string>): (y: seq<string>)
    requires x != []
    ensures y != []
  {
    KeepInactive(SetMid(x, Mid(offer)), offer)
  }

  function EachAligned(media: seq<seq<string>>, offer: seq<seq<string>>): (out: seq<seq<string>>)
    requires forall i :: 0 <= i < |media| ==> media[i] != []
    ensures |out| == |media|
    ensures forall i :: 0 <= i < |media| ==> out[i] == AlignSection(media[i], OfferSection(offer, i + 1))
  {
    seq(|media|, i requires 0 <= i < |media| => AlignSection(media[i], OfferSection(offer, i + 1)))
  }

  /** alignEndCallAnswerSdp on the sections. */
  function AlignedAnswer(answer: seq<seq<string>>, offer: seq<seq<string>>): (tt: seq<seq<string>>)
    requires Grouped(answer) && Grouped(offer)
    ensures |tt| == |answer|
  {
    var bundle := Bundle(offer[0]);
    assert forall i :: 0 <= i < |answer[1..]| ==> answer[1..][i] == answer[i + 1] && Section(answer[i + 1]);
    [if bundle.None? then answer[0] else SetBundle(answer[0], bundle.value)] + EachAligned(answer[1..], offer)
  }

  /** normalizeEndCallOfferSdp. */
  function NormalizeOffer(sdp: string): string {
    SplitThenJoin(sdp);
    OfferStaysClean(Split(sdp));
    FlattenIsNotEmpty(NormalOffer(Split(sdp)));
    Collapse(Joined(NormalOffer(Split(sdp))))
  }

  /** alignEndCallAnswerSdp. */
  function AlignAnswer(answer: string, offer: string): string {
    SplitThenJoin(answer);
    SplitThenJoin(offer);
    AnswerStaysClean(Split(answer), Split(offer));
    FlattenIsNotEmpty(AlignedAnswer(Split(answer), Split(offer)));
    Collapse(Joined(AlignedAnswer(Split(answer), Split(offer))))
  }

  // ---- Sections stay sections ----------------------------------------------------------------------------

  predicate CleanSection(x: seq<string>) {
    Section(x) && NewlineFree(x)
  }

  lemma {:induction false} ReplacedMidLines(x: seq<string>, mid: string)
    ensures var y := ReplaceMid(x, mid);
      && |y| == |x| && forall i :: 0 <= i < |x| ==> y[i] == x[i] || (MidOf(x[i]).Some? && y[i] == MID + mid)
  {
    if x != [] && MidOf(x[0]).None? { ReplacedMidLines(x[1..], mid); }
  }

  lemma MidKeepsSection(x: seq<string>, mid: Option<string>)
    requires CleanSection(x) && StartsMedia(x[0]) && (mid.Some? ==> '\n' !in mid.value)
    ensures var y := SetMid(x, mid); CleanSection(y) && y[0] == x[0]
  {
    if mid.Some? {
      ReplacedMidLines(x, mid.value);
      var line := MID + mid.value;
      assert line[0] == 'a' && x[0][0] == 'm';
      assert '\n' !in line;
      var y := SetMid(x, mid);
      hide MidOf, ReplaceMid;
      forall i | 0 <= i < |y| ensures '\n' !in y[i] && (i > 0 ==> !StartsMedia(y[i])) {
        assert i < |x| ==> x[i] in x;
        assert 0 < i && i - 1 < |x| ==> x[i - 1] in x;
      }
    }
  }

  /** Cutting off the front of a text cuts off lines and shortens one. */
  lemma {:induction false} LinesOfSuffix(ls: seq<string>, k: nat)
    requires ls != [] && NewlineFree(ls) && k <= |Unlines(ls)| && (k < |Unlines(ls)| ==> Unlines(ls)[k] != '\n')
    ensures var ms := Lines(Unlines(ls)[k..]);
      '\n' !in ms[0] && forall i :: 1 <= i < |ms| ==> ms[i] in ls[1..]
    decreases |ls|
  {
    var s, ms := Unlines(ls), Lines(Unlines(ls)[k..]);
    assert '\n' !in ls[0];
    if |ls| == 1 || k <= |ls[0]| {
      var cut := [ls[0][k..]] + ls[1..];
      assert Unlines(cut) == s[k..];
      assert forall l :: l in cut ==> BreakFree(l) by {
        forall l | l in cut ensures BreakFree(l) { assert '\n' !in l; }
      }
      LinesOfUnlines(cut);
      assert ms == cut;
    } else {
      var rest := Unlines(ls[1..]);
      assert s == ls[0] + CRLF + rest;
      assert k != |ls[0]| + 1;
      var j := k - |ls[0]| - 2;
      assert s[k..] == rest[j..];
      LinesOfSuffix(ls[1..], j);
      forall i | 1 <= i < |ms| ensures ms[i] in ls[1..] { assert ms[i] in ls[1..][1..]; }
    }
  }

  lemma NineKeepsSection(x: seq<string>)
    requires CleanSection(x) && StartsMedia(x[0]) && Kind(x) == Some("audio")
    ensures var y := OnNine(x); CleanSection(y) && StartsMedia(y[0]) && Kind(y) == Kind(x)
  {
    var t := Unlines(x);
    var rest := AfterZeroPort(t);
    if rest.None? {
      NewlineFreeLines(x);
      LinesOfUnlines(x);
    } else {
      AfterZeroPortIsSuffix(t);
      var k := |t| - |rest.value|;
      assert k < |t| ==> t[k] == rest.value[0];
      hide AfterZeroPort, Kind, Section, NewlineFree;
      SuffixOnNine(x, k);
    }
  }

  lemma SuffixOnNine(x: seq<string>, k: nat)
    requires CleanSection(x) && k <= |Unlines(x)| && (k < |Unlines(x)| ==> Unlines(x)[k] != '\n')
    ensures var y := Lines(AUDIO_ON_NINE + Unlines(x)[k..]);
      CleanSection(y) && StartsMedia(y[0]) && Kind(y) == Some("audio")
  {
    hide Lines, Unlines, Kind, KindOf, StartsMedia;
    var t := Unlines(x);
    var ms := Lines(t[k..]);
    LinesOfSuffix(x, k);
    UnlinesOfLines(t[k..]);
    NineHead(ms);
    var y := [AUDIO_ON_NINE + ms[0]] + ms[1..];
    RetailedIsClean(x, AUDIO_ON_NINE + ms[0], ms[1..]);
    MediaKind(y);
  }

  /** A clean section with another first line and fewer of its other lines. */
  lemma RetailedIsClean(x: seq<string>, first: string, tail: seq<string>)
    requires CleanSection(x) && '\n' !in first && forall i :: 0 <= i < |tail| ==> tail[i] in x[1..]
    ensures CleanSection([first] + tail)
  {
    hide StartsMedia;
    var y := [first] + tail;
    forall i | 1 <= i < |y| ensures !StartsMedia(y[i]) && '\n' !in y[i] {
      assert y[i] == tail[i - 1] && tail[i - 1] in x[1..];
    }
  }

  lemma NewlineFreeLines(x: seq<string>)
    requires NewlineFree(x)
    ensures forall l :: l in x ==> BreakFree(l)
  {
    forall l | l in x ensures BreakFree(l) { assert '\n' !in l; }
  }

  /** Text put in front of the first line. */
  lemma NineHead(ms: seq<string>)
    requires ms != [] && '\n' !in ms[0] && forall l :: l in ms[1..] ==> BreakFree(l)
    ensures var y := [AUDIO_ON_NINE + ms[0]] + ms[1..];
      && Lines(AUDIO_ON_NINE + Unlines(ms)) == y
      && StartsMedia(y[0]) && KindOf(y[0]) == Some("audio")
  {
    hide Lines, Unlines, KindOf, StartsMedia;
    var first := AUDIO_ON_NINE + ms[0];
    var y := [first] + ms[1..];
    assert '\n' !in first;
    assert BreakFree(first);
    UnlinesFront(AUDIO_ON_NINE, ms);
    LinesOfUnlines(y);
    NineIsAudio(ms[0]);
  }

  lemma UnlinesFront(front: string, ms: seq<string>)
    requires ms != []
    ensures Unlines([front + ms[0]] + ms[1..]) == front + Unlines(ms)
  {
    var y := [front + ms[0]] + ms[1..];
    assert y[1..] == ms[1..];
  }

  lemma NineIsAudio(rest: string)
    ensures StartsMedia(AUDIO_ON_NINE + rest) && KindOf(AUDIO_ON_NINE + rest) == Some("audio")
  {
    var l := AUDIO_ON_NINE + rest;
    var s := l[2..];
    assert |s| >= 6 && s[0] == 'a' && s[1] == 'u' && s[2] == 'd' && s[3] == 'i' && s[4] == 'o' && s[5] == ' ';
    assert s[..5] == "audio";
    assert forall i :: 0 <= i < 5 ==> s[i] == s[..5][i] && !IsBlank(s[i]);
    assert WordLength(s) == 5;
    assert l[..2] == "m=" && l[2..7] == "audio";
  }

  /** The kind of a media section is on its first line. */
  lemma MediaKind(x: seq<string>)
    requires Section(x)
    ensures Kind(x) == KindOf(x[0])
  {
    NoKind(x[1..]);
  }

  lemma {:induction false} NoKind(x: seq<string>)
    requires forall l :: l in x ==> !StartsMedia(l)
    ensures Kind(x) == None
  {
    if x != [] {
      assert !StartsMedia(x[0]);
      NoKind(x[1..]);
    }
  }

  lemma SetMidKind(x: seq<string>, mid: Option<string>)
    requires CleanSection(x) && StartsMedia(x[0]) && (mid.Some? ==> '\n' !in mid.value)
    ensures Kind(SetMid(x, mid)) == Kind(x)
  {
    MidKeepsSection(x, mid);
    MediaKind(x);
    MediaKind(SetMid(x, mid));
  }

  lemma {:induction false} MidIsNewlineFree(x: seq<string>)
    requires NewlineFree(x)
    ensures Mid(x).Some? ==> '\n' !in Mid(x).value
  {
    if x != [] {
      assert '\n' !in x[0];
      if MidOf(x[0]).None? { MidIsNewlineFree(x[1..]); }
    }
  }

  lemma BundleKeepsSection(x: seq<string>, mids: string)
    requires CleanSection(x) && '\n' !in mids
    ensures CleanSection(SetBundle(x, mids))
  {
    var line, y := BundleLine(mids), SetBundle(x, mids);
    ReplacedBundleLines(x, line);
    var last := x[|x| - 1];
    assert '\n' !in line && '\n' !in last && '\n' !in last + line;
    assert line[0] == 'a' && line[1] == '=';
    hide BundleAt, ReplaceBundle, HasBundle, BundleLine;
    if HasBundle(x) {
      forall i | 0 <= i < |y| ensures '\n' !in y[i] && (i > 0 ==> !StartsMedia(y[i])) {
        assert y[i] == line || y[i] in x[i..];
      }
    } else {
      forall i | 0 <= i < |y| ensures '\n' !in y[i] && (i > 0 ==> !StartsMedia(y[i])) {
        assert i < |x| ==> x[i] in x;
        if i == |x| - 1 && i > 0 { GluedStart(last, line); }
      }
    }
  }

  lemma GluedStart(last: string, line: string)
    requires !StartsMedia(last) && line != "" && line[0] == 'a'
    ensures !StartsMedia(last + line)
  {
    var s := last + line;
    if |last| >= 2 { assert s[..2] == last[..2]; } else { assert s[|last|] == 'a'; }
  }

  lemma {:induction false} CapturedLines(ls: seq<string>)
    requires Captured(ls).Some?
    ensures var c := Captured(ls).value;
      && 1 <= |ls| - |c.rest| && c.rest == ls[|ls| - |c.rest|..]
      && exists l :: l in ls && forall ch :: ch in c.value ==> ch in l
  {
    if TrimLeft(ls[0]) != "" {
      TrimLeftIsSuffix(ls[0]);
      assert ls[0] in ls;
    } else if Captured(ls[1..]).Some? {
      CapturedLines(ls[1..]);
      var l :| l in ls[1..] && forall ch :: ch in Captured(ls).value.value ==> ch in l;
      assert l in ls;
    } else {
      assert ls[0] in ls;
    }
  }

  /** The lines behind a bundle attribute are the section's own, from some line on. */
  lemma BundleAtLines(x: seq<string>)
    requires BundleAt(x).Some?
    ensures var c := BundleAt(x).value;
      && c.rest == x[|x| - |c.rest|..]
      && (NewlineFree(x) ==> '\n' !in c.value)
  {
    var c := BundleAt(x).value;
    var ls := if |x[0]| == |BUNDLE| then x[1..] else [x[0][|BUNDLE| + 1..]] + x[1..];
    CapturedLines(ls);
    hide Captured;
    var l :| l in ls && forall ch :: ch in c.value ==> ch in l;
    assert x[0] in x;
    assert forall z :: z in x[1..] ==> z in x;
  }

  lemma {:induction false} ReplacedBundleLines(x: seq<string>, line: string)
    ensures var y := ReplaceBundle(x, line);
      forall i :: 0 <= i < |y| ==> y[i] == line || y[i] in x[i..]
  {
    if x != [] {
      var y := ReplaceBundle(x, line);
      if BundleAt(x).Some? {
        BundleAtLines(x);
        var rest := BundleAt(x).value.rest;
        hide BundleAt;
        forall i | 1 <= i < |y| ensures y[i] in x[i..] {
          assert y[i] == rest[i - 1] == x[|x| - |rest| + i - 1];
        }
      } else {
        ReplacedBundleLines(x[1..], line);
        hide BundleAt;
        forall i | 0 <= i < |y| ensures y[i] == line || y[i] in x[i..] {
          if i > 0 { assert x[1..][i - 1..] == x[i..]; }
        }
      }
    }
  }

  lemma {:induction false} BundleIsNewlineFree(x: seq<string>)
    requires NewlineFree(x)
    ensures Bundle(x).Some? ==> '\n' !in Bundle(x).value
  {
    if x != [] {
      if BundleAt(x).Some? {
        BundleAtLines(x);
      } else {
        assert forall z :: z in x[1..] ==> z in x;
        BundleIsNewlineFree(x[1..]);
      }
    }
  }

  lemma {:induction false} MidsAreNewlineFree(media: seq<seq<string>>)
    requires forall i :: 0 <= i < |media| ==> NewlineFree(media[i])
    ensures NewlineFree(Mids(media))
  {
    if media != [] {
      assert NewlineFree(media[0]);
      MidIsNewlineFree(media[0]);
      MidsAreNewlineFree(media[1..]);
    }
  }

  lemma {:induction false} UnwordsNewlineFree(ws: seq<string>)
    requires ws != [] && NewlineFree(ws)
    ensures '\n' !in Unwords(ws)
  {
    assert '\n' !in ws[0];
    if |ws| > 1 {
      UnwordsNewlineFree(ws[1..]);
      assert '\n' !in " ";
    }
  }

  lemma OfferSessionClean(ss: seq<seq<string>>)
    requires Clean(ss)
    ensures CleanSection(NormalOffer(ss)[0])
  {
    var mids := Mids(ss[1..]);
    MidsAreNewlineFree(ss[1..]);
    assert CleanSection(ss[0]);
    if mids != [] {
      UnwordsNewlineFree(mids);
      BundleKeepsSection(ss[0], Unwords(mids));
    }
  }

  lemma OfferMediaClean(ss: seq<seq<string>>)
    requires Clean(ss)
    ensures var tt := NormalOffer(ss);
      forall i :: 1 <= i < |ss| ==> CleanSection(tt[i]) && StartsMedia(tt[i][0]) && Kind(tt[i]) == Kind(ss[i])
  {
    assert forall i :: 1 <= i < |ss| ==> CleanSection(ss[i]) && StartsMedia(ss[i][0]);
    hide OnNine, Kind, SetBundle, NewlineFree, Section, Mids, Unwords;
    var tt, media := NormalOffer(ss), ss[1..];
    hide NormalOffer;
    forall i | 1 <= i < |ss| ensures CleanSection(tt[i]) && StartsMedia(tt[i][0]) && Kind(tt[i]) == Kind(ss[i]) {
      MediaOnNine(ss, i);
      if Kind(ss[i]) == Some("audio") { NineKeepsSection(ss[i]); }
    }
  }

  lemma MediaOnNine(ss: seq<seq<string>>, i: nat)
    requires Grouped(ss) && 1 <= i < |ss|
    ensures ss[i] != [] && NormalOffer(ss)[i] == KeepGenerated(ss[i])
  {
    hide KeepGenerated, SetBundle, Mids, Unwords, StartsMedia;
    assert Section(ss[i]);
    hide Section;
    assert ss[1..][i - 1] == ss[i];
  }

  lemma OfferStaysClean(ss: seq<seq<string>>)
    requires Clean(ss)
    ensures Clean(NormalOffer(ss))
  {
    OfferSessionClean(ss);
    OfferMediaClean(ss);
    hide Section, NewlineFree, NormalOffer, StartsMedia;
  }

  lemma SectionAligned(x: seq<string>, offer: seq<string>)
    requires CleanSection(x) && StartsMedia(x[0]) && NewlineFree(offer)
    ensures var y := AlignSection(x, offer); CleanSection(y) && StartsMedia(y[0]) && Kind(y) == Kind(x)
  {
    MidIsNewlineFree(offer);
    MidKeepsSection(x, Mid(offer));
    SetMidKind(x, Mid(offer));
    var z := SetMid(x, Mid(offer));
    if Kind(z) == Some("audio") { NineKeepsSection(z); }
  }

  lemma AlignedAt(answer: seq<seq<string>>, offer: seq<seq<string>>, i: nat)
    requires Grouped(answer) && Grouped(offer) && 1 <= i < |answer|
    ensures answer[i] != [] && AlignedAnswer(answer, offer)[i] == AlignSection(answer[i], OfferSection(offer, i))
  {
    hide AlignSection, OfferSection, SetBundle, Bundle, StartsMedia;
    assert Section(answer[i]);
    hide Section;
    assert answer[1..][i - 1] == answer[i];
  }

  lemma AnswerSessionClean(answer: seq<seq<string>>, offer: seq<seq<string>>)
    requires Clean(answer) && Clean(offer)
    ensures CleanSection(AlignedAnswer(answer, offer)[0])
  {
    BundleIsNewlineFree(offer[0]);
    assert CleanSection(answer[0]);
    if Bundle(offer[0]).Some? { BundleKeepsSection(answer[0], Bundle(offer[0]).value); }
  }

  lemma AnswerMediaClean(answer: seq<seq<string>>, offer: seq<seq<string>>, i: nat)
    requires Clean(answer) && Clean(offer) && 1 <= i < |answer|
    ensures var x := AlignedAnswer(answer, offer)[i];
      x != [] && CleanSection(x) && StartsMedia(x[0]) && Kind(x) == Kind(answer[i])
  {
    hide AlignedAnswer, AlignSection, Kind;
    AlignedAt(answer, offer, i);
    assert CleanSection(answer[i]) && StartsMedia(answer[i][0]);
    assert NewlineFree(OfferSection(offer, i));
    SectionAligned(answer[i], OfferSection(offer, i));
  }

  lemma AnswerStaysClean(answer: seq<seq<string>>, offer: seq<seq<string>>)
    requires Clean(answer) && Clean(offer)
    ensures var tt := AlignedAnswer(answer, offer);
      Clean(tt) && forall i :: 1 <= i < |answer| ==> Kind(tt[i]) == Kind(answer[i])
  {
    hide AlignedAnswer, Kind, StartsMedia, Section, NewlineFree;
    var tt := AlignedAnswer(answer, offer);
    AnswerSessionClean(answer, offer);
    forall i | 1 <= i < |tt|
      ensures tt[i] != [] && CleanSection(tt[i]) && StartsMedia(tt[i][0]) && Kind(tt[i]) == Kind(answer[i])
    {
      AnswerMediaClean(answer, offer, i);
    }
  }

  // ---- What the transforms promise --------------------------------------------------------------------------

  /** On the text as on the sections: the final replacement does nothing. */
  lemma OfferIsNormalOffer(sdp: string)
    ensures Clean(Split(sdp)) && Split(NormalizeOffer(sdp)) == NormalOffer(Split(sdp))
  {
    SplitThenJoin(sdp);
    OfferStaysClean(Split(sdp));
    JoinThenSplit(NormalOffer(Split(sdp)));
    NormalCollapses(Joined(NormalOffer(Split(sdp))));
  }

  lemma AnswerIsAlignedAnswer(answer: string, offer: string)
    ensures Clean(Split(answer)) && Clean(Split(offer))
    ensures Split(AlignAnswer(answer, offer)) == AlignedAnswer(Split(answer), Split(offer))
  {
    SplitThenJoin(answer);
    SplitThenJoin(offer);
    AnswerStaysClean(Split(answer), Split(offer));
    JoinThenSplit(AlignedAnswer(Split(answer), Split(offer)));
    NormalCollapses(Joined(AlignedAnswer(Split(answer), Split(offer))));
  }

  /** Both transforms keep the number of sections and the kind of each media section, on every
      text. */
  lemma SectionsAreKept(sdp: string, offer: string)
    ensures var ss, tt, uu := Split(sdp), Split(NormalizeOffer(sdp)), Split(AlignAnswer(sdp, offer));
      && |tt| == |ss| && |uu| == |ss|
      && forall i :: 1 <= i < |ss| ==> Kind(tt[i]) == Kind(ss[i]) && Kind(uu[i]) == Kind(ss[i])
  {
    OfferIsNormalOffer(sdp);
    AnswerIsAlignedAnswer(sdp, offer);
    OfferMediaClean(Split(sdp));
    AnswerStaysClean(Split(sdp), Split(offer));
  }
}
