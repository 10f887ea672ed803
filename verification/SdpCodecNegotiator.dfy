/** Narrowing the audio of an offer to the payload types a policy allows
    (SdpCodecNegotiator.js; sections 5.14, 6.6 and 6.15 of RFC 8866). */
module SdpCodecNegotiators {
  import opened Text
  import opened SdpLines

  datatype Option<+T> = None | Some(value: T)

  predicate IsDigit(c: char) { '0' <= c <= '9' }

  /** How many digits s starts with. */
  function Digits(s: string): (n: nat)
    ensures n <= |s| && (forall i :: 0 <= i < n ==> IsDigit(s[i])) && (n < |s| ==> !IsDigit(s[n]))
  {
    if s == "" || !IsDigit(s[0]) then 0 else 1 + Digits(s[1..])
  }

  function AfterAttribute(l: string): Option<string> {
    if StartsWith(l, "a=rtpmap:") then Some(l[9..])
    else if StartsWith(l, "a=fmtp:") then Some(l[7..])
    else if StartsWith(l, "a=rtcp-fb:") then Some(l[10..])
    else None
  }

  /** The payload type a numeric rtpmap, fmtp or rtcp-fb line is about. */
  function PayloadOf(l: string): Option<string> {
    match AfterAttribute(l)
    case None => None
    case Some(s) =>
      var n := Digits(s);
      if n > 0 && (n == |s| || IsBlank(s[n])) then Some(s[..n]) else None
  }

  function Keep(ws: seq<string>, allowed: set<string>): seq<string> {
    if ws == [] then []
    else if ws[0] in allowed then [ws[0]] + Keep(ws[1..], allowed)
    else Keep(ws[1..], allowed)
  }

  predicate Orphan(l: string, payloads: seq<string>) {
    PayloadOf(l).Some? && PayloadOf(l).value !in payloads
  }

  function WithoutOrphans(ls: seq<string>, payloads: seq<string>): seq<string> {
    if ls == [] then []
    else if Orphan(ls[0], payloads) then WithoutOrphans(ls[1..], payloads)
    else [ls[0]] + WithoutOrphans(ls[1..], payloads)
  }

  /** The payload types of an m-line: its words from the fourth on. */
  function Payloads(mLine: string): seq<string> {
    if |Words(mLine)| <= 3 then [] else Words(mLine)[3..]
  }

  /** Its words before those: media, port and protocol. */
  function MediaHead(mLine: string): seq<string> {
    if |Words(mLine)| <= 3 then Words(mLine) else Words(mLine)[..3]
  }

  predicate Audio(l: string) {
    StartsWith(l, "m=audio")
  }

  function NarrowSection(x: seq<string>, allowed: set<string>): (y: seq<string>)
    requires x != []
    ensures y != []
  {
    var payloads := Keep(Payloads(x[0]), allowed);
    if !Audio(x[0]) || payloads == [] then x
    else [Unwords(Words(x[0])[..3] + payloads)] + WithoutOrphans(x[1..], payloads)
  }

  function NarrowAll(ss: seq<seq<string>>, allowed: set<string>): (tt: seq<seq<string>>)
    requires forall i :: 0 <= i < |ss| ==> ss[i] != []
    ensures |tt| == |ss| && forall i :: 0 <= i < |ss| ==> tt[i] == NarrowSection(ss[i], allowed)
  {
    if ss == [] then [] else [NarrowSection(ss[0], allowed)] + NarrowAll(ss[1..], allowed)
  }

  predicate Occurs(s: string, t: string, i: int) {
    0 <= i <= |s| - |t| && s[i..i + |t|] == t
  }

  predicate Includes(s: string, t: string) {
    exists i :: 0 <= i <= |s| && Occurs(s, t, i)
  }

  /** narrowAudioOfferToPayloads. */
  function Narrow(sdp: string, allowed: set<string>): string {
    if sdp == "" || !Includes(sdp, "m=audio") || allowed == {} then sdp
    else
      TextOfSections(sdp);
      NarrowedIsGrouped(Sections(sdp), allowed);
      FlattenIsNotEmpty(NarrowAll(Sections(sdp), allowed));
      Joined(NarrowAll(Sections(sdp), allowed))
  }

  // ---- One section --------------------------------------------------------------------------------

  predicate Subsequence<T(==)>(xs: seq<T>, ys: seq<T>) {
    xs == [] || (ys != [] && if xs[0] == ys[0] then Subsequence(xs[1..], ys[1..]) else Subsequence(xs, ys[1..]))
  }

  lemma {:induction false} KeepKeeps(ws: seq<string>, allowed: set<string>)
    ensures var ks := Keep(ws, allowed);
      && Subsequence(ks, ws)
      && (forall w :: w in ks <==> w in ws && w in allowed)
      && (forall w :: w in allowed ==> multiset(ks)[w] == multiset(ws)[w])
  {
    if ws != [] {
      KeepKeeps(ws[1..], allowed);
      assert ws == [ws[0]] + ws[1..];
    }
  }

  lemma {:induction false} OrphansGo(ls: seq<string>, payloads: seq<string>)
    ensures var ks := WithoutOrphans(ls, payloads);
      && Subsequence(ks, ls)
      && (forall l :: l in ks <==> l in ls && !Orphan(l, payloads))
      && (forall l :: !Orphan(l, payloads) ==> multiset(ks)[l] == multiset(ls)[l])
  {
    if ls != [] {
      OrphansGo(ls[1..], payloads);
      assert ls == [ls[0]] + ls[1..];
    }
  }

  /** What the first line of a narrowed section is made of. */
  lemma NarrowedMLine(mLine: string, payloads: seq<string>)
    requires Audio(mLine) && payloads != [] && |Words(mLine)| > 3 && forall w :: w in payloads ==> w in Words(mLine)
    ensures var line := Unwords(Words(mLine)[..3] + payloads);
      && Words(line) == Words(mLine)[..3] + payloads
      && Payloads(line) == payloads && Audio(line) && MediaHead(line) == MediaHead(mLine)
  {
    var ws := Words(mLine);
    var vs := ws[..3] + payloads;
    WordsOfUnwords(vs);
    UnwordsOfWords(mLine);
    AudioIsFirstWord(ws);
    AudioIsFirstWord(vs);
  }

  lemma AudioIsFirstWord(ws: seq<string>)
    requires ws != [] && forall w :: w in ws ==> IsWord(w)
    ensures Audio(Unwords(ws)) <==> Audio(ws[0])
  {
    var s := Unwords(ws);
    assert ws[0] <= s;
    var audio := "m=audio";
    if |ws| > 1 && |ws[0]| < |audio| { assert s[|ws[0]|] != audio[|ws[0]|]; }
  }

  lemma KeptIsOffered(mLine: string, allowed: set<string>)
    ensures forall w :: w in Keep(Payloads(mLine), allowed) ==> w in Words(mLine)
    ensures Keep(Payloads(mLine), allowed) != [] ==> |Words(mLine)| > 3
  {
    KeepKeeps(Payloads(mLine), allowed);
  }

  /** An audio section that offers an allowed payload type keeps exactly its allowed ones, in
      order, loses every attribute line of the others and nothing else; any other section is
      untouched. */
  lemma SectionIsNarrowed(x: seq<string>, allowed: set<string>)
    requires x != []
    ensures var y := NarrowSection(x, allowed);
      if Audio(x[0]) && (exists w :: w in Payloads(x[0]) && w in allowed) then
        && MediaHead(y[0]) == MediaHead(x[0])
        && Subsequence(Payloads(y[0]), Payloads(x[0]))
        && (forall w :: w in Payloads(y[0]) <==> w in Payloads(x[0]) && w in allowed)
        && (forall w :: w in allowed ==> multiset(Payloads(y[0]))[w] == multiset(Payloads(x[0]))[w])
        && Subsequence(y[1..], x[1..])
        && (forall l :: l in y[1..] <==> l in x[1..] && !Orphan(l, Payloads(y[0])))
        && (forall l :: !Orphan(l, Payloads(y[0])) ==> multiset(y[1..])[l] == multiset(x[1..])[l])
      else y == x
  {
    var payloads := Keep(Payloads(x[0]), allowed);
    KeepKeeps(Payloads(x[0]), allowed);
    KeptIsOffered(x[0], allowed);
    if Audio(x[0]) && payloads != [] {
      NarrowedMLine(x[0], payloads);
      OrphansGo(x[1..], payloads);
      hide Keep, WithoutOrphans, Orphan, Payloads, Subsequence;
      assert payloads[0] in payloads;
    }
  }

  lemma {:induction false} KeepAllowed(ws: seq<string>, allowed: set<string>)
    requires forall w :: w in ws ==> w in allowed
    ensures Keep(ws, allowed) == ws
  {
    if ws != [] { KeepAllowed(ws[1..], allowed); }
  }

  lemma {:induction false} NoOrphans(ls: seq<string>, payloads: seq<string>)
    requires forall l :: l in ls ==> !Orphan(l, payloads)
    ensures WithoutOrphans(ls, payloads) == ls
  {
    if ls != [] { NoOrphans(ls[1..], payloads); }
  }

  lemma SectionIsStable(x: seq<string>, allowed: set<string>)
    requires x != []
    ensures NarrowSection(NarrowSection(x, allowed), allowed) == NarrowSection(x, allowed)
  {
    var payloads := Keep(Payloads(x[0]), allowed);
    KeptIsOffered(x[0], allowed);
    if Audio(x[0]) && payloads != [] {
      var y := NarrowSection(x, allowed);
      NarrowedMLine(x[0], payloads);
      KeepKeeps(Payloads(x[0]), allowed);
      KeepAllowed(payloads, allowed);
      OrphansGo(x[1..], payloads);
      NoOrphans(y[1..], payloads);
      assert Words(y[0])[..3] == Words(x[0])[..3];
    }
  }

  // ---- The whole text ---------------------------------------------------------------------------------

  lemma {:induction false} UnwordsBreakFree(ws: seq<string>)
    requires ws != [] && forall w :: w in ws ==> BreakFree(w)
    ensures BreakFree(Unwords(ws))
  {
    assert BreakFree(ws[0]);
    if |ws| > 1 {
      UnwordsBreakFree(ws[1..]);
      var rest, s := Unwords(ws[1..]), Unwords(ws);
      forall i | 0 <= i < |s| ensures !AtBreak(s, i) {
        if i + 1 < |ws[0]| {
          assert !AtBreak(ws[0], i);
        } else if i > |ws[0]| {
          assert !AtBreak(rest, i - |ws[0]| - 1);
        }
      }
    }
  }

  lemma {:induction false} WordsBreakFree(s: string)
    requires BreakFree(s)
    ensures forall w :: w in Words(s) ==> BreakFree(w)
    decreases |s|
  {
    var j := NextSpace(s, 0);
    forall i | 0 <= i < j ensures !AtBreak(s[..j], i) { assert !AtBreak(s, i); }
    if j < |s| {
      var rest := s[j + 1..];
      forall i | 0 <= i < |rest| ensures !AtBreak(rest, i) { assert !AtBreak(s, i + j + 1); }
      WordsBreakFree(rest);
    }
  }

  lemma SectionStaysSection(x: seq<string>, allowed: set<string>)
    requires Section(x) && forall i :: 0 <= i < |x| ==> BreakFree(x[i])
    ensures var y := NarrowSection(x, allowed);
      Section(y) && (StartsMedia(x[0]) ==> StartsMedia(y[0])) && forall i :: 0 <= i < |y| ==> BreakFree(y[i])
  {
    var payloads, y := Keep(Payloads(x[0]), allowed), NarrowSection(x, allowed);
    KeptIsOffered(x[0], allowed);
    if Audio(x[0]) && payloads != [] {
      hide Keep, WithoutOrphans, Orphan, Words, Payloads, MediaHead, StartsMedia, BreakFree, Unwords;
      NarrowedMLine(x[0], payloads);
      OrphansGo(x[1..], payloads);
      NarrowedMLineBreakFree(x[0], payloads);
      AudioStartsMedia(y[0]);
      hide Audio, Subsequence;
      RetailedSection(x, y[0], y[1..]);
      assert y == [y[0]] + y[1..];
    }
  }

  lemma RetailedSection(x: seq<string>, first: string, tail: seq<string>)
    requires Section(x) && BreakFree(first) && forall i :: 0 <= i < |x| ==> BreakFree(x[i])
    requires forall l :: l in tail ==> l in x[1..]
    ensures var y := [first] + tail; Section(y) && forall i :: 0 <= i < |y| ==> BreakFree(y[i])
  {
    hide BreakFree, StartsMedia;
    var y := [first] + tail;
    forall i | 1 <= i < |y| ensures !StartsMedia(y[i]) && BreakFree(y[i]) {
      assert y[i] == tail[i - 1] && tail[i - 1] in x[1..];
    }
  }

  lemma NarrowedMLineBreakFree(mLine: string, payloads: seq<string>)
    requires BreakFree(mLine) && |Words(mLine)| > 3 && forall w :: w in payloads ==> w in Words(mLine)
    ensures BreakFree(Unwords(Words(mLine)[..3] + payloads))
  {
    WordsBreakFree(mLine);
    var vs := Words(mLine)[..3] + payloads;
    forall w | w in vs ensures w in Words(mLine) {}
    hide BreakFree, Words;
    UnwordsBreakFree(vs);
  }

  lemma AudioStartsMedia(l: string)
    requires Audio(l)
    ensures StartsMedia(l)
  {
    var audio := "m=audio";
    assert l[..2] == audio[..2];
  }

  lemma NarrowedIsGrouped(ss: seq<seq<string>>, allowed: set<string>)
    requires Grouped(ss) && AllBreakFree(ss)
    ensures Grouped(NarrowAll(ss, allowed)) && AllBreakFree(NarrowAll(ss, allowed))
  {
    assert forall i :: 0 <= i < |ss| ==> Section(ss[i]) && ss[i] != [];
    hide Section, BreakFree, NarrowSection, StartsMedia;
    forall i | 0 <= i < |ss| ensures Section(NarrowAll(ss, allowed)[i])
      && (StartsMedia(ss[i][0]) ==> StartsMedia(NarrowAll(ss, allowed)[i][0]))
      && forall j :: 0 <= j < |NarrowAll(ss, allowed)[i]| ==> BreakFree(NarrowAll(ss, allowed)[i][j])
    {
      SectionStaysSection(ss[i], allowed);
    }
  }

  lemma {:induction false} LineInText(ls: seq<string>, k: nat)
    requires k < |ls|
    ensures Includes(Unlines(ls), ls[k])
  {
    var s := Unlines(ls);
    if k == 0 {
      assert Occurs(s, ls[0], 0);
    } else {
      LineInText(ls[1..], k - 1);
      var rest := Unlines(ls[1..]);
      var i :| 0 <= i <= |rest| && Occurs(rest, ls[k], i);
      assert s == ls[0] + CRLF + rest;
      assert Occurs(s, ls[k], |ls[0]| + 2 + i);
    }
  }

  lemma IncludesPrefix(s: string, l: string, p: string)
    requires Includes(s, l) && StartsWith(l, p)
    ensures Includes(s, p)
  {
    var i :| 0 <= i <= |s| && Occurs(s, l, i);
    assert s[i..i + |p|] == s[i..i + |l|][..|p|];
    assert Occurs(s, p, i);
  }

  /** A text without "m=audio" in it has no audio section. */
  lemma AudioIsIncluded(sdp: string, i: nat)
    requires i < |Sections(sdp)|
    ensures Sections(sdp)[i] != []
    ensures Audio(Sections(sdp)[i][0]) ==> Includes(sdp, "m=audio")
  {
    var ss, ls := Sections(sdp), Lines(sdp);
    TextOfSections(sdp);
    GroupIsGrouped(ls);
    UnlinesOfLines(sdp);
    assert Section(ss[i]);
    var l := ss[i][0];
    InFlatten(ss, l);
    var k :| 0 <= k < |ls| && ls[k] == l;
    LineInText(ls, k);
    if Audio(l) { IncludesPrefix(sdp, l, "m=audio"); }
  }

  /** The text function is the section function on every section: its early exits change
      nothing. */
  lemma NarrowsEverySection(sdp: string, allowed: set<string>)
    ensures Grouped(Sections(sdp))
    ensures Sections(Narrow(sdp, allowed)) == NarrowAll(Sections(sdp), allowed)
  {
    var ss := Sections(sdp);
    TextOfSections(sdp);
    NarrowedIsGrouped(ss, allowed);
    SectionsOfText(NarrowAll(ss, allowed));
    hide Sections, Grouped, AllBreakFree;
    if allowed == {} || !Includes(sdp, "m=audio") || sdp == "" {
      forall i | 0 <= i < |ss| ensures NarrowSection(ss[i], allowed) == ss[i] {
        EarlyExit(sdp, allowed, i);
      }
    }
  }

  /** Where the text function returns early, no section would have changed. */
  lemma EarlyExit(sdp: string, allowed: set<string>, i: nat)
    requires i < |Sections(sdp)| && (allowed == {} || !Includes(sdp, "m=audio") || sdp == "")
    ensures Sections(sdp)[i] != []
    ensures NarrowSection(Sections(sdp)[i], allowed) == Sections(sdp)[i]
  {
    AudioIsIncluded(sdp, i);
    NothingIncluded(sdp);
    var x := Sections(sdp)[i];
    hide Includes, Payloads, Sections;
    var ks := Keep(Payloads(x[0]), allowed);
    KeepKeeps(Payloads(x[0]), allowed);
    if allowed == {} && ks != [] { assert ks[0] in ks; }
  }

  lemma NothingIncluded(sdp: string)
    ensures sdp == "" ==> !Includes(sdp, "m=audio")
  {
  }

  /** Narrowing twice is narrowing once. */
  lemma NarrowingIsIdempotent(sdp: string, allowed: set<string>)
    ensures Narrow(Narrow(sdp, allowed), allowed) == Narrow(sdp, allowed)
  {
    var once := Narrow(sdp, allowed);
    var twice := Narrow(once, allowed);
    NarrowsEverySection(sdp, allowed);
    NarrowsEverySection(once, allowed);
    TextOfSections(once);
    TextOfSections(twice);
    var ss := Sections(sdp);
    hide Narrow, Sections, NarrowSection;
    forall i | 0 <= i < |ss| ensures Sections(twice)[i] == Sections(once)[i] {
      assert Section(ss[i]);
      SectionIsStable(ss[i], allowed);
    }
    assert Sections(twice) == Sections(once);
  }
}
