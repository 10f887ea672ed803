/** The two transforms of session descriptions at the end of a call (negotiation/sdp.js). */
module EndCallSdp {
  import opened Text
  import opened SdpLines

  datatype Option<+T> = None | Some(value: T)

  // ---- Line ends ---------------------------------------------------------------------------------

  /** Every line end as CRLF. */
  function Crlf(s: string): string {
    if s == "" then ""
    else if AtBreak(s, 0) then CRLF + Crlf(s[2..])
    else if s[0] == '\n' then CRLF + Crlf(s[1..])
    else [s[0]] + Crlf(s[1..])
  }

  /** Every newline belongs to a CRLF. */
  predicate Normal(s: string) {
    forall i :: 0 <= i < |s| && s[i] == '\n' ==> i > 0 && s[i - 1] == '\r'
  }

  lemma {:induction false} CrlfIsNormal(s: string)
    ensures Normal(Crlf(s))
  {
    if s != "" {
      var n := if AtBreak(s, 0) then 2 else 1;
      CrlfIsNormal(s[n..]);
      var rest, t := Crlf(s[n..]), Crlf(s);
      var k := |t| - |rest|;
      assert t == t[..k] + rest;
      forall i | 0 <= i < |t| && t[i] == '\n' ensures i > 0 && t[i - 1] == '\r' {
        if i >= k { assert rest[i - k] == '\n'; }
      }
    }
  }

  lemma {:induction false} CrlfOfNormal(s: string)
    requires Normal(s)
    ensures Crlf(s) == s
    decreases |s|
  {
    if s != "" {
      var n := if AtBreak(s, 0) then 2 else 1;
      var rest := s[n..];
      forall i | 0 <= i < |rest| && rest[i] == '\n' ensures i > 0 && rest[i - 1] == '\r' {
        assert s[i + n] == '\n';
      }
      CrlfOfNormal(rest);
      assert s == s[..n] + rest;
    }
  }

  predicate NewlineFree(ls: seq<string>) {
    forall l :: l in ls ==> '\n' !in l
  }

  lemma {:induction false} NormalLines(s: string)
    requires Normal(s)
    ensures NewlineFree(Lines(s))
    decreases |s|
  {
    var j := NextBreak(s, 0);
    forall i | 0 <= i < j ensures s[i] != '\n' {
      assert i > 0 ==> !AtBreak(s, i - 1);
    }
    if j < |s| {
      var rest := s[j + 2..];
      forall i | 0 <= i < |rest| && rest[i] == '\n' ensures i > 0 && rest[i - 1] == '\r' {
        assert s[i + j + 2] == '\n';
      }
      NormalLines(rest);
    }
  }

  lemma {:induction false} UnlinesIsNormal(ls: seq<string>)
    requires ls != [] && NewlineFree(ls)
    ensures Normal(Unlines(ls))
  {
    assert '\n' !in ls[0];
    if |ls| > 1 {
      UnlinesIsNormal(ls[1..]);
      var rest, s, k := Unlines(ls[1..]), Unlines(ls), |ls[0]| + 2;
      assert s == ls[0] + CRLF + rest;
      forall i | 0 <= i < |s| && s[i] == '\n' ensures i > 0 && s[i - 1] == '\r' {
        if i >= k { assert rest[i - k] == '\n'; }
      }
    }
  }

  // ---- Splitting and joining ---------------------------------------------------------------------

  /** The session section and the media sections of a description, line ends made CRLF. */
  function Split(sdp: string): (ss: seq<seq<string>>) {
    Sections(Crlf(sdp))
  }

  predicate Clean(ss: seq<seq<string>>) {
    Grouped(ss) && forall i :: 0 <= i < |ss| ==> NewlineFree(ss[i])
  }

  /** Joining the split sections gives back the text with its line ends made CRLF. */
  lemma SplitThenJoin(sdp: string)
    ensures Clean(Split(sdp)) && Flatten(Split(sdp)) != [] && Joined(Split(sdp)) == Crlf(sdp)
  {
    var s, ss := Crlf(sdp), Split(sdp);
    TextOfSections(s);
    CrlfIsNormal(sdp);
    NormalLines(s);
    GroupIsGrouped(Lines(s));
    forall i | 0 <= i < |ss| ensures NewlineFree(ss[i]) {
      forall l | l in ss[i] ensures '\n' !in l { InFlatten(ss, l); }
    }
  }

  /** And a clean list of sections is what its joined text splits into. */
  lemma JoinThenSplit(ss: seq<seq<string>>)
    requires Clean(ss)
    ensures Flatten(ss) != [] && Normal(Joined(ss)) && Split(Joined(ss)) == ss
  {
    forall i, j | 0 <= i < |ss| && 0 <= j < |ss[i]| ensures BreakFree(ss[i][j]) {
      assert ss[i][j] in ss[i] && '\n' !in ss[i][j];
    }
    SectionsOfText(ss);
    forall l | l in Flatten(ss) ensures '\n' !in l { InFlatten(ss, l); }
    UnlinesIsNormal(Flatten(ss));
    CrlfOfNormal(Joined(ss));
  }

  // ---- The last replacement ------------------------------------------------------------------------

  function NewlineRun(s: string): (n: nat)
    ensures n <= |s| && (n > 0 ==> s[0] == '\n') && (n > 1 ==> s[1] == '\n')
  {
    if s == "" || s[0] != '\n' then 0 else 1 + NewlineRun(s[1..])
  }

  /** A CR with three or more newlines after it made two line ends. */
  function Collapse(s: string): string
    decreases |s|
  {
    if s == "" then ""
    else
      var n := NewlineRun(s[1..]);
      if s[0] == '\r' && n >= 3 then CRLF + CRLF + Collapse(s[1 + n..]) else [s[0]] + Collapse(s[1..])
  }

  predicate NoDoubleNewline(s: string) {
    forall i :: 0 <= i < |s| - 1 ==> !(s[i] == '\n' && s[i + 1] == '\n')
  }

  /** In a text of CRLF lines there is nothing to collapse. */
  lemma {:induction false} CollapsesNothing(s: string)
    requires NoDoubleNewline(s)
    ensures Collapse(s) == s
    decreases |s|
  {
    if s != "" {
      var rest := s[1..];
      assert |s| > 2 ==> !(s[1] == '\n' && s[2] == '\n');
      forall i | 0 <= i < |rest| - 1 ensures !(rest[i] == '\n' && rest[i + 1] == '\n') {
        assert !(s[i + 1] == '\n' && s[i + 2] == '\n');
      }
      CollapsesNothing(rest);
    }
  }

  lemma NormalCollapses(s: string)
    requires Normal(s)
    ensures Collapse(s) == s
  {
    forall i | 0 <= i < |s| - 1 ensures !(s[i] == '\n' && s[i + 1] == '\n') {
      if s[i + 1] == '\n' { assert s[i] == '\r'; }
    }
    CollapsesNothing(s);
  }
}
