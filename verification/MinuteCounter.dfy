/** The prepaid minute ledger (MinuteCounter.js): balances per service and identity, reset
    when the month changes, credited once per finished call. */
module MinuteCounters {
  import opened ReconcileRules
  import opened Text

  // ---- Stored data ---------------------------------------------------------------

  /** `month` counts calendar months, so equal months are equal YYYY-MM prefixes. */
  datatype Day = Day(month: int, day: int)

  /** The instant of one operation: the millisecond clock and the local date. */
  datatype Moment = Moment(ms: int, today: Day)

  /** What Number(x) makes of a stored value. */
  datatype Raw = Num(value: real) | NaN

  /** The lastUpdated field: missing, not a YYYY-MM-DD date, or a date. */
  datatype Stamp = Unset | Garbled | On(day: Day)

  /** One identity's value in the totals file; Bare is a plain number, Junk anything else
      that is neither an object nor missing. */
  datatype Stored =
    | Missing
    | Bare(amount: real)
    | Junk
    | Entry(total: Raw, cap: Option<Raw>, stamp: Stamp)

  /** Services are absent from the file, or hold identities. */
  type Totals = map<string, map<string, Stored>>

  function Lookup(t: Totals, svc: string, id: string): Stored {
    if svc in t && id in t[svc] then t[svc][id] else Missing
  }

  function Store(t: Totals, svc: string, id: string, e: Stored): Totals {
    t[svc := (if svc in t then t[svc] else map[])[id := e]]
  }

  lemma StoreLookup(t: Totals, svc: string, id: string, e: Stored, svc': string, id': string)
    ensures Lookup(Store(t, svc, id, e), svc', id') ==
      if svc' == svc && id' == id then e else Lookup(t, svc', id')
  {
  }

  // ---- Normalisation ------------------------------------------------------------

  function Floor(r: real): int {
    r.Floor
  }

  function NonNegative(r: Raw): real {
    if r.Num? && r.value > 0.0 then r.value else 0.0
  }

  /** normalizeLimitSeconds and normalizeCustomSecondCap; a result of 0 is falsy. */
  function NormalCap(r: Raw): Option<int> {
    if r.Num? && r.value > 0.0 then Some(Floor(r.value)) else None
  }

  function Truthy(c: Option<int>): bool {
    c.Some? && c.value != 0
  }

  function NormalCapField(cap: Option<Raw>): Option<Raw> {
    match cap
    case None => None
    case Some(r) => match NormalCap(r) case None => None case Some(n) => Some(Num(n as real))
  }

  /** getMonthlyEntry on a value that is there: a dated entry of the current month. */
  function Monthly(e: Stored, today: Day): Stored
    requires e != Missing
  {
    match e
    case Bare(r) => Entry(Num(NonNegative(Num(r))), None, On(today))
    case Junk => Entry(Num(0.0), None, On(today))
    case Entry(total, cap, stamp) =>
      var kept := stamp == Unset || (stamp.On? && stamp.day.month == today.month);
      Entry(Num(if kept then NonNegative(total) else 0.0), NormalCapField(cap),
            if stamp.On? && kept then stamp else On(today))
  }

  /** What a value is worth in a given month. */
  function Worth(e: Stored, month: int): real {
    match e
    case Missing => 0.0
    case Bare(r) => NonNegative(Num(r))
    case Junk => 0.0
    case Entry(total, _, stamp) =>
      if stamp == Unset || (stamp.On? && stamp.day.month == month) then NonNegative(total) else 0.0
  }

  predicate Dated(e: Stored, month: int) {
    e.Entry? && e.stamp.On? && e.stamp.day.month == month && e.total.Num? && e.total.value >= 0.0
  }

  lemma MonthlyIsWorth(e: Stored, today: Day)
    requires e != Missing
    ensures Dated(Monthly(e, today), today.month)
    ensures Monthly(e, today).total.value == Worth(e, today.month)
    ensures Worth(Monthly(e, today), today.month) == Worth(e, today.month)
  {
  }

  // ---- Operations -----------------------------------------------------------------

  /** getMonthlyEntry as a query: an entry that is there is normalised and written back. */
  function Touch(t: Totals, svc: string, id: string, today: Day): Totals {
    if Lookup(t, svc, id) == Missing then t
    else Store(t, svc, id, Monthly(Lookup(t, svc, id), today))
  }

  function Used(t: Totals, svc: string, id: string, today: Day): real {
    Worth(Lookup(t, svc, id), today.month)
  }

  /** getEffectiveLimitSeconds: the custom cap of the entry, or the default. */
  function EffectiveLimit(t: Totals, svc: string, id: string, limit: Raw): Option<int> {
    var e := Lookup(t, svc, id);
    var cap := if e.Entry? && e.cap.Some? then NormalCap(e.cap.value) else None;
    if !Truthy(NormalCap(limit)) then None
    else if svc != "" && id != "" && Truthy(cap) then cap
    else NormalCap(limit)
  }

  /** Adding seconds to this month's balance, created if need be. */
  function Credit(t: Totals, svc: string, id: string, today: Day, seconds: int): Totals {
    var e := Lookup(t, svc, id);
    var m := Monthly(if e == Missing then Entry(Num(0.0), None, On(today)) else e, today);
    Store(t, svc, id, m.(total := Num(NonNegative(m.total) + seconds as real), stamp := On(today)))
  }

  /** Rounded-up seconds between two clock readings, never negative; a start of 0 reads as
      missing. */
  function Seconds(startedAt: int, now: int): (n: int)
    ensures n >= 0
    ensures startedAt != 0 && now >= startedAt ==> (n - 1) * 1000 < now - startedAt <= n * 1000
  {
    if startedAt == 0 || now < startedAt then 0 else (now - startedAt + 999) / 1000
  }

  lemma CreditAdds(t: Totals, svc: string, id: string, today: Day, seconds: int)
    requires seconds > 0
    ensures Used(Credit(t, svc, id, today, seconds), svc, id, today) == Used(t, svc, id, today) + seconds as real
    ensures Dated(Lookup(Credit(t, svc, id, today, seconds), svc, id), today.month)
  {
    var e := Lookup(t, svc, id);
    if e != Missing {
      MonthlyIsWorth(e, today);
    }
  }

  lemma TouchKeepsUsed(t: Totals, svc: string, id: string, today: Day)
    ensures Used(Touch(t, svc, id, today), svc, id, today) == Used(t, svc, id, today)
    ensures Lookup(t, svc, id) != Missing ==> Dated(Lookup(Touch(t, svc, id, today), svc, id), today.month)
  {
    if Lookup(t, svc, id) != Missing {
      MonthlyIsWorth(Lookup(t, svc, id), today);
    }
  }

  // ---- Runs over many sessions ------------------------------------------------------

  /** The minuteCounter record of a session. */
  datatype Active = Active(svc: string, id: string, startedAt: int, finished: bool)

  /** Keys are normalised: trimmed, and the identity in lower case. */
  datatype Op =
    | Begin(session: nat, svc: string, id: string, limit: Raw)
    | End(session: nat)
    | Query(svc: string, id: string)

  datatype Timed = Timed(op: Op, at: Moment)

  datatype Ledger = Ledger(totals: Totals, sessions: map<nat, Active>)

  /** A balance was read and dated, or credited when seconds > 0. */
  datatype Event = Event(svc: string, id: string, month: int, seconds: nat)

  predicate Counts(svc: string, id: string, limit: Raw) {
    svc != "" && id != "" && Truthy(NormalCap(limit))
  }

  predicate Running(l: Ledger, session: nat) {
    session in l.sessions && !l.sessions[session].finished
  }

  function Step(l: Ledger, t: Timed): (Ledger, seq<Event>) {
    match t.op
    case Begin(s, svc, id, limit) =>
      if Counts(svc, id, limit) then (l.(sessions := l.sessions[s := Active(svc, id, t.at.ms, false)]), [])
      else (l, [])
    case End(s) =>
      if !Running(l, s) then (l, [])
      else
        var a := l.sessions[s];
        var l1 := l.(sessions := l.sessions[s := a.(finished := true)]);
        var n := Seconds(a.startedAt, t.at.ms);
        if a.svc == "" || a.id == "" || n == 0 then (l1, [])
        else (l1.(totals := Credit(l.totals, a.svc, a.id, t.at.today, n)),
              [Event(a.svc, a.id, t.at.today.month, n)])
    case Query(svc, id) =>
      if svc == "" || id == "" || Lookup(l.totals, svc, id) == Missing then (l, [])
      else (l.(totals := Touch(l.totals, svc, id, t.at.today)), [Event(svc, id, t.at.today.month, 0)])
  }

  function RunAll(l: Ledger, ops: seq<Timed>): (Ledger, seq<Event>) {
    if ops == [] then (l, [])
    else
      var (l1, es) := RunAll(l, ops[..|ops| - 1]);
      var (l2, fs) := Step(l1, ops[|ops| - 1]);
      (l2, es + fs)
  }

  predicate Concerns(e: Event, svc: string, id: string) {
    e.svc == svc && e.id == id
  }

  /** Seconds credited to one identity in one month. */
  function Sum(es: seq<Event>, svc: string, id: string, month: int): nat {
    if es == [] then 0
    else
      var e := es[|es| - 1];
      Sum(es[..|es| - 1], svc, id, month) + if Concerns(e, svc, id) && e.month == month then e.seconds else 0
  }

  /** The stored balance that still counts in a month: all of it if the identity is first
      seen in that month or not at all, nothing once an earlier month has reset it. */
  predicate Carries(es: seq<Event>, svc: string, id: string, month: int) {
    forall i :: 0 <= i < |es| && Concerns(es[i], svc, id) ==> es[i].month == month
  }

  function Expected(e: Stored, es: seq<Event>, svc: string, id: string, month: int): real {
    (if Carries(es, svc, id, month) then Worth(e, month) else 0.0) + Sum(es, svc, id, month) as real
  }

  lemma {:induction false} SumsOfOtherMonths(es: seq<Event>, svc: string, id: string, month: int)
    requires forall i :: 0 <= i < |es| ==> es[i].month != month
    ensures Sum(es, svc, id, month) == 0
  {
    if es != [] {
      SumsOfOtherMonths(es[..|es| - 1], svc, id, month);
    }
  }

  lemma SumOne(es: seq<Event>, e: Event, svc: string, id: string, month: int)
    ensures Sum(es + [e], svc, id, month) ==
      Sum(es, svc, id, month) + if Concerns(e, svc, id) && e.month == month then e.seconds else 0
  {
    assert (es + [e])[..|es|] == es;
  }

  predicate UpTo(es: seq<Event>, bound: int) {
    forall i :: 0 <= i < |es| ==> es[i].month <= bound
  }

  /** The months of a run's events are those of its operations. */
  lemma {:induction false} EventMonths(l: Ledger, ops: seq<Timed>, bound: int)
    requires forall i :: 0 <= i < |ops| ==> ops[i].at.today.month <= bound
    ensures UpTo(RunAll(l, ops).1, bound)
    decreases ops
  {
    if ops != [] {
      EventMonths(l, ops[..|ops| - 1], bound);
      var (l1, es) := RunAll(l, ops[..|ops| - 1]);
      StepWorth(l1, ops[|ops| - 1], "", "", bound);
      assert UpTo(es, bound) && UpTo(Step(l1, ops[|ops| - 1]).1, bound);
    }
  }

  /** What one event does to the balance it names, and that it touches no other. */
  lemma StepWorth(l: Ledger, t: Timed, svc: string, id: string, month: int)
    requires t.at.today.month <= month
    ensures var (l1, es) := Step(l, t);
      var before, after := Lookup(l.totals, svc, id), Lookup(l1.totals, svc, id);
      && |es| <= 1
      && (es == [] || !Concerns(es[0], svc, id) ==> after == before)
      && (es != [] ==> es[0].month == t.at.today.month)
      && (es != [] && Concerns(es[0], svc, id) ==>
           Worth(after, month) == if t.at.today.month == month then Worth(before, month) + es[0].seconds as real else 0.0)
  {
    var today := t.at.today;
    match t.op
    case Begin(_, _, _, _) =>
    case End(s) =>
      if Running(l, s) {
        var a := l.sessions[s];
        var n := Seconds(a.startedAt, t.at.ms);
        if n > 0 {
          CreditAdds(l.totals, a.svc, a.id, today, n);
        }
      }
    case Query(q, i) =>
      TouchKeepsUsed(l.totals, q, i, today);
  }

  predicate MonthsAscend(ops: seq<Timed>) {
    forall i, j :: 0 <= i <= j < |ops| ==> ops[i].at.today.month <= ops[j].at.today.month
  }

  lemma StepConserves(s: Stored, l: Ledger, es: seq<Event>, t: Timed, svc: string, id: string, month: int)
    requires t.at.today.month <= month && UpTo(es, t.at.today.month)
    requires Worth(Lookup(l.totals, svc, id), month) == Expected(s, es, svc, id, month)
    ensures var (l1, fs) := Step(l, t);
      Worth(Lookup(l1.totals, svc, id), month) == Expected(s, es + fs, svc, id, month)
  {
    hide Step, Worth, Sum, Carries;
    var (l1, fs) := Step(l, t);
    StepWorth(l, t, svc, id, month);
    if fs == [] {
      assert es + fs == es;
    } else {
      var e := fs[0];
      assert fs == [e];
      SumOne(es, e, svc, id, month);
      CarriesStep(es, e, svc, id, month);
      if e.month != month {
        SumsOfOtherMonths(es, svc, id, month);
      }
    }
  }

  /** Conservation. For any interleaving of starts, finishes and queries over any number of
      sessions, with dates that do not go back: in the current month an identity is worth
      what it carried into the month plus the seconds of its calls that finished in it. */
  lemma {:induction false} LedgerConserves(l: Ledger, ops: seq<Timed>, svc: string, id: string, month: int)
    requires MonthsAscend(ops) && (ops != [] ==> ops[|ops| - 1].at.today.month <= month)
    ensures var (l1, es) := RunAll(l, ops);
      Worth(Lookup(l1.totals, svc, id), month) == Expected(Lookup(l.totals, svc, id), es, svc, id, month)
    decreases ops
  {
    hide Step, Worth, Sum, Carries, Expected;
    if ops != [] {
      var front, t := ops[..|ops| - 1], ops[|ops| - 1];
      LedgerConserves(l, front, svc, id, month);
      EventMonths(l, front, t.at.today.month);
      var (l1, es) := RunAll(l, front);
      StepConserves(Lookup(l.totals, svc, id), l1, es, t, svc, id, month);
    } else {
      NothingExpected(Lookup(l.totals, svc, id), svc, id, month);
    }
  }

  lemma NothingExpected(s: Stored, svc: string, id: string, month: int)
    ensures Expected(s, [], svc, id, month) == Worth(s, month)
  {
  }

  lemma CarriesStep(es: seq<Event>, e: Event, svc: string, id: string, month: int)
    ensures Carries(es + [e], svc, id, month) <==>
      Carries(es, svc, id, month) && (Concerns(e, svc, id) ==> e.month == month)
  {
    var fs := es + [e];
    assert fs[|es|] == e;
    if Carries(fs, svc, id, month) {
      forall i | 0 <= i < |es| && Concerns(es[i], svc, id) ensures es[i].month == month {
        assert fs[i] == es[i];
      }
    }
  }

  // ---- Calls are counted once --------------------------------------------------------

  predicate Spares(t: Timed, session: nat) {
    match t.op
    case Begin(s, _, _, _) => s != session
    case End(s) => s != session
    case Query(_, _) => true
  }

  lemma {:induction false} SessionsAreSeparate(l: Ledger, ops: seq<Timed>, session: nat)
    requires forall i :: 0 <= i < |ops| ==> Spares(ops[i], session)
    ensures var l1 := RunAll(l, ops).0;
      (session in l1.sessions <==> session in l.sessions)
      && (session in l.sessions ==> l1.sessions[session] == l.sessions[session])
    decreases ops
  {
    if ops != [] {
      SessionsAreSeparate(l, ops[..|ops| - 1], session);
    }
  }

  /** A call counted from `begin` to `end` credits its identity once, with its duration
      rounded up to whole seconds, whatever other sessions do in between; a second end
      credits nothing. */
  lemma CallCountedOnce(l: Ledger, begin: Timed, between: seq<Timed>, end: Timed, again: Timed)
    requires begin.op.Begin? && Counts(begin.op.svc, begin.op.id, begin.op.limit)
    requires end.op == End(begin.op.session) && again.op == end.op
    requires forall i :: 0 <= i < |between| ==> Spares(between[i], begin.op.session)
    ensures var l1 := RunAll(Step(l, begin).0, between).0;
      var n := Seconds(begin.at.ms, end.at.ms);
      && Step(l1, end).1 == (if n == 0 then [] else [Event(begin.op.svc, begin.op.id, end.at.today.month, n)])
      && Step(Step(l1, end).0, again) == (Step(l1, end).0, [])
  {
    SessionsAreSeparate(Step(l, begin).0, between, begin.op.session);
  }

  /** The balance a query reports, and when a start is refused: exactly when this month's
      balance has reached the identity's own cap, or the default where it has none. */
  predicate MayStart(t: Totals, svc: string, id: string, limit: Raw, today: Day) {
    var cap := EffectiveLimit(t, svc, id, limit);
    cap.None? || (if svc == "" || id == "" then 0.0 else Used(t, svc, id, today)) < cap.value as real
  }

  /** Neither a month change nor a normalisation nor a credit alters an identity's cap. */
  lemma CapSurvives(t: Totals, svc: string, id: string, limit: Raw, today: Day, seconds: int)
    ensures EffectiveLimit(Touch(t, svc, id, today), svc, id, limit) == EffectiveLimit(t, svc, id, limit)
    ensures EffectiveLimit(Credit(t, svc, id, today, seconds), svc, id, limit) == EffectiveLimit(t, svc, id, limit)
  {
    var e := Lookup(t, svc, id);
    if e.Entry? && e.cap.Some? && NormalCap(e.cap.value).Some? {
      FloorOfWhole(NormalCap(e.cap.value).value);
    }
  }

  lemma FloorOfWhole(n: int)
    ensures (n as real).Floor == n
  {
  }

  lemma StepKeepsCap(l: Ledger, t: Timed, svc: string, id: string, limit: Raw)
    ensures EffectiveLimit(Step(l, t).0.totals, svc, id, limit) == EffectiveLimit(l.totals, svc, id, limit)
  {
    var today := t.at.today;
    match t.op
    case Begin(_, _, _, _) =>
    case Query(q, i) =>
      CapSurvives(l.totals, q, i, limit, today, 0);
      if Lookup(l.totals, q, i) != Missing {
        StoreLookup(l.totals, q, i, Monthly(Lookup(l.totals, q, i), today), svc, id);
      }
    case End(s) =>
      if Running(l, s) {
        var a := l.sessions[s];
        var n := Seconds(a.startedAt, t.at.ms);
        CapSurvives(l.totals, a.svc, a.id, limit, today, n);
        var credited := Credit(l.totals, a.svc, a.id, today, n);
        StoreLookup(l.totals, a.svc, a.id, Lookup(credited, a.svc, a.id), svc, id);
      }
  }

  lemma {:induction false} RunKeepsCap(l: Ledger, ops: seq<Timed>, svc: string, id: string, limit: Raw)
    ensures EffectiveLimit(RunAll(l, ops).0.totals, svc, id, limit) == EffectiveLimit(l.totals, svc, id, limit)
    decreases ops
  {
    if ops != [] {
      hide EffectiveLimit, Step;
      RunKeepsCap(l, ops[..|ops| - 1], svc, id, limit);
      StepKeepsCap(RunAll(l, ops[..|ops| - 1]).0, ops[|ops| - 1], svc, id, limit);
    }
  }

  /** After any run, a start is refused exactly when the identity's expected balance of the
      month has reached its own cap, or the default where it has none. */
  lemma {:induction false} RefusedExactlyAtCap(l: Ledger, ops: seq<Timed>, svc: string, id: string, limit: Raw, today: Day)
    requires MonthsAscend(ops) && (ops != [] ==> ops[|ops| - 1].at.today.month <= today.month)
    requires svc != "" && id != ""
    ensures var (l1, es) := RunAll(l, ops);
      var cap := EffectiveLimit(l.totals, svc, id, limit);
      !MayStart(l1.totals, svc, id, limit, today) <==>
        cap.Some? && Expected(Lookup(l.totals, svc, id), es, svc, id, today.month) >= cap.value as real
  {
    LedgerConserves(l, ops, svc, id, today.month);
    RunKeepsCap(l, ops, svc, id, limit);
    hide EffectiveLimit, RunAll, Expected, Worth;
  }

  // ---- The counter object -------------------------------------------------------------

  /** A call session, as far as the counter is concerned. */
  class CallSession {
    var counter: Option<Active>

    constructor ()
      ensures counter == None
    {
      counter := None;
    }
  }

  class MinuteCounter {
    /** The contents of the totals file. */
    var totals: Totals

    constructor (totals: Totals)
      ensures this.totals == totals
    {
      this.totals := totals;
    }

    /** getMonthlyEntry on an entry that is there, written back. */
    method Refresh(svc: string, id: string, today: Day)
      modifies this
      ensures totals == Touch(old(totals), svc, id, today)
    {
      var e := Lookup(totals, svc, id);
      if e != Missing {
        totals := Store(totals, svc, id, Monthly(e, today));
      }
    }

    method GetUsedSeconds(serviceId: string, identity: string, today: Day) returns (used: real)
      modifies this
      ensures var svc, id := Trim(serviceId), Lower(Trim(identity));
        if svc == "" || id == "" then used == 0.0 && totals == old(totals)
        else used == Used(old(totals), svc, id, today) && totals == Touch(old(totals), svc, id, today)
    {
      var svc, id := Trim(serviceId), Lower(Trim(identity));
      if svc == "" || id == "" { return 0.0; }
      TouchKeepsUsed(totals, svc, id, today);
      Refresh(svc, id, today);
      var e := Lookup(totals, svc, id);
      used := if e == Missing then 0.0 else NonNegative(e.total);
    }

    method AssertCanStart(serviceId: string, identity: string, limit: Raw, today: Day) returns (ok: bool)
      modifies this
      ensures var svc, id := Trim(serviceId), Lower(Trim(identity));
        && ok == MayStart(old(totals), svc, id, limit, today)
        && totals == if Truthy(NormalCap(limit)) && svc != "" && id != ""
                     then Touch(Touch(old(totals), svc, id, today), svc, id, today)
                     else old(totals)
    {
      var svc, id := Trim(serviceId), Lower(Trim(identity));
      if !Truthy(NormalCap(limit)) { return true; }
      if svc != "" && id != "" {
        CapSurvives(totals, svc, id, limit, today, 0);
        TouchKeepsUsed(totals, svc, id, today);
        Refresh(svc, id, today);
      }
      var cap := EffectiveLimit(totals, svc, id, limit);
      var used := GetUsedSeconds(serviceId, identity, today);
      ok := cap.None? || used < cap.value as real;
    }

    method Start(session: CallSession, serviceId: string, identity: string, limit: Raw, at: Moment)
      returns (ok: bool)
      modifies session
      ensures var svc, id := Trim(serviceId), Lower(Trim(identity));
        && ok == Counts(svc, id, limit)
        && session.counter == if ok then Some(Active(svc, id, at.ms, false)) else old(session.counter)
    {
      var svc, id := Trim(serviceId), Lower(Trim(identity));
      ok := Counts(svc, id, limit);
      if ok {
        session.counter := Some(Active(svc, id, at.ms, false));
      }
    }

    /** Marks the record finished before anything else, and credits it at most once. */
    method Finish(session: CallSession, at: Moment) returns (seconds: nat)
      modifies this, session
      ensures var a := old(session.counter);
        if a.None? || a.value.finished then seconds == 0 && session.counter == a && totals == old(totals)
        else
          && session.counter == Some(a.value.(finished := true))
          && seconds == (if a.value.svc == "" || a.value.id == "" then 0 else Seconds(a.value.startedAt, at.ms))
          && totals == if seconds == 0 then old(totals)
                       else Credit(old(totals), a.value.svc, a.value.id, at.today, seconds)
    {
      if session.counter.None? || session.counter.value.finished { return 0; }
      var a := session.counter.value;
      session.counter := Some(a.(finished := true));
      if a.svc == "" || a.id == "" { return 0; }
      seconds := Seconds(a.startedAt, at.ms);
      if seconds == 0 { return; }
      totals := Credit(totals, a.svc, a.id, at.today, seconds);
    }
  }
}
