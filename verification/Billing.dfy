/** The pair's lifecycle hooks drive the minute counter: start on the rising edge, finish on
    the falling edge and again at teardown (webRTCmanager.js lines 1219-1224, 2122-2163). */
module Billing {
  import opened CallModel
  import opened CallRuns
  import opened DrainExit
  import opened MinuteCounters

  /** Whose minutes a pair's conversations are, and when each hook fires. */
  datatype Account = Account(session: nat, svc: string, id: string, limit: Raw, at: nat -> Moment)

  function HookOp(acc: Account, h: Hook, i: nat): Timed {
    Timed(match h case CallStart => Begin(acc.session, acc.svc, acc.id, acc.limit)
                  case CallEnd => MinuteCounters.End(acc.session),
          acc.at(i))
  }

  function HookOps(acc: Account, hooks: seq<Hook>): (ops: seq<Timed>)
    ensures |ops| == |hooks|
    ensures forall i :: 0 <= i < |hooks| ==> ops[i] == HookOp(acc, hooks[i], i)
  {
    seq(|hooks|, i requires 0 <= i < |hooks| => HookOp(acc, hooks[i], i))
  }

  /** The charge of one conversation: its length rounded up, none if it had no length. */
  function Charge(acc: Account, begin: Moment, end: Moment): seq<Event> {
    var seconds := Seconds(begin.ms, end.ms);
    if seconds == 0 then [] else [Event(acc.svc, acc.id, end.today.month, seconds)]
  }

  /** The charges of the conversations among the first n hooks: one for each start that has
      its end. */
  function Charges(acc: Account, n: nat): seq<Event> {
    if n < 2 then []
    else if n % 2 == 1 then Charges(acc, n - 1)
    else Charges(acc, n - 2) + Charge(acc, acc.at(n - 2), acc.at(n - 1))
  }

  predicate Billable(acc: Account, l: Ledger) {
    Counts(acc.svc, acc.id, acc.limit) && !Running(l, acc.session)
  }

  lemma OpsPrefix(acc: Account, hooks: seq<Hook>, n: nat)
    requires n <= |hooks|
    ensures HookOps(acc, hooks)[..n] == HookOps(acc, hooks[..n])
  {
  }

  /** The counter after the first n hooks: it is running exactly inside a conversation, and
      then since the hook that opened it. */
  lemma {:induction false} CounterFollowsHooks(acc: Account, l: Ledger, hooks: seq<Hook>)
    requires Billable(acc, l) && Alternates(hooks)
    ensures var (l1, es) := RunAll(l, HookOps(acc, hooks));
      && es == Charges(acc, |hooks|)
      && (Running(l1, acc.session) <==> |hooks| % 2 == 1)
      && (|hooks| % 2 == 1 ==>
           l1.sessions[acc.session] == Active(acc.svc, acc.id, acc.at(|hooks| - 1).ms, false))
    decreases hooks
  {
    if hooks != [] {
      hide HookOps, Credit;
      var n := |hooks| - 1;
      var front := hooks[..n];
      OpsPrefix(acc, hooks, n);
      CounterFollowsHooks(acc, l, front);
      var (l1, es) := RunAll(l, HookOps(acc, front));
      assert HookOps(acc, hooks)[n] == HookOp(acc, hooks[n], n);
    }
  }

  // ---- Among other sessions --------------------------------------------------------

  /** The operations on one session, in their order. */
  function Own(ops: seq<Timed>, session: nat): seq<Timed> {
    if ops == [] then []
    else
      var t := ops[|ops| - 1];
      Own(ops[..|ops| - 1], session) + if Spares(t, session) then [] else [t]
  }

  /** The charges those operations make when all of them run. */
  function ChargedTo(l: Ledger, ops: seq<Timed>, session: nat): seq<Event> {
    if ops == [] then []
    else
      var front, t := ops[..|ops| - 1], ops[|ops| - 1];
      ChargedTo(l, front, session) + if Spares(t, session) then [] else MinuteCounters.Step(RunAll(l, front).0, t).1
  }

  predicate SameRecord(l: Ledger, k: Ledger, session: nat) {
    && (session in l.sessions <==> session in k.sessions)
    && (session in l.sessions ==> l.sessions[session] == k.sessions[session])
  }

  lemma OwnStep(l: Ledger, k: Ledger, t: Timed, session: nat)
    requires SameRecord(l, k, session)
    ensures var (l1, es) := MinuteCounters.Step(l, t);
      var (k1, fs) := MinuteCounters.Step(k, t);
      if Spares(t, session) then SameRecord(l1, k, session) else SameRecord(l1, k1, session) && es == fs
  {
    hide Credit, Touch;
  }

  /** Other sessions neither see nor change what the operations on one session do to its record
      and what they charge. */
  lemma {:induction false} OthersDoNotMatter(l: Ledger, ops: seq<Timed>, session: nat)
    ensures var (k, es) := RunAll(l, Own(ops, session));
      SameRecord(RunAll(l, ops).0, k, session) && ChargedTo(l, ops, session) == es
    decreases ops
  {
    if ops != [] {
      hide MinuteCounters.Step, SameRecord, Spares;
      var front, t := ops[..|ops| - 1], ops[|ops| - 1];
      OthersDoNotMatter(l, front, session);
      var own := Own(front, session);
      OwnStep(RunAll(l, front).0, RunAll(l, own).0, t, session);
      RunOneMore(l, own, t);
      assert own + [] == own;
    }
  }

  lemma RunOneMore(l: Ledger, ops: seq<Timed>, t: Timed)
    ensures var (l1, es) := RunAll(l, ops);
      var (l2, fs) := MinuteCounters.Step(l1, t);
      RunAll(l, ops + [t]) == (l2, es + fs)
  {
    hide MinuteCounters.Step;
    assert (ops + [t])[..|ops|] == ops;
  }

  lemma {:induction false} OwnPrefix(ops: seq<Timed>, session: nat, k: nat)
    requires k <= |ops|
    ensures Own(ops[..k], session) <= Own(ops, session)
    ensures k < |ops| && !Spares(ops[k], session) ==>
      var i := |Own(ops[..k], session)|;
      i < |Own(ops, session)| && Own(ops, session)[i] == ops[k]
    decreases ops
  {
    if k < |ops| {
      var front := ops[..|ops| - 1];
      assert front[..k] == ops[..k];
      OwnPrefix(front, session, k);
    } else {
      assert ops[..k] == ops;
    }
  }

  /** The hooks of a run among any operations of other sessions. */
  predicate Interleaves(ops: seq<Timed>, acc: Account, hooks: seq<Hook>) {
    Own(ops, acc.session) == HookOps(acc, hooks)
  }

  /** Over every run of a pair, among any operations of other sessions, no start finds an
      unfinished record, so none is lost. */
  lemma NoStartOverwrites(env: Env, steps: seq<CallRuns.Step>, acc: Account, l: Ledger, ops: seq<Timed>, k: nat)
    requires Billable(acc, l) && Interleaves(ops, acc, Runs(env, steps).hooks)
    requires k < |ops| && ops[k].op.Begin? && ops[k].op.session == acc.session
    ensures !Running(RunAll(l, ops[..k]).0, acc.session)
  {
    hide Runs, Quiet, HookOps;
    EveryRunIsSound(env, steps);
    var hooks := Runs(env, steps).hooks;
    var i := |Own(ops[..k], acc.session)|;
    OwnPrefix(ops, acc.session, k);
    OpsPrefix(acc, hooks, i);
    assert ops[k] == HookOp(acc, hooks[i], i);
    CounterFollowsHooks(acc, l, hooks[..i]);
    OthersDoNotMatter(l, ops[..k], acc.session);
  }

  /** Over every run of a pair, among any operations of other sessions, each conversation that
      has ended has been charged once, with its length rounded up, and the finish at teardown
      charges an open conversation and nothing else. */
  lemma EveryConversationIsBilledOnce(env: Env, steps: seq<CallRuns.Step>, acc: Account, l: Ledger,
                                      ops: seq<Timed>, teardown: Moment)
    requires Billable(acc, l) && Interleaves(ops, acc, Runs(env, steps).hooks)
    ensures var hooks := Runs(env, steps).hooks;
      var fs := MinuteCounters.Step(RunAll(l, ops).0, Timed(MinuteCounters.End(acc.session), teardown)).1;
      && ChargedTo(l, ops, acc.session) == Charges(acc, |hooks|)
      && (Runs(env, steps).active ==> |hooks| > 0 && fs == Charge(acc, acc.at(|hooks| - 1), teardown))
      && (!Runs(env, steps).active ==> fs == [])
  {
    hide Runs, Quiet, RunAll, HookOps, ChargedTo, Own;
    EveryRunIsSound(env, steps);
    CounterFollowsHooks(acc, l, Runs(env, steps).hooks);
    OthersDoNotMatter(l, ops, acc.session);
  }
}
