/** `performAction`: the guarded, ordered remote calls issued for one label's
    action record. Each call is an `Effect`; whether the remote call fails is
    decided by an oracle `fails`. The two copies differ in what a failure does:
    the `src` wrappers log it and carry on, the `lib` wrappers rethrow it, which
    skips every later call. */
module Dispatcher {
  import opened Wrappers
  import opened ConfigTree
  import opened LabelActions

  /** One remote call on the issue `issue`. */
  datatype Effect =
    | CreateComment(issue: int, body: string)
    | CloseIssue(issue: int)
    | OpenIssue(issue: int)
    | LockIssue(issue: int)
    | LockIssueWithReason(issue: int, reason: string)
    | AddLabels(issue: int, labels: seq<Value>)

  /** What a failed remote call does: `src` logs and continues, `lib` throws. */
  datatype Policy = LogAndContinue | AbortOnFailure

  /** One remote call as it went: the effect, and whether it succeeded. */
  datatype Attempt = Attempt(effect: Effect, ok: bool)

  /** The calls attempted, in order, and whether a failure escaped. */
  datatype Dispatch = Dispatch(trace: seq<Attempt>, aborted: bool)

  /** JavaScript truthiness of an optional string: present and non-empty. */
  predicate Truthy(s: Option<string>)
  {
    s.Some? && s.value != ""
  }

  /** The position of a call among the steps: comment, close, reopen, lock,
      labels. */
  function Rank(e: Effect): (r: nat)
  {
    match e
    case CreateComment(_, _) => 0
    case CloseIssue(_) => 1
    case OpenIssue(_) => 2
    case LockIssue(_) => 3
    case LockIssueWithReason(_, _) => 3
    case AddLabels(_, _) => 4
  }

  /** The comment step: one comment for a truthy `comment`. */
  function CommentStep(a: LabelAction, issue: int): (s: seq<Effect>)
  {
    if Truthy(a.comment) then [CreateComment(issue, a.comment.value)] else []
  }

  /** The close step. */
  function CloseStep(a: LabelAction, issue: int): (s: seq<Effect>)
  {
    if a.close then [CloseIssue(issue)] else []
  }

  /** The reopen step. */
  function ReopenStep(a: LabelAction, issue: int): (s: seq<Effect>)
  {
    if a.reopen then [OpenIssue(issue)] else []
  }

  /** The lock step: with the reason when `lockReason` is truthy, plain otherwise. */
  function LockStep(a: LabelAction, issue: int): (s: seq<Effect>)
  {
    if a.lock && Truthy(a.lockReason) then [LockIssueWithReason(issue, a.lockReason.value)]
    else if a.lock then [LockIssue(issue)]
    else []
  }

  /** The labels step: one call for a non-empty array. */
  function LabelsStep(a: LabelAction, issue: int): (s: seq<Effect>)
  {
    if |a.labels| > 0 then [AddLabels(issue, a.labels)] else []
  }

  /** Every call `performAction` would issue for `a` if none of them failed. */
  function Planned(a: LabelAction, issue: int): (p: seq<Effect>)
  {
    CommentStep(a, issue) + CloseStep(a, issue) + ReopenStep(a, issue) + LockStep(a, issue) + LabelsStep(a, issue)
  }

  /** The calls of the first `k` of the five steps. */
  function PlannedPrefix(a: LabelAction, issue: int, k: nat): (p: seq<Effect>)
    requires 1 <= k <= 4
  {
    if k == 1 then CommentStep(a, issue)
    else if k == 2 then CommentStep(a, issue) + CloseStep(a, issue)
    else if k == 3 then CommentStep(a, issue) + CloseStep(a, issue) + ReopenStep(a, issue)
    else CommentStep(a, issue) + CloseStep(a, issue) + ReopenStep(a, issue) + LockStep(a, issue)
  }

  /** Issuing one more call after the dispatch `d`: an aborted dispatch issues
      nothing more; otherwise the call is attempted, and under `AbortOnFailure`
      its failure aborts. */
  function Next(d: Dispatch, e: Effect, policy: Policy, fails: Effect -> bool): (d': Dispatch)
  {
    if d.aborted then d
    else Dispatch(d.trace + [Attempt(e, !fails(e))], policy == AbortOnFailure && fails(e))
  }

  /** Issuing the calls `p` in order. */
  function Execute(p: seq<Effect>, policy: Policy, fails: Effect -> bool): (d: Dispatch)
    ensures d.aborted ==> policy == AbortOnFailure && |d.trace| > 0 && !d.trace[|d.trace| - 1].ok
    decreases |p|
  {
    if p == [] then Dispatch([], false)
    else Next(Execute(p[..|p| - 1], policy, fails), p[|p| - 1], policy, fails)
  }

  /** One remote call through its wrapper: the call is recorded with its outcome,
      and a failure escapes only under `AbortOnFailure`. */
  method Issue(ghost done: seq<Effect>, trace: seq<Attempt>, e: Effect, policy: Policy, fails: Effect -> bool)
    returns (newTrace: seq<Attempt>, aborted: bool)
    requires Execute(done, policy, fails) == Dispatch(trace, false)
    ensures Execute(done + [e], policy, fails) == Dispatch(newTrace, aborted)
  {
    var ok := !fails(e);
    newTrace := trace + [Attempt(e, ok)];
    aborted := policy == AbortOnFailure && !ok;
    assert (done + [e])[..|done|] == done;
  }

  /** The comment step of `performAction`: a comment for a truthy `comment`. */
  method GuardedComment(a: LabelAction, issue: int, policy: Policy, fails: Effect -> bool)
    returns (trace: seq<Attempt>, aborted: bool)
    ensures Execute(CommentStep(a, issue), policy, fails) == Dispatch(trace, aborted)
  {
    if Truthy(a.comment) {
      trace, aborted := Issue([], [], CreateComment(issue, a.comment.value), policy, fails);
      assert [] + [CreateComment(issue, a.comment.value)] == CommentStep(a, issue);
    } else {
      trace, aborted := [], false;
    }
  }

  /** The close step of `performAction`. */
  method GuardedClose(a: LabelAction, issue: int, ghost done: seq<Effect>, trace: seq<Attempt>, policy: Policy, fails: Effect -> bool)
    returns (newTrace: seq<Attempt>, aborted: bool)
    requires Execute(done, policy, fails) == Dispatch(trace, false)
    ensures Execute(done + CloseStep(a, issue), policy, fails) == Dispatch(newTrace, aborted)
  {
    if a.close {
      newTrace, aborted := Issue(done, trace, CloseIssue(issue), policy, fails);
    } else {
      newTrace, aborted := trace, false;
      assert done + [] == done;
    }
  }

  /** The reopen step of `performAction`. */
  method GuardedReopen(a: LabelAction, issue: int, ghost done: seq<Effect>, trace: seq<Attempt>, policy: Policy, fails: Effect -> bool)
    returns (newTrace: seq<Attempt>, aborted: bool)
    requires Execute(done, policy, fails) == Dispatch(trace, false)
    ensures Execute(done + ReopenStep(a, issue), policy, fails) == Dispatch(newTrace, aborted)
  {
    if a.reopen {
      newTrace, aborted := Issue(done, trace, OpenIssue(issue), policy, fails);
    } else {
      newTrace, aborted := trace, false;
      assert done + [] == done;
    }
  }

  /** The lock step of `performAction`: with the reason when `lockReason` is
      truthy, plain otherwise. */
  method GuardedLock(a: LabelAction, issue: int, ghost done: seq<Effect>, trace: seq<Attempt>, policy: Policy, fails: Effect -> bool)
    returns (newTrace: seq<Attempt>, aborted: bool)
    requires Execute(done, policy, fails) == Dispatch(trace, false)
    ensures Execute(done + LockStep(a, issue), policy, fails) == Dispatch(newTrace, aborted)
  {
    if a.lock && Truthy(a.lockReason) {
      newTrace, aborted := Issue(done, trace, LockIssueWithReason(issue, a.lockReason.value), policy, fails);
    } else if a.lock {
      newTrace, aborted := Issue(done, trace, LockIssue(issue), policy, fails);
    } else {
      newTrace, aborted := trace, false;
      assert done + [] == done;
    }
  }

  /** The labels step of `performAction`: one call for a non-empty array. */
  method GuardedLabels(a: LabelAction, issue: int, ghost done: seq<Effect>, trace: seq<Attempt>, policy: Policy, fails: Effect -> bool)
    returns (newTrace: seq<Attempt>, aborted: bool)
    requires Execute(done, policy, fails) == Dispatch(trace, false)
    ensures Execute(done + LabelsStep(a, issue), policy, fails) == Dispatch(newTrace, aborted)
  {
    if |a.labels| > 0 {
      newTrace, aborted := Issue(done, trace, AddLabels(issue, a.labels), policy, fails);
    } else {
      newTrace, aborted := trace, false;
      assert done + [] == done;
    }
  }

  /** `performAction`: five guarded steps in a fixed order; under
      `AbortOnFailure` the first failed call ends it. */
  method PerformAction(a: LabelAction, issue: int, policy: Policy, fails: Effect -> bool)
    returns (trace: seq<Attempt>, aborted: bool)
    ensures Dispatch(trace, aborted) == Execute(Planned(a, issue), policy, fails)
  {
    trace, aborted := GuardedComment(a, issue, policy, fails);
    ghost var done := CommentStep(a, issue);
    if aborted {
      AbortedSkipsRest(a, issue, 1, policy, fails);
      return;
    }
    trace, aborted := GuardedClose(a, issue, done, trace, policy, fails);
    done := done + CloseStep(a, issue);
    if aborted {
      AbortedSkipsRest(a, issue, 2, policy, fails);
      return;
    }
    trace, aborted := GuardedReopen(a, issue, done, trace, policy, fails);
    done := done + ReopenStep(a, issue);
    if aborted {
      AbortedSkipsRest(a, issue, 3, policy, fails);
      return;
    }
    trace, aborted := GuardedLock(a, issue, done, trace, policy, fails);
    done := done + LockStep(a, issue);
    if aborted {
      AbortedSkipsRest(a, issue, 4, policy, fails);
      return;
    }
    trace, aborted := GuardedLabels(a, issue, done, trace, policy, fails);
  }

  /** Once a dispatch has aborted, later calls change nothing. */
  lemma {:induction false} ExecuteAbortedExtend(p: seq<Effect>, q: seq<Effect>, policy: Policy, fails: Effect -> bool)
    requires Execute(p, policy, fails).aborted
    ensures Execute(p + q, policy, fails) == Execute(p, policy, fails)
    decreases |q|
  {
    if q == [] {
      assert p + q == p;
    } else {
      var q0 := q[..|q| - 1];
      ExecuteAbortedExtend(p, q0, policy, fails);
      assert (p + q)[..|p + q| - 1] == p + q0;
    }
  }

  /** An abort during the first `k` steps ends the action: the steps still to
      come issue nothing. */
  lemma AbortedSkipsRest(a: LabelAction, issue: int, k: nat, policy: Policy, fails: Effect -> bool)
    requires 1 <= k <= 4 && Execute(PlannedPrefix(a, issue, k), policy, fails).aborted
    ensures Execute(Planned(a, issue), policy, fails) == Execute(PlannedPrefix(a, issue, k), policy, fails)
  {
    var c, cl, r, l, lb := CommentStep(a, issue), CloseStep(a, issue), ReopenStep(a, issue), LockStep(a, issue), LabelsStep(a, issue);
    if k == 1 {
      ExecuteAbortedExtend(c, cl, policy, fails);
    }
    if k <= 2 {
      ExecuteAbortedExtend(c + cl, r, policy, fails);
    }
    if k <= 3 {
      ExecuteAbortedExtend(c + cl + r, l, policy, fails);
    }
    ExecuteAbortedExtend(c + cl + r + l, lb, policy, fails);
  }

  /** Under `LogAndContinue` (the `src` wrappers) every call is attempted, in
      order, whatever fails, and nothing aborts. */
  lemma {:induction false} ExecuteLogAndContinue(p: seq<Effect>, fails: Effect -> bool)
    ensures !Execute(p, LogAndContinue, fails).aborted
    ensures |Execute(p, LogAndContinue, fails).trace| == |p|
    ensures forall i :: 0 <= i < |p| ==> Execute(p, LogAndContinue, fails).trace[i] == Attempt(p[i], !fails(p[i]))
    decreases |p|
  {
    if p != [] {
      var p0 := p[..|p| - 1];
      ExecuteLogAndContinue(p0, fails);
      assert forall i :: 0 <= i < |p0| ==> p0[i] == p[i];
    }
  }

  /** Under `AbortOnFailure` (the `lib` wrappers) the calls are attempted in order
      up to and including the first failure and none after it; the dispatch is
      aborted exactly when some call failed. */
  lemma {:induction false} ExecuteAbortOnFailure(p: seq<Effect>, fails: Effect -> bool)
    ensures |Execute(p, AbortOnFailure, fails).trace| <= |p|
    ensures forall i :: 0 <= i < |Execute(p, AbortOnFailure, fails).trace| ==>
      Execute(p, AbortOnFailure, fails).trace[i] == Attempt(p[i], !fails(p[i]))
    ensures forall i :: 0 <= i < |Execute(p, AbortOnFailure, fails).trace| - 1 ==> !fails(p[i])
    ensures Execute(p, AbortOnFailure, fails).aborted <==>
      |Execute(p, AbortOnFailure, fails).trace| > 0 && fails(p[|Execute(p, AbortOnFailure, fails).trace| - 1])
    ensures !Execute(p, AbortOnFailure, fails).aborted ==> |Execute(p, AbortOnFailure, fails).trace| == |p|
    decreases |p|
  {
    if p != [] {
      var p0 := p[..|p| - 1];
      ExecuteAbortOnFailure(p0, fails);
      assert forall i :: 0 <= i < |p0| ==> p0[i] == p[i];
    }
  }

  /** Under `AbortOnFailure` the dispatch aborts exactly when some call of `p`
      fails, and then on the first such call, which is the last one attempted. */
  lemma AbortedIffSomeFailure(p: seq<Effect>, fails: Effect -> bool)
    ensures Execute(p, AbortOnFailure, fails).aborted <==> exists i :: 0 <= i < |p| && fails(p[i])
    ensures Execute(p, AbortOnFailure, fails).aborted ==>
      var n := |Execute(p, AbortOnFailure, fails).trace|;
      0 < n <= |p| && fails(p[n - 1]) && Execute(p, AbortOnFailure, fails).trace[n - 1].effect == p[n - 1]
      && forall i :: 0 <= i < n - 1 ==> !fails(p[i])
  {
    ExecuteAbortOnFailure(p, fails);
  }

  /** Calls in strictly increasing step order. */
  predicate Ordered(p: seq<Effect>)
  {
    forall i, j :: 0 <= i < j < |p| ==> Rank(p[i]) < Rank(p[j])
  }

  /** What one step issues: at most one call, of step `k`, on issue `issue`. */
  predicate StepShaped(s: seq<Effect>, k: nat, issue: int)
  {
    |s| <= 1 && forall i :: 0 <= i < |s| ==> Rank(s[i]) == k && s[i].issue == issue
  }

  /** Each of the five steps issues at most one call of its own kind. */
  lemma StepsShaped(a: LabelAction, issue: int)
    ensures StepShaped(CommentStep(a, issue), 0, issue)
    ensures StepShaped(CloseStep(a, issue), 1, issue)
    ensures StepShaped(ReopenStep(a, issue), 2, issue)
    ensures StepShaped(LockStep(a, issue), 3, issue)
    ensures StepShaped(LabelsStep(a, issue), 4, issue)
  {
  }

  /** Five steps' calls, one after another, come in step order and on one issue. */
  lemma ConcatOrdered(s0: seq<Effect>, s1: seq<Effect>, s2: seq<Effect>, s3: seq<Effect>, s4: seq<Effect>, issue: int)
    requires StepShaped(s0, 0, issue) && StepShaped(s1, 1, issue) && StepShaped(s2, 2, issue)
    requires StepShaped(s3, 3, issue) && StepShaped(s4, 4, issue)
    ensures |s0 + s1 + s2 + s3 + s4| <= 5
    ensures forall e :: e in s0 + s1 + s2 + s3 + s4 ==> e.issue == issue
    ensures Ordered(s0 + s1 + s2 + s3 + s4)
  {
    var p := s0 + s1 + s2 + s3 + s4;
    forall e | e in p ensures e.issue == issue {
      var i :| 0 <= i < |p| && p[i] == e;
      StepOf(s0, s1, s2, s3, s4, issue, i);
    }
    forall i, j | 0 <= i < j < |p| ensures Rank(p[i]) < Rank(p[j]) {
      StepOf(s0, s1, s2, s3, s4, issue, i);
      StepOf(s0, s1, s2, s3, s4, issue, j);
    }
  }

  /** The call at position `i` of five steps' calls comes from the step it ranks,
      and the position grows with the rank. */
  lemma StepOf(s0: seq<Effect>, s1: seq<Effect>, s2: seq<Effect>, s3: seq<Effect>, s4: seq<Effect>, issue: int, i: nat)
    requires StepShaped(s0, 0, issue) && StepShaped(s1, 1, issue) && StepShaped(s2, 2, issue)
    requires StepShaped(s3, 3, issue) && StepShaped(s4, 4, issue)
    requires i < |s0 + s1 + s2 + s3 + s4|
    ensures (s0 + s1 + s2 + s3 + s4)[i].issue == issue
    ensures var k := Rank((s0 + s1 + s2 + s3 + s4)[i]);
      (k == 0 ==> i < |s0|) && (k == 1 ==> |s0| <= i < |s0 + s1|) && (k == 2 ==> |s0 + s1| <= i < |s0 + s1 + s2|)
      && (k == 3 ==> |s0 + s1 + s2| <= i < |s0 + s1 + s2 + s3|) && (k == 4 ==> |s0 + s1 + s2 + s3| <= i)
  {
    var p3 := s0 + s1 + s2 + s3;
    var p2 := s0 + s1 + s2;
    var p1 := s0 + s1;
    if i >= |p3| {
      assert (p3 + s4)[i] == s4[i - |p3|];
    } else if i >= |p2| {
      assert (p3 + s4)[i] == p3[i] == s3[i - |p2|];
    } else if i >= |p1| {
      assert (p3 + s4)[i] == p3[i] == p2[i] == s2[i - |p1|];
    } else if i >= |s0| {
      assert (p3 + s4)[i] == p3[i] == p2[i] == p1[i] == s1[i - |s0|];
    } else {
      assert (p3 + s4)[i] == p3[i] == p2[i] == p1[i] == s0[i];
    }
  }

  /** `performAction` issues its calls in the order comment, close, reopen, lock,
      labels, at most one of each kind, all on the event's issue. */
  lemma PlannedOrdered(a: LabelAction, issue: int)
    ensures |Planned(a, issue)| <= 5
    ensures forall e :: e in Planned(a, issue) ==> e.issue == issue
    ensures Ordered(Planned(a, issue))
  {
    StepsShaped(a, issue);
    ConcatOrdered(CommentStep(a, issue), CloseStep(a, issue), ReopenStep(a, issue), LockStep(a, issue), LabelsStep(a, issue), issue);
  }

  /** The calls of step `k` in `p`, in order. */
  function CallsOf(p: seq<Effect>, k: nat): (c: seq<Effect>)
    decreases |p|
  {
    if p == [] then []
    else CallsOf(p[..|p| - 1], k) + (if Rank(p[|p| - 1]) == k then [p[|p| - 1]] else [])
  }

  /** Selecting one step's calls distributes over concatenation. */
  lemma {:induction false} CallsOfAppend(p: seq<Effect>, q: seq<Effect>, k: nat)
    ensures CallsOf(p + q, k) == CallsOf(p, k) + CallsOf(q, k)
    decreases |q|
  {
    if q == [] {
      assert p + q == p;
    } else {
      var q0 := q[..|q| - 1];
      CallsOfAppend(p, q0, k);
      assert (p + q)[..|p + q| - 1] == p + q0;
    }
  }

  /** A step's calls are all of its own kind. */
  lemma CallsOfStep(s: seq<Effect>, j: nat, issue: int, k: nat)
    requires StepShaped(s, j, issue)
    ensures CallsOf(s, k) == if j == k then s else []
  {
    if s != [] {
      assert s[..0] == [];
    }
  }

  /** Among five steps' calls, the calls of kind `k` are those of step `k`. */
  lemma CallsOfSteps(s0: seq<Effect>, s1: seq<Effect>, s2: seq<Effect>, s3: seq<Effect>, s4: seq<Effect>, issue: int, k: nat)
    requires StepShaped(s0, 0, issue) && StepShaped(s1, 1, issue) && StepShaped(s2, 2, issue)
    requires StepShaped(s3, 3, issue) && StepShaped(s4, 4, issue)
    requires k < 5
    ensures CallsOf(s0 + s1 + s2 + s3 + s4, k) == [s0, s1, s2, s3, s4][k]
  {
    CallsOfAppend(s0, s1, k);
    CallsOfAppend(s0 + s1, s2, k);
    CallsOfAppend(s0 + s1 + s2, s3, k);
    CallsOfAppend(s0 + s1 + s2 + s3, s4, k);
    CallsOfStep(s0, 0, issue, k);
    CallsOfStep(s1, 1, issue, k);
    CallsOfStep(s2, 2, issue, k);
    CallsOfStep(s3, 3, issue, k);
    CallsOfStep(s4, 4, issue, k);
    var s := [s0, s1, s2, s3, s4][k];
    assert CallsOf(s0 + s1 + s2 + s3 + s4, k)
      == (if k == 0 then s0 else []) + (if k == 1 then s1 else []) + (if k == 2 then s2 else [])
         + (if k == 3 then s3 else []) + (if k == 4 then s4 else []);
    if k == 0 {
      assert s0 + [] + [] + [] + [] == s;
    } else if k == 1 {
      assert [] + s1 + [] + [] + [] == s;
    } else if k == 2 {
      assert [] + [] + s2 + [] + [] == s;
    } else if k == 3 {
      assert [] + [] + [] + s3 + [] == s;
    } else {
      assert [] + [] + [] + [] + s4 == s;
    }
  }

  /** The calls of each kind in the plan are exactly that step's guarded calls. */
  lemma PlannedCalls(a: LabelAction, issue: int)
    ensures CallsOf(Planned(a, issue), 0) == CommentStep(a, issue)
    ensures CallsOf(Planned(a, issue), 1) == CloseStep(a, issue)
    ensures CallsOf(Planned(a, issue), 2) == ReopenStep(a, issue)
    ensures CallsOf(Planned(a, issue), 3) == LockStep(a, issue)
    ensures CallsOf(Planned(a, issue), 4) == LabelsStep(a, issue)
  {
    var c, cl, r, l, lb := CommentStep(a, issue), CloseStep(a, issue), ReopenStep(a, issue), LockStep(a, issue), LabelsStep(a, issue);
    StepsShaped(a, issue);
    CallsOfSteps(c, cl, r, l, lb, issue, 0);
    CallsOfSteps(c, cl, r, l, lb, issue, 1);
    CallsOfSteps(c, cl, r, l, lb, issue, 2);
    CallsOfSteps(c, cl, r, l, lb, issue, 3);
    CallsOfSteps(c, cl, r, l, lb, issue, 4);
  }

  /** A call is in `p` exactly when it is among the calls of its kind. */
  lemma {:induction false} InCallsOf(p: seq<Effect>, e: Effect)
    ensures e in p <==> e in CallsOf(p, Rank(e))
    decreases |p|
  {
    if p != [] {
      var p0 := p[..|p| - 1];
      InCallsOf(p0, e);
      assert p == p0 + [p[|p| - 1]];
    }
  }

  /** The lock step: `lock` with a truthy `lockReason` gives exactly one
      lock-with-reason call carrying that reason, `lock` alone exactly one plain
      lock call, and no `lock` no lock call at all, whatever `lockReason` is. */
  lemma LockOutcome(a: LabelAction, issue: int)
    ensures a.lock && Truthy(a.lockReason) ==>
      CallsOf(Planned(a, issue), 3) == [LockIssueWithReason(issue, a.lockReason.value)]
    ensures a.lock && !Truthy(a.lockReason) ==> CallsOf(Planned(a, issue), 3) == [LockIssue(issue)]
    ensures !a.lock ==> CallsOf(Planned(a, issue), 3) == []
  {
    PlannedCalls(a, issue);
  }

  /** A comment is posted exactly when `comment` is a non-empty string, and it
      carries that string. */
  lemma CommentGuard(a: LabelAction, issue: int, body: string)
    ensures CreateComment(issue, body) in Planned(a, issue) <==> a.comment == Some(body) && body != ""
  {
    var e := CreateComment(issue, body);
    PlannedCalls(a, issue);
    InCallsOf(Planned(a, issue), e);
    assert e in Planned(a, issue) <==> e in CommentStep(a, issue);
    if Truthy(a.comment) {
      assert CommentStep(a, issue) == [CreateComment(issue, a.comment.value)];
    } else {
      assert CommentStep(a, issue) == [];
    }
  }

  /** The issue is closed exactly when `close` is set and reopened exactly when
      `reopen` is set; both may happen, close first. */
  lemma CloseReopenGuards(a: LabelAction, issue: int)
    ensures CloseIssue(issue) in Planned(a, issue) <==> a.close
    ensures OpenIssue(issue) in Planned(a, issue) <==> a.reopen
  {
    PlannedCalls(a, issue);
    InCallsOf(Planned(a, issue), CloseIssue(issue));
    InCallsOf(Planned(a, issue), OpenIssue(issue));
  }

  /** Labels are added exactly when `labels` is a non-empty array, and the call
      carries that array. */
  lemma LabelsGuard(a: LabelAction, issue: int, ls: seq<Value>)
    ensures AddLabels(issue, ls) in Planned(a, issue) <==> ls == a.labels && |ls| > 0
  {
    PlannedCalls(a, issue);
    InCallsOf(Planned(a, issue), AddLabels(issue, ls));
  }

  /** The default record issues no call at all. */
  lemma DefaultsIssueNothing(issue: int)
    ensures Planned(Defaults, issue) == []
  {
  }

  /** A record with only `labels: ["a", "b"]` issues a single add-labels call. */
  lemma LabelsOnlyAction(issue: int)
    ensures Planned(Defaults.(labels := [Str("a"), Str("b")]), issue) == [AddLabels(issue, [Str("a"), Str("b")])]
  {
  }

  /** `comment: "hi"`, `close: true`, `labels: ["x"]` with a failing comment call:
      the `src` wrappers still close and label, the `lib` wrappers stop after the
      comment. */
  lemma FailedCommentScenario(issue: int)
    ensures
      var a := Defaults.(comment := Some("hi"), close := true, labels := [Str("x")]);
      var fails := (e: Effect) => e.CreateComment?;
      Execute(Planned(a, issue), LogAndContinue, fails) == Dispatch(
        [Attempt(CreateComment(issue, "hi"), false), Attempt(CloseIssue(issue), true),
         Attempt(AddLabels(issue, [Str("x")]), true)], false)
      && Execute(Planned(a, issue), AbortOnFailure, fails) == Dispatch(
        [Attempt(CreateComment(issue, "hi"), false)], true)
  {
    var a := Defaults.(comment := Some("hi"), close := true, labels := [Str("x")]);
    var p := [CreateComment(issue, "hi"), CloseIssue(issue), AddLabels(issue, [Str("x")])];
    var fails := (e: Effect) => e.CreateComment?;
    assert Planned(a, issue) == p;
    assert p[..2][..1][..0] == [];
    assert p[..2][..1] == [CreateComment(issue, "hi")];
    assert p[..2] == [CreateComment(issue, "hi"), CloseIssue(issue)];
    assert fails(CreateComment(issue, "hi")) && !fails(CloseIssue(issue)) && !fails(AddLabels(issue, [Str("x")]));
    assert Execute(p[..2][..1], LogAndContinue, fails) == Dispatch([Attempt(CreateComment(issue, "hi"), false)], false);
    assert Execute(p[..2], LogAndContinue, fails)
      == Dispatch([Attempt(CreateComment(issue, "hi"), false), Attempt(CloseIssue(issue), true)], false);
    assert Execute(p[..2][..1], AbortOnFailure, fails) == Dispatch([Attempt(CreateComment(issue, "hi"), false)], true);
    assert Execute(p[..2], AbortOnFailure, fails) == Dispatch([Attempt(CreateComment(issue, "hi"), false)], true);
  }
}
