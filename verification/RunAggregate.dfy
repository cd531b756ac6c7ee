/** How a parent run's outcome follows from its children. */
module RunAggregate {
  import opened Claims

  /** In flight stands for pending, stale, running, held and parked. */
  datatype Phase = InFlight | Fresh | Failed

  datatype Child = Child(phase: Phase, signal: Option<string>, changed: bool)

  /** What an aggregation sees of a child. A fresh child whose settling signal is
      neither absent nor one of the two plain terminal types is `Odd`: settled,
      but neither a success nor a failure. */
  datatype Class = Open | Lost | Won | Odd

  predicate IsSuccess(c: Child) {
    c.phase == Phase.Fresh
    && (c.signal.None? || c.signal.value == "terminal/success" || c.signal.value == "terminal/error")
  }

  function ClassOf(c: Child): Class {
    match c.phase
    case InFlight => Open
    case Failed => Lost
    case Fresh => if IsSuccess(c) then Won else Odd
  }

  function Classes(cs: seq<Child>): (r: seq<Class>)
    ensures |r| == |cs| && forall i | 0 <= i < |cs| :: r[i] == ClassOf(cs[i])
  {
    seq(|cs|, i requires 0 <= i < |cs| => ClassOf(cs[i]))
  }

  datatype Action = NoAction | CancelSiblings | CancelNonWinners

  datatype Verdict = Unsettled | Settled(phase: Phase, signal: string, changed: bool, action: Action)

  // ----------------------------------------------------- the verdict itself

  function Count(cs: seq<Class>, c: Class): nat {
    if cs == [] then 0 else Count(cs[..|cs| - 1], c) + if cs[|cs| - 1] == c then 1 else 0
  }

  function AtLeastOne(max: int): int { if max <= 0 then 1 else max }

  /** The verdict on a family, by classes alone. */
  ghost function VerdictOn(policy: Policy, cs: seq<Class>): Class {
    if cs == [] then Open else
    match policy
    case Threshold(max) => if Count(cs, Lost) >= AtLeastOne(max) then Lost else if Open in cs then Open else Won
    case BestEffort => if Open in cs then Open else Won
    case First => if Won in cs then Won else if forall c | c in cs :: c == Lost then Lost else Open
    case _ => if Lost in cs then Lost else if Open in cs then Open else Won
  }

  /** Some open children have settled, and nothing else has changed. */
  ghost predicate Advances(cs: seq<Class>, cs': seq<Class>) {
    |cs'| == |cs| && forall i | 0 <= i < |cs| :: cs[i] == Open || cs'[i] == cs[i]
  }

  lemma {:induction false} CountAdvances(cs: seq<Class>, cs': seq<Class>)
    requires Advances(cs, cs')
    ensures Count(cs, Lost) <= Count(cs', Lost)
  {
    if cs == [] {
    } else {
      CountAdvances(cs[..|cs| - 1], cs'[..|cs'| - 1]);
    }
  }

  /** An early verdict is never taken back. */
  lemma VerdictNeverFlips(policy: Policy, cs: seq<Class>, cs': seq<Class>)
    requires Advances(cs, cs') && VerdictOn(policy, cs) != Open
    ensures VerdictOn(policy, cs') == VerdictOn(policy, cs)
  {
    CountAdvances(cs, cs');
    if Open !in cs { assert cs' == cs; }
    if Lost in cs { var i :| 0 <= i < |cs| && cs[i] == Lost; assert cs'[i] == Lost; }
    if Won in cs { var i :| 0 <= i < |cs| && cs[i] == Won; assert cs'[i] == Won; }
  }

  /** A child that has just been dispatched does not settle its parent. */
  lemma NewChildKeepsOpen(policy: Policy, cs: seq<Class>, at: nat)
    requires at <= |cs| && VerdictOn(policy, cs) == Open
    ensures VerdictOn(policy, cs[..at] + [Open] + cs[at..]) == Open
  {
    var cs' := cs[..at] + [Open] + cs[at..];
    assert cs'[at] == Open && Open in cs';
    assert cs == cs[..at] + cs[at..];
    CountConcat(cs[..at], cs[at..], Lost);
    CountConcat(cs[..at] + [Open], cs[at..], Lost);
    CountConcat(cs[..at], [Open], Lost);
    forall c ensures c in cs' <==> c in cs || c == Open {
      if c in cs { var i :| 0 <= i < |cs| && cs[i] == c; assert cs'[if i < at then i else i + 1] == c; }
    }
  }

  lemma {:induction false} CountConcat(a: seq<Class>, b: seq<Class>, c: Class)
    ensures Count(a + b, c) == Count(a, c) + Count(b, c)
  {
    if b == [] {
      assert a + b == a;
    } else {
      var n := |b| - 1;
      assert (a + b)[..|a + b| - 1] == a + b[..n];
      CountConcat(a, b[..n], c);
    }
  }

  // ------------------------------------------------------- the aggregation

  function WonIndex(cs: seq<Child>): (i: nat)
    requires Won in Classes(cs)
    ensures i < |cs| && ClassOf(cs[i]) == Won && forall j | 0 <= j < i :: ClassOf(cs[j]) != Won
  {
    if ClassOf(cs[0]) == Won then 0 else
      assert Won in Classes(cs[1..]) by {
        var k :| 0 <= k < |cs| && Classes(cs)[k] == Won;
        assert Classes(cs[1..])[k - 1] == Won;
      }
      1 + WonIndex(cs[1..])
  }

  function SignalOf(winner: Child): string {
    if winner.signal.Some? then winner.signal.value else "terminal/success"
  }

  function LostSignal(policy: Policy): string {
    match policy
    case Threshold(_) => "terminal/error/aggregate/threshold_failed"
    case First => "terminal/error/aggregate/first_failed"
    case _ => "terminal/error/aggregate/strict_failed"
  }

  /** Phase, signal, changed flag and action of a verdict. */
  ghost predicate Decides(policy: Policy, cs: seq<Child>, v: Verdict) {
    match VerdictOn(policy, Classes(cs))
    case Lost =>
      v == Settled(Phase.Failed, LostSignal(policy), false,
                   if policy.Threshold? || policy.First? then NoAction else CancelSiblings)
    case Won =>
      if policy.First? then
        var w := cs[WonIndex(cs)];
        v == Settled(Phase.Fresh, SignalOf(w), w.changed, CancelNonWinners)
      else
        v == Settled(Phase.Fresh, "terminal/success", exists i :: 0 <= i < |cs| && cs[i].changed, NoAction)
    case _ => v == Unsettled
  }

  // ------------------------------------------------------ when it is due

  function FailedAt(cs: seq<Child>): set<nat> {
    set i: nat | i < |cs| && cs[i].phase == Phase.Failed
  }

  ghost predicate SomeFailed(cs: seq<Child>) {
    exists i :: 0 <= i < |cs| && cs[i].phase == Phase.Failed
  }

  ghost predicate AllFailed(cs: seq<Child>) {
    cs != [] && forall i | 0 <= i < |cs| :: cs[i].phase == Phase.Failed
  }

  ghost predicate NoneInFlight(cs: seq<Child>) {
    cs != [] && forall i | 0 <= i < |cs| :: cs[i].phase != InFlight
  }

  ghost predicate SomeSuccess(cs: seq<Child>) {
    exists i :: 0 <= i < |cs| && cs[i].phase == Phase.Fresh
                && cs[i].signal in {None, Some("terminal/success"), Some("terminal/error")}
  }

  lemma {:induction false} CountIsFailed(cs: seq<Child>)
    ensures Count(Classes(cs), Lost) == |FailedAt(cs)|
  {
    if cs == [] {
      assert FailedAt(cs) == {};
    } else {
      var n := |cs| - 1;
      CountIsFailed(cs[..n]);
      assert Classes(cs)[..n] == Classes(cs[..n]);
      assert FailedAt(cs) == FailedAt(cs[..n]) + if cs[n].phase == Phase.Failed then {n} else {};
    }
  }

  lemma ClassIn(cs: seq<Child>, c: Class)
    ensures c in Classes(cs) <==> exists i :: 0 <= i < |cs| && ClassOf(cs[i]) == c
  {
    if i :| 0 <= i < |cs| && ClassOf(cs[i]) == c { assert Classes(cs)[i] == c; }
  }

  /** A threshold parent fails as soon as failures reach the limit, whatever is still
      in flight, and succeeds once all have settled below it. */
  lemma ThresholdDue(max: int, cs: seq<Child>, v: Verdict)
    requires Decides(Threshold(max), cs, v)
    ensures v.Settled? && v.phase == Phase.Failed <==> |FailedAt(cs)| >= if max <= 0 then 1 else max
    ensures v.Settled? && v.phase == Phase.Fresh <==>
            |FailedAt(cs)| < (if max <= 0 then 1 else max) && NoneInFlight(cs)
  {
    CountIsFailed(cs);
    ClassIn(cs, Open);
  }

  /** A strict parent, and one whose policy is not known, fails with the first failed
      child, whatever is still in flight. */
  lemma StrictDue(policy: Policy, cs: seq<Child>, v: Verdict)
    requires Decides(policy, cs, v) && (policy.Strict? || policy.Unrecognised? || policy.Malformed?)
    ensures v.Settled? && v.phase == Phase.Failed <==> SomeFailed(cs)
    ensures v.Settled? && v.phase == Phase.Fresh <==> !SomeFailed(cs) && NoneInFlight(cs)
  {
    ClassIn(cs, Open);
    ClassIn(cs, Lost);
  }

  /** A best-effort parent waits for all children, and never fails. */
  lemma BestEffortDue(cs: seq<Child>, v: Verdict)
    requires Decides(BestEffort, cs, v)
    ensures v.Settled? <==> NoneInFlight(cs)
    ensures v.Settled? ==> v.phase == Phase.Fresh
  {
    ClassIn(cs, Open);
  }

  /** A first-wins parent succeeds with the first success, whatever is still in flight,
      and fails only if all children have. */
  lemma FirstDue(cs: seq<Child>, v: Verdict)
    requires Decides(First, cs, v)
    ensures v.Settled? && v.phase == Phase.Fresh <==> SomeSuccess(cs)
    ensures v.Settled? && v.phase == Phase.Failed <==> AllFailed(cs)
  {
    ClassIn(cs, Won);
    var ks := Classes(cs);
    if cs != [] {
      assert ks[0] in ks;
      if forall c | c in ks :: c == Lost {
        forall i: nat | i < |cs| ensures cs[i].phase == Phase.Failed { assert ks[i] in ks; }
      }
    }
  }

  /** The children that speak for a settled parent. A first-wins parent takes signal
      and changed flag from the first success, any other has changed if a child has. */
  lemma VerdictTells(policy: Policy, cs: seq<Child>, v: Verdict)
    requires Decides(policy, cs, v) && v.Settled?
    ensures v.phase == Phase.Failed ==>
            && !v.changed && (policy.Threshold? ==> v.signal == "terminal/error/aggregate/threshold_failed")
            && (policy.First? ==> v.signal == "terminal/error/aggregate/first_failed")
            && (!policy.Threshold? && !policy.First? ==> v.signal == "terminal/error/aggregate/strict_failed")
    ensures v.phase == Phase.Fresh && !policy.First? ==>
            v.signal == "terminal/success" && (v.changed <==> exists i :: 0 <= i < |cs| && cs[i].changed)
    ensures v.phase == Phase.Fresh && policy.First? ==>
            exists i :: 0 <= i < |cs| && IsSuccess(cs[i]) && (forall j | 0 <= j < i :: !IsSuccess(cs[j]))
                        && v.changed == cs[i].changed
                        && (cs[i].signal.Some? ==> v.signal == cs[i].signal.value)
                        && (cs[i].signal.None? ==> v.signal == "terminal/success")
    ensures v.action == CancelNonWinners <==> v.phase == Phase.Fresh && policy.First?
    ensures v.action == CancelSiblings <==> v.phase == Phase.Failed && !policy.Threshold? && !policy.First?
  {
    if v.phase == Phase.Fresh && policy.First? {
      var i := WonIndex(cs);
      assert IsSuccess(cs[i]) && forall j | 0 <= j < i :: !IsSuccess(cs[j]);
    }
  }

  method Aggregate(cs: seq<Child>, policy: Policy) returns (v: Verdict)
    ensures Decides(policy, cs, v)
  {
    if |cs| == 0 { return Unsettled; }
    match policy {
      case Threshold(max) => v := AggregateThreshold(cs, max);
      case BestEffort => v := AggregateBestEffort(cs);
      case First => v := AggregateFirst(cs);
      case _ => v := AggregateStrict(cs, policy);
    }
  }

  method AggregateChanged(cs: seq<Child>) returns (b: bool)
    ensures b <==> exists i :: 0 <= i < |cs| && cs[i].changed
  {
    for i := 0 to |cs|
      invariant forall j | 0 <= j < i :: !cs[j].changed
    {
      if cs[i].changed { return true; }
    }
    return false;
  }

  method AggregateStrict(cs: seq<Child>, policy: Policy) returns (v: Verdict)
    requires cs != [] && !policy.Threshold? && !policy.BestEffort? && !policy.First?
    ensures Decides(policy, cs, v)
  {
    var anyActive := false;
    for i := 0 to |cs|
      invariant Lost !in Classes(cs)[..i] && (anyActive <==> Open in Classes(cs)[..i])
    {
      assert Classes(cs)[..i + 1] == Classes(cs)[..i] + [ClassOf(cs[i])];
      if cs[i].phase == Phase.Failed {
        assert Classes(cs)[i] == Lost;
        return Settled(Phase.Failed, "terminal/error/aggregate/strict_failed", false, CancelSiblings);
      }
      if cs[i].phase == InFlight { anyActive := true; }
    }
    assert Classes(cs)[..|cs|] == Classes(cs);
    if anyActive { return Unsettled; }
    var changed := AggregateChanged(cs);
    return Settled(Phase.Fresh, "terminal/success", changed, NoAction);
  }

  method AggregateThreshold(cs: seq<Child>, maxFailures: int) returns (v: Verdict)
    requires cs != []
    ensures Decides(Threshold(maxFailures), cs, v)
  {
    var failures, anyActive := 0, false;
    for i := 0 to |cs|
      invariant failures == Count(Classes(cs)[..i], Lost) && (anyActive <==> Open in Classes(cs)[..i])
    {
      assert Classes(cs)[..i + 1] == Classes(cs)[..i] + [ClassOf(cs[i])];
      assert Classes(cs)[..i + 1][..i] == Classes(cs)[..i];
      if cs[i].phase == Phase.Failed { failures := failures + 1; }
      if cs[i].phase == InFlight { anyActive := true; }
    }
    assert Classes(cs)[..|cs|] == Classes(cs);
    var max := if maxFailures <= 0 then 1 else maxFailures;
    if failures >= max { return Settled(Phase.Failed, "terminal/error/aggregate/threshold_failed", false, NoAction); }
    if anyActive { return Unsettled; }
    var changed := AggregateChanged(cs);
    return Settled(Phase.Fresh, "terminal/success", changed, NoAction);
  }

  method AggregateBestEffort(cs: seq<Child>) returns (v: Verdict)
    requires cs != []
    ensures Decides(BestEffort, cs, v)
  {
    for i := 0 to |cs|
      invariant forall j | 0 <= j < i :: Classes(cs)[j] != Open
    {
      if cs[i].phase == InFlight {
        assert Classes(cs)[i] == Open;
        return Unsettled;
      }
    }
    var changed := AggregateChanged(cs);
    return Settled(Phase.Fresh, "terminal/success", changed, NoAction);
  }

  method AggregateFirst(cs: seq<Child>) returns (v: Verdict)
    requires cs != []
    ensures Decides(First, cs, v)
  {
    var allFailed := true;
    for i := 0 to |cs|
      invariant forall j | 0 <= j < i :: ClassOf(cs[j]) != Won
      invariant allFailed <==> forall j | 0 <= j < i :: Classes(cs)[j] == Lost
    {
      if IsSuccess(cs[i]) {
        assert Classes(cs)[i] == Won;
        assert WonIndex(cs) == i;
        return Settled(Phase.Fresh, SignalOf(cs[i]), cs[i].changed, CancelNonWinners);
      }
      if cs[i].phase != Phase.Failed { allFailed := false; }
    }
    assert forall j | 0 <= j < |cs| :: Classes(cs)[j] != Won;
    if allFailed { return Settled(Phase.Failed, "terminal/error/aggregate/first_failed", false, NoAction); }
    ghost var j :| 0 <= j < |cs| && Classes(cs)[j] != Lost;
    assert Classes(cs)[j] in Classes(cs);
    return Unsettled;
  }

  // ------------------------------------------------ the two aggregators agree

  lemma {:induction false} CountIn(cs: seq<Class>, c: Class)
    ensures Count(cs, c) > 0 <==> c in cs
  {
    if cs == [] {
    } else {
      CountIn(cs[..|cs| - 1], c);
      assert cs == cs[..|cs| - 1] + [cs[|cs| - 1]];
    }
  }

  /** Claims and runs of one fan-out: once every child is settled as a success or
      a failure and the claim counted it so, the claim commits exactly if the run
      ends Fresh, but for a best-effort parent none of whose children committed. */
  lemma AggregatorsAgree(p: Handle, cs: seq<Class>, seedCommits: bool)
    requires cs != [] && forall c | c in cs :: c == Won || c == Lost
    requires p.expected == |cs| && p.committed == Count(cs, Won) && p.abandoned == Count(cs, Lost)
    ensures !p.policy.BestEffort? ==> (AggregateCommits(p, seedCommits) <==> VerdictOn(p.policy, cs) == Won)
    ensures p.policy.BestEffort? ==>
            VerdictOn(p.policy, cs) == Won && (AggregateCommits(p, seedCommits) <==> p.committed > 0)
  {
    CountIn(cs, Won);
    CountIn(cs, Lost);
    assert cs[0] in cs;
  }
}
