/** Each whole transaction is a run of the machine, and with that: exactly which lineages may end up
    with two live versions. */
module AgreementLimits {
  import opened Status
  import opened Agreements
  import opened AgreementRaces

  lemma {:induction false} RunsJoin(m: Machine, a: seq<Step>, b: seq<Step>)
    ensures Run(m, a + b) == Run(Run(m, a), b)
    decreases |a|
  {
    if a == [] {
      assert a + b == b;
    } else {
      assert (a + b)[1..] == a[1..] + b;
      RunsJoin(Do(m, a[0]), a[1..], b);
    }
  }

  lemma RunOne(m: Machine, s: Step)
    ensures Run(m, [s]) == Do(m, s)
  {
  }

  lemma RunTwo(m: Machine, s: Step, t: Step)
    ensures Run(m, [s, t]) == Do(Do(m, s), t)
  {
    RunOne(m, s);
    RunOne(Do(m, s), t);
    RunsJoin(m, [s], [t]);
    assert [s] + [t] == [s, t];
  }

  function Quiet(rows: Rows): Machine { Machine(rows, map[]) }

  function Alone(rows: Rows, job: Job): Machine { Machine(rows, map[0 := job]) }

  lemma RevisionRuns(rows: Rows, previous: Version) returns (steps: seq<Step>)
    requires Sound(rows) && previous in rows && !HasPending(rows)
    ensures Run(Quiet(rows), steps) == Quiet(Revised(rows))
  {
    var begin, next := BeginRevise(0, previous), Next(0, 0);
    HighestIsCount(rows);
    var n := |rows|;
    RunTwo(Quiet(rows), begin, next);
    assert Run(Quiet(rows), [begin, next]) == Alone(rows, RevisingLocked(previous));
    RunTwo(Alone(rows, RevisingLocked(previous)), next, next);
    assert Run(Alone(rows, RevisingLocked(previous)), [next, next]) == Alone(rows, RevisingChecked(previous, n));
    assert n + 1 !in rows;
    RunTwo(Alone(rows, RevisingChecked(previous, n)), next, next);
    assert Run(Alone(rows, RevisingChecked(previous, n)), [next, next]) == Quiet(Revised(rows));
    RunsJoin(Quiet(rows), [begin, next], [next, next]);
    RunsJoin(Quiet(rows), [begin, next] + [next, next], [next, next]);
    steps := [begin, next] + [next, next] + [next, next];
  }

  lemma {:induction false} RetirementRuns(rows: Rows, v: Version, targets: set<Version>, retired: set<Version>)
      returns (steps: seq<Step>)
    requires forall w :: w in targets ==> Lives(rows, w)
    ensures Run(Alone(rows, ApprovingRetiring(v, targets, retired)), steps)
            == Alone(rows, ApprovingRetiring(v, {}, retired + targets))
    decreases |targets|
  {
    if targets == {} {
      steps := [];
      assert retired + targets == retired;
    } else {
      var t :| t in targets;
      var m := Alone(rows, ApprovingRetiring(v, targets, retired));
      RunOne(m, Next(0, t));
      assert Run(m, [Next(0, t)]) == Alone(rows, ApprovingRetiring(v, targets - {t}, retired + {t}));
      var rest := RetirementRuns(rows, v, targets - {t}, retired + {t});
      RunsJoin(m, [Next(0, t)], rest);
      steps := [Next(0, t)] + rest;
      assert retired + {t} + (targets - {t}) == retired + targets;
    }
  }

  lemma ApprovalRuns(rows: Rows, v: Version) returns (steps: seq<Step>)
    requires Sound(rows) && Pends(rows, v)
    ensures Run(Quiet(rows), steps) == Quiet(Approved(rows, v))
  {
    var begin := [BeginApprove(0, v), Next(0, 0)] + [Next(0, 0), Next(0, 0)];
    var live := OthersLive(rows, v);
    ApprovalLooks(rows, v);
    var retire := RetirementRuns(rows, v, live, {});
    assert {} + live == live;
    ApprovalCommitsAll(rows, v);
    RunsJoin(Quiet(rows), begin, retire);
    RunsJoin(Quiet(rows), begin + retire, [Next(0, 0)]);
    steps := begin + retire + [Next(0, 0)];
  }

  function OthersLive(rows: Rows, v: Version): set<Version> { set w | w in rows && w != v && rows[w].Live() }

  lemma ApprovalLooks(rows: Rows, v: Version)
    requires Pends(rows, v)
    ensures Run(Quiet(rows), [BeginApprove(0, v), Next(0, 0)] + [Next(0, 0), Next(0, 0)])
            == Alone(rows, ApprovingRetiring(v, OthersLive(rows, v), {}))
  {
    RunTwo(Quiet(rows), BeginApprove(0, v), Next(0, 0));
    assert Run(Quiet(rows), [BeginApprove(0, v), Next(0, 0)]) == Alone(rows, ApprovingLocked(v));
    RunTwo(Alone(rows, ApprovingLocked(v)), Next(0, 0), Next(0, 0));
    RunsJoin(Quiet(rows), [BeginApprove(0, v), Next(0, 0)], [Next(0, 0), Next(0, 0)]);
  }

  lemma ApprovalCommitsAll(rows: Rows, v: Version)
    requires Pends(rows, v)
    ensures Run(Alone(rows, ApprovingRetiring(v, {}, OthersLive(rows, v))), [Next(0, 0)]) == Quiet(Approved(rows, v))
  {
    RunOne(Alone(rows, ApprovingRetiring(v, {}, OthersLive(rows, v))), Next(0, 0));
    CoveredRetirement(rows, v, OthersLive(rows, v));
  }

  lemma DecisionRuns(rows: Rows, v: Version) returns (steps: seq<Step>)
    requires v in rows && rows[v].status == Submitted
    ensures Run(Quiet(rows), steps) == Quiet(WithStatus(rows, v, Active))
  {
    steps := [BeginDecide(0, v, true), Next(0, 0)];
    RunTwo(Quiet(rows), BeginDecide(0, v, true), Next(0, 0));
  }

  function Founded(status: AgreementStatus): Rows { map[1 := Row(status, false)] }

  /** Revising a submitted root, approving the revision and then approving the root leaves both live. */
  lemma SubmittedRootMakesTwo() returns (steps: seq<Step>)
    ensures var rows := Run(Quiet(Founded(Submitted)), steps).rows; Lives(rows, 1) && Lives(rows, 2)
  {
    var rows := Founded(Submitted);
    assert |rows| == 1;
    var revise := RevisionRuns(rows, 1);
    RevisionKeepsSound(rows);
    var revised := Revised(rows);
    var approve := ApprovalRuns(revised, 2);
    var approved := Approved(revised, 2);
    var decide := DecisionRuns(approved, 1);
    RunsJoin(Quiet(rows), revise, approve);
    RunsJoin(Quiet(rows), revise + approve, decide);
    steps := revise + approve + decide;
  }

  /** A lineage never has two live versions, however its transactions interleave, exactly when its
      root was not waiting on DecideAgreement. */
  lemma NeverTwoLiveIff(status: AgreementStatus)
    ensures status != Submitted <==> forall steps :: OneLiveAtMost(Run(Quiet(Founded(status)), steps).rows)
  {
    if status == Submitted {
      var steps := SubmittedRootMakesTwo();
      assert !OneLiveAtMost(Run(Quiet(Founded(status)), steps).rows);
    } else {
      assert |Founded(status)| == 1;
      forall steps ensures OneLiveAtMost(Run(Quiet(Founded(status)), steps).rows) {
        OneVersionIsLive(Quiet(Founded(status)), steps);
      }
    }
  }
}
