/** What becomes of a revision under way: exactly when it commits, and what that means for the second
    of two writers of one lineage. */
module RevisionFates {
  import opened Status
  import opened Agreements
  import opened AgreementRaces
  import opened AgreementLimits

  /** The moments that decide a revision. */
  datatype Moment =
    | CountsNone                   // it counts the pending versions and finds none
    | CountsDecided(first: Version) // it counts them when this version is no longer pending
    | InsertsFresh                 // its number is neither committed nor claimed when it inserts
    | Commits

  ghost predicate Happens(m: Machine, step: Step, tx: TxId, moment: Moment) {
    && step.Next? && step.tx == tx && tx in m.txs
    && var job := m.txs[tx];
       match moment
       case CountsNone => job.RevisingNumbered? && !HasPending(m.rows)
       case CountsDecided(first) => job.RevisingNumbered? && !Pends(m.rows, first)
       case InsertsFresh => job.RevisingChecked? && job.max + 1 !in m.rows && !Claimed(m, tx, job.max + 1)
       case Commits => job.RevisingInserted?
  }

  ghost predicate Sometime(m: Machine, steps: seq<Step>, tx: TxId, moment: Moment)
    decreases |steps|
  {
    steps != [] && (Happens(m, steps[0], tx, moment) || Sometime(Do(m, steps[0]), steps[1..], tx, moment))
  }

  predicate IsWriter(job: Job) { IsRevising(job) || job.RevisingInserted? }

  /** The step cuts the transaction off, or would start another under its name. */
  predicate Meddles(step: Step, tx: TxId) {
    match step
    case BeginRevise(t, _) => t == tx
    case BeginApprove(t, _) => t == tx
    case BeginDecide(t, _, _) => t == tx
    case Abort(t) => t == tx
    case _ => false
  }

  predicate LeftAlone(steps: seq<Step>, tx: TxId) {
    forall i :: 0 <= i < |steps| ==> !Meddles(steps[i], tx)
  }

  lemma OthersLeaveJob(m: Machine, step: Step, tx: TxId)
    requires !Meddles(step, tx) && !(step.Next? && step.tx == tx)
    ensures tx in Do(m, step).txs <==> tx in m.txs
    ensures tx in m.txs ==> Do(m, step).txs[tx] == m.txs[tx]
  {
  }

  lemma VersionsStay(m: Machine, step: Step, v: Version)
    requires v in m.rows
    ensures v in Do(m, step).rows
  {
  }

  lemma {:induction false} EndedIsOver(m: Machine, steps: seq<Step>, tx: TxId, moment: Moment)
    requires tx !in m.txs && LeftAlone(steps, tx)
    ensures !Sometime(m, steps, tx, moment) && tx !in Run(m, steps).txs
    decreases |steps|
  {
    if steps != [] {
      if !(steps[0].Next? && steps[0].tx == tx) { OthersLeaveJob(m, steps[0], tx); }
      EndedIsOver(Do(m, steps[0]), steps[1..], tx, moment);
    }
  }

  // ---- When a revision commits ---------------------------------------------------------------

  /** What is still to happen for a revision at this point to commit. */
  ghost predicate StillToPass(m: Machine, steps: seq<Step>, tx: TxId, job: Job) {
    match job
    case RevisingInserted(_, _) => true
    case RevisingChecked(_, _) => Sometime(m, steps, tx, InsertsFresh)
    case _ => Sometime(m, steps, tx, CountsNone) && Sometime(m, steps, tx, InsertsFresh)
  }

  /** A revision of an existing version that is not cut off and has come to its end has committed
      exactly when nothing was pending as it counted and its number was free as it inserted. */
  lemma {:induction false} RevisionCommitsIff(m: Machine, steps: seq<Step>, tx: TxId)
    requires tx in m.txs && IsWriter(m.txs[tx]) && m.txs[tx].previous in m.rows
    requires LeftAlone(steps, tx) && tx !in Run(m, steps).txs
    ensures Sometime(m, steps, tx, Commits) <==> StillToPass(m, steps, tx, m.txs[tx])
    decreases |steps|
  {
    assert steps != [];
    var next := Do(m, steps[0]);
    VersionsStay(m, steps[0], m.txs[tx].previous);
    if !(steps[0].Next? && steps[0].tx == tx) { OthersLeaveJob(m, steps[0], tx); }
    if tx in next.txs {
      RevisionCommitsIff(next, steps[1..], tx);
    } else {
      EndedIsOver(next, steps[1..], tx, Commits);
      EndedIsOver(next, steps[1..], tx, CountsNone);
      EndedIsOver(next, steps[1..], tx, InsertsFresh);
    }
  }

  // ---- The second of two writers -------------------------------------------------------------

  /** `first` is the newest version and the only one that can be pending, and `tx` the only writer. */
  ghost predicate LastWriter(m: Machine, tx: TxId, first: Version) {
    && Numbered(m.rows) && |m.rows| == first && tx in m.txs && IsWriter(m.txs[tx])
    && (forall v :: Pends(m.rows, v) ==> v == first)
    && (forall t :: t in m.txs && t != tx ==> !IsWriter(m.txs[t]))
    && match m.txs[tx]
       case RevisingNumbered(_, max) => max == first
       case RevisingChecked(_, max) => max == first
       case RevisingInserted(_, v) => v == first + 1
       case _ => true
  }

  /** No revision commits, so no version is added and none becomes pending. */
  lemma QuietStep(m: Machine, step: Step)
    requires step.Next? && step.tx in m.txs ==> !m.txs[step.tx].RevisingInserted?
    ensures Do(m, step).rows.Keys == m.rows.Keys
    ensures forall v :: Pends(Do(m, step).rows, v) ==> Pends(m.rows, v)
  {
  }

  lemma NoWriterComes(m: Machine, step: Step, t: TxId)
    requires !step.BeginRevise? && t in Do(m, step).txs && IsWriter(Do(m, step).txs[t])
    ensures t in m.txs && IsWriter(m.txs[t])
  {
  }

  lemma SecondStays(m: Machine, step: Step, tx: TxId, first: Version)
    requires LastWriter(m, tx, first) && !step.BeginRevise? && !Meddles(step, tx)
    requires tx in Do(m, step).txs
    ensures LastWriter(Do(m, step), tx, first)
  {
    var next := Do(m, step);
    assert forall t :: t in m.txs && m.txs[t].RevisingInserted? ==> t == tx;
    QuietStep(m, step);
    SameVersionsNumbered(m.rows, next.rows);
    HighestIsCount(m.rows);
    forall t | t in next.txs && t != tx ensures !IsWriter(next.txs[t]) {
      assert IsWriter(next.txs[t]) ==> t in m.txs && IsWriter(m.txs[t]) by {
        if IsWriter(next.txs[t]) { NoWriterComes(m, step, t); }
      }
    }
    if !(step.Next? && step.tx == tx) { OthersLeaveJob(m, step, tx); }
  }

  lemma {:induction false} NoWriterNoVersion(m: Machine, steps: seq<Step>)
    requires forall t :: t in m.txs ==> !IsWriter(m.txs[t])
    requires forall i :: 0 <= i < |steps| ==> !steps[i].BeginRevise?
    ensures |Run(m, steps).rows| == |m.rows|
    decreases |steps|
  {
    if steps != [] {
      var next := Do(m, steps[0]);
      QuietStep(m, steps[0]);
      assert |next.rows| == |next.rows.Keys| && |m.rows| == |m.rows.Keys|;
      forall t | t in next.txs ensures !IsWriter(next.txs[t]) {
        assert IsWriter(next.txs[t]) ==> t in m.txs && IsWriter(m.txs[t]) by {
          if IsWriter(next.txs[t]) { NoWriterComes(m, steps[0], t); }
        }
      }
      NoWriterNoVersion(next, steps[1..]);
    }
  }

  ghost predicate StillToTake(m: Machine, steps: seq<Step>, tx: TxId, job: Job, first: Version) {
    job.RevisingInserted? || job.RevisingChecked? || Sometime(m, steps, tx, CountsDecided(first))
  }

  /** The step at which the second writer comes to its end. */
  lemma SecondEnds(m: Machine, steps: seq<Step>, tx: TxId, first: Version)
    requires LastWriter(m, tx, first) && m.txs[tx].previous in m.rows && steps != []
    requires LeftAlone(steps, tx) && forall i :: 0 <= i < |steps| ==> !steps[i].BeginRevise?
    requires tx !in Do(m, steps[0]).txs
    ensures Sometime(m, steps, tx, Commits) <==> StillToTake(m, steps, tx, m.txs[tx], first)
    ensures |Run(m, steps).rows| == if Sometime(m, steps, tx, Commits) then first + 1 else first
  {
    var next := Do(m, steps[0]);
    if !(steps[0].Next? && steps[0].tx == tx) { OthersLeaveJob(m, steps[0], tx); }
    EndedIsOver(next, steps[1..], tx, Commits);
    EndedIsOver(next, steps[1..], tx, CountsDecided(first));
    assert next.txs == m.txs - {tx};
    NoWriterNoVersion(next, steps[1..]);
    if m.txs[tx].RevisingInserted? { assert first + 1 !in m.rows; }
  }

  /** The second of two writers, waiting when the first has just committed version `first`, with no
      third: whatever else runs, once it has ended it has taken the next number exactly when the
      first's version had been decided by the time it counted; otherwise no version was added. */
  lemma {:induction false} SecondWriterTakesNextIff(m: Machine, steps: seq<Step>, tx: TxId, first: Version)
    requires LastWriter(m, tx, first) && m.txs[tx].previous in m.rows
    requires LeftAlone(steps, tx) && forall i :: 0 <= i < |steps| ==> !steps[i].BeginRevise?
    requires tx !in Run(m, steps).txs
    ensures Sometime(m, steps, tx, Commits) <==> StillToTake(m, steps, tx, m.txs[tx], first)
    ensures |Run(m, steps).rows| == if Sometime(m, steps, tx, Commits) then first + 1 else first
    decreases |steps|
  {
    assert steps != [];
    var next := Do(m, steps[0]);
    if tx in next.txs {
      SecondStays(m, steps[0], tx, first);
      VersionsStay(m, steps[0], m.txs[tx].previous);
      SecondWriterTakesNextIff(next, steps[1..], tx, first);
      if !(steps[0].Next? && steps[0].tx == tx) { OthersLeaveJob(m, steps[0], tx); }
    } else {
      SecondEnds(m, steps, tx, first);
    }
  }

  /** The same, from the commit of the first writer on: the second takes the number after it exactly
      when it counts after that version has been decided. */
  lemma SecondOfTwoWriters(m: Machine, steps: seq<Step>, one: TxId, two: TxId)
    requires Consistent(m) && one in m.txs && two in m.txs && one != two
    requires m.txs[one].RevisingInserted? && m.txs[two].Revising? && m.txs[two].previous in m.rows
    requires forall t :: t in m.txs && t != one && t != two ==> !IsWriter(m.txs[t])
    requires LeftAlone(steps, two) && forall i :: 0 <= i < |steps| ==> !steps[i].BeginRevise?
    requires two !in Run(Do(m, Next(one, 0)), steps).txs
    ensures var after := Do(m, Next(one, 0));
            var first := |m.rows| + 1;
            && Pends(after.rows, first)
            && (Sometime(after, steps, two, Commits) <==> Sometime(after, steps, two, CountsDecided(first)))
            && |Run(after, steps).rows| == if Sometime(after, steps, two, Commits) then first + 1 else first
  {
    FirstHasCommitted(m, one, two);
    SecondWriterTakesNextIff(Do(m, Next(one, 0)), steps, two, |m.rows| + 1);
  }

  lemma FirstHasCommitted(m: Machine, one: TxId, two: TxId)
    requires Consistent(m) && one in m.txs && two in m.txs && one != two
    requires m.txs[one].RevisingInserted? && m.txs[two].Revising? && m.txs[two].previous in m.rows
    requires forall t :: t in m.txs && t != one && t != two ==> !IsWriter(m.txs[t])
    ensures var after := Do(m, Next(one, 0));
            && Pends(after.rows, |m.rows| + 1) && LastWriter(after, two, |m.rows| + 1)
            && after.txs[two] == m.txs[two] && m.txs[two].previous in after.rows
  {
    RevisionCommits(m, one, m.txs[one].previous, m.txs[one].new_);
    RevisionKeepsSound(m.rows);
    assert Relies(m.rows, m.txs[one]);
    assert Do(m, Next(one, 0)) == Ended(m.(rows := Revised(m.rows)), one);
    OnlyTheNewestPends(m.rows);
  }

  lemma OnlyTheNewestPends(rows: Rows)
    requires Sound(rows) && !HasPending(rows)
    ensures |Revised(rows)| == |rows| + 1 && Pends(Revised(rows), |rows| + 1)
    ensures forall v :: Pends(Revised(rows), v) ==> v == |rows| + 1
  {
    assert |rows| + 1 !in rows;
    forall v | Pends(Revised(rows), v) ensures v == |rows| + 1 { assert !Pends(rows, v); }
  }

  // ---- One run for each fate -----------------------------------------------------------------

  lemma TakesNumber(m: Machine, tx: TxId, p: Version)
    requires Numbered(m.rows) && tx in m.txs && m.txs[tx] == RevisingLocked(p) && !HasPending(m.rows)
    ensures Run(m, [Next(tx, 0), Next(tx, 0)]) == At(m, tx, RevisingChecked(p, |m.rows|))
  {
    HighestIsCount(m.rows);
    RunTwo(m, Next(tx, 0), Next(tx, 0));
    assert At(At(m, tx, RevisingNumbered(p, |m.rows|)), tx, RevisingChecked(p, |m.rows|))
           == At(m, tx, RevisingChecked(p, |m.rows|));
  }

  lemma TakesVersion(m: Machine, tx: TxId, p: Version)
    requires Numbered(m.rows) && tx in m.txs && m.txs[tx] == RevisingChecked(p, |m.rows|)
    requires !Claimed(m, tx, |m.rows| + 1)
    ensures Run(m, [Next(tx, 0), Next(tx, 0)]) == Ended(m.(rows := Revised(m.rows)), tx)
  {
    RunTwo(m, Next(tx, 0), Next(tx, 0));
    assert |m.rows| + 1 !in m.rows;
    assert At(m, tx, RevisingInserted(p, |m.rows| + 1)).txs - {tx} == m.txs - {tx};
  }

  function FourTimes(tx: TxId): seq<Step> { [Next(tx, 0), Next(tx, 0)] + [Next(tx, 0), Next(tx, 0)] }

  /** With its predecessor locked, nothing pending and nobody else inserting, four statements commit. */
  lemma PassesAll(m: Machine, tx: TxId, p: Version)
    requires Numbered(m.rows) && tx in m.txs && m.txs[tx] == RevisingLocked(p) && !HasPending(m.rows)
    requires forall t :: t in m.txs ==> !m.txs[t].RevisingInserted?
    ensures Run(m, FourTimes(tx)) == Ended(m.(rows := Revised(m.rows)), tx)
  {
    TakesNumber(m, tx, p);
    var checked := At(m, tx, RevisingChecked(p, |m.rows|));
    TakesVersion(checked, tx, p);
    assert checked.txs - {tx} == m.txs - {tx};
    RunsJoin(m, [Next(tx, 0), Next(tx, 0)], [Next(tx, 0), Next(tx, 0)]);
  }

  function Only(rows: Rows, tx: TxId, job: Job): Machine { Machine(rows, map[tx := job]) }

  function Both(rows: Rows, one: Job, two: Job): Machine { Machine(rows, map[0 := one, 1 := two]) }

  /** Two writers of the same version begin; the first locks it, and the second waits. */
  lemma OneWaits(rows: Rows, p: Version)
    requires p in rows
    ensures Run(Quiet(rows), [BeginRevise(0, p), BeginRevise(1, p)] + [Next(0, 0), Next(1, 0)])
            == Both(rows, RevisingLocked(p), Revising(p))
  {
    RunTwo(Quiet(rows), BeginRevise(0, p), BeginRevise(1, p));
    assert Run(Quiet(rows), [BeginRevise(0, p), BeginRevise(1, p)]) == Both(rows, Revising(p), Revising(p));
    var locked := Both(rows, RevisingLocked(p), Revising(p));
    assert At(Both(rows, Revising(p), Revising(p)), 0, RevisingLocked(p)) == locked;
    assert 0 in locked.txs && p in Held(locked.txs[0]);
    RunTwo(Both(rows, Revising(p), Revising(p)), Next(0, 0), Next(1, 0));
    RunsJoin(Quiet(rows), [BeginRevise(0, p), BeginRevise(1, p)], [Next(0, 0), Next(1, 0)]);
  }

  /** And then the first commits. */
  lemma FirstCommits(rows: Rows, p: Version) returns (steps: seq<Step>)
    requires Sound(rows) && p in rows && !HasPending(rows)
    ensures Run(Quiet(rows), steps) == Only(Revised(rows), 1, Revising(p))
  {
    OneWaits(rows, p);
    var waiting := [BeginRevise(0, p), BeginRevise(1, p)] + [Next(0, 0), Next(1, 0)];
    var m := Both(rows, RevisingLocked(p), Revising(p));
    PassesAll(m, 0, p);
    assert m.txs - {0} == map[1 := Revising(p)];
    RunsJoin(Quiet(rows), waiting, FourTimes(0));
    steps := waiting + FourTimes(0);
  }

  lemma Locks(rows: Rows, tx: TxId, p: Version)
    requires p in rows
    ensures Run(Only(rows, tx, Revising(p)), [Next(tx, 0)]) == Only(rows, tx, RevisingLocked(p))
  {
  }

  /** The second writer looks while the first's version is pending, and is refused. */
  lemma SecondMeetsPending(rows: Rows, p: Version) returns (steps: seq<Step>)
    requires Sound(rows) && p in rows && !HasPending(rows)
    ensures Run(Quiet(rows), steps) == Quiet(Revised(rows))
  {
    var first := FirstCommits(rows, p);
    RevisionKeepsSound(rows);
    var after := Revised(rows);
    assert Pends(after, |rows| + 1);
    Locks(after, 1, p);
    HighestIsCount(after);
    RunTwo(Only(after, 1, RevisingLocked(p)), Next(1, 0), Next(1, 0));
    assert Run(Only(after, 1, RevisingLocked(p)), [Next(1, 0), Next(1, 0)]) == Quiet(after);
    RunsJoin(Only(after, 1, Revising(p)), [Next(1, 0)], [Next(1, 0), Next(1, 0)]);
    RunsJoin(Quiet(rows), first, [Next(1, 0)] + [Next(1, 0), Next(1, 0)]);
    steps := first + ([Next(1, 0)] + [Next(1, 0), Next(1, 0)]);
  }

  lemma RejectionClears(rows: Rows, first: Version)
    requires Sound(rows) && Pends(rows, first)
    ensures var rejected := WithStatus(rows, first, AgreementRejected);
            Sound(rejected) && !HasPending(rejected) && rejected.Keys == rows.Keys
  {
    DecisionKeepsSound(rows, first, AgreementRejected);
    assert forall v :: Pends(WithStatus(rows, first, AgreementRejected), v) ==> Pends(rows, v) && v != first;
  }

  lemma PassesOnceRejected(rows: Rows, first: Version, p: Version) returns (steps: seq<Step>)
    requires Sound(rows) && p in rows && Pends(rows, first)
    ensures var rejected := WithStatus(rows, first, AgreementRejected);
            Run(Only(rows, 1, Revising(p)), steps) == Quiet(Revised(rejected)) && Sound(rejected)
                && !HasPending(rejected)
  {
    var rejected := WithStatus(rows, first, AgreementRejected);
    RejectionClears(rows, first);
    RunOne(Only(rows, 1, Revising(p)), RejectNow(first));
    Locks(rejected, 1, p);
    PassesAll(Only(rejected, 1, RevisingLocked(p)), 1, p);
    RunsJoin(Only(rejected, 1, Revising(p)), [Next(1, 0)], FourTimes(1));
    RunsJoin(Only(rows, 1, Revising(p)), [RejectNow(first)], [Next(1, 0)] + FourTimes(1));
    steps := [RejectNow(first)] + ([Next(1, 0)] + FourTimes(1));
  }

  /** The first's version is rejected before the second writer looks, which then takes the next. */
  lemma SecondTakesTheNext(rows: Rows, p: Version) returns (steps: seq<Step>)
    requires Sound(rows) && p in rows && !HasPending(rows)
    ensures var rejected := Revised(rows)[|rows| + 1 := Row(AgreementRejected, false)];
            Run(Quiet(rows), steps) == Quiet(Revised(rejected)) && Pends(Revised(rejected), |rows| + 2)
  {
    var before := FirstCommits(rows, p);
    RevisionKeepsSound(rows);
    var after := Revised(rows);
    var rest := PassesOnceRejected(after, |rows| + 1, p);
    RunsJoin(Quiet(rows), before, rest);
    steps := before + rest;
    SameVersionsNumbered(after, WithStatus(after, |rows| + 1, AgreementRejected));
    assert |after| == |rows| + 1 by { assert |rows| + 1 !in rows; }
  }

  /** Writers of two versions both look before either inserts, and the later insert meets the index. */
  lemma SecondMeetsTheIndex(rows: Rows, p: Version, q: Version) returns (steps: seq<Step>)
    requires Sound(rows) && p in rows && q in rows && p != q && !HasPending(rows)
    ensures Run(Quiet(rows), steps) == Quiet(Revised(rows))
  {
    var begin, lock := [BeginRevise(0, p), BeginRevise(1, q)], [Next(0, 0), Next(1, 0)];
    BothBegin(rows, p, q);
    BothLock(rows, p, q);
    BothLook(rows, p, q);
    OneMeetsTheOther(rows, p, q);
    var look := [Next(0, 0), Next(0, 0)] + [Next(1, 0), Next(1, 0)];
    var insert := [Next(0, 0), Next(0, 0)] + [Next(1, 0)];
    RunsJoin(Quiet(rows), begin, lock);
    RunsJoin(Quiet(rows), begin + lock, look);
    RunsJoin(Quiet(rows), begin + lock + look, insert);
    steps := begin + lock + look + insert;
  }

  lemma BothBegin(rows: Rows, p: Version, q: Version)
    ensures Run(Quiet(rows), [BeginRevise(0, p), BeginRevise(1, q)]) == Both(rows, Revising(p), Revising(q))
  {
    RunTwo(Quiet(rows), BeginRevise(0, p), BeginRevise(1, q));
  }

  lemma BothLook(rows: Rows, p: Version, q: Version)
    requires Numbered(rows) && !HasPending(rows)
    ensures Run(Both(rows, RevisingLocked(p), RevisingLocked(q)), [Next(0, 0), Next(0, 0)] + [Next(1, 0), Next(1, 0)])
            == Both(rows, RevisingChecked(p, |rows|), RevisingChecked(q, |rows|))
  {
    var locked := Both(rows, RevisingLocked(p), RevisingLocked(q));
    TakesNumber(locked, 0, p);
    var one := Both(rows, RevisingChecked(p, |rows|), RevisingLocked(q));
    assert At(locked, 0, RevisingChecked(p, |rows|)) == one;
    TakesNumber(one, 1, q);
    assert At(one, 1, RevisingChecked(q, |rows|)) == Both(rows, RevisingChecked(p, |rows|), RevisingChecked(q, |rows|));
    RunsJoin(locked, [Next(0, 0), Next(0, 0)], [Next(1, 0), Next(1, 0)]);
  }

  lemma FirstIsGone(one: Job, two: Job)
    ensures map[0 := one, 1 := two] - {0} == map[1 := two]
  {
  }

  lemma MeetsTheIndex(rows: Rows, q: Version, max: Version)
    requires max + 1 in rows
    ensures Run(Only(rows, 1, RevisingChecked(q, max)), [Next(1, 0)]) == Quiet(rows)
  {
  }

  lemma OneMeetsTheOther(rows: Rows, p: Version, q: Version)
    requires Numbered(rows)
    ensures Run(Both(rows, RevisingChecked(p, |rows|), RevisingChecked(q, |rows|)),
            [Next(0, 0), Next(0, 0)] + [Next(1, 0)])
            == Quiet(Revised(rows))
  {
    var looked := Both(rows, RevisingChecked(p, |rows|), RevisingChecked(q, |rows|));
    TakesVersion(looked, 0, p);
    FirstIsGone(RevisingChecked(p, |rows|), RevisingChecked(q, |rows|));
    MeetsTheIndex(Revised(rows), q, |rows|);
    RunsJoin(looked, [Next(0, 0), Next(0, 0)], [Next(1, 0)]);
  }

  lemma BothLock(rows: Rows, p: Version, q: Version)
    requires p in rows && q in rows && p != q
    ensures Run(Both(rows, Revising(p), Revising(q)), [Next(0, 0), Next(1, 0)])
            == Both(rows, RevisingLocked(p), RevisingLocked(q))
  {
  }
}
