/** The lineage's transactions as their statements run, interleaved with anybody else's: committed
    reads, row locks until the end of the transaction, the unique index, and a transaction that may
    be cut off at any point. */
module AgreementRaces {
  import opened Status
  import opened Agreements

  type TxId = nat

  /** How far a transaction has got. */
  datatype Job =
    | Revising(previous: Version)
    | RevisingLocked(previous: Version)
    | RevisingNumbered(previous: Version, max: Version)
    | RevisingChecked(previous: Version, max: Version)
    | RevisingInserted(previous: Version, new_: Version)
    | Approving(v: Version)
    | ApprovingLocked(v: Version)
    | ApprovingActivated(v: Version)
    | ApprovingRetiring(v: Version, targets: set<Version>, retired: set<Version>)
    | Deciding(v: Version, approve: bool) // has seen `submitted`

  /** Committed rows, and the transactions under way. */
  datatype Machine = Machine(rows: Rows, txs: map<TxId, Job>)

  datatype Step =
    | BeginRevise(tx: TxId, previous: Version)
    | BeginApprove(tx: TxId, v: Version)
    | BeginDecide(tx: TxId, v: Version, approve: bool)
    | Next(tx: TxId, target: Version)
    | Abort(tx: TxId)
    | RejectNow(v: Version)
    | ExpireNow(v: Version) // a version of a list that may be stale

  /** The rows a transaction has locked. */
  function Held(job: Job): set<Version> {
    match job
    case RevisingLocked(p) => {p}
    case RevisingNumbered(p, _) => {p}
    case RevisingChecked(p, _) => {p}
    case RevisingInserted(p, _) => {p}
    case ApprovingLocked(v) => {v}
    case ApprovingActivated(v) => {v}
    case ApprovingRetiring(v, _, retired) => {v} + retired
    case _ => {}
  }

  /** Nobody but `tx` has the row locked. */
  ghost predicate Free(m: Machine, tx: TxId, v: Version) {
    forall t :: t in m.txs && t != tx ==> v !in Held(m.txs[t])
  }

  ghost predicate Unlocked(m: Machine, v: Version) { forall t :: t in m.txs ==> v !in Held(m.txs[t]) }

  /** Somebody else has this version in the index, uncommitted: the insert waits. */
  ghost predicate Claimed(m: Machine, tx: TxId, v: Version) {
    exists t :: t in m.txs && t != tx && m.txs[t].RevisingInserted? && m.txs[t].new_ == v
  }

  ghost function Highest(versions: set<Version>): (max: Version)
    ensures forall v :: v in versions ==> v <= max
    ensures if versions == {} then max == 0 else max in versions
  {
    if versions == {} then 0
    else
      var v :| v in versions;
      var rest := Highest(versions - {v});
      assert forall w :: w in versions ==> w == v || w in versions - {v};
      if v > rest then v else rest
  }

  function Ended(m: Machine, tx: TxId): Machine { m.(txs := m.txs - {tx}) }
  function At(m: Machine, tx: TxId, job: Job): Machine { m.(txs := m.txs[tx := job]) }

  /** What an approval commits: its own version live, the rows it retired superseded. */
  function Retired(rows: Rows, v: Version, retired: set<Version>): Rows {
    map x | x in rows ::
      if x == v then rows[x].(status := Active)
      else if x in retired then Row(Superseded, true)
      else rows[x]
  }

  /** One statement of one transaction; a statement that has to wait changes nothing. */
  ghost function Statement(m: Machine, tx: TxId, job: Job, target: Version): Machine {
    match job
    case Revising(p) =>
      if p !in m.rows then Ended(m, tx)
      else if !Free(m, tx, p) then m
      else At(m, tx, RevisingLocked(p))
    case RevisingLocked(p) => At(m, tx, RevisingNumbered(p, Highest(m.rows.Keys)))
    case RevisingNumbered(p, max) =>
      if HasPending(m.rows) then Ended(m, tx) else At(m, tx, RevisingChecked(p, max))
    case RevisingChecked(p, max) =>
      if max + 1 in m.rows then Ended(m, tx)
      else if Claimed(m, tx, max + 1) then m
      else At(m, tx, RevisingInserted(p, max + 1))
    case RevisingInserted(p, v) => Ended(m.(rows := m.rows[v := Row(PendingApproval, false)]), tx)
    case Approving(v) =>
      if v !in m.rows then Ended(m, tx)
      else if !Free(m, tx, v) then m
      else if m.rows[v].status != PendingApproval then Ended(m, tx)
      else At(m, tx, ApprovingLocked(v))
    case ApprovingLocked(v) => At(m, tx, ApprovingActivated(v))
    case ApprovingActivated(v) =>
      At(m, tx, ApprovingRetiring(v, set w | w in m.rows && w != v && m.rows[w].Live(), {}))
    case ApprovingRetiring(v, targets, retired) =>
      if targets == {} then Ended(m.(rows := Retired(m.rows, v, retired)), tx)
      else if target !in targets || !Free(m, tx, target) then m
      else if Lives(m.rows, target) then At(m, tx, ApprovingRetiring(v, targets - {target}, retired + {target}))
      else At(m, tx, ApprovingRetiring(v, targets - {target}, retired))
    case Deciding(v, approve) =>
      if v !in m.rows then Ended(m, tx)
      else if !Free(m, tx, v) then m
      else Ended(m.(rows := WithStatus(m.rows, v, if approve then Active else AgreementRejected)), tx)
  }

  ghost function Do(m: Machine, step: Step): Machine {
    match step
    case BeginRevise(tx, p) => if tx in m.txs then m else At(m, tx, Revising(p))
    case BeginApprove(tx, v) => if tx in m.txs then m else At(m, tx, Approving(v))
    case BeginDecide(tx, v, approve) =>
      if tx in m.txs || v !in m.rows || m.rows[v].status != Submitted then m else At(m, tx, Deciding(v, approve))
    case Next(tx, target) => if tx in m.txs then Statement(m, tx, m.txs[tx], target) else m
    case Abort(tx) => Ended(m, tx)
    case RejectNow(v) =>
      if Pends(m.rows, v) && Unlocked(m, v) then m.(rows := WithStatus(m.rows, v, AgreementRejected)) else m
    case ExpireNow(v) =>
      if v in m.rows && Unlocked(m, v) then m.(rows := WithStatus(m.rows, v, Expired)) else m
  }

  ghost function Run(m: Machine, steps: seq<Step>): Machine
    decreases |steps|
  {
    if steps == [] then m else Run(Do(m, steps[0]), steps[1..])
  }

  // ---- What every transaction under way can rely on ------------------------------------------

  /** What a transaction has read stays good enough: a number it read is stale or still the highest,
      and if it is the highest then nothing is pending that was not when it looked. */
  ghost predicate Relies(rows: Rows, job: Job) {
    match job
    case RevisingNumbered(_, max) => max <= |rows|
    case RevisingChecked(_, max) => max <= |rows| && (max == |rows| ==> !HasPending(rows))
    case RevisingInserted(_, v) => v == |rows| + 1 && !HasPending(rows)
    case ApprovingLocked(v) => Pends(rows, v)
    case ApprovingActivated(v) => Pends(rows, v)
    case ApprovingRetiring(v, _, retired) => Pends(rows, v) && forall w :: w in retired ==> Lives(rows, w)
    case Deciding(v, _) => v in rows && !Pends(rows, v)
    case _ => true
  }

  ghost predicate AllRely(m: Machine) { forall t :: t in m.txs ==> Relies(m.rows, m.txs[t]) }

  ghost predicate LocksExclude(m: Machine) {
    forall t, u, v :: t in m.txs && u in m.txs && v in Held(m.txs[t]) && v in Held(m.txs[u]) ==> t == u
  }

  ghost predicate OneInserted(m: Machine) {
    forall t, u :: t in m.txs && u in m.txs && m.txs[t].RevisingInserted? && m.txs[u].RevisingInserted? ==> t == u
  }

  ghost predicate Consistent(m: Machine) {
    Sound(m.rows) && AllRely(m) && LocksExclude(m) && OneInserted(m)
  }

  lemma HighestIsCount(rows: Rows)
    requires Numbered(rows)
    ensures Highest(rows.Keys) == |rows|
  {
    if |rows| > 0 { assert |rows| in rows; }
  }

  // ---- A change of the committed rows, seen by the others ------------------------------------

  lemma RevisionIsRelied(rows: Rows, job: Job)
    requires Sound(rows) && !HasPending(rows) && Relies(rows, job) && !job.RevisingInserted?
    ensures Relies(Revised(rows), job)
  {
  }

  lemma ApprovalIsRelied(rows: Rows, v: Version, retired: set<Version>, job: Job)
    requires Sound(rows) && Pends(rows, v) && (forall w :: w in retired ==> w != v)
    requires Relies(rows, job) && v !in Held(job) && Held(job) !! retired
    ensures Relies(Retired(rows, v, retired), job)
  {
    var after := Retired(rows, v, retired);
    assert after.Keys == rows.Keys;
    SameVersionsNumbered(rows, after);
    forall w | Pends(after, w) ensures Pends(rows, w) && w != v {}
    assert !HasPending(after);
  }

  lemma StatusIsRelied(rows: Rows, v: Version, status: AgreementStatus, job: Job)
    requires Sound(rows) && v in rows && status != PendingApproval && status != Submitted
    requires Relies(rows, job) && v !in Held(job)
    ensures Relies(WithStatus(rows, v, status), job)
  {
  }

  lemma RetirementKeepsSound(rows: Rows, v: Version, retired: set<Version>)
    requires Sound(rows) && Pends(rows, v) && (forall w :: w in retired ==> Lives(rows, w))
    ensures Sound(Retired(rows, v, retired))
  {
    var after := Retired(rows, v, retired);
    assert after.Keys == rows.Keys;
    SameVersionsNumbered(rows, after);
    forall w | Pends(after, w) ensures Pends(rows, w) && w != v {}
  }

  // ---- Every statement keeps it --------------------------------------------------------------

  lemma EndKeeps(m: Machine, tx: TxId)
    requires Consistent(m)
    ensures Consistent(Ended(m, tx))
  {
  }

  /** A transaction moves on without committing. */
  lemma MoveKeeps(m: Machine, tx: TxId, job: Job)
    requires Consistent(m) && Relies(m.rows, job)
    requires forall v :: v in Held(job) ==> Free(m, tx, v)
    requires job.RevisingInserted? ==> forall t :: t in m.txs && t != tx ==> !m.txs[t].RevisingInserted?
    ensures Consistent(At(m, tx, job))
  {
  }

  lemma OwnLocksAreFree(m: Machine, tx: TxId)
    requires LocksExclude(m) && tx in m.txs
    ensures forall v :: v in Held(m.txs[tx]) ==> Free(m, tx, v)
  {
  }

  lemma RevisionCommits(m: Machine, tx: TxId, p: Version, v: Version)
    requires Consistent(m) && tx in m.txs && m.txs[tx] == RevisingInserted(p, v)
    ensures m.rows[v := Row(PendingApproval, false)] == Revised(m.rows) && !HasPending(m.rows)
    ensures Consistent(Ended(m.(rows := Revised(m.rows)), tx))
  {
    assert Relies(m.rows, m.txs[tx]);
    RevisionKeepsSound(m.rows);
    forall t | t in m.txs && t != tx ensures Relies(Revised(m.rows), m.txs[t]) {
      RevisionIsRelied(m.rows, m.txs[t]);
    }
  }

  lemma ApprovalCommits(m: Machine, tx: TxId, v: Version, targets: set<Version>, retired: set<Version>)
    requires Consistent(m) && tx in m.txs && m.txs[tx] == ApprovingRetiring(v, targets, retired)
    ensures Pends(m.rows, v) && Consistent(Ended(m.(rows := Retired(m.rows, v, retired)), tx))
  {
    assert Relies(m.rows, m.txs[tx]);
    RetirementKeepsSound(m.rows, v, retired);
    OwnLocksAreFree(m, tx);
    forall t | t in m.txs && t != tx ensures Relies(Retired(m.rows, v, retired), m.txs[t]) {
      ApprovalIsRelied(m.rows, v, retired, m.txs[t]);
    }
  }

  /** A status written where nobody else has the row locked. */
  lemma StatusCommits(m: Machine, tx: TxId, v: Version, status: AgreementStatus)
    requires Consistent(m) && v in m.rows && status != PendingApproval && status != Submitted
    requires forall t :: t in m.txs && t != tx ==> v !in Held(m.txs[t])
    ensures Consistent(Ended(m.(rows := WithStatus(m.rows, v, status)), tx))
  {
    DecisionKeepsSound(m.rows, v, status);
    forall t | t in m.txs && t != tx ensures Relies(WithStatus(m.rows, v, status), m.txs[t]) {
      StatusIsRelied(m.rows, v, status, m.txs[t]);
    }
  }

  lemma NumberingKeeps(m: Machine, tx: TxId, p: Version)
    requires Consistent(m) && tx in m.txs && m.txs[tx] == RevisingLocked(p)
    ensures Consistent(At(m, tx, RevisingNumbered(p, Highest(m.rows.Keys))))
  {
  }

  predicate IsRevising(job: Job) {
    job.Revising? || job.RevisingLocked? || job.RevisingNumbered? || job.RevisingChecked?
  }

  lemma LockingKeeps(m: Machine, tx: TxId, p: Version, target: Version)
    requires Consistent(m) && tx in m.txs && m.txs[tx] == Revising(p)
    ensures Consistent(Statement(m, tx, Revising(p), target))
  {
  }

  lemma PendingCheckKeeps(m: Machine, tx: TxId, p: Version, max: Version, target: Version)
    requires Consistent(m) && tx in m.txs && m.txs[tx] == RevisingNumbered(p, max)
    ensures Consistent(Statement(m, tx, RevisingNumbered(p, max), target))
  {
  }

  lemma InsertionKeeps(m: Machine, tx: TxId, p: Version, max: Version, target: Version)
    requires Consistent(m) && tx in m.txs && m.txs[tx] == RevisingChecked(p, max)
    ensures Consistent(Statement(m, tx, RevisingChecked(p, max), target))
  {
  }

  lemma ReviseStatementKeeps(m: Machine, tx: TxId, job: Job, target: Version)
    requires Consistent(m) && tx in m.txs && m.txs[tx] == job && IsRevising(job)
    ensures Consistent(Statement(m, tx, job, target))
  {
    match job
    case Revising(p) => LockingKeeps(m, tx, p, target);
    case RevisingLocked(p) => NumberingKeeps(m, tx, p);
    case RevisingNumbered(p, max) => PendingCheckKeeps(m, tx, p, max, target);
    case RevisingChecked(p, max) => InsertionKeeps(m, tx, p, max, target);
  }

  lemma ApproveStatementKeeps(m: Machine, tx: TxId, job: Job, target: Version)
    requires Consistent(m) && tx in m.txs && m.txs[tx] == job
    requires !IsRevising(job) && !job.RevisingInserted?
    ensures Consistent(Statement(m, tx, job, target))
  {
    EndKeeps(m, tx);
    OwnLocksAreFree(m, tx);
    assert Relies(m.rows, job);
    match job
    case Approving(v) =>
      if Free(m, tx, v) && Pends(m.rows, v) { MoveKeeps(m, tx, ApprovingLocked(v)); }
    case ApprovingLocked(v) => MoveKeeps(m, tx, ApprovingActivated(v));
    case ApprovingActivated(v) =>
      MoveKeeps(m, tx, ApprovingRetiring(v, set w | w in m.rows && w != v && m.rows[w].Live(), {}));
    case ApprovingRetiring(v, targets, retired) =>
      if targets == {} { ApprovalCommits(m, tx, v, targets, retired); }
      else if target in targets && Free(m, tx, target) {
        MoveKeeps(m, tx,
            ApprovingRetiring(v, targets - {target}, if Lives(m.rows, target) then retired + {target} else retired));
      }
    case Deciding(v, approve) =>
      if v in m.rows && Free(m, tx, v) { StatusCommits(m, tx, v, if approve then Active else AgreementRejected); }
  }

  lemma StepKeepsConsistent(m: Machine, step: Step)
    requires Consistent(m)
    ensures Consistent(Do(m, step))
  {
    match step
    case BeginRevise(tx, p) => if tx !in m.txs { MoveKeeps(m, tx, Revising(p)); }
    case BeginApprove(tx, v) => if tx !in m.txs { MoveKeeps(m, tx, Approving(v)); }
    case BeginDecide(tx, v, approve) =>
      if tx !in m.txs && v in m.rows && m.rows[v].status == Submitted { MoveKeeps(m, tx, Deciding(v, approve)); }
    case Next(tx, target) =>
      if tx in m.txs {
        var job := m.txs[tx];
        if IsRevising(job) {
          ReviseStatementKeeps(m, tx, job, target);
        } else if job.RevisingInserted? {
          RevisionCommits(m, tx, job.previous, job.new_);
        } else {
          ApproveStatementKeeps(m, tx, job, target);
        }
      }
    case Abort(tx) => EndKeeps(m, tx);
    case RejectNow(v) =>
      if Pends(m.rows, v) && Unlocked(m, v) { SingleWriteKeeps(m, v, AgreementRejected); }
    case ExpireNow(v) =>
      if v in m.rows && Unlocked(m, v) { SingleWriteKeeps(m, v, Expired); }
  }

  lemma SingleWriteKeeps(m: Machine, v: Version, status: AgreementStatus)
    requires Consistent(m) && v in m.rows && Unlocked(m, v) && status != PendingApproval && status != Submitted
    ensures Consistent(m.(rows := WithStatus(m.rows, v, status)))
  {
    var tx := Highest(m.txs.Keys) + 1;
    StatusCommits(m, tx, v, status);
    assert m.txs - {tx} == m.txs;
  }

  /** However many transactions run, and wherever they stop, a lineage's versions are exactly 1 to n
      and at most one of them is pending. */
  lemma {:induction false} EveryInterleavingIsSound(m: Machine, steps: seq<Step>)
    requires Consistent(m)
    ensures Consistent(Run(m, steps)) && Numbered(Run(m, steps).rows) && OnePending(Run(m, steps).rows)
    decreases |steps|
  {
    if steps != [] {
      StepKeepsConsistent(m, steps[0]);
      EveryInterleavingIsSound(Do(m, steps[0]), steps[1..]);
    }
  }

  // ---- The interleavings refine whole transactions, one after the other ----------------------

  datatype Atomic = Nothing | Revision | Approval(v: Version) | Rejection(v: Version) | Expiry(v: Version)

  ghost predicate Legal(rows: Rows, a: Atomic) {
    match a
    case Nothing => true
    case Revision => !HasPending(rows)
    case Approval(v) => Pends(rows, v)
    case Rejection(v) => Pends(rows, v)
    case Expiry(v) => v in rows
  }

  ghost function Applied(rows: Rows, a: Atomic): Rows
    requires Legal(rows, a)
  {
    match a
    case Nothing => rows
    case Revision => Revised(rows)
    case Approval(v) => Approved(rows, v)
    case Rejection(v) => WithStatus(rows, v, AgreementRejected)
    case Expiry(v) => WithStatus(rows, v, Expired)
  }

  /** A transaction that is retiring the live versions has every one of them on its list. */
  ghost predicate Covers(rows: Rows, job: Job) {
    match job
    case ApprovingRetiring(_, targets, retired) => forall w :: Lives(rows, w) ==> w in targets || w in retired
    case Deciding(_, _) => false
    case _ => true
  }

  ghost predicate Covered(m: Machine) {
    NoneSubmitted(m.rows) && forall t :: t in m.txs ==> Covers(m.rows, m.txs[t])
  }

  /** With every live version on its list, an approval retires exactly the live ones. */
  lemma CoveredRetirement(rows: Rows, v: Version, retired: set<Version>)
    requires Pends(rows, v) && forall w :: w in retired ==> Lives(rows, w)
    requires forall w :: Lives(rows, w) ==> w in retired
    ensures Retired(rows, v, retired) == Approved(rows, v)
  {
  }

  lemma OneLockedPending(m: Machine, t: TxId, u: TxId)
    requires Consistent(m) && t in m.txs && u in m.txs
    requires m.txs[t].ApprovingRetiring? && m.txs[u].ApprovingRetiring?
    ensures t == u
  {
    assert Relies(m.rows, m.txs[t]) && Relies(m.rows, m.txs[u]);
    assert m.txs[t].v in Held(m.txs[t]) && m.txs[u].v in Held(m.txs[u]);
  }

  lemma StatusCovered(rows: Rows, v: Version, status: AgreementStatus, job: Job)
    requires v in rows && status != Active && Covers(rows, job)
    ensures Covers(WithStatus(rows, v, status), job)
  {
  }

  /** The step is where this operation takes effect: the commit of a transaction of its kind on its
      version, or the single statement that it is. */
  predicate CommitsAs(m: Machine, step: Step, a: Atomic) {
    match a
    case Nothing => true
    case Revision => step.Next? && step.tx in m.txs && m.txs[step.tx].RevisingInserted?
    case Approval(v) =>
      && step.Next? && step.tx in m.txs && m.txs[step.tx].ApprovingRetiring?
      && m.txs[step.tx].v == v && m.txs[step.tx].targets == {}
    case Rejection(v) => step == RejectNow(v)
    case Expiry(v) => step == ExpireNow(v)
  }

  ghost predicate StepIs(m: Machine, step: Step, a: Atomic) {
    Legal(m.rows, a) && Do(m, step).rows == Applied(m.rows, a) && CommitsAs(m, step, a)
  }

  lemma RevisionIsAtomic(m: Machine, tx: TxId, target: Version)
    requires Consistent(m) && Covered(m) && tx in m.txs && m.txs[tx].RevisingInserted?
    ensures StepIs(m, Next(tx, target), Revision) && Covered(Do(m, Next(tx, target)))
  {
  }

  lemma ApprovalIsAtomic(m: Machine, tx: TxId, target: Version)
    requires Consistent(m) && Covered(m) && tx in m.txs && m.txs[tx].ApprovingRetiring? && m.txs[tx].targets == {}
    ensures StepIs(m, Next(tx, target), Approval(m.txs[tx].v)) && Covered(Do(m, Next(tx, target)))
  {
    var job := m.txs[tx];
    assert Relies(m.rows, job) && Covers(m.rows, job);
    CoveredRetirement(m.rows, job.v, job.retired);
    forall t | t in m.txs && t != tx ensures Covers(Approved(m.rows, job.v), m.txs[t]) {
      if m.txs[t].ApprovingRetiring? { OneLockedPending(m, t, tx); }
    }
  }

  lemma ReviseMovesCovered(m: Machine, tx: TxId, target: Version)
    requires Covered(m) && tx in m.txs && IsRevising(m.txs[tx])
    ensures Do(m, Next(tx, target)).rows == m.rows && Covered(Do(m, Next(tx, target)))
  {
  }

  lemma StatementIsAtomic(m: Machine, tx: TxId, target: Version) returns (a: Atomic)
    requires Consistent(m) && Covered(m) && tx in m.txs
    ensures StepIs(m, Next(tx, target), a) && Covered(Do(m, Next(tx, target)))
  {
    var job := m.txs[tx];
    a := Nothing;
    if job.RevisingInserted? {
      a := Revision;
      RevisionIsAtomic(m, tx, target);
    } else if job.ApprovingRetiring? && job.targets == {} {
      a := Approval(job.v);
      ApprovalIsAtomic(m, tx, target);
    } else if IsRevising(job) {
      ReviseMovesCovered(m, tx, target);
    } else {
      ApproveMovesCovered(m, tx, target);
    }
  }

  lemma ApproveMovesCovered(m: Machine, tx: TxId, target: Version)
    requires Consistent(m) && Covered(m) && tx in m.txs && !IsRevising(m.txs[tx]) && !m.txs[tx].RevisingInserted?
    requires m.txs[tx].ApprovingRetiring? ==> m.txs[tx].targets != {}
    ensures Do(m, Next(tx, target)).rows == m.rows && Covered(Do(m, Next(tx, target)))
  {
  }

  lemma StepIsAtomic(m: Machine, step: Step) returns (a: Atomic)
    requires Consistent(m) && Covered(m)
    ensures StepIs(m, step, a) && Covered(Do(m, step))
  {
    a := Nothing;
    match step
    case Next(tx, target) => if tx in m.txs { a := StatementIsAtomic(m, tx, target); }
    case RejectNow(v) =>
      if Pends(m.rows, v) && Unlocked(m, v) {
        a := Rejection(v);
        forall t | t in m.txs
          ensures Covers(Do(m, step).rows, m.txs[t])
        {
          StatusCovered(m.rows, v, AgreementRejected, m.txs[t]);
        }
      }
    case ExpireNow(v) =>
      if v in m.rows && Unlocked(m, v) {
        a := Expiry(v);
        forall t | t in m.txs
          ensures Covers(Do(m, step).rows, m.txs[t])
        {
          StatusCovered(m.rows, v, Expired, m.txs[t]);
        }
      }
    case _ =>
  }

  ghost function Serial(rows: Rows, ops: seq<Atomic>): Option<Rows>
    decreases |ops|
  {
    if ops == [] then Some(rows)
    else if Legal(rows, ops[0]) then Serial(Applied(rows, ops[0]), ops[1..])
    else None
  }

  /** Step by step, each operation is what its step commits. */
  ghost predicate CommitInTurn(m: Machine, steps: seq<Step>, ops: seq<Atomic>)
    decreases |steps|
  {
    && |ops| == |steps|
    && (steps != [] ==> StepIs(m, steps[0], ops[0]) && CommitInTurn(Do(m, steps[0]), steps[1..], ops[1..]))
  }

  /** With no version awaiting DecideAgreement, whatever the interleaving, the committed rows are
      those of whole transactions run one after the other, each at the step that commits it. */
  lemma {:induction false} InterleavingsAreSerial(m: Machine, steps: seq<Step>) returns (ops: seq<Atomic>)
    requires Consistent(m) && Covered(m)
    ensures Serial(m.rows, ops) == Some(Run(m, steps).rows) && CommitInTurn(m, steps, ops)
    ensures forall i :: 0 <= i < |ops| && ops[i].Expiry? ==> i < |steps| && steps[i] == ExpireNow(ops[i].v)
    decreases |steps|
  {
    if steps == [] {
      ops := [];
    } else {
      var a := StepIsAtomic(m, steps[0]);
      StepKeepsConsistent(m, steps[0]);
      var rest := InterleavingsAreSerial(Do(m, steps[0]), steps[1..]);
      ops := [a] + rest;
      assert ops[1..] == rest;
      forall i | 0 <= i < |ops| && ops[i].Expiry? ensures i < |steps| && steps[i] == ExpireNow(ops[i].v) {
        if i > 0 { assert ops[i] == rest[i - 1] && steps[i] == steps[1..][i - 1]; }
      }
    }
  }

  // ---- One live version ----------------------------------------------------------------------

  lemma OperationKeepsOneLive(rows: Rows, a: Atomic)
    requires Sound(rows) && Legal(rows, a)
    ensures Sound(Applied(rows, a))
    ensures OneLiveAtMost(rows) ==> OneLiveAtMost(Applied(rows, a))
    ensures OneLive(rows) && !a.Expiry? ==> OneLive(Applied(rows, a))
    ensures a.Expiry? ==> forall w :: Lives(Applied(rows, a), w) ==> Lives(rows, w)
  {
    match a
    case Nothing =>
    case Revision => RevisionKeepsSound(rows);
    case Approval(v) =>
      ApprovalKeepsSound(rows, v);
      assert Lives(Approved(rows, v), v);
    case Rejection(v) =>
      DecisionKeepsSound(rows, v, AgreementRejected);
      if w :| Lives(rows, w) { assert Lives(Applied(rows, a), w); }
    case Expiry(v) => DecisionKeepsSound(rows, v, Expired);
  }

  lemma {:induction false} SerialKeepsOneLive(rows: Rows, ops: seq<Atomic>)
    requires Sound(rows) && Serial(rows, ops).Some?
    ensures OneLiveAtMost(rows) ==> OneLiveAtMost(Serial(rows, ops).value)
    ensures OneLive(rows) && (forall i :: 0 <= i < |ops| ==> !ops[i].Expiry?) ==> OneLive(Serial(rows, ops).value)
    decreases |ops|
  {
    if ops != [] {
      OperationKeepsOneLive(rows, ops[0]);
      SerialKeepsOneLive(Applied(rows, ops[0]), ops[1..]);
    }
  }

  /** From one live version and none awaiting DecideAgreement, every interleaving of revisions,
      approvals and rejections leaves exactly one live, and with the sweep running too, never two. */
  lemma OneVersionIsLive(m: Machine, steps: seq<Step>)
    requires Consistent(m) && Covered(m) && OneLiveAtMost(m.rows)
    ensures OneLiveAtMost(Run(m, steps).rows)
    ensures OneLive(m.rows) && (forall i :: 0 <= i < |steps| ==> !steps[i].ExpireNow?) ==> OneLive(Run(m, steps).rows)
  {
    var ops := InterleavingsAreSerial(m, steps);
    SerialKeepsOneLive(m.rows, ops);
  }
}
