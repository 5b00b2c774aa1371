/** The controller under every interleaving of its operations with commands that skip the operation lock. */
module ControllerRuns {
  import opened Common
  import opened Ledger
  import opened ControlStores
  import T = ControlTheorems
  import opened Controller
  import R = Runs

  /** An operation between prepare and apply; `before` is what prepare saw. */
  datatype Pending = Pending(key: Key, digest: string, op: Op, prepared: Prepared, before: Stores)

  datatype Ctrl = Ctrl(stores: Stores, ledger: LedgerState, pending: Option<Pending>)

  datatype Step =
    | Begin(key: Key, digest: string, op: Op)
    | Finish
    | Direct(cmd: Command)
    | CollectGarbage(cutoff: int)

  /** The operation lock: one operation at a time, and no locked command beside it. */
  predicate Enabled(x: Ctrl, step: Step) {
    match step
    case Begin(_, _, _) => x.pending.None?
    case Finish => x.pending.Some?
    case Direct(cmd) => Free(cmd) || x.pending.None?
    case CollectGarbage(_) => true
  }

  function BeginNext(x: Ctrl, key: Key, digest: string, op: Op): Ctrl {
    if LookupRecord(x.ledger, key, true) != Refused(NotFound) || Prepare(x.stores, op).None? then x
    else x.(pending := Some(Pending(key, digest, op, Prepare(x.stores, op).value, x.stores)))
  }

  function FinishNext(cfg: Retention, x: Ctrl): Ctrl
    requires x.pending.Some?
  {
    var q := x.pending.value;
    var (stores, ledger) := Apply(cfg, x.stores, x.ledger, q.key, q.digest, q.prepared);
    Ctrl(stores, ledger, None)
  }

  function Next(cfg: Retention, x: Ctrl, step: Step): Ctrl
    requires Enabled(x, step)
  {
    match step
    case Begin(key, digest, op) => BeginNext(x, key, digest, op)
    case Finish => FinishNext(cfg, x)
    case Direct(cmd) => x.(stores := Execute(x.stores, cmd).0)
    case CollectGarbage(cutoff) => x.(ledger := Collect(cfg, x.ledger, cutoff))
  }

  ghost function Moves(cfg: Retention): iset<R.Move<Ctrl, Step>> {
    iset m: R.Move<Ctrl, Step> | Enabled(m.pre, m.step) && m.post == Next(cfg, m.pre, m.step)
  }

  function Init(): Ctrl {
    Ctrl(NewStores(), NewLedger(), None)
  }

  ghost predicate PendingOk(x: Ctrl) {
    x.pending.Some? ==>
      var q := x.pending.value;
      q.before in T.Good() && Prepare(q.before, q.op) == Some(q.prepared) && Since(q.before, x.stores)
      && q.key !in x.ledger.records && q.key !in x.ledger.tombstones
  }

  ghost function Good(): iset<Ctrl> {
    iset x: Ctrl | x.stores in T.Good() && PendingOk(x)
  }

  lemma ApplyIsExecute(cfg: Retention, s: Stores, l: LedgerState, key: Key, digest: string, p: Prepared)
    ensures Apply(cfg, s, l, key, digest, p).0 == s || Apply(cfg, s, l, key, digest, p).0 == Execute(s, p.command).0
  {
  }

  lemma CollectForgets(cfg: Retention, l: LedgerState, cutoff: int, key: Key)
    requires key !in l.records && key !in l.tombstones
    ensures key !in Collect(cfg, l, cutoff).records && key !in Collect(cfg, l, cutoff).tombstones
  {
  }

  lemma StepOk(cfg: Retention, x: Ctrl, step: Step)
    requires x in Good() && Enabled(x, step)
    ensures Next(cfg, x, step) in Good()
  {
    match step
    case Begin(key, digest, op) =>
    case Finish =>
      var q := x.pending.value;
      ApplyIsExecute(cfg, x.stores, x.ledger, q.key, q.digest, q.prepared);
      T.ExecuteOk(x.stores, q.prepared.command);
    case Direct(cmd) =>
      T.ExecuteOk(x.stores, cmd);
      if x.pending.Some? { FreeKeepsSince(x.pending.value.before, x.stores, cmd); }
    case CollectGarbage(cutoff) =>
      if x.pending.Some? { CollectForgets(cfg, x.ledger, cutoff, x.pending.value.key); }
  }

  ghost predicate Reachable(cfg: Retention, x: Ctrl) {
    R.Reachable(Init(), Moves(cfg), x)
  }

  lemma ReachableIsGood(cfg: Retention, x: Ctrl)
    requires Reachable(cfg, x)
    ensures x in Good()
  {
    T.NewOk();
    forall m | m in Moves(cfg) && m.pre in Good() ensures m.post in Good() { StepOk(cfg, m.pre, m.step); }
    R.ReachableIsIn(Init(), Moves(cfg), Good(), x);
  }

  /** The operation q recorded success and took effect on s, or left it alone. */
  ghost predicate Settled(q: Pending, s: Stores, y: Ctrl) {
    if Recorded(q, y) then y.ledger.records[q.key].outcome == q.prepared.outcome
      && Execute(s, q.prepared.command).1.None? && y.stores == Execute(s, q.prepared.command).0
    else y.stores == s
  }

  /** A success record of q is in the ledger. */
  predicate Recorded(q: Pending, y: Ctrl) {
    q.key in y.ledger.records && y.ledger.records[q.key].outcome.status == Succeeded
  }

  lemma FinishSettles(cfg: Retention, x: Ctrl)
    requires x.pending.Some? && x.pending.value.key !in x.ledger.records
    requires x.pending.value.prepared.outcome.status == Succeeded
    ensures Settled(x.pending.value, x.stores, FinishNext(cfg, x))
  {
    ErrorChangesNothing(x.stores, x.pending.value.prepared.command);
  }

  lemma SettledIsEffect(q: Pending, s: Stores, y: Ctrl)
    requires Settled(q, s, y) && q.before in T.Good() && s in T.Good() && Since(q.before, s)
    requires Prepare(q.before, q.op) == Some(q.prepared)
    ensures if Recorded(q, y) then AllAccurate(y.stores, y.ledger.records[q.key].outcome.affected) <==> UpToDate(q.before, q.op)
            else y.stores == s
  {
    if Recorded(q, y) {
      OutcomeExactlyWhenUpToDate(q.before, s, q.op);
    }
  }

  lemma PreparedSucceeds(s: Stores, op: Op)
    requires Prepare(s, op).Some?
    ensures Prepare(s, op).value.outcome.status == Succeeded
  {
  }

  /** What the invariant says about a pending operation. */
  lemma PendingFacts(cfg: Retention, x: Ctrl)
    requires Reachable(cfg, x) && x.pending.Some?
    ensures PendingOk(x) && x.stores in T.Good()
  {
    ReachableIsGood(cfg, x);
  }

  /**
   Whenever an operation finishes: a success record is the prediction, and it
   names exactly the revisions now in the stores if and only if the caller's
   view was up to date when the operation was prepared; a failure record, or no
   record, means the stores did not change.
   */
  lemma RecordedOutcomeIsEffect(cfg: Retention, x: Ctrl)
    requires Reachable(cfg, x) && x.pending.Some?
    ensures var q, y := x.pending.value, FinishNext(cfg, x);
      if Recorded(q, y) then
        AllAccurate(y.stores, y.ledger.records[q.key].outcome.affected) <==> UpToDate(q.before, q.op)
      else y.stores == x.stores
  {
    PendingFacts(cfg, x);
    PreparedSucceeds(x.pending.value.before, x.pending.value.op);
    FinishSettles(cfg, x);
    SettledIsEffect(x.pending.value, x.stores, FinishNext(cfg, x));
  }

  /** Without an unlocked publication between prepare and apply, every success record is exact. */
  lemma ExactWithoutInterleaving(cfg: Retention, x: Ctrl)
    requires Reachable(cfg, x) && x.pending.Some? && x.pending.value.before.catalog == x.stores.catalog
    ensures var q, y := x.pending.value, FinishNext(cfg, x);
      Recorded(q, y) ==> AllAccurate(y.stores, y.ledger.records[q.key].outcome.affected)
  {
    PendingFacts(cfg, x);
    RecordedOutcomeIsEffect(cfg, x);
    PreparedSucceeds(x.pending.value.before, x.pending.value.op);
    FinishSettles(cfg, x);
    if Recorded(x.pending.value, FinishNext(cfg, x)) {
      SucceededIsUpToDate(x.pending.value.before, x.stores, x.pending.value.op);
    }
  }

  lemma SucceededIsUpToDate(s0: Stores, s: Stores, op: Op)
    requires Prepare(s0, op).Some? && s0.catalog == s.catalog && Execute(s, Prepare(s0, op).value.command).1.None?
    ensures UpToDate(s0, op)
  {
  }
}
