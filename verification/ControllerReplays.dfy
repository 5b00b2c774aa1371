/** Exactly-once over whole runs of the controller: its ledger goes through a ledger history. */
module ControllerReplays {
  import opened Common
  import opened Ledger
  import opened ControlStores
  import opened Controller
  import opened ControllerRuns
  import H = LedgerHistories
  import R = Runs

  // ---------- the ledger of a run ----------

  /** A completion that the ledger refuses at once. */
  function Nothing(): H.Event {
    H.Completing(Completion(Key("", "", ""), false, None, Outcome(Succeeded, map[], false), 0, 0), None)
  }

  /** What finishing q does to the ledger: the success record, a terminal failure record, or nothing. */
  function FinishEvent(cfg: Retention, s: Stores, l: LedgerState, q: Pending): H.Event {
    var c := CompletionOf(q.key, q.digest, q.prepared);
    var code := if !Mutates(cfg, l, c) then
                  var refusal := Complete(cfg, l, c, None).1;
                  if refusal.Refused? then Some(refusal.code) else None
                else Execute(s, q.prepared.command).1;
    if Mutates(cfg, l, c) && code.None? then H.Completing(c, None)
    else if code.Some? && Terminal(code.value) then
      H.Completing(c.(outcome := Outcome(Status.Failed(code.value), map[], false)), None)
    else Nothing()
  }

  function LedgerEvent(cfg: Retention, x: Ctrl, step: Step): H.Event {
    match step
    case Finish => if x.pending.Some? then FinishEvent(cfg, x.stores, x.ledger, x.pending.value) else Nothing()
    case CollectGarbage(cutoff) => H.Collecting(cutoff)
    case _ => Nothing()
  }

  lemma FinishIsEvent(cfg: Retention, s: Stores, l: LedgerState, q: Pending)
    ensures Apply(cfg, s, l, q.key, q.digest, q.prepared).1 == H.After(cfg, l, FinishEvent(cfg, s, l, q))
  {
  }

  lemma StepIsEvent(cfg: Retention, x: Ctrl, step: Step)
    requires Enabled(x, step)
    ensures Next(cfg, x, step).ledger == H.After(cfg, x.ledger, LedgerEvent(cfg, x, step))
  {
    if step.Finish? {
      FinishIsEvent(cfg, x.stores, x.ledger, x.pending.value);
    }
  }

  ghost function LedgersOf(states: seq<Ctrl>): seq<LedgerState> {
    seq(|states|, i requires 0 <= i < |states| => states[i].ledger)
  }

  ghost function EventsOf(cfg: Retention, states: seq<Ctrl>, steps: seq<Step>): seq<H.Event>
    requires |states| >= |steps|
  {
    seq(|steps|, i requires 0 <= i < |steps| => LedgerEvent(cfg, states[i], steps[i]))
  }

  ghost predicate IsRun(cfg: Retention, states: seq<Ctrl>, steps: seq<Step>) {
    R.IsRun(Init(), Moves(cfg), states, steps)
  }

  lemma OneStep(cfg: Retention, states: seq<Ctrl>, steps: seq<Step>, i: nat)
    requires IsRun(cfg, states, steps) && i < |steps|
    ensures Enabled(states[i], steps[i]) && states[i + 1] == Next(cfg, states[i], steps[i])
  {
    assert R.Move(states[i], steps[i], states[i + 1]) in Moves(cfg);
  }

  lemma RunIsHistory(cfg: Retention, states: seq<Ctrl>, steps: seq<Step>)
    requires IsRun(cfg, states, steps)
    ensures H.IsHistory(cfg, LedgersOf(states), EventsOf(cfg, states, steps))
  {
    var ls, es := LedgersOf(states), EventsOf(cfg, states, steps);
    forall i | 0 <= i < |es| ensures R.Move(ls[i], es[i], ls[i + 1]) in H.Moves(cfg) {
      OneStep(cfg, states, steps, i);
      StepIsEvent(cfg, states[i], steps[i]);
    }
  }

  // ---------- exactly once ----------

  /** Step i finishes an operation and puts this record of it, success or failure, into the ledger. */
  predicate SettledAt(states: seq<Ctrl>, steps: seq<Step>, i: nat, r: Record)
    requires i < |steps| < |states|
  {
    && steps[i].Finish? && states[i].pending.Some? && states[i].pending.value.key == r.key
    && r.key !in states[i].ledger.records && r.key in states[i + 1].ledger.records
    && states[i + 1].ledger.records[r.key] == r
  }

  /** A GC strictly between i and j had a cutoff at least both retention times after r was completed. */
  ghost predicate LateCutoff(cfg: Retention, steps: seq<Step>, i: nat, j: nat, r: Record)
    requires j <= |steps|
  {
    exists g :: i < g < j && steps[g].CollectGarbage? && steps[g].cutoff >= r.completedAt + cfg.operationTtl + cfg.tombstoneTtl
  }

  lemma SettledIsApplied(cfg: Retention, states: seq<Ctrl>, steps: seq<Step>, i: nat, r: Record)
    requires IsRun(cfg, states, steps) && i < |steps| && SettledAt(states, steps, i, r)
    ensures H.AppliedAt(cfg, LedgersOf(states), EventsOf(cfg, states, steps), i, r)
  {
    OneStep(cfg, states, steps, i);
    StepIsEvent(cfg, states[i], steps[i]);
    H.RecordsChange(cfg, states[i].ledger, LedgerEvent(cfg, states[i], steps[i]), r.key);
  }

  lemma CollectedIsLate(cfg: Retention, states: seq<Ctrl>, steps: seq<Step>, i: nat, j: nat, r: Record)
    requires IsRun(cfg, states, steps) && j <= |steps|
    requires H.CollectedAt(EventsOf(cfg, states, steps), i, j, r.completedAt + cfg.operationTtl + cfg.tombstoneTtl)
    ensures LateCutoff(cfg, steps, i, j, r)
  {
    var es := EventsOf(cfg, states, steps);
    var g :| i < g < j && es[g].Collecting? && es[g].cutoff >= r.completedAt + cfg.operationTtl + cfg.tombstoneTtl;
    assert es[g] == LedgerEvent(cfg, states[g], steps[g]);
  }

  /** Finishing changes the stores only together with a success record of the operation. */
  lemma EffectIsRecorded(cfg: Retention, states: seq<Ctrl>, steps: seq<Step>, i: nat)
    requires IsRun(cfg, states, steps) && i < |steps| && steps[i].Finish? && states[i + 1].stores != states[i].stores
    ensures states[i].pending.Some? && Recorded(states[i].pending.value, states[i + 1])
    ensures SettledAt(states, steps, i, states[i + 1].ledger.records[states[i].pending.value.key])
  {
    OneStep(cfg, states, steps, i);
    assert Reachable(cfg, states[i]);
    PendingFacts(cfg, states[i]);
    RecordedOutcomeIsEffect(cfg, states[i]);
    RunIsHistory(cfg, states, steps);
    H.HistoryOk(cfg, LedgersOf(states), EventsOf(cfg, states, steps), i + 1);
  }

  /**
   Exactly once: two operations settle under one key, whether they took effect or failed for good, only with
   a GC in between whose cutoff lies both retention times after the first completion.
   */
  lemma SettledAgainNeedsLateCutoff(
      cfg: Retention, states: seq<Ctrl>, steps: seq<Step>, i: nat, j: nat, r: Record, q: Record)
    requires IsRun(cfg, states, steps) && i < j < |steps|
    requires SettledAt(states, steps, i, r) && SettledAt(states, steps, j, q) && q.key == r.key
    ensures LateCutoff(cfg, steps, i, j, r)
  {
    RunIsHistory(cfg, states, steps);
    SettledIsApplied(cfg, states, steps, i, r);
    SettledIsApplied(cfg, states, steps, j, q);
    var ls, es := LedgersOf(states), EventsOf(cfg, states, steps);
    H.ReapplyNeedsLateCutoff(cfg, ls, es, i, j, r, q);
    assert H.CollectedAt(es, i, j, r.completedAt + cfg.operationTtl + cfg.tombstoneTtl);
    CollectedIsLate(cfg, states, steps, i, j, r);
  }

  /** In particular, the stores are changed twice under one key only across such a GC. */
  lemma EffectsNeedLateCutoff(cfg: Retention, states: seq<Ctrl>, steps: seq<Step>, i: nat, j: nat)
    requires IsRun(cfg, states, steps) && i < j < |steps| && steps[i].Finish? && steps[j].Finish?
    requires states[i + 1].stores != states[i].stores && states[j + 1].stores != states[j].stores
    requires states[i].pending.Some? && states[j].pending.Some?
    requires states[i].pending.value.key == states[j].pending.value.key
    ensures states[i].pending.value.key in states[i + 1].ledger.records
    ensures LateCutoff(cfg, steps, i, j, states[i + 1].ledger.records[states[i].pending.value.key])
  {
    EffectIsRecorded(cfg, states, steps, i);
    EffectIsRecorded(cfg, states, steps, j);
    var key := states[i].pending.value.key;
    SettledAgainNeedsLateCutoff(cfg, states, steps, i, j, states[i + 1].ledger.records[key], states[j + 1].ledger.records[key]);
  }

  /**
   A retry of a settled operation, with the same or another request, changes neither stores nor ledger until
   such a GC.
   */
  lemma RetryChangesNothing(cfg: Retention, states: seq<Ctrl>, steps: seq<Step>, i: nat, j: nat, r: Record)
    requires IsRun(cfg, states, steps) && i < j < |steps| && SettledAt(states, steps, i, r)
    requires steps[j].Begin? && steps[j].key == r.key && !LateCutoff(cfg, steps, i, j, r)
    ensures states[j + 1] == states[j]
  {
    OneStep(cfg, states, steps, j);
    RunIsHistory(cfg, states, steps);
    SettledIsApplied(cfg, states, steps, i, r);
    var ls, es := LedgersOf(states), EventsOf(cfg, states, steps);
    H.FateHolds(cfg, ls, es, i, j, r);
    if H.CollectedAt(es, i, j, r.completedAt + cfg.operationTtl + cfg.tombstoneTtl) {
      CollectedIsLate(cfg, states, steps, i, j, r);
    }
  }
}
