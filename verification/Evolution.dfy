/** What the services assume of others between two of their statements is what every run does. */
module Evolution {
  import opened Tables
  import opened Runs
  import opened Deltas
  import opened Schema
  import opened Steps
  import opened TransferService

  lemma StepEvolves(s: Sys, e: Event, s': Sys)
    requires Wellformed(s) && Next(s, e, s')
    ensures Evolved(s.db, s'.db)
  {
    if e.OpenAccount? {
      OpenIs(s, e.id, e.currency, e.balance, s');
    } else {
      var x := Tell(s, e, s');
      EvolvedBy(s.db, s'.db, x);
    }
  }

  lemma EvolvedBy(d: Db, d': Db, x: Delta)
    requires Changes(d, d', x) && SoundTx(d, x) && SoundPayout(d, x)
    ensures Evolved(d, d')
  {
  }

  /** In every run at all, transactions are never removed and nothing but their status changes. */
  lemma {:induction false} RunEvolves(s: Sys, run: seq<Event>)
    requires Wellformed(s) && Exec(s, run).Some?
    ensures Evolved(s.db, Exec(s, run).value.db)
    decreases |run|
  {
    if run != [] {
      var s' := FirstStep(s, run);
      StepEvolves(s, run[0], s');
      WellformedStep(s, run[0], s');
      RunEvolves(s', run[1..]);
    }
  }
}
