/** Facts about whole runs of main.py: what a flow hands to the solver. */
module Flows {
  import opened Json
  import opened Generator
  import opened Host
  import opened Runner
  import opened Pipeline

  /** Whenever a flow reaches the solver, the document it hands over is
      the merge of the base with the two-shuttle scenario `sc` and the
      demand set `ds` the flow drew, and the reader accepts it and reads it
      back as `ReadsBack` describes. */
  lemma FlowInputParses(h: Host, s: Stream, pos: nat, base: Json, exitCode: int, outcome: Outcome,
                        sc: Scenario, ds: DemandSet)
    requires WellFormedBase(base)
    requires sc == GenerateScenario(s, pos, DefaultShuttles).0
    requires var p1 := WriteFakeInput(s, pos, DefaultShuttles).1;
      ds == GenerateDemand(s, p1 + 1, DemandCount(s(p1))).0
    ensures var f := Flow(h, s, pos, base, exitCode, outcome);
      f.run.Some? ==> f.run.value.merged == Merge(base, ScenarioJson(sc), DemandJson(ds))
    ensures DocumentReadsBack(Merge(base, ScenarioJson(sc), DemandJson(ds)), base, sc, ds)
  {
    FlowMergesDraws(h, s, pos, base, exitCode, outcome);
    MergedDocumentParses(base, sc, ds);
  }
}
