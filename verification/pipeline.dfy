/** Cross-file properties: what the generators of subproblem.py and the
    merge of main.py hand to the reader of jsonio.c. */
module Pipeline {
  import opened Wrappers
  import opened Json
  import opened Catalogue
  import opened ShuttleKeys
  import opened Params
  import opened Generator
  import opened JsonIO
  import opened Host
  import opened Runner

  /** A base configuration with the three sections and five numbers the
      reader needs. */
  predicate WellFormedBase(b: Json)
  {
    && b.JObj?
    && IsObj(Get(b, "time")) && IsObj(Get(b, "fleet")) && IsObj(Get(b, "operation"))
    && IsNum(Get(Get(b, "time").value, "horizon_min"))
    && IsNum(Get(Get(b, "fleet").value, "shuttle_capacity"))
    && IsNum(Get(Get(b, "fleet").value, "battery_range"))
    && IsNum(Get(Get(b, "operation").value, "trip_distance"))
    && IsNum(Get(Get(b, "fleet").value, "nbr_shuttles"))
  }

  /** The C strings a task sequence is read as: each name's bytes. */
  function TaskNames(ts: seq<Task>): (r: seq<seq<Byte>>)
    ensures |r| == |ts|
  {
    seq(|ts|, k requires 0 <= k < |ts| => Utf8(Name(ts[k])))
  }

  /** A task name is three ASCII letters: its encoding is three bytes, and
      both `strcpy` and a copy into a buffer of at least four bytes keep it
      whole. */
  lemma NameReadsBack(t: Task, size: nat)
    requires size >= 4
    ensures |Utf8(Name(t))| == 3
    ensures CString(Utf8(Name(t))) == Utf8(Name(t))
    ensures CString(FixedCopy(Utf8(Name(t)), size)) == Utf8(Name(t))
  {
    Utf8Ascii(Name(t));
    Utf8NulFree(Name(t));
    CStringOfText(Utf8(Name(t)));
    FixedCopyReadsBack(Utf8(Name(t)), size);
  }

  /** The shuttle record the reader fills from a generated shuttle. */
  predicate ReadsAs(s: Shuttle, sp: ShuttleSpec)
  {
    && s.T == |sp.tasks|
    && s.tokens == TaskNames(sp.tasks)
    && s.soc0 == sp.soc0
    && s.delay == sp.delay
    && CString(s.prev) == Utf8(Name(sp.prevTask))
  }

  lemma ShuttleBlockReads(sps: seq<ShuttleSpec>, i: nat)
    requires i < |sps|
    ensures ShuttleBlockOk(JObj(ShuttlesMap(sps)), i)
    ensures forall s :: ShuttleRead(JObj(ShuttlesMap(sps)), i, s) ==> ReadsAs(s, sps[i])
  {
    var sh := JObj(ShuttlesMap(sps));
    assert Get(sh, ShuttleKey(i)) == Some(ShuttleJson(sps[i]));
    ShuttleJsonReads(sh, i, sps[i]);
  }

  /** A block written by `ShuttleJson` is accepted and reads back as the
      shuttle it was written from. */
  lemma ShuttleJsonReads(sh: Json, i: nat, sp: ShuttleSpec)
    requires Get(sh, ShuttleKey(i)) == Some(ShuttleJson(sp))
    ensures ShuttleBlockOk(sh, i)
    ensures forall s :: ShuttleRead(sh, i, s) ==> ReadsAs(s, sp)
  {
    var b := ShuttleJson(sp);
    var items := TasksJson(sp.tasks);
    assert Get(b, "seq") == Some(JArr(items));
    assert Get(b, "prev_task") == Some(JStr(Name(sp.prevTask)));
    assert Get(b, "soc0") == Some(JNum(sp.soc0)) && Get(b, "delay") == Some(JNum(sp.delay));
    forall s | ShuttleRead(sh, i, s)
      ensures ReadsAs(s, sp)
    {
      forall t | 0 <= t < |items|
        ensures s.tokens[t] == Utf8(Name(sp.tasks[t]))
      {
        assert s.tokens[t] == CString(Utf8(items[t].s));
        NameReadsBack(sp.tasks[t], 4);
      }
      NameReadsBack(sp.prevTask, PrevSize);
    }
  }

  lemma MergedBaseOk(base: Json, subp: Json, dem: Json)
    requires WellFormedBase(base)
    ensures BaseOk(Merge(base, subp, dem))
    ensures At(Merge(base, subp, dem), ["base", "time", "horizon_min"]) == Get(Get(base, "time").value, "horizon_min")
    ensures At(Merge(base, subp, dem), ["base", "fleet", "nbr_shuttles"]) == Get(Get(base, "fleet").value, "nbr_shuttles")
  {
    var root := Merge(base, subp, dem);
    MergeKeepsParts(base, subp, dem);
    AtTwo(root, "base", "time");
    AtTwo(root, "base", "fleet");
    AtTwo(root, "base", "operation");
    AtThree(root, "base", "time", "horizon_min");
    AtThree(root, "base", "fleet", "shuttle_capacity");
    AtThree(root, "base", "fleet", "battery_range");
    AtThree(root, "base", "operation", "trip_distance");
    AtThree(root, "base", "fleet", "nbr_shuttles");
  }

  lemma MergedSubproblemOk(base: Json, sc: Scenario, dem: Json)
    requires |sc.shuttles| == if sc.nbrShuttles < 0 then 0 else sc.nbrShuttles
    ensures SubproblemOk(Merge(base, ScenarioJson(sc), dem))
    ensures At(Merge(base, ScenarioJson(sc), dem), ["subproblem", "nbr_shuttles"]) == Some(JNum(sc.nbrShuttles))
    ensures At(Merge(base, ScenarioJson(sc), dem), ["subproblem", "shuttles"]) == Some(JObj(ShuttlesMap(sc.shuttles)))
  {
    var root := Merge(base, ScenarioJson(sc), dem);
    MergeKeepsParts(base, ScenarioJson(sc), dem);
    AtTwo(root, "subproblem", "nbr_shuttles");
    AtTwo(root, "subproblem", "shuttles");
    var sh := JObj(ShuttlesMap(sc.shuttles));
    forall k: nat | k < sc.nbrShuttles
      ensures ShuttleBlockOk(sh, k)
    {
      ShuttleBlockReads(sc.shuttles, k);
    }
  }

  lemma MergedDemandOk(base: Json, subp: Json, ds: DemandSet)
    ensures DemandOk(Merge(base, subp, DemandJson(ds)))
    ensures At(Merge(base, subp, DemandJson(ds)), ["demand", "requests"]) ==
      Some(JArr(seq(|ds.requests|, j requires 0 <= j < |ds.requests| => RequestJson(ds.requests[j]))))
  {
    var root := Merge(base, subp, DemandJson(ds));
    MergeKeepsParts(base, subp, DemandJson(ds));
    AtTwo(root, "demand", "requests");
  }

  lemma RequestReadsBack(q: DemandReq)
    ensures ReadRequest(RequestJson(q)).ready == q.time
    ensures CString(ReadRequest(RequestJson(q)).dir) == Utf8(Name(q.dir))
  {
    ReadRequestDefaults(RequestJson(q));
    NameReadsBack(q.dir, DirSize);
  }

  lemma MergedFleetReads(base: Json, sc: Scenario, dem: Json)
    requires |sc.shuttles| == if sc.nbrShuttles < 0 then 0 else sc.nbrShuttles
    ensures var F := ParseFleet(Merge(base, ScenarioJson(sc), dem));
      && F.Ok?
      && F.value.n == sc.nbrShuttles
      && |F.value.arr| == |sc.shuttles|
      && forall i :: 0 <= i < |sc.shuttles| ==> ReadsAs(F.value.arr[i], sc.shuttles[i])
  {
    var root := Merge(base, ScenarioJson(sc), dem);
    MergedSubproblemOk(base, sc, dem);
    ParseFleetSpec(root);
    var F := ParseFleet(root).value;
    var sh := JObj(ShuttlesMap(sc.shuttles));
    forall i | 0 <= i < |sc.shuttles|
      ensures ReadsAs(F.arr[i], sc.shuttles[i])
    {
      assert ShuttleRead(sh, i, F.arr[i]);
      ShuttleBlockReads(sc.shuttles, i);
    }
  }

  lemma MergedDemandReads(base: Json, subp: Json, ds: DemandSet)
    ensures var D := ParseDemand(Merge(base, subp, DemandJson(ds)));
      && D.Ok?
      && D.value.n == |D.value.arr| == |ds.requests|
      && forall j :: 0 <= j < |ds.requests| ==>
           D.value.arr[j].ready == ds.requests[j].time
           && CString(D.value.arr[j].dir) == Utf8(Name(ds.requests[j].dir))
  {
    var root := Merge(base, subp, DemandJson(ds));
    MergedDemandOk(base, subp, ds);
    ParseDemandSpec(root);
    var D := ParseDemand(root).value;
    forall j | 0 <= j < |ds.requests|
      ensures D.arr[j].ready == ds.requests[j].time && CString(D.arr[j].dir) == Utf8(Name(ds.requests[j].dir))
    {
      RequestReadsBack(ds.requests[j]);
    }
  }

  /** What the reader fills from a merged document built from a base, a
      scenario and a demand set: the base numbers, the scenario's count and
      shuttles with their sequences unchanged, and every request with its
      direction, ready at its "time". */
  predicate ReadsBack(p: Parsed, base: Json, sc: Scenario, ds: DemandSet)
    requires WellFormedBase(base)
  {
    && Get(Get(base, "time").value, "horizon_min") == Some(JNum(p.P.horizonMin))
    && Get(Get(base, "fleet").value, "nbr_shuttles") == Some(JNum(p.P.nbrShuttles))
    && p.F.n == sc.nbrShuttles
    && |p.F.arr| == |sc.shuttles|
    && (forall i :: 0 <= i < |sc.shuttles| ==> ReadsAs(p.F.arr[i], sc.shuttles[i]))
    && p.D.n == |p.D.arr| == |ds.requests|
    && (forall j :: 0 <= j < |ds.requests| ==>
          p.D.arr[j].ready == ds.requests[j].time && CString(p.D.arr[j].dir) == Utf8(Name(ds.requests[j].dir)))
  }

  /** The reader accepts `root` and reads it back as `ReadsBack` describes. */
  predicate DocumentReadsBack(root: Json, base: Json, sc: Scenario, ds: DemandSet)
    requires WellFormedBase(base)
  {
    ParseParamsAndFleet(root).Ok? && ReadsBack(ParseParamsAndFleet(root).value, base, sc, ds)
  }

  /** Any merged document built from a well-formed base, a scenario
      document and a demand document is accepted, and reads back as
      `ReadsBack` describes. */
  lemma MergedDocumentParses(base: Json, sc: Scenario, ds: DemandSet)
    requires WellFormedBase(base)
    requires |sc.shuttles| == if sc.nbrShuttles < 0 then 0 else sc.nbrShuttles
    ensures ParseParamsAndFleet(Merge(base, ScenarioJson(sc), DemandJson(ds))).Ok?
    ensures ReadsBack(ParseParamsAndFleet(Merge(base, ScenarioJson(sc), DemandJson(ds))).value, base, sc, ds)
  {
    var root := Merge(base, ScenarioJson(sc), DemandJson(ds));
    MergedBaseOk(base, ScenarioJson(sc), DemandJson(ds));
    ParseParamsSpec(root);
    MergedFleetReads(base, sc, DemandJson(ds));
    MergedDemandReads(base, ScenarioJson(sc), ds);
    ParseCombines(root);
    var p := Parsed(ParseParams(root).value, ParseFleet(root).value, ParseDemand(root).value);
    assert ReadsBack(p, base, sc, ds);
  }

  /** For the generators' own output: the document `main.py` hands to the
      solver parses with exactly `n` shuttles whose sequences come from the
      catalogue, and with `demand` requests ready within [0, 120]. */
  lemma GeneratedMergeParses(base: Json, s: Stream, pos: nat, n: nat, demand: nat)
    requires WellFormedBase(base)
    ensures var (sub, p1) := WriteFakeInput(s, pos, n);
      var (dem, p2) := WriteDemandFiles(s, p1, demand);
      var r := ParseParamsAndFleet(Merge(base, sub, dem));
      && r.Ok?
      && r.value.F.n == n && |r.value.F.arr| == n
      && (forall i :: 0 <= i < n ==> exists c :: c in Candidates && r.value.F.arr[i].tokens == TaskNames(c))
      && r.value.D.n == demand && |r.value.D.arr| == demand
      && (forall j :: 0 <= j < demand ==> 0 <= r.value.D.arr[j].ready <= 120)
  {
    var (sc, p1) := GenerateScenario(s, pos, n);
    var (ds, p2) := GenerateDemand(s, p1, demand);
    assert WriteFakeInput(s, pos, n) == (ScenarioJson(sc), p1);
    assert WriteDemandFiles(s, p1, demand).0 == DemandJson(ds);
    MergedDocumentParses(base, sc, ds);
    var p := ParseParamsAndFleet(Merge(base, ScenarioJson(sc), DemandJson(ds))).value;
    assert ReadsBack(p, base, sc, ds);
    forall i | 0 <= i < n
      ensures exists c :: c in Candidates && p.F.arr[i].tokens == TaskNames(c)
    {
      assert ReadsAs(p.F.arr[i], sc.shuttles[i]);
      assert InSupport(sc.shuttles[i]);
    }
    forall j | 0 <= j < demand
      ensures 0 <= p.D.arr[j].ready <= 120
    {
      assert RequestInSupport(ds.requests[j]);
    }
  }

  /** When the horizon covers the generators' range, the documented bound
      on `ready` holds for generated demand, although nothing checks it. */
  lemma GeneratedReadyWithinHorizon(base: Json, s: Stream, pos: nat, n: nat, demand: nat)
    requires WellFormedBase(base)
    requires Get(Get(base, "time").value, "horizon_min").value.n >= 120
    ensures var (sub, p1) := WriteFakeInput(s, pos, n);
      var (dem, p2) := WriteDemandFiles(s, p1, demand);
      var r := ParseParamsAndFleet(Merge(base, sub, dem));
      r.Ok? && ReadyWithinHorizon(r.value.P, r.value.D)
  {
    var (sc, p1) := GenerateScenario(s, pos, n);
    var (ds, p2) := GenerateDemand(s, p1, demand);
    assert WriteFakeInput(s, pos, n) == (ScenarioJson(sc), p1);
    assert WriteDemandFiles(s, p1, demand).0 == DemandJson(ds);
    MergedDocumentParses(base, sc, ds);
    var p := ParseParamsAndFleet(Merge(base, ScenarioJson(sc), DemandJson(ds))).value;
    assert ReadsBack(p, base, sc, ds);
    forall j | 0 <= j < |p.D.arr|
      ensures 0 <= p.D.arr[j].ready <= p.P.horizonMin
    {
      assert RequestInSupport(ds.requests[j]);
    }
  }
}
