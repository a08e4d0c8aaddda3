/** The instance generator of subproblem.py, with the module-level random
    state made an explicit stream of draws. A draw at position p is the
    natural number `s(p)`; `random.choice(xs)` consumes one draw and
    `random.randint(lo, hi)` consumes one draw. Only the support of the
    distributions is modelled, not their weights. */
module Generator {
  import opened Wrappers
  import opened Json
  import opened Catalogue
  import opened ShuttleKeys

  type Stream = nat -> nat

  /** `random.choice(xs)`: one element of xs, chosen by one draw. */
  function Pick<T>(xs: seq<T>, d: nat): (r: T)
    requires |xs| > 0
    ensures r in xs
  {
    xs[d % |xs|]
  }

  /** `random.randint(lo, hi)`: an integer of [lo, hi], chosen by one draw. */
  function RandInt(lo: int, hi: int, d: nat): (r: int)
    requires lo <= hi
    ensures lo <= r <= hi
  {
    lo + d % (hi - lo + 1)
  }

  /** The literal lists drawn from; 150 appears twice (double weight) and
      zero twice among the coin values (two chances in three of no delay). */
  const SocChoices: seq<int> := [30, 60, 90, 120, 150, 150]
  const CoinChoices: seq<int> := [0, 0, 1]
  const PrevChoices: seq<Task> := [OUT, RET, CRG]
  const DirChoices: seq<Task> := [OUT, RET]

  datatype ShuttleSpec = ShuttleSpec(tasks: seq<Task>, soc0: int, prevTask: Task, delay: int)
  datatype Scenario = Scenario(nbrShuttles: int, shuttles: seq<ShuttleSpec>)
  datatype DemandReq = DemandReq(dir: Task, time: int)
  datatype DemandSet = DemandSet(nreq: int, requests: seq<DemandReq>)

  /** Every value a generated shuttle can carry. */
  predicate InSupport(sp: ShuttleSpec)
  {
    && sp.tasks in Candidates
    && sp.soc0 in {30, 60, 90, 120, 150}
    && sp.prevTask in {OUT, RET, CRG}
    && 0 <= sp.delay <= 30
  }

  /** Every value a generated request can carry. */
  predicate RequestInSupport(q: DemandReq)
  {
    q.dir in {OUT, RET} && 0 <= q.time <= 120
  }

  /** The draws of one loop iteration of `write_fake_input`: sequence,
      state of charge, the zero-delay coin, the delay itself only when the
      coin is 1, then the previous task. Returns the next unread position. */
  function DrawShuttle(s: Stream, pos: nat): (r: (ShuttleSpec, nat))
    ensures InSupport(r.0)
    ensures r.1 == pos + 4 || r.1 == pos + 5
    ensures Pick(CoinChoices, s(pos + 2)) == 0 ==> r.0.delay == 0 && r.1 == pos + 4
  {
    var tasks := Pick(Candidates, s(pos));
    var soc0 := Pick(SocChoices, s(pos + 1));
    var coin := Pick(CoinChoices, s(pos + 2));
    var delay := if coin == 0 then 0 else RandInt(0, 30, s(pos + 3));
    var next := if coin == 0 then pos + 3 else pos + 4;
    var prev := Pick(PrevChoices, s(next));
    (ShuttleSpec(tasks, soc0, prev, delay), next + 1)
  }

  function DrawShuttles(s: Stream, pos: nat, count: nat): (r: (seq<ShuttleSpec>, nat))
    ensures |r.0| == count
    ensures pos <= r.1
    ensures forall i :: 0 <= i < count ==> InSupport(r.0[i])
    decreases count
  {
    if count == 0 then ([], pos)
    else
      var (first, p1) := DrawShuttle(s, pos);
      var (rest, p2) := DrawShuttles(s, p1, count - 1);
      ([first] + rest, p2)
  }

  /** `write_fake_input(nbr_shuttles)` before serialisation: `range(n)` is
      empty for a negative n. */
  function GenerateScenario(s: Stream, pos: nat, n: int): (r: (Scenario, nat))
    ensures r.0.nbrShuttles == n
    ensures |r.0.shuttles| == if n < 0 then 0 else n
    ensures forall i :: 0 <= i < |r.0.shuttles| ==> InSupport(r.0.shuttles[i])
    ensures pos <= r.1
  {
    var (sps, next) := DrawShuttles(s, pos, if n < 0 then 0 else n);
    (Scenario(n, sps), next)
  }

  function TasksJson(ts: seq<Task>): (r: seq<Json>)
  {
    seq(|ts|, k requires 0 <= k < |ts| => JStr(Name(ts[k])))
  }

  function ShuttleJson(sp: ShuttleSpec): Json
  {
    JObj(map[
      "seq" := JArr(TasksJson(sp.tasks)),
      "soc0" := JNum(sp.soc0),
      "prev_task" := JStr(Name(sp.prevTask)),
      "delay" := JNum(sp.delay)
    ])
  }

  /** The "shuttles" object: member "S<i>" holds the i-th shuttle. */
  function ShuttlesMap(sps: seq<ShuttleSpec>): (m: map<string, Json>)
    ensures m.Keys == set i | 0 <= i < |sps| :: ShuttleKey(i)
    ensures forall i :: 0 <= i < |sps| ==> ShuttleKey(i) in m && m[ShuttleKey(i)] == ShuttleJson(sps[i])
  {
    ShuttleKeyInjective();
    map i | 0 <= i < |sps| :: ShuttleKey(i) := ShuttleJson(sps[i])
  }

  /** The scenario document `write_fake_input` writes. */
  function ScenarioJson(sc: Scenario): Json
  {
    JObj(map["nbr_shuttles" := JNum(sc.nbrShuttles), "shuttles" := JObj(ShuttlesMap(sc.shuttles))])
  }

  /** The default shuttle count of `write_fake_input`. */
  const DefaultShuttles: nat := 2

  /** `write_fake_input`, returning the document instead of writing it. */
  function WriteFakeInput(s: Stream, pos: nat, n: int): (r: (Json, nat))
    ensures At(r.0, ["nbr_shuttles"]) == Some(JNum(n))
    ensures IsObj(At(r.0, ["shuttles"]))
    ensures At(r.0, ["shuttles"]).value.fields.Keys == set i | 0 <= i < n :: ShuttleKey(i)
    ensures forall i :: 0 <= i < n ==>
      var b := Get(At(r.0, ["shuttles"]).value, ShuttleKey(i));
      && IsObj(b)
      && b.value.fields.Keys == {"seq", "soc0", "prev_task", "delay"}
  {
    var (sc, next) := GenerateScenario(s, pos, n);
    var doc := ScenarioJson(sc);
    assert At(doc, ["shuttles"]) == Some(JObj(ShuttlesMap(sc.shuttles)));
    (doc, next)
  }

  /** The scenario document is the serialised scenario the draws give. */
  lemma WriteFakeInputIsScenario(s: Stream, pos: nat, n: int)
    ensures WriteFakeInput(s, pos, n) == (ScenarioJson(GenerateScenario(s, pos, n).0), GenerateScenario(s, pos, n).1)
  {
  }

  function DrawRequests(s: Stream, pos: nat, count: nat): (r: (seq<DemandReq>, nat))
    ensures |r.0| == count
    ensures r.1 == pos + 2 * count
    ensures forall j :: 0 <= j < count ==> RequestInSupport(r.0[j])
    decreases count
  {
    if count == 0 then ([], pos)
    else
      var first := DemandReq(Pick(DirChoices, s(pos)), RandInt(0, 120, s(pos + 1)));
      var (rest, next) := DrawRequests(s, pos + 2, count - 1);
      ([first] + rest, next)
  }

  /** `write_demand_files(demand)` before serialisation. */
  function GenerateDemand(s: Stream, pos: nat, demand: int): (r: (DemandSet, nat))
    ensures r.0.nreq == demand
    ensures |r.0.requests| == if demand < 0 then 0 else demand
    ensures forall j :: 0 <= j < |r.0.requests| ==> RequestInSupport(r.0.requests[j])
  {
    var (reqs, next) := DrawRequests(s, pos, if demand < 0 then 0 else demand);
    (DemandSet(demand, reqs), next)
  }

  function RequestJson(q: DemandReq): Json
  {
    JObj(map["dir" := JStr(Name(q.dir)), "time" := JNum(q.time)])
  }

  /** The demand document `write_demand_files` writes. */
  function DemandJson(ds: DemandSet): Json
  {
    JObj(map[
      "nreq" := JNum(ds.nreq),
      "requests" := JArr(seq(|ds.requests|, j requires 0 <= j < |ds.requests| => RequestJson(ds.requests[j])))
    ])
  }

  /** `write_demand_files`, returning the document instead of writing it. */
  function WriteDemandFiles(s: Stream, pos: nat, demand: int): (r: (Json, nat))
    ensures At(r.0, ["nreq"]) == Some(JNum(demand))
    ensures IsArr(At(r.0, ["requests"]))
    ensures demand >= 0 ==> |At(r.0, ["requests"]).value.items| == demand
    ensures forall j :: 0 <= j < |At(r.0, ["requests"]).value.items| ==>
      var q := At(r.0, ["requests"]).value.items[j];
      && q.JObj?
      && (Get(q, "dir") == Some(JStr("OUT")) || Get(q, "dir") == Some(JStr("RET")))
      && IsNum(Get(q, "time")) && 0 <= Get(q, "time").value.n <= 120
  {
    var (ds, next) := GenerateDemand(s, pos, demand);
    var doc := DemandJson(ds);
    assert At(doc, ["requests"]) == Get(doc, "requests");
    (doc, next)
  }

  /** The demand document is the serialised demand set the draws give. */
  lemma WriteDemandFilesIsDemand(s: Stream, pos: nat, demand: int)
    ensures WriteDemandFiles(s, pos, demand) == (DemandJson(GenerateDemand(s, pos, demand).0), GenerateDemand(s, pos, demand).1)
  {
  }

  /** Two streams that agree on the positions [lo, hi). */
  predicate Agree(s1: Stream, s2: Stream, lo: nat, hi: nat)
  {
    forall p: nat :: lo <= p < hi ==> s1(p) == s2(p)
  }

  lemma DrawShuttleDeterministic(s1: Stream, s2: Stream, pos: nat)
    requires Agree(s1, s2, pos, DrawShuttle(s1, pos).1)
    ensures DrawShuttle(s1, pos) == DrawShuttle(s2, pos)
  {
    assert s1(pos) == s2(pos) && s1(pos + 1) == s2(pos + 1) && s1(pos + 2) == s2(pos + 2);
    if Pick(CoinChoices, s1(pos + 2)) != 0 {
      assert s1(pos + 3) == s2(pos + 3);
      assert s1(pos + 4) == s2(pos + 4);
    } else {
      assert s1(pos + 3) == s2(pos + 3);
    }
  }

  /** Only the draws actually consumed decide the shuttles. */
  lemma {:induction false} DrawShuttlesDeterministic(s1: Stream, s2: Stream, pos: nat, count: nat)
    requires Agree(s1, s2, pos, DrawShuttles(s1, pos, count).1)
    ensures DrawShuttles(s1, pos, count) == DrawShuttles(s2, pos, count)
    decreases count
  {
    if count > 0 {
      var (first, p1) := DrawShuttle(s1, pos);
      assert pos <= p1 <= DrawShuttles(s1, p1, count - 1).1;
      DrawShuttleDeterministic(s1, s2, pos);
      DrawShuttlesDeterministic(s1, s2, p1, count - 1);
    }
  }

  /** Determinism of `write_fake_input`: the same draws give the same
      document, whatever the stream holds beyond the draws consumed. */
  lemma WriteFakeInputDeterministic(s1: Stream, s2: Stream, pos: nat, n: int)
    requires Agree(s1, s2, pos, WriteFakeInput(s1, pos, n).1)
    ensures WriteFakeInput(s1, pos, n) == WriteFakeInput(s2, pos, n)
  {
    DrawShuttlesDeterministic(s1, s2, pos, if n < 0 then 0 else n);
  }

  lemma {:induction false} DrawRequestsDeterministic(s1: Stream, s2: Stream, pos: nat, count: nat)
    requires Agree(s1, s2, pos, pos + 2 * count)
    ensures DrawRequests(s1, pos, count) == DrawRequests(s2, pos, count)
    decreases count
  {
    if count > 0 {
      assert s1(pos) == s2(pos) && s1(pos + 1) == s2(pos + 1);
      DrawRequestsDeterministic(s1, s2, pos + 2, count - 1);
    }
  }

  /** Determinism of `write_demand_files`. */
  lemma WriteDemandFilesDeterministic(s1: Stream, s2: Stream, pos: nat, demand: int)
    requires Agree(s1, s2, pos, WriteDemandFiles(s1, pos, demand).1)
    ensures WriteDemandFiles(s1, pos, demand) == WriteDemandFiles(s2, pos, demand)
  {
    DrawRequestsDeterministic(s1, s2, pos, if demand < 0 then 0 else demand);
  }
}
