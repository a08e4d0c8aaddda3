/** The merged-document reader of ccp/subproblem/jsonio.c, starting from
    the already-parsed JSON tree. `die(msg)` becomes `Err(msg)`: the
    process exits, so no partially filled record escapes. */
module JsonIO {
  import opened Wrappers
  import opened Json
  import opened ShuttleKeys
  import opened Params

  /** Everything the reader fills. */
  datatype Parsed = Parsed(P: Params, F: Fleet, D: DemandPool)

  /** The messages `die` can be called with, section by section: a failed
      `req_*` reports its key, the other checks a fixed text. */
  const BaseMessages: set<string> :=
    {"base", "time", "fleet", "operation", "horizon_min", "shuttle_capacity",
     "battery_range", "trip_distance", "nbr_shuttles"}
  const ShuttleMessages: set<string> :=
    {"missing shuttle block", "seq", "seq token", "soc0", "delay", "prev_task"}
  const FleetMessages: set<string> := {"subproblem", "nbr_shuttles", "shuttles"} + ShuttleMessages
  const DemandMessages: set<string> := {"demand", "demand.requests", "request"}

  /** `req_obj`: the member must be an object, else die with the key. */
  function ReqObj(parent: Json, key: string): (r: Result<Json, string>)
    ensures r.Ok? <==> IsObj(Get(parent, key))
    ensures r.Ok? ==> Get(parent, key) == Some(r.value) && r.value.JObj?
    ensures r.Err? ==> r.error == key
  {
    match Get(parent, key)
    case Some(JObj(m)) => Ok(JObj(m))
    case _ => Err(key)
  }

  /** `req_int`: the member must be a number, else die with the key. */
  function ReqInt(parent: Json, key: string): (r: Result<int, string>)
    ensures r.Ok? <==> IsNum(Get(parent, key))
    ensures r.Ok? ==> Get(parent, key) == Some(JNum(r.value))
    ensures r.Err? ==> r.error == key
  {
    match Get(parent, key)
    case Some(JNum(n)) => Ok(n)
    case _ => Err(key)
  }

  /** `req_str`: the member must be a string, else die with the key. */
  function ReqStr(parent: Json, key: string): (r: Result<string, string>)
    ensures r.Ok? <==> IsStr(Get(parent, key))
    ensures r.Ok? ==> Get(parent, key) == Some(JStr(r.value))
    ensures r.Err? ==> r.error == key
  {
    match Get(parent, key)
    case Some(JStr(s)) => Ok(s)
    case _ => Err(key)
  }

  /** The tokens of a "seq" array, each copied with `strcpy`: the bytes
      of its encoding up to the first NUL. */
  function CopyTokens(items: seq<Json>): Result<seq<seq<Byte>>, string>
  {
    if forall t :: 0 <= t < |items| ==> items[t].JStr? then
      Ok(seq(|items|, t requires 0 <= t < |items| && items[t].JStr? => CString(Utf8(items[t].s))))
    else
      Err("seq token")
  }

  /** One iteration of the shuttle loop: block "S<i>", its "seq" array and
      tokens, then "soc0", "delay" and "prev_task", in that order. */
  function ParseShuttle(sh: Json, i: nat): (r: Result<Shuttle, string>)
    ensures r.Err? ==> r.error in ShuttleMessages
    ensures r.Ok? ==> ShuttleValid(r.value)
  {
    var block := Get(sh, ShuttleKey(i));
    if !IsObj(block) then Err("missing shuttle block")
    else
      var sq := Get(block.value, "seq");
      if !IsArr(sq) then Err("seq")
      else
        var tokens :- CopyTokens(sq.value.items);
        var soc0 :- ReqInt(block.value, "soc0");
        var delay :- ReqInt(block.value, "delay");
        var prev :- ReqStr(block.value, "prev_task");
        FixedCopyReadsBack(Utf8(prev), PrevSize);
        Ok(Shuttle(tokens, |sq.value.items|, soc0, delay, FixedCopy(Utf8(prev), PrevSize)))
  }

  /** What the reader accepts for shuttle i. */
  predicate ShuttleBlockOk(sh: Json, i: nat)
  {
    var block := Get(sh, ShuttleKey(i));
    && IsObj(block)
    && IsArr(Get(block.value, "seq"))
    && (forall t :: 0 <= t < |Get(block.value, "seq").value.items| ==>
          Get(block.value, "seq").value.items[t].JStr?)
    && IsNum(Get(block.value, "soc0"))
    && IsNum(Get(block.value, "delay"))
    && IsStr(Get(block.value, "prev_task"))
  }

  /** What the reader stores for an accepted shuttle i: the token count,
      every token in order, the integers, and the bytes of `prev_task` cut
      to the buffer. */
  predicate ShuttleRead(sh: Json, i: nat, s: Shuttle)
    requires ShuttleBlockOk(sh, i)
  {
    var b := Get(sh, ShuttleKey(i)).value;
    var items := Get(b, "seq").value.items;
    && s.T == |items| == |s.tokens|
    && (forall t :: 0 <= t < |items| ==> s.tokens[t] == CString(Utf8(items[t].s)))
    && s.soc0 == Get(b, "soc0").value.n
    && s.delay == Get(b, "delay").value.n
    && s.prev == FixedCopy(Utf8(Get(b, "prev_task").value.s), PrevSize)
  }

  lemma ParseShuttleSpec(sh: Json, i: nat)
    ensures ParseShuttle(sh, i).Ok? <==> ShuttleBlockOk(sh, i)
    ensures ParseShuttle(sh, i).Ok? ==> ShuttleRead(sh, i, ParseShuttle(sh, i).value)
  {
  }

  /** The shuttle loop for indices i .. n-1 (none at all when n <= i). */
  function ParseShuttles(sh: Json, i: nat, n: int): (r: Result<seq<Shuttle>, string>)
    ensures r.Ok? <==> forall k: nat :: i <= k < n ==> ShuttleBlockOk(sh, k)
    ensures r.Ok? ==> |r.value| == if n <= i then 0 else n - i
    ensures r.Ok? ==> forall k :: 0 <= k < |r.value| ==>
      ShuttleBlockOk(sh, i + k) && ShuttleRead(sh, i + k, r.value[k])
    ensures r.Err? ==> r.error in ShuttleMessages
    decreases n - i
  {
    ParseShuttleSpec(sh, i);
    if n <= i then Ok([])
    else
      var s := ParseShuttle(sh, i);
      if s.Err? then Err(s.error)
      else
        var rest := ParseShuttles(sh, i + 1, n);
        if rest.Err? then Err(rest.error) else Ok([s.value] + rest.value)
  }

  /** A request: "dir" defaults to "OUT" when absent or not a string;
      "ready" is read from "ready", else from "time", else 0. */
  function ReadRequest(r: Json): (q: Request)
    ensures |q.dir| == DirSize && q.dir[DirSize - 1] == NulByte
    ensures q.ready != 0 ==> IsNum(Get(r, "ready")) || IsNum(Get(r, "time"))
  {
    var d := Get(r, "dir");
    var dir := if IsStr(d) then d.value.s else "OUT";
    var rdy := if IsNum(Get(r, "ready")) then Get(r, "ready") else Get(r, "time");
    FixedCopyReadsBack(Utf8(dir), DirSize);
    Request(FixedCopy(Utf8(dir), DirSize), if IsNum(rdy) then rdy.value.n else 0)
  }

  function ParseRequests(items: seq<Json>): Result<seq<Request>, string>
  {
    if forall j :: 0 <= j < |items| ==> items[j].JObj? then
      Ok(seq(|items|, j requires 0 <= j < |items| => ReadRequest(items[j])))
    else
      Err("request")
  }

  /** The base section: three objects, then five numbers. */
  function ParseParams(root: Json): (r: Result<Params, string>)
    ensures r.Err? ==> r.error in BaseMessages
  {
    var base :- ReqObj(root, "base");
    var time :- ReqObj(base, "time");
    var fleet :- ReqObj(base, "fleet");
    var oper :- ReqObj(base, "operation");
    var horizon :- ReqInt(time, "horizon_min");
    var cap :- ReqInt(fleet, "shuttle_capacity");
    var battery :- ReqInt(fleet, "battery_range");
    var trip :- ReqInt(oper, "trip_distance");
    var nbr :- ReqInt(fleet, "nbr_shuttles");
    Ok(Params(horizon, cap, trip, battery, nbr))
  }

  /** The subproblem section: the count, the shuttles object, then the
      shuttle loop. */
  function ParseFleet(root: Json): (r: Result<Fleet, string>)
    ensures r.Err? ==> r.error in FleetMessages
  {
    var subp :- ReqObj(root, "subproblem");
    var subN :- ReqInt(subp, "nbr_shuttles");
    var sh :- ReqObj(subp, "shuttles");
    var arr :- ParseShuttles(sh, 0, subN);
    Ok(Fleet(arr, subN))
  }

  /** The demand section: an object whose "requests" is an array. */
  function ParseDemand(root: Json): (r: Result<DemandPool, string>)
    ensures r.Err? ==> r.error in DemandMessages
  {
    var demand :- ReqObj(root, "demand");
    var reqs := Get(demand, "requests");
    if !IsArr(reqs) then Err("demand.requests")
    else
      var rs :- ParseRequests(reqs.value.items);
      Ok(DemandPool(rs, |rs|))
  }

  /** `parse_params_and_fleet`: base, subproblem and demand, in source
      order, the first failed check ending the process. The fleet size is
      the subproblem's count; a disagreement with base.fleet.nbr_shuttles
      only prints a warning. */
  function ParseParamsAndFleet(root: Json): (r: Result<Parsed, string>)
    ensures r.Err? ==> r.error in BaseMessages + FleetMessages + DemandMessages
  {
    var P :- ParseParams(root);
    var F :- ParseFleet(root);
    var D :- ParseDemand(root);
    Ok(Parsed(P, F, D))
  }

  /** The warning the reader prints: the two shuttle counts disagree. */
  predicate CountMismatch(p: Parsed)
  {
    p.F.n != p.P.nbrShuttles
  }

  /** The "base" section holds the three objects and five numbers read. */
  predicate BaseOk(root: Json)
  {
    && IsObj(At(root, ["base"]))
    && IsObj(At(root, ["base", "time"]))
    && IsObj(At(root, ["base", "fleet"]))
    && IsObj(At(root, ["base", "operation"]))
    && IsNum(At(root, ["base", "time", "horizon_min"]))
    && IsNum(At(root, ["base", "fleet", "shuttle_capacity"]))
    && IsNum(At(root, ["base", "fleet", "battery_range"]))
    && IsNum(At(root, ["base", "operation", "trip_distance"]))
    && IsNum(At(root, ["base", "fleet", "nbr_shuttles"]))
  }

  predicate SubproblemOk(root: Json)
  {
    && IsObj(At(root, ["subproblem"]))
    && IsNum(At(root, ["subproblem", "nbr_shuttles"]))
    && IsObj(At(root, ["subproblem", "shuttles"]))
    && forall k: nat :: k < At(root, ["subproblem", "nbr_shuttles"]).value.n ==>
         ShuttleBlockOk(At(root, ["subproblem", "shuttles"]).value, k)
  }

  predicate DemandOk(root: Json)
  {
    && IsObj(At(root, ["demand"]))
    && IsArr(At(root, ["demand", "requests"]))
    && forall j :: 0 <= j < |At(root, ["demand", "requests"]).value.items| ==>
         At(root, ["demand", "requests"]).value.items[j].JObj?
  }

  /** The documents the reader accepts, stated without reference to the
      order of its checks. */
  predicate Accepts(root: Json)
  {
    BaseOk(root) && SubproblemOk(root) && DemandOk(root)
  }

  lemma AtTwo(j: Json, a: string, b: string)
    ensures At(j, [a, b]) == if IsObj(Get(j, a)) then Get(Get(j, a).value, b) else None
  {
    assert [a, b][1..] == [b];
    assert [b][1..] == [];
    match Get(j, a)
    case None =>
    case Some(c) =>
      assert At(j, [a, b]) == At(c, [b]);
      assert At(c, [b]) == if Get(c, b).Some? then At(Get(c, b).value, []) else None;
  }

  lemma AtThree(j: Json, a: string, b: string, c: string)
    ensures At(j, [a, b, c]) ==
      if IsObj(Get(j, a)) && IsObj(Get(Get(j, a).value, b)) then Get(Get(Get(j, a).value, b).value, c) else None
  {
    assert [a, b, c][1..] == [b, c];
    if Get(j, a).Some? {
      AtTwo(Get(j, a).value, b, c);
    }
  }

  lemma ParseParamsSpec(root: Json)
    ensures ParseParams(root).Ok? <==> BaseOk(root)
    ensures ParseParams(root).Ok? ==> var P := ParseParams(root).value;
      && At(root, ["base", "time", "horizon_min"]) == Some(JNum(P.horizonMin))
      && At(root, ["base", "fleet", "shuttle_capacity"]) == Some(JNum(P.cap))
      && At(root, ["base", "fleet", "battery_range"]) == Some(JNum(P.batteryRange))
      && At(root, ["base", "operation", "trip_distance"]) == Some(JNum(P.tripDist))
      && At(root, ["base", "fleet", "nbr_shuttles"]) == Some(JNum(P.nbrShuttles))
  {
    AtTwo(root, "base", "time");
    AtTwo(root, "base", "fleet");
    AtTwo(root, "base", "operation");
    AtThree(root, "base", "time", "horizon_min");
    AtThree(root, "base", "fleet", "shuttle_capacity");
    AtThree(root, "base", "fleet", "battery_range");
    AtThree(root, "base", "operation", "trip_distance");
    AtThree(root, "base", "fleet", "nbr_shuttles");
  }

  lemma ParseFleetSpec(root: Json)
    ensures ParseFleet(root).Ok? <==> SubproblemOk(root)
    ensures ParseFleet(root).Ok? ==> var F := ParseFleet(root).value;
      var sh := At(root, ["subproblem", "shuttles"]).value;
      && At(root, ["subproblem", "nbr_shuttles"]) == Some(JNum(F.n))
      && |F.arr| == (if F.n < 0 then 0 else F.n)
      && forall i :: 0 <= i < |F.arr| ==> ShuttleBlockOk(sh, i) && ShuttleRead(sh, i, F.arr[i])
  {
    AtTwo(root, "subproblem", "nbr_shuttles");
    AtTwo(root, "subproblem", "shuttles");
  }

  lemma ParseDemandSpec(root: Json)
    ensures ParseDemand(root).Ok? <==> DemandOk(root)
    ensures ParseDemand(root).Ok? ==> var D := ParseDemand(root).value;
      var items := At(root, ["demand", "requests"]).value.items;
      && D.n == |D.arr| == |items|
      && forall j :: 0 <= j < |D.arr| ==> D.arr[j] == ReadRequest(items[j])
  {
    AtTwo(root, "demand", "requests");
  }

  /** The reader's result is assembled from its three sections. */
  lemma ParseCombines(root: Json)
    requires ParseParams(root).Ok? && ParseFleet(root).Ok? && ParseDemand(root).Ok?
    ensures ParseParamsAndFleet(root) ==
      Ok(Parsed(ParseParams(root).value, ParseFleet(root).value, ParseDemand(root).value))
  {
  }

  /** The sections are checked in source order: the first bad section is
      the one reported, whatever the later sections hold. */
  lemma ParseChecksInOrder(root: Json)
    ensures !BaseOk(root) ==> ParseParamsAndFleet(root).Err? && ParseParamsAndFleet(root).error in BaseMessages
    ensures BaseOk(root) && !SubproblemOk(root) ==>
      ParseParamsAndFleet(root).Err? && ParseParamsAndFleet(root).error in FleetMessages
    ensures BaseOk(root) && SubproblemOk(root) && !DemandOk(root) ==>
      ParseParamsAndFleet(root).Err? && ParseParamsAndFleet(root).error in DemandMessages
  {
    ParseParamsSpec(root);
    ParseFleetSpec(root);
    ParseDemandSpec(root);
  }

  /** The reader succeeds exactly on the documents `Accepts` describes. */
  lemma ParseOkIffAccepts(root: Json)
    ensures ParseParamsAndFleet(root).Ok? <==> Accepts(root)
  {
    ParseParamsSpec(root);
    ParseFleetSpec(root);
    ParseDemandSpec(root);
  }

  /** On success every `Params` member is the number found in the document,
      the fleet size is subproblem.nbr_shuttles, each shuttle is read from
      its "S<i>" block, and the pool holds one request per array element. */
  lemma ParseReadsDocument(root: Json)
    requires ParseParamsAndFleet(root).Ok?
    ensures Accepts(root)
    ensures var p := ParseParamsAndFleet(root).value;
      && At(root, ["base", "time", "horizon_min"]) == Some(JNum(p.P.horizonMin))
      && At(root, ["base", "fleet", "shuttle_capacity"]) == Some(JNum(p.P.cap))
      && At(root, ["base", "fleet", "battery_range"]) == Some(JNum(p.P.batteryRange))
      && At(root, ["base", "operation", "trip_distance"]) == Some(JNum(p.P.tripDist))
      && At(root, ["base", "fleet", "nbr_shuttles"]) == Some(JNum(p.P.nbrShuttles))
      && At(root, ["subproblem", "nbr_shuttles"]) == Some(JNum(p.F.n))
      && |p.F.arr| == (if p.F.n < 0 then 0 else p.F.n)
      && (forall i :: 0 <= i < |p.F.arr| ==>
            ShuttleBlockOk(At(root, ["subproblem", "shuttles"]).value, i)
            && ShuttleRead(At(root, ["subproblem", "shuttles"]).value, i, p.F.arr[i]))
      && p.D.n == |p.D.arr| == |At(root, ["demand", "requests"]).value.items|
      && (forall j :: 0 <= j < |p.D.arr| ==>
            p.D.arr[j] == ReadRequest(At(root, ["demand", "requests"]).value.items[j]))
  {
    ParseParamsSpec(root);
    ParseFleetSpec(root);
    ParseDemandSpec(root);
  }

  /** The records the reader fills have the shape params.h documents:
      `T` counts the tokens, `prev` and `dir` are terminated buffers, and
      the counts match the arrays (the fleet's only when the subproblem's
      count is not negative). */
  lemma ParseFillsValidRecords(root: Json)
    requires ParseParamsAndFleet(root).Ok?
    ensures var p := ParseParamsAndFleet(root).value;
      && (p.F.n >= 0 ==> FleetValid(p.F))
      && (forall i :: 0 <= i < |p.F.arr| ==> ShuttleValid(p.F.arr[i]))
      && DemandValid(p.D)
  {
    ParseReadsDocument(root);
    var p := ParseParamsAndFleet(root).value;
    var sh := At(root, ["subproblem", "shuttles"]).value;
    forall i | 0 <= i < |p.F.arr|
      ensures ShuttleValid(p.F.arr[i])
    {
      assert ShuttleBlockOk(sh, i) && ShuttleRead(sh, i, p.F.arr[i]);
      var b := Get(sh, ShuttleKey(i)).value;
      FixedCopyReadsBack(Utf8(Get(b, "prev_task").value.s), PrevSize);
    }
    forall j | 0 <= j < |p.D.arr|
      ensures |p.D.arr[j].dir| == DirSize && p.D.arr[j].dir[DirSize - 1] == NulByte
    {
      var r := At(root, ["demand", "requests"]).value.items[j];
      var d := Get(r, "dir");
      FixedCopyReadsBack(Utf8(if IsStr(d) then d.value.s else "OUT"), DirSize);
    }
  }

  /** The request defaults: the direction text is the encoded "dir"
      string cut to three bytes, or "OUT" when "dir" is absent or not a
      string; the ready time is "ready" when it is a number, else "time"
      when that is a number, else 0. */
  lemma ReadRequestDefaults(r: Json)
    ensures CString(ReadRequest(r).dir) ==
      if IsStr(Get(r, "dir")) then Take(CString(Utf8(Get(r, "dir").value.s)), 3) else Utf8("OUT")
    ensures IsNum(Get(r, "ready")) ==> ReadRequest(r).ready == Get(r, "ready").value.n
    ensures !IsNum(Get(r, "ready")) && IsNum(Get(r, "time")) ==> ReadRequest(r).ready == Get(r, "time").value.n
    ensures !IsNum(Get(r, "ready")) && !IsNum(Get(r, "time")) ==> ReadRequest(r).ready == 0
  {
    var d := Get(r, "dir");
    FixedCopyReadsBack(Utf8(if IsStr(d) then d.value.s else "OUT"), DirSize);
    if !IsStr(d) {
      DefaultDirFits();
    }
  }

  /** The default direction "OUT" fits the buffer whole. */
  lemma DefaultDirFits()
    ensures Take(CString(Utf8("OUT")), 3) == Utf8("OUT")
  {
    Utf8Ascii("OUT");
    Utf8NulFree("OUT");
    CStringOfText(Utf8("OUT"));
  }

  /** The three-byte cut of "dir" counts bytes, not characters: "ÉTÉ"
      (É is U+00C9, two bytes in UTF-8) is read as the bytes of "ÉT". */
  lemma DirCutCountsBytes()
    ensures var e := 0xC9 as char;
      CString(ReadRequest(JObj(map["dir" := JStr([e, 'T', e])])).dir) == Utf8([e, 'T'])
      && Utf8([e, 'T']) == [0xC3, 0x89, 0x54]
  {
    var e := 0xC9 as char;
    var r := JObj(map["dir" := JStr([e, 'T', e])]);
    assert Get(r, "dir") == Some(JStr([e, 'T', e]));
    assert ReadRequest(r).dir == FixedCopy(Utf8([e, 'T', e]), DirSize);
    FixedCopyReadsBack(Utf8([e, 'T', e]), DirSize);
    EteBytes();
    assert CString([0xC3, 0x89, 0x54, 0xC3, 0x89]) == [0xC3, 0x89, 0x54, 0xC3, 0x89];
  }

  /** The UTF-8 bytes of "ÉTÉ" and of its first two characters. */
  lemma EteBytes()
    ensures var e := 0xC9 as char;
      && Utf8([e, 'T', e]) == [0xC3, 0x89, 0x54, 0xC3, 0x89]
      && Utf8([e, 'T']) == [0xC3, 0x89, 0x54]
  {
    var e := 0xC9 as char;
    assert [e, 'T', e][1..] == ['T', e] && ['T', e][1..] == [e] && [e][1..] == [];
    assert [e, 'T'][1..] == ['T'] && ['T'][1..] == [];
    assert EncodeChar(e) == [0xC3, 0x89] && EncodeChar('T') == [0x54];
    assert Utf8([e]) == [0xC3, 0x89];
    assert Utf8(['T', e]) == [0x54, 0xC3, 0x89];
  }

  /** The document with base.fleet.nbr_shuttles replaced by v. */
  function WithFleetCount(root: Json, v: int): Json
    requires IsObj(Get(root, "base")) && IsObj(Get(Get(root, "base").value, "fleet"))
  {
    var base := Get(root, "base").value;
    var fleet := Get(base, "fleet").value;
    JObj(root.fields["base" := JObj(base.fields["fleet" := JObj(fleet.fields["nbr_shuttles" := JNum(v)])])])
  }

  /** A disagreement between the two shuttle counts never makes the reader
      fail: any other base count yields the same fleet and demand. */
  lemma CountMismatchOnlyWarns(root: Json, v: int)
    requires ParseParamsAndFleet(root).Ok?
    ensures IsObj(Get(root, "base")) && IsObj(Get(Get(root, "base").value, "fleet"))
    ensures var p := ParseParamsAndFleet(root).value;
      var q := ParseParamsAndFleet(WithFleetCount(root, v));
      && q.Ok?
      && q.value == p.(P := p.P.(nbrShuttles := v))
      && (CountMismatch(q.value) <==> v != p.F.n)
  {
    var base := Get(root, "base").value;
    var fleet := Get(base, "fleet").value;
    var root' := WithFleetCount(root, v);
    var base' := Get(root', "base").value;
    var fleet' := Get(base', "fleet").value;
    assert Get(root', "subproblem") == Get(root, "subproblem");
    assert Get(root', "demand") == Get(root, "demand");
    assert Get(base', "time") == Get(base, "time");
    assert Get(base', "operation") == Get(base, "operation");
    assert Get(fleet', "shuttle_capacity") == Get(fleet, "shuttle_capacity");
    assert Get(fleet', "battery_range") == Get(fleet, "battery_range");
  }

  /** The documented range of `ready` is not enforced: an accepted document
      whose request carries a "time" beyond the horizon (and no "ready")
      is read without complaint, out of range. */
  lemma ReadyRangeUnchecked(root: Json, j: nat)
    requires Accepts(root)
    requires j < |At(root, ["demand", "requests"]).value.items|
    requires var r := At(root, ["demand", "requests"]).value.items[j];
      && !IsNum(Get(r, "ready")) && IsNum(Get(r, "time"))
      && Get(r, "time").value.n > At(root, ["base", "time", "horizon_min"]).value.n
    ensures ParseParamsAndFleet(root).Ok?
    ensures !ReadyWithinHorizon(ParseParamsAndFleet(root).value.P, ParseParamsAndFleet(root).value.D)
  {
    ParseOkIffAccepts(root);
    ParseReadsDocument(root);
    ReadRequestDefaults(At(root, ["demand", "requests"]).value.items[j]);
  }
}
