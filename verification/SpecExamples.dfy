/** Concrete specs that validate and do not do what they say: two system inputs of which one is
diverted, and a load that throws. */
module SpecExamples {
  import opened Json
  import opened UnitParams
  import opened SpecModel
  import opened LiveSystem
  import opened SpecTheorems
  import opened Wrappers

  function EmptySys(): Sys {
    Sys(map[], map[], 1, {}, map[], map[], 0)
  }

  lemma NothingToCheck()
    ensures ParamsOk([], Null) && IsParsedFactor(1)
  {
    ParamsOkMeans([], Null);
    assert ToInt32(1) == 1;
  }

  // ---------------------------------------------------------------- a diverted input

  function Data(): PortDescriptor {
    PortDescriptor(0, "d", Input, Sync, "t", false)
  }

  function Control(): PortDescriptor {
    PortDescriptor(0, "c", Input, Async, "t", true)
  }

  function Live(d: PortDescriptor): LivePort {
    LivePort(d.index, d.name, d.direction, d.kind, d.dataType)
  }

  /** One unit "u" with a sync input "d" and a required async input "c", both numbered 0. */
  function TwinFactory(): Factory {
    map["k" := UnitType([Data(), Control()], [])]
  }

  function TwinUnit(): LiveUnit {
    LiveUnit(7, [Live(Data()), Live(Control())])
  }

  function TwinBuilds(): seq<Build> {
    [Builds(TwinUnit(), false)]
  }

  /** Both inputs are system inputs. */
  function TwinSpec(): Spec {
    Spec([SpecUnit("u", "k", Null, 1)], [], map["x" := "u.d", "y" := "u.c"], map[], [], 0)
  }

  lemma ShortRef(port: string)
    requires port == "d" || port == "c"
    ensures IsValidPortRef("u." + port) && SplitPortRef("u." + port) == PortName("u", port)
    ensures "u." + port == JoinPortRef("u", port)
  {
    var s := "u." + port;
    assert s[0] == 'u' && s[1] == '.' && s[2] == port[0] && |s| == 3;
    assert FindDot(s, 1) == 1 && FindDot(s, 0) == 1;
    assert FindDot(s, 3) == 3 && FindDot(s, 2) == 3;
    assert s[..1] == "u" && s[2..] == port;
    assert "u" + "." + port == s;
  }

  lemma TwinRefs()
    ensures "u.d" == "u." + "d" && "u.c" == "u." + "c"
    ensures IsValidPortRef("u.d") && SplitPortRef("u.d") == PortName("u", "d")
    ensures IsValidPortRef("u.c") && SplitPortRef("u.c") == PortName("u", "c")
    ensures JoinPortRef("u", "d") == "u.d" && JoinPortRef("u", "c") == "u.c"
  {
    assert "u.d" == "u." + "d" && "u.c" == "u." + "c";
    ShortRef("d");
    ShortRef("c");
  }

  lemma TwinPortsResolve()
    ensures ResolvePort(TwinSpec(), TwinFactory(), "u.d") == Some(Data())
    ensures ResolvePort(TwinSpec(), TwinFactory(), "u.c") == Some(Control())
  {
    TwinRefs();
    var units := TwinSpec().units;
    assert units[..0] == [] && TypesByName(units[..0]) == map[];
    assert TypesByName(units) == map["u" := "k"];
    var ports := TwinFactory()["k"].ports;
    assert ports[1..] == [Control()] && "d" != "c";
    assert FindPort(ports, "c") == FindPort(ports[1..], "c");
  }

  lemma TwinSpecIsParsed()
    ensures Parsed(TwinSpec())
  {
    TwinRefs();
    NothingToCheck();
  }

  lemma TwinWiredOnce()
    ensures InputsWiredOnce(TwinSpec())
  {
    assert "u.d"[2] != "u.c"[2];
  }

  lemma TwinSpecIsValid()
    ensures ValidSpec(TwinSpec(), TwinFactory())
  {
    TwinRefs();
    TwinPortsResolve();
    NothingToCheck();
    var spec := TwinSpec();
    assert spec.inputs["y"] == JoinPortRef("u", "c");
    assert UnitOk(TwinFactory(), spec.units[0]);
    TwinWiredOnce();
    assert Wired(spec, "u.c");
    assert RequiredInputsWired(spec, TwinFactory(), spec.units[0]);
  }

  lemma TwinExposes()
    ensures Exposes(TwinUnit(), TwinFactory()["k"])
  {
    var u, t := TwinUnit(), TwinFactory()["k"];
    assert u.ports[0].name[0] != u.ports[1].name[0];
    assert Matches(u.ports[0], t.ports[0]) && Matches(u.ports[1], t.ports[1]);
    assert HasPort(u, t.ports[0]) && HasPort(u, t.ports[1]);
  }

  lemma TwinIsFaithful()
    ensures Faithful(TwinSpec(), TwinFactory(), TwinBuilds()) && FreshHandles(TwinBuilds(), EmptySys())
  {
    TwinExposes();
    assert FaithfulAt(TwinSpec(), TwinFactory(), TwinBuilds(), 0);
  }

  lemma TwinSetting()
    ensures Setting(TwinSpec(), TwinFactory(), TwinBuilds()) && FreshHandles(TwinBuilds(), EmptySys())
  {
    TwinSpecIsParsed();
    TwinSpecIsValid();
    TwinIsFaithful();
  }

  lemma TwinNames()
    ensures AllNames(TwinSpec(), TwinBuilds()) == map["u" := TwinUnit()]
  {
    TwinSetting();
    assert Names(TwinSpec(), TwinBuilds(), 0) == map[];
  }

  lemma TwinAssignments()
    ensures var names := map["u" := TwinUnit()];
            && ResolveLive(names, "u.c") == Some(PortRef(7, Live(Control())))
            && Assigned(names, "u.c", Input) == Some(PortRef(7, Live(Data())))
            && Assigned(names, "u.d", Input) == Some(PortRef(7, Live(Data())))
  {
    TwinRefs();
    var ports := TwinUnit().ports;
    assert ports[1..] == [Live(Control())] && "d" != "c";
    assert FindByName(ports, "c") == FindByName(ports[1..], "c");
    assert FindById(ports, 0, Input, Sync) == Some(Live(Data()));
  }

  /** A parsed, valid spec with a faithful unit in which both system inputs end at the sync input:
      that one gets two sources, and the required async input gets none. */
  lemma AsyncInputIsMissed()
    ensures Setting(TwinSpec(), TwinFactory(), TwinBuilds()) && FreshHandles(TwinBuilds(), EmptySys())
    ensures var inputs := NewInputs(TwinSpec(), TwinBuilds());
            && "x" in inputs && "y" in inputs
            && inputs["x"] == inputs["y"] == PortRef(7, Live(Data()))
    ensures !AtMostOneSource(NewWires(TwinSpec(), TwinBuilds()), NewInputs(TwinSpec(), TwinBuilds()), PortRef(7, Live(Data())))
    ensures !HasSource(NewWires(TwinSpec(), TwinBuilds()), NewInputs(TwinSpec(), TwinBuilds()), PortRef(7, Live(Control())))
  {
    TwinSetting();
    TwinSources();
    TwoForOne(NewInputs(TwinSpec(), TwinBuilds()), PortRef(7, Live(Data())));
  }

  lemma TwoForOne(inputs: map<string, PortRef>, p: PortRef)
    requires inputs == map["x" := p, "y" := p]
    ensures "x" in inputs && "y" in inputs && inputs["x"] == inputs["y"] == p
    ensures !AtMostOneSource({}, inputs, p) && forall q :: q != p ==> !HasSource({}, inputs, q)
  {
    assert "x"[0] != "y"[0];
  }

  lemma TwinSources()
    ensures NewInputs(TwinSpec(), TwinBuilds()) == map["x" := PortRef(7, Live(Data())), "y" := PortRef(7, Live(Data()))]
    ensures NewWires(TwinSpec(), TwinBuilds()) == {}
  {
    TwinNames();
    TwinAssignments();
    assert "x"[0] != "y"[0];
  }

  // ------------------------------------------------------------------ a load that throws

  function PlainFactory(): Factory {
    map["k" := UnitType([], [])]
  }

  function PlainBuilds(): seq<Build> {
    [Builds(LiveUnit(1, []), false), Builds(LiveUnit(2, []), false)]
  }

  /** Two units without ports; the second is to run every 2^32 ticks. */
  function SlowSpec(): Spec {
    Spec([SpecUnit("a", "k", Null, 1), SpecUnit("b", "k", Null, ToInt32(0x1_0000_0000))], [], map[], map[], [], 0)
  }

  lemma SlowIsParsed()
    ensures Parsed(SlowSpec())
  {
    NothingToCheck();
    var spec := SlowSpec();
    assert spec.units[0].name[0] != spec.units[1].name[0];
    assert IsParsedFactor(spec.units[1].downSampling);
  }

  lemma SlowIsValid()
    ensures ValidSpec(SlowSpec(), PlainFactory())
    ensures UnitOk(PlainFactory(), SlowSpec().units[0]) && UnitOk(PlainFactory(), SlowSpec().units[1])
  {
    NothingToCheck();
  }

  lemma PlainIsFaithful()
    ensures Faithful(SlowSpec(), PlainFactory(), PlainBuilds()) && FreshHandles(PlainBuilds(), EmptySys())
  {
    var spec := SlowSpec();
    assert FaithfulAt(spec, PlainFactory(), PlainBuilds(), 0) && FaithfulAt(spec, PlainFactory(), PlainBuilds(), 1);
  }

  /** A parsed, valid spec, with units as described, room for them, nothing to inject and nothing
      to wire, whose load throws at the second unit - and leaves the first one registered. */
  lemma ValidSpecThrows(max: nat)
    requires max >= 2
    ensures Setting(SlowSpec(), PlainFactory(), PlainBuilds())
    ensures ValidSys(EmptySys()) && FreshHandles(PlainBuilds(), EmptySys())
    ensures Throws(SlowSpec(), PlainFactory(), PlainBuilds(), EmptySys(), max, 1)
    ensures |WithUnits(EmptySys(), PlainBuilds(), 1).units| == 1
  {
    SlowIsParsed();
    SlowIsValid();
    PlainIsFaithful();
    var spec := SlowSpec();
    FactorSurvivesCast(0x1_0000_0000);
    assert UnitLoads(spec, PlainFactory(), PlainBuilds(), EmptySys(), max, 0);
    assert WithUnits(EmptySys(), PlainBuilds(), 0) == EmptySys();
    assert WithUnits(EmptySys(), PlainBuilds(), 1).units == map[1 := LiveUnit(1, [])];
  }
}
