/**
 * One simulation run: the partition of the grid into housing, transport
 * and work areas, the work location derived from each home location, and
 * the hourly tick loop with its routine dispatch.
 *
 * The agent location map's operations are opaque here. The map keeps, in
 * order, the operations applied to it (`applied`) and its hour counter;
 * the scheduler is specified by the operations it applies.
 */
module Simulation {
  import opened Geography

  /** The values of the constants module that the partition and the scheduler read. */
  datatype Constants = Constants(
    houseAreaRelatedSize: int,
    transportAreaSize: int,
    numberOfHours: int,
    routineStartTime: int,
    routineTravelStartTime: int,
    routineWorkTime: int,
    routineTravelEndTime: int,
    routineWorkEndTime: int,
    routineEndTime: int)

  /** The six routine hours, in the order the dispatch tests them. */
  function RoutineHours(c: Constants): seq<int> {
    [c.routineStartTime, c.routineTravelStartTime, c.routineWorkTime,
     c.routineTravelEndTime, c.routineWorkEndTime, c.routineEndTime]
  }

  predicate ValidConstants(c: Constants) {
    && c.houseAreaRelatedSize > 0
    && c.transportAreaSize >= 0
    && c.numberOfHours > 0
    && (forall k :: 0 <= k < 6 ==> 0 <= RoutineHours(c)[k] < c.numberOfHours)
    && (forall k, l :: 0 <= k < l < 6 ==> RoutineHours(c)[k] != RoutineHours(c)[l])
  }

  /** Rust's `%` on i32: the remainder takes the sign of the dividend. */
  function RustRem(a: int, b: int): int
    requires b > 0
  {
    if a >= 0 then a % b else -((-a) % b)
  }

  // ---------------------------------------------------------------------------
  // The partition of the grid

  /** An inclusive rectangle from `start` to `end`. */
  datatype Area = Area(start: Point, end: Point)

  datatype Areas = Areas(housing: Area, transport: Area, work: Area)

  predicate SpansX(a: Area, x: int) {
    a.start.x <= x <= a.end.x
  }

  /** How many of the three areas contain column x. */
  function AreasSpanning(areas: Areas, x: int): nat {
    (if SpansX(areas.housing, x) then 1 else 0)
    + (if SpansX(areas.transport, x) then 1 else 0)
    + (if SpansX(areas.work, x) then 1 else 0)
  }

  /** `x_offset_for_home` in `Epidemiology::new`. */
  function XOffsetForHome(gridSize: int, c: Constants): int
    requires c.houseAreaRelatedSize > 0
  {
    RustDiv(gridSize, c.houseAreaRelatedSize)
  }

  /** `x_offset_for_work` in `Epidemiology::new`. */
  function XOffsetForWork(gridSize: int, c: Constants): int
    requires c.houseAreaRelatedSize > 0
  {
    XOffsetForHome(gridSize, c) + c.transportAreaSize + 1
  }

  /**
   * `Epidemiology::define_geography`: three rectangles cut along x, each
   * beginning one column after the previous one ends, all spanning y from
   * 0 to gridSize.
   */
  function DefineGeography(gridSize: int, xOffsetForHome: int, xOffsetForWork: int): (areas: Areas)
    ensures areas.housing.start == Point(0, 0) && areas.work.end == Point(gridSize, gridSize)
    ensures areas.housing.end == Point(xOffsetForHome, gridSize)
    ensures areas.transport.start == Point(xOffsetForHome + 1, 0) && areas.transport.end == Point(xOffsetForWork - 1, gridSize)
    ensures areas.work.start == Point(xOffsetForWork, 0)
    ensures areas.housing.end.x + 1 == areas.transport.start.x
    ensures areas.transport.end.x + 1 == areas.work.start.x
    ensures areas.housing.start.y == areas.transport.start.y == areas.work.start.y == 0
    ensures areas.housing.end.y == areas.transport.end.y == areas.work.end.y == gridSize
  {
    Areas(Area(Point(0, 0), Point(xOffsetForHome, gridSize)),
          Area(Point(xOffsetForHome + 1, 0), Point(xOffsetForWork - 1, gridSize)),
          Area(Point(xOffsetForWork, 0), Point(gridSize, gridSize)))
  }

  /** The areas `Epidemiology::new` builds for a grid of `gridSize`. */
  function GeographyOf(gridSize: int, c: Constants): Areas
    requires c.houseAreaRelatedSize > 0
  {
    DefineGeography(gridSize, XOffsetForHome(gridSize, c), XOffsetForWork(gridSize, c))
  }

  /**
   * With h = gridSize / HOUSE_AREA_RELATED_SIZE and
   * w = h + TRANSPORT_AREA_SIZE + 1: housing spans x in 0..h, transport
   * h+1..w-1 (TRANSPORT_AREA_SIZE columns), work w..gridSize; no column
   * lies in two areas, and every column of 0..gridSize lies in one.
   */
  lemma PartitionOfGrid(gridSize: int, c: Constants)
    requires c.houseAreaRelatedSize > 0 && c.transportAreaSize >= 0 && gridSize >= 0
    ensures var h, w := XOffsetForHome(gridSize, c), XOffsetForWork(gridSize, c);
            var areas := GeographyOf(gridSize, c);
            && 0 <= h <= gridSize
            && areas.housing.start.x == 0 && areas.housing.end.x == h
            && areas.transport.start.x == h + 1 && areas.transport.end.x == w - 1
            && areas.transport.end.x - areas.transport.start.x + 1 == c.transportAreaSize
            && areas.work.start.x == w && areas.work.end.x == gridSize
    ensures forall x :: AreasSpanning(GeographyOf(gridSize, c), x) <= 1
    ensures forall x :: 0 <= x <= gridSize ==> AreasSpanning(GeographyOf(gridSize, c), x) == 1
  {
    DivBounds(gridSize, c.houseAreaRelatedSize);
  }

  /**
   * Housing never coincides with transport or work; transport and work
   * coincide exactly when TRANSPORT_AREA_SIZE is 0 and h reaches gridSize.
   */
  lemma GeographyAreasDistinct(gridSize: int, c: Constants)
    requires c.houseAreaRelatedSize > 0 && c.transportAreaSize >= 0 && gridSize >= 0
    ensures var areas := GeographyOf(gridSize, c);
            && areas.housing != areas.transport
            && areas.housing != areas.work
            && (areas.transport == areas.work <==> c.transportAreaSize == 0 && XOffsetForHome(gridSize, c) == gridSize)
  {
    DivBounds(gridSize, c.houseAreaRelatedSize);
  }

  // ---------------------------------------------------------------------------
  // Work locations

  /** The work location of an agent living at `home`: the same y, x shifted by `xOffsetForHome`. */
  function WorkLocation(home: Point, xOffsetForHome: int): Point {
    Point(home.x + xOffsetForHome, home.y)
  }

  /** The work locations of `generate_population`: one per home location, in the same order. */
  function WorkLocations(homes: seq<Point>, xOffsetForHome: int): (works: seq<Point>)
    ensures |works| == |homes|
    ensures forall i :: 0 <= i < |homes| ==> works[i] == WorkLocation(homes[i], xOffsetForHome)
  {
    if homes == [] then [] else [WorkLocation(homes[0], xOffsetForHome)] + WorkLocations(homes[1..], xOffsetForHome)
  }

  /**
   * A home's work location lies in the work area's columns exactly when
   * TRANSPORT_AREA_SIZE + 1 <= home.x <= gridSize - h; in particular a home
   * in the first TRANSPORT_AREA_SIZE + 1 housing columns works outside it.
   */
  lemma WorkLocationInWorkArea(gridSize: int, c: Constants, home: Point)
    requires c.houseAreaRelatedSize > 0
    ensures SpansX(GeographyOf(gridSize, c).work, WorkLocation(home, XOffsetForHome(gridSize, c)).x)
        <==> c.transportAreaSize + 1 <= home.x <= gridSize - XOffsetForHome(gridSize, c)
  {
  }

  // ---------------------------------------------------------------------------
  // The routine and the tick loop as sequences of operations

  /** The three kinds of area agents are sent to; `goto` takes a different area type for each. */
  datatype AreaKind = Housing | Transport | Work

  /** The operations of the agent location map, as labels; a move names the kind of area and its rectangle. */
  datatype Op =
    | Goto(kind: AreaKind, area: Area)
    | MoveAgents
    | UpdateInfections
    | UpdateInfectionDay
    | Quarantine
    | Vaccinate(percentage: real)
    | Deceased
    | IncrementHour

  /** The arm of the dispatch for a given hour of the day; first match wins. */
  function RoutineArm(hour: int, c: Constants, areas: Areas): seq<Op> {
    if hour == c.routineStartTime then [UpdateInfections, UpdateInfectionDay, Quarantine]
    else if hour == c.routineTravelStartTime then [Goto(Transport, areas.transport)]
    else if hour == c.routineWorkTime then [Goto(Work, areas.work)]
    else if hour == c.routineTravelEndTime then [Goto(Transport, areas.transport)]
    else if hour == c.routineWorkEndTime then [Goto(Housing, areas.housing)]
    else if hour == c.routineEndTime then [Deceased]
    else [MoveAgents]
  }

  /** The operations `routine(i)` applies: the arm that i % NUMBER_OF_HOURS selects. */
  function RoutineOps(i: int, c: Constants, areas: Areas): seq<Op>
    requires c.numberOfHours > 0
  {
    RoutineArm(RustRem(i, c.numberOfHours), c, areas)
  }

  /** No arm increments the hour or vaccinates. */
  lemma RoutineArmLabels(hour: int, c: Constants, areas: Areas)
    ensures multiset(RoutineArm(hour, c, areas))[IncrementHour] == 0
    ensures forall op :: op in RoutineArm(hour, c, areas) ==> !op.Vaccinate?
  {
  }

  /** Each arm of the dispatch runs for exactly the hours of the day that select it. */
  lemma RoutineDispatch(i: int, c: Constants, areas: Areas)
    requires ValidConstants(c)
    ensures var hour, ops := RustRem(i, c.numberOfHours), RoutineOps(i, c, areas);
            && (ops == [UpdateInfections, UpdateInfectionDay, Quarantine] <==> hour == c.routineStartTime)
            && (ops == [Goto(Transport, areas.transport)] <==> hour == c.routineTravelStartTime || hour == c.routineTravelEndTime)
            && (ops == [Goto(Work, areas.work)] <==> hour == c.routineWorkTime)
            && (ops == [Goto(Housing, areas.housing)] <==> hour == c.routineWorkEndTime)
            && (ops == [Deceased] <==> hour == c.routineEndTime)
            && (ops == [MoveAgents] <==> hour !in RoutineHours(c))
  {
    var hours := RoutineHours(c);
    assert hours[0] != hours[1] && hours[0] != hours[2] && hours[0] != hours[3] && hours[0] != hours[4] && hours[0] != hours[5];
    assert hours[1] != hours[2] && hours[1] != hours[3] && hours[1] != hours[4] && hours[1] != hours[5];
    assert hours[2] != hours[3] && hours[2] != hours[4] && hours[2] != hours[5];
    assert hours[3] != hours[4] && hours[3] != hours[5] && hours[4] != hours[5];
  }

  lemma MulAtLeastOne(k: int, n: int)
    requires k >= 1 && n > 0
    ensures k * n >= n
  {
    assert k * n == (k - 1) * n + n;
    assert (k - 1) * n >= 0;
  }

  /** The remainder is the unique r in [0, n) with a == q * n + r. */
  lemma ModUnique(a: int, n: int, q: int, r: int)
    requires n > 0 && 0 <= r < n && a == q * n + r
    ensures a % n == r
  {
    var q', r' := a / n, a % n;
    assert a == q' * n + r';
    assert (q - q') * n == r' - r;
    if q > q' {
      MulAtLeastOne(q - q', n);
    } else if q < q' {
      MulAtLeastOne(q' - q, n);
    }
  }

  /** For the non-negative ticks the loop runs, the routine repeats every NUMBER_OF_HOURS ticks. */
  lemma RoutineIsDaily(i: int, c: Constants, areas: Areas)
    requires c.numberOfHours > 0 && i >= 0
    ensures RoutineOps(i + c.numberOfHours, c, areas) == RoutineOps(i, c, areas)
  {
    var n := c.numberOfHours;
    var q, r := i / n, i % n;
    assert i == q * n + r;
    assert i + n == (q + 1) * n + r;
    ModUnique(i + n, n, q + 1, r);
  }

  /** The vaccination campaign of a run: its tick and the percentage passed to `vaccinate`. */
  datatype Vaccination = Vaccination(time: int, percentage: real)

  /** One tick i: increment the hour, run the routine, then vaccinate if i is the vaccination tick. */
  function TickOps(i: int, vaccination: Vaccination, c: Constants, areas: Areas): seq<Op>
    requires c.numberOfHours > 0
  {
    [IncrementHour] + RoutineOps(i, c, areas) + (if i == vaccination.time then [Vaccinate(vaccination.percentage)] else [])
  }

  /**
   * A tick increments the hour once, before its routine, and vaccinates,
   * with the configured percentage, only on the vaccination tick.
   */
  lemma TickCounts(i: int, vaccination: Vaccination, c: Constants, areas: Areas)
    requires c.numberOfHours > 0
    ensures TickOps(i, vaccination, c, areas)[0] == IncrementHour
    ensures multiset(TickOps(i, vaccination, c, areas))[IncrementHour] == 1
    ensures multiset(TickOps(i, vaccination, c, areas))[Vaccinate(vaccination.percentage)] == if i == vaccination.time then 1 else 0
    ensures forall op :: op in TickOps(i, vaccination, c, areas) && op.Vaccinate? ==> op == Vaccinate(vaccination.percentage)
  {
    var routine := RoutineOps(i, c, areas);
    RoutineArmLabels(RustRem(i, c.numberOfHours), c, areas);
    assert Vaccinate(vaccination.percentage) !in routine;
  }

  /** Ticks 1 .. n - 1, in increasing order. */
  function TicksBefore(n: int, vaccination: Vaccination, c: Constants, areas: Areas): seq<Op>
    requires c.numberOfHours > 0
    decreases n
  {
    if n <= 1 then [] else TicksBefore(n - 1, vaccination, c, areas) + TickOps(n - 1, vaccination, c, areas)
  }

  /** Everything `run` applies for a lifetime of `lifeTime` hours: agents go home, then ticks 1 .. lifeTime - 1. */
  function RunOps(lifeTime: int, vaccination: Vaccination, c: Constants, areas: Areas): seq<Op>
    requires c.numberOfHours > 0
  {
    [Goto(Housing, areas.housing)] + TicksBefore(lifeTime, vaccination, c, areas)
  }

  lemma RunOpsStep(i: int, vaccination: Vaccination, c: Constants, areas: Areas)
    requires c.numberOfHours > 0 && i >= 1
    ensures RunOps(i + 1, vaccination, c, areas) == RunOps(i, vaccination, c, areas) + TickOps(i, vaccination, c, areas)
  {
  }

  lemma ConcatAssoc(a: seq<Op>, b: seq<Op>, c: seq<Op>)
    ensures (a + b) + c == a + (b + c)
  {
  }

  /** A lifetime of at most one hour runs no tick: agents are only sent home. */
  lemma RunWithoutTicks(lifeTime: int, vaccination: Vaccination, c: Constants, areas: Areas)
    requires c.numberOfHours > 0 && lifeTime <= 1
    ensures RunOps(lifeTime, vaccination, c, areas) == [Goto(Housing, areas.housing)]
  {
  }

  /** The hour counter is incremented exactly once per tick: max(0, lifeTime - 1) times. */
  lemma {:induction false} RunIncrementsHourPerTick(lifeTime: int, vaccination: Vaccination, c: Constants, areas: Areas)
    requires c.numberOfHours > 0
    ensures multiset(RunOps(lifeTime, vaccination, c, areas))[IncrementHour] == Max(0, lifeTime - 1)
    decreases lifeTime
  {
    if lifeTime > 1 {
      RunIncrementsHourPerTick(lifeTime - 1, vaccination, c, areas);
      RunOpsStep(lifeTime - 1, vaccination, c, areas);
      TickCounts(lifeTime - 1, vaccination, c, areas);
    }
  }

  /**
   * `vaccinate` runs exactly once when 1 <= vaccination time < lifeTime and
   * never otherwise, always with the configured percentage.
   */
  lemma {:induction false} RunVaccinatesOnce(lifeTime: int, vaccination: Vaccination, c: Constants, areas: Areas)
    requires c.numberOfHours > 0
    ensures multiset(RunOps(lifeTime, vaccination, c, areas))[Vaccinate(vaccination.percentage)]
         == if 1 <= vaccination.time < lifeTime then 1 else 0
    ensures forall op :: op in RunOps(lifeTime, vaccination, c, areas) && op.Vaccinate? ==> op == Vaccinate(vaccination.percentage)
    decreases lifeTime
  {
    if lifeTime > 1 {
      RunVaccinatesOnce(lifeTime - 1, vaccination, c, areas);
      RunOpsStep(lifeTime - 1, vaccination, c, areas);
      TickCounts(lifeTime - 1, vaccination, c, areas);
    }
  }

  /** The operations of the first ticks are a prefix of those of a longer run. */
  lemma {:induction false} TicksPrefix(j: int, n: int, vaccination: Vaccination, c: Constants, areas: Areas)
    requires c.numberOfHours > 0 && j <= n
    ensures TicksBefore(j, vaccination, c, areas) <= TicksBefore(n, vaccination, c, areas)
    decreases n - j
  {
    if j < n && n > 1 {
      TicksPrefix(j, n - 1, vaccination, c, areas);
    }
  }

  /**
   * Tick j (1 <= j < lifeTime) occupies one contiguous stretch of the run,
   * right after the initial move home and ticks 1 .. j - 1: its hour
   * increment, then its routine, then (on the vaccination tick) `vaccinate`.
   */
  lemma TickInRun(j: int, lifeTime: int, vaccination: Vaccination, c: Constants, areas: Areas)
    requires c.numberOfHours > 0 && 1 <= j < lifeTime
    ensures var from := 1 + |TicksBefore(j, vaccination, c, areas)|;
            var ops := RunOps(lifeTime, vaccination, c, areas);
            && from + |TickOps(j, vaccination, c, areas)| <= |ops|
            && ops[..from] == RunOps(j, vaccination, c, areas)
            && ops[from..from + |TickOps(j, vaccination, c, areas)|] == TickOps(j, vaccination, c, areas)
  {
    TicksPrefix(j + 1, lifeTime, vaccination, c, areas);
    var start, tick := RunOps(j, vaccination, c, areas), TickOps(j, vaccination, c, areas);
    var ops := RunOps(lifeTime, vaccination, c, areas);
    RunOpsStep(j, vaccination, c, areas);
    assert RunOps(j + 1, vaccination, c, areas) <= ops;
    PrefixParts(start, tick, ops);
  }

  /** When p + q is a prefix of s, s begins with p, and q follows it. */
  lemma PrefixParts(p: seq<Op>, q: seq<Op>, s: seq<Op>)
    requires p + q <= s
    ensures |p| + |q| <= |s| && s[..|p|] == p && s[|p|..|p| + |q|] == q
  {
    assert s[..|p| + |q|] == p + q;
    assert s[..|p|] == (p + q)[..|p|];
    assert s[|p|..|p| + |q|] == (p + q)[|p|..];
  }

  // ---------------------------------------------------------------------------
  // The agent location map and the simulation

  /** A record of the map's counts: the hour counter and everything the map has undergone so far. */
  datatype Row = Row(hour: int, applied: seq<Op>)

  /**
   * The records `run` takes, one after each tick 1 .. n - 1, for a map
   * that starts at `hour0` having undergone `applied0`.
   */
  function Records(hour0: int, applied0: seq<Op>, n: int, vaccination: Vaccination, c: Constants, areas: Areas): seq<Row>
    requires c.numberOfHours > 0
    decreases n
  {
    if n <= 1 then []
    else Records(hour0, applied0, n - 1, vaccination, c, areas) + [Row(hour0 + n - 1, applied0 + RunOps(n, vaccination, c, areas))]
  }

  /** One record per tick; the k-th is taken after tick k + 1 and shows the hour and the run so far. */
  lemma {:induction false} RecordsAt(hour0: int, applied0: seq<Op>, n: int, vaccination: Vaccination, c: Constants, areas: Areas)
    requires c.numberOfHours > 0
    ensures |Records(hour0, applied0, n, vaccination, c, areas)| == Max(0, n - 1)
    ensures forall k :: 0 <= k < Max(0, n - 1) ==>
              Records(hour0, applied0, n, vaccination, c, areas)[k] == Row(hour0 + k + 1, applied0 + RunOps(k + 2, vaccination, c, areas))
    decreases n
  {
    if n > 1 {
      RecordsAt(hour0, applied0, n - 1, vaccination, c, areas);
    }
  }

  /** The agent location map, its operations opaque: it records what was applied to it, in order. */
  class AgentLocationMap {
    const gridSize: int
    const homeLocations: seq<Point>
    const workLocations: seq<Point>
    var hour: int
    var applied: seq<Op>

    constructor (gridSize: int, homeLocations: seq<Point>, workLocations: seq<Point>)
      ensures this.gridSize == gridSize
      ensures this.homeLocations == homeLocations && this.workLocations == workLocations
      ensures hour == 0 && applied == []
    {
      this.gridSize := gridSize;
      this.homeLocations := homeLocations;
      this.workLocations := workLocations;
      hour := 0;
      applied := [];
    }

    method Goto(kind: AreaKind, area: Area)
      modifies this
      ensures applied == old(applied) + [Op.Goto(kind, area)] && hour == old(hour)
    {
      applied := applied + [Op.Goto(kind, area)];
    }

    method MoveAgents()
      modifies this
      ensures applied == old(applied) + [Op.MoveAgents] && hour == old(hour)
    {
      applied := applied + [Op.MoveAgents];
    }

    method UpdateInfections()
      modifies this
      ensures applied == old(applied) + [Op.UpdateInfections] && hour == old(hour)
    {
      applied := applied + [Op.UpdateInfections];
    }

    method UpdateInfectionDay()
      modifies this
      ensures applied == old(applied) + [Op.UpdateInfectionDay] && hour == old(hour)
    {
      applied := applied + [Op.UpdateInfectionDay];
    }

    method Quarantine()
      modifies this
      ensures applied == old(applied) + [Op.Quarantine] && hour == old(hour)
    {
      applied := applied + [Op.Quarantine];
    }

    method Vaccinate(percentage: real)
      modifies this
      ensures applied == old(applied) + [Op.Vaccinate(percentage)] && hour == old(hour)
    {
      applied := applied + [Op.Vaccinate(percentage)];
    }

    method Deceased()
      modifies this
      ensures applied == old(applied) + [Op.Deceased] && hour == old(hour)
    {
      applied := applied + [Op.Deceased];
    }

    /** `counts.increment_hour()`. */
    method IncrementHour()
      modifies this
      ensures hour == old(hour) + 1 && applied == old(applied) + [Op.IncrementHour]
    {
      hour := hour + 1;
      applied := applied + [Op.IncrementHour];
    }

    /** `get_record`: a snapshot of the current state; changes nothing. */
    method GetRecord() returns (row: Row)
      ensures row.hour == hour && row.applied == applied
    {
      row := Row(hour, applied);
    }
  }

  /** `Epidemiology`: the three areas and the agent location map of one run. */
  class Epidemiology {
    const constants: Constants
    const housingArea: Area
    const transportArea: Area
    const workArea: Area
    const agentLocationMap: AgentLocationMap

    function Layout(): Areas {
      Areas(housingArea, transportArea, workArea)
    }

    /**
     * `Epidemiology::new`: the offsets, the areas, and a location map over
     * the given home locations (drawn by a point factory that is not part
     * of this model) and their work locations.
     */
    constructor (gridSize: int, numberOfAgents: int, c: Constants, homeLocations: seq<Point>)
      requires ValidConstants(c)
      requires |homeLocations| == numberOfAgents
      ensures constants == c
      ensures Layout() == GeographyOf(gridSize, c)
      ensures fresh(agentLocationMap)
      ensures agentLocationMap.gridSize == gridSize
      ensures agentLocationMap.homeLocations == homeLocations
      ensures agentLocationMap.workLocations == WorkLocations(homeLocations, XOffsetForHome(gridSize, c))
      ensures agentLocationMap.hour == 0 && agentLocationMap.applied == []
    {
      var xOffsetForHome := RustDiv(gridSize, c.houseAreaRelatedSize);
      var xOffsetForWork := xOffsetForHome + c.transportAreaSize + 1;
      var areas := DefineGeography(gridSize, xOffsetForHome, xOffsetForWork);
      var workLocations := WorkLocations(homeLocations, xOffsetForHome);
      constants := c;
      housingArea := areas.housing;
      transportArea := areas.transport;
      workArea := areas.work;
      agentLocationMap := new AgentLocationMap(gridSize, homeLocations, workLocations);
    }

    /** `routine(i)`: apply the operations of the arm that i % NUMBER_OF_HOURS selects. */
    method Routine(i: int)
      requires constants.numberOfHours > 0
      modifies agentLocationMap
      ensures agentLocationMap.applied == old(agentLocationMap.applied) + RoutineOps(i, constants, Layout())
      ensures agentLocationMap.hour == old(agentLocationMap.hour)
    {
      var hour := RustRem(i, constants.numberOfHours);
      if hour == constants.routineStartTime {
        agentLocationMap.UpdateInfections();
        agentLocationMap.UpdateInfectionDay();
        agentLocationMap.Quarantine();
      } else if hour == constants.routineTravelStartTime {
        agentLocationMap.Goto(Transport, transportArea);
      } else if hour == constants.routineWorkTime {
        agentLocationMap.Goto(Work, workArea);
      } else if hour == constants.routineTravelEndTime {
        agentLocationMap.Goto(Transport, transportArea);
      } else if hour == constants.routineWorkEndTime {
        agentLocationMap.Goto(Housing, housingArea);
      } else if hour == constants.routineEndTime {
        agentLocationMap.Deceased();
      } else {
        agentLocationMap.MoveAgents();
      }
    }

    /** The body of `run`'s loop for tick i, up to taking the record. */
    method Tick(i: int, vaccination: Vaccination)
      requires constants.numberOfHours > 0
      modifies agentLocationMap
      ensures agentLocationMap.applied == old(agentLocationMap.applied) + TickOps(i, vaccination, constants, Layout())
      ensures agentLocationMap.hour == old(agentLocationMap.hour) + 1
    {
      agentLocationMap.IncrementHour();
      Routine(i);
      if i == vaccination.time {
        agentLocationMap.Vaccinate(vaccination.percentage);
      }
    }

    /**
     * `run`: send everyone home, then for each tick i in 1 .. lifeTime - 1
     * increment the hour, run the routine, vaccinate on the vaccination
     * tick, and append a record. Returns the records handed to the writer.
     */
    method Run(simulationLifeTime: int, vaccinationTime: int, vaccinationPercentage: real) returns (records: seq<Row>)
      requires constants.numberOfHours > 0
      modifies agentLocationMap
      ensures agentLocationMap.applied
           == old(agentLocationMap.applied)
            + RunOps(simulationLifeTime, Vaccination(vaccinationTime, vaccinationPercentage), constants, Layout())
      ensures agentLocationMap.hour == old(agentLocationMap.hour) + Max(0, simulationLifeTime - 1)
      ensures records == Records(old(agentLocationMap.hour), old(agentLocationMap.applied), simulationLifeTime,
                                 Vaccination(vaccinationTime, vaccinationPercentage), constants, Layout())
    {
      var vaccination := Vaccination(vaccinationTime, vaccinationPercentage);
      ghost var areas := Layout();
      ghost var hour0, applied0 := agentLocationMap.hour, agentLocationMap.applied;
      records := [];
      agentLocationMap.Goto(Housing, housingArea);
      var i := 1;
      while i < simulationLifeTime
        invariant 1 <= i && (i <= simulationLifeTime || i == 1)
        invariant agentLocationMap.applied == applied0 + RunOps(i, vaccination, constants, areas)
        invariant agentLocationMap.hour == hour0 + i - 1
        invariant records == Records(hour0, applied0, i, vaccination, constants, areas)
      {
        Tick(i, vaccination);
        RunOpsStep(i, vaccination, constants, areas);
        ConcatAssoc(applied0, RunOps(i, vaccination, constants, areas), TickOps(i, vaccination, constants, areas));
        var row := agentLocationMap.GetRecord();
        records := records + [row];
        i := i + 1;
      }
    }
  }
}
