# epirust core in Dafny

This project models the sequential core of epirust, an agent-based
epidemic simulator. It covers four pieces:

- **Grid geometry** (`geography.dfy`, module `Geography`):
  - the 8-connected neighbourhood of a cell, clipped to the grid or to a rectangle;
  - the rejection sampler that draws pairwise-distinct home locations;
  - the housing-area rectangle.
- **One simulation run** (`epidemiology_simulation.dfy`, module `Simulation`):
  - the partition of the grid along x into housing, transport and work areas;
  - the work location derived from each home;
  - the hourly tick loop and the routine that dispatches on the hour of the day.
- **The hotspot tracker** (`disease_tracker.dfy`, module `DiseaseTracker`): a per-cell infection counter kept in a map.
- **The engine's request dispatch** (`kafka_consumer.dfy`, module `KafkaConsumer`): which simulation, if any, a worker starts for each message it receives.

The neighbour enumerations, the sampler, the tick loop, the routine, the
tracker update and the message loop are methods. Each method is proved
against a specification function: `NeighborsWithin`, `Accepted`, `RunOps`,
`RoutineOps`, `Tally` and `RunsOf`. Lemmas about those functions state what
the code promises: membership, order, size, counting, dispatch and
concatenation.

Conventions:

- **Constants are parameters.** The values of the constants module are
  inputs: `houseRelatedSize`, and the `Constants` record for the
  simulation. The model requires only what the code relies on:
  - positive divisors;
  - a non-negative transport width;
  - six distinct routine hours in `[0, NUMBER_OF_HOURS)`.
- **Truncating arithmetic.** i32 `/` and `%` truncate toward zero in Rust.
  `RustDiv` and `RustRem` model this, so negative grid sizes and negative
  ticks follow the source.
- **Opaque map operations.** The agent location map's operations are
  labels (`Op`). The map records, in order, the operations applied to it,
  along with its hour counter.
- **Version skew.** `src/epidemiology_simulation.rs` imports `HousingArea`
  and `point_factory` from the modules `geography::housing_area` and
  `geography::point`, and calls them as `HousingArea::new(start, end)` and
  `point_factory(start, end, n)`. Those modules are not part of this model.
  Their signatures differ from the ones in `src/epidemiology_geography.rs`,
  which are `HousingArea::new(grid_size)` and `point_factory(size, n)`. Each
  file is modelled as written:
  - the simulation's areas are plain rectangles (`Simulation.Area`);
  - its home locations are an input of `Epidemiology`'s constructor.

## Model

| member | source | states |
|---|---|---|
| Geography.NeighborsWithinMembers | src/epidemiology_geography.rs:47-72 | a point is enumerated iff it is not the centre and lies in [max(start.x, x-1), min(x+1, end.x)] x [max(start.y, y-1), min(y+1, end.y)] |
| Geography.NeighborsWithinOrdered | src/epidemiology_geography.rs:50-69 | the enumeration is strictly row-major (x ascending, then y ascending), hence without duplicates |
| Geography.NeighborsWithinLength | src/epidemiology_geography.rs:47-72 | the count is the clipped block's width times height, minus one when the centre lies in the rectangle; never more than 8 |
| Geography.NeighborsWithinTestValues | src/epidemiology_geography.rs:126-134 | (1,1) in (0,0)-(2,2) has 8 neighbours, (1,2) has 5 |
| Geography.NeighborCellsBounds | src/epidemiology_geography.rs:23-37 | `get_neighbor_cells` never yields the centre; every point is within max(0, c-1)..min(c+1, size-1) on both axes |
| Geography.NeighborCellsCount | src/epidemiology_geography.rs:20-45 | at most 8 neighbours, and exactly 8 iff 1 <= x <= size-2 and 1 <= y <= size-2 |
| Geography.GetNeighborWithin | src/epidemiology_geography.rs:47-72 | the nested loops push exactly the sequence `NeighborsWithin(p, start, end)` |
| Geography.GetNeighborCells | src/epidemiology_geography.rs:20-45 | the nested loops push exactly `NeighborsWithin(p, (0,0), (size-1, size-1))` |
| Geography.AcceptedMembers | src/epidemiology_geography.rs:81-90 | a point is kept iff it was drawn |
| Geography.AcceptedDistinct | src/epidemiology_geography.rs:81-90 | the kept points are pairwise distinct |
| Geography.AcceptedPrefix | src/epidemiology_geography.rs:88-89 | kept points are only appended: the points kept after k draws are a prefix of those kept later |
| Geography.AcceptedOfDistinct | src/epidemiology_geography.rs:81-90 | draws that are pairwise distinct are all kept, in order |
| Geography.AcceptedSize | src/epidemiology_geography.rs:81-90 | the number of kept points is the number of distinct cells drawn |
| Geography.GridCells | src/epidemiology_geography.rs:79-80 | the row-major sweep of the grid has size*size cells |
| Geography.GridCellsFacts | src/epidemiology_geography.rs:79-80 | the sweep is duplicate-free and contains exactly the cells with both coordinates in [0, size) |
| Geography.PointFactoryCanFill | src/epidemiology_geography.rs:75-93 | when n <= size*size there are on-grid draws that make the sampler keep exactly n points |
| Geography.PointFactoryCapacity | src/epidemiology_geography.rs:78-91 | draws on the grid never yield more than size*size kept points |
| Geography.PointFactory | src/epidemiology_geography.rs:75-93 | the loop returns the points kept from the draws it consumed; it stops at n points or when draws run out; the points are distinct and on the grid; no draw is consumed after n points are kept |
| Geography.NewHousingArea | src/epidemiology_geography.rs:102-104 | start (0,0), end y = grid size; for grid >= 0 end x is the quotient: end.x*HOUSE_RELATED_SIZE <= grid < (end.x+1)*HOUSE_RELATED_SIZE |
| Geography.HousingAreaTestValue | src/epidemiology_geography.rs:118-123 | grid 5 gives end (2,5) iff HOUSE_RELATED_SIZE is 2 |
| Geography.GetHouseDimensions | src/epidemiology_geography.rs:106-108 | equals the neighbour enumeration within the area; `size` is ignored |
| Geography.HouseDimensionsReachRowGridSize | src/epidemiology_geography.rs:103-107 | the end corner is inclusive: a home on row grid-1 is offered the cell on row grid |
| Simulation.DefineGeography | src/epidemiology_simulation.rs:61-66 | housing is (0,0)..(home offset, grid), transport (home offset+1, 0)..(work offset-1, grid), work (work offset, 0)..(grid, grid); each area starts one column after the previous ends; all span y 0..grid |
| Simulation.PartitionOfGrid | src/epidemiology_simulation.rs:23-64 | with h = grid/HOUSE_AREA_RELATED_SIZE and w = h+TRANSPORT_AREA_SIZE+1: housing spans x 0..h, transport h+1..w-1 (TRANSPORT_AREA_SIZE columns), work w..grid; no column is in two areas and every column 0..grid is in one |
| Simulation.GeographyAreasDistinct | src/epidemiology_simulation.rs:61-66 | housing differs from transport and work; transport equals work iff TRANSPORT_AREA_SIZE = 0 and h = grid |
| Simulation.WorkLocations | src/epidemiology_simulation.rs:72-73 | one work location per home, in order, same y, x shifted by h |
| Simulation.WorkLocationInWorkArea | src/epidemiology_simulation.rs:72-73 | a work location lies in the work area's columns iff TRANSPORT_AREA_SIZE+1 <= home.x <= grid-h |
| Simulation.RoutineArmLabels | src/epidemiology_simulation.rs:79-91 | no arm of the routine increments the hour or vaccinates |
| Simulation.RoutineDispatch | src/epidemiology_simulation.rs:79-91 | each arm runs iff its hour is selected: start hour runs update_infections, update_infection_day, quarantine; travel start/end go to the transport area; work time to the work area; work end to the housing area (moves are labelled by the kind of area, so they stay distinct even when two rectangles coincide); end time runs deceased; every other hour runs move_agents |
| Simulation.RoutineIsDaily | src/epidemiology_simulation.rs:79 | for non-negative ticks the routine repeats every NUMBER_OF_HOURS ticks |
| Simulation.TickCounts | src/epidemiology_simulation.rs:40-46 | a tick starts with the hour increment, increments once, and vaccinates (with the given percentage) only on the vaccination tick |
| Simulation.RunOpsStep | src/epidemiology_simulation.rs:39-46 | each tick appends its own operations after those of the earlier ticks |
| Simulation.RunWithoutTicks | src/epidemiology_simulation.rs:38-39 | a lifetime <= 1 runs no tick: agents only go home |
| Simulation.RunIncrementsHourPerTick | src/epidemiology_simulation.rs:39-40 | the hour is incremented exactly max(0, lifetime-1) times |
| Simulation.RunVaccinatesOnce | src/epidemiology_simulation.rs:44-46 | vaccinate runs exactly once if 1 <= vaccination_time < lifetime, never otherwise, always with the given percentage |
| Simulation.TicksPrefix | src/epidemiology_simulation.rs:39 | ticks run in increasing order: the operations of the first ticks are a prefix of a longer run's |
| Simulation.TickInRun | src/epidemiology_simulation.rs:38-46 | tick j occupies one contiguous stretch, right after the move home and ticks 1..j-1 |
| Simulation.RecordsAt | src/epidemiology_simulation.rs:39-49 | max(0, lifetime-1) records; record k is taken after tick k+1's routine and vaccination, with hour start+k+1 |
| Simulation.AgentLocationMap.constructor | src/epidemiology_simulation.rs:29 | the map holds the grid size, homes and work locations, at hour 0 with nothing applied |
| Simulation.AgentLocationMap.Goto | src/epidemiology_simulation.rs:38 | records a move of agents to the given area, labelled with its kind (housing, transport or work) |
| Simulation.AgentLocationMap.MoveAgents | src/epidemiology_simulation.rs:90 | records a move step |
| Simulation.AgentLocationMap.UpdateInfections | src/epidemiology_simulation.rs:81 | records an infection update |
| Simulation.AgentLocationMap.UpdateInfectionDay | src/epidemiology_simulation.rs:82 | records an infection-day update |
| Simulation.AgentLocationMap.Quarantine | src/epidemiology_simulation.rs:83 | records a quarantine step |
| Simulation.AgentLocationMap.Vaccinate | src/epidemiology_simulation.rs:45 | records a vaccination with its percentage |
| Simulation.AgentLocationMap.Deceased | src/epidemiology_simulation.rs:89 | records a deceased step |
| Simulation.AgentLocationMap.IncrementHour | src/epidemiology_simulation.rs:40 | advances the hour by one |
| Simulation.AgentLocationMap.GetRecord | src/epidemiology_simulation.rs:49 | a snapshot of the hour and the operations so far; changes nothing |
| Simulation.Epidemiology.constructor | src/epidemiology_simulation.rs:21-31 | areas are the partition of the grid; the map gets the homes and their work locations |
| Simulation.Epidemiology.Routine | src/epidemiology_simulation.rs:78-92 | applies exactly the selected arm's operations; the hour is unchanged |
| Simulation.Epidemiology.Tick | src/epidemiology_simulation.rs:40-46 | applies one tick's operations; the hour goes up by one |
| Simulation.Epidemiology.Run | src/epidemiology_simulation.rs:34-59 | applies `RunOps` (move home, then ticks 1..lifetime-1); the hour goes up by max(0, lifetime-1); the records are `Records` |
| DiseaseTracker.Increment | src/disease_tracker.rs:24-27 | the counter of the cell goes up by one, created at 1 when missing; the keys gain only that cell; other counters are unchanged |
| DiseaseTracker.TallyCounts | src/disease_tracker.rs:24-27 | after a sequence of reports, the keys are the reported cells and each counter is that cell's number of reports |
| DiseaseTracker.TallySum | src/disease_tracker.rs:24-27 | the counters add up to the number of reports |
| DiseaseTracker.Hotspot.constructor | src/disease_tracker.rs:11-14 | a new tracker has an empty map |
| DiseaseTracker.Hotspot.CountsUpdated | src/disease_tracker.rs:18-19 | leaves the map unchanged |
| DiseaseTracker.Hotspot.SimulationEnded | src/disease_tracker.rs:21-22 | leaves the map unchanged |
| DiseaseTracker.Hotspot.CitizenGotInfected | src/disease_tracker.rs:24-27 | the map is `Increment(old map, cell)`; it stays the tally of all reports, whose counters sum to the number of reports |
| DiseaseTracker.ShouldInitialize | src/disease_tracker.rs:41-45 | a new tracker has 0 entries |
| DiseaseTracker.ShouldAddNewEntry | src/disease_tracker.rs:47-55 | one report in (0,1) gives that cell the counter 1 |
| DiseaseTracker.ShouldUpdateTracker | src/disease_tracker.rs:57-66 | two reports in (0,1) give that cell the counter 2 |
| KafkaConsumer.FindEntry | engine/src/kafka_consumer.rs:59 | None iff no entry is addressed to the engine; otherwise the lowest index addressed to it |
| KafkaConsumer.RunSim | engine/src/kafka_consumer.rs:52-70 | a single request always starts its own run; a fan-out list starts none iff no entry matches, else the run of the first matching entry with that entry's inner id and config |
| KafkaConsumer.RunsOfAppend | engine/src/kafka_consumer.rs:38-49 | the runs for two batches of messages are the first batch's runs followed, unless the first batch held a message without a payload, by the second's |
| KafkaConsumer.RunsOfBound | engine/src/kafka_consumer.rs:38-49 | each message starts at most one run |
| KafkaConsumer.ParseErrorSkipped | engine/src/kafka_consumer.rs:39-44 | a message whose decoding fails starts no run, and the loop goes on |
| KafkaConsumer.NoPayloadStops | engine/src/kafka_consumer.rs:74 | a message without a payload panics in `unwrap`: no message after it is handled |
| KafkaConsumer.FanOutExample | engine/src/kafka_consumer.rs:58-68 | with entries engine1, engine2, engine2: engine2 runs the first of its entries, engine3 runs nothing |
| KafkaConsumer.ListenLoop | engine/src/kafka_consumer.rs:36-50 | the loop starts exactly `RunsOf(messages)`: each message's runs, in arrival order, up to the first message without a payload; it panics iff there is one |

## Left out

- i32 overflow: coordinates, offsets and counters are unbounded integers.
  - No neighbour computation near i32 bounds wraps.
  - No counter overflow in `citizen_got_infected` is modelled.
- Geography.PointFactory: the random generator is a finite sequence of draws, and the model stops when the draws run out. The source keeps drawing until n points are kept, so it never terminates when size*size < n. The "Duplicate" message is not modelled.
- Geography.PointFactory: two panics of the source are not modelled:
  - A negative `number_of_points` makes `Vec::with_capacity(number_of_points as usize)` fail with a capacity overflow. The model takes `numberOfPoints` as a `nat`.
  - When size <= 0 and n >= 1, `gen_range(0, size)` panics on its empty range. In the model no draw can lie on such a grid, so `PointFactory` returns no points.
- Simulation.AgentLocationMap: the bodies of the agent location map's operations and of `citizen_factory` are not part of this model. Each operation only records its label; work locations are kept in the map instead of in the agents.
- Simulation.AgentLocationMap.constructor: the hour counter's starting value of 0 is assumed, since the counts type is not part of this model.
- Simulation.Epidemiology.constructor: home locations are an input, because the three-argument `point_factory` it calls is not part of this model.
- Simulation.Epidemiology.Run:
  - the `f64` vaccination percentage is a `real` passed through unread;
  - the CSV writer and its error report are left out, and the records are returned instead;
  - `SystemTime` timing and the `println!` lines are left out.
- DiseaseTracker.Counts: the counts type of the events module is not part of this model; `counts_updated` ignores its argument.
- `as_any` in the hotspot tracker: run-time type inspection with no behaviour to state.
- `KafkaConsumer::new` and the message stream: the broker connection, subscription and async stream are left out; messages arrive as a sequence.
- `parse_message`: `payload_view`, `serde_json` decoding and untagged-enum disambiguation are not modelled. The parse outcome is an input (`ParseOutcome`), and a `Config` is passed through unread. A message without a payload is the outcome `NoPayload`: the `unwrap` panics there, ending `listen_loop` and the worker. A receive error or a payload that is not UTF-8 is a `ParseError` and is skipped.
- `Epidemiology::new(&config, sim_id)` and `run(&config)`: `engine/src/main.rs:93-94` and the consumer call a different `Epidemiology::new`/`run` than the `new(grid_size, number_of_agents)` and `run(simulation_life_time, …)` that `src/epidemiology_simulation.rs:21,34` defines. A started run is recorded as `Run(simId, config)`.
- The command-line entry point, the synthetic population (floating-point iterative proportional fitting) and the request producer are not part of this model.
