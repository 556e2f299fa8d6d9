/**
 * The engine's request dispatch: which simulation, if any, a worker
 * starts for each message it receives from the request topic.
 *
 * Messages arrive already parsed (or not); the broker connection and the
 * JSON decoding are not part of this model.
 */
module KafkaConsumer {

  datatype Option<T> = None | Some(value: T)

  /** A simulation configuration, passed through unread. */
  type Config(==)

  /** `SimulationRequest`: a simulation id and the configuration flattened beside it. */
  datatype SimulationRequest = SimulationRequest(simId: string, config: Config)

  /** `SimRequestByEngine`: a request addressed to one engine. */
  datatype SimRequestByEngine = SimRequestByEngine(engineId: string, config: SimulationRequest)

  /** `Request`: one request for whoever reads it, or a fan-out list with one entry per engine. */
  datatype Request =
    | Single(request: SimulationRequest)
    | MultiSimRequest(requests: seq<SimRequestByEngine>)

  /**
   * What `parse_message` yields for one message: an error (skipped), a
   * request, or a message without a payload, on which the `unwrap` of the
   * payload view panics and ends the loop.
   */
  datatype ParseOutcome = ParseError(details: string) | Parsed(request: Request) | NoPayload

  /** A simulation started: `Epidemiology::new` with this id and configuration, then `run`. */
  datatype Run = Run(simId: string, config: Config)

  /** No entry of `requests` is addressed to `engineId`. */
  predicate NoneFor(requests: seq<SimRequestByEngine>, engineId: string) {
    forall j :: 0 <= j < |requests| ==> requests[j].engineId != engineId
  }

  /** The position `iter().find` stops at: the first entry addressed to `engineId`, if any. */
  function FindEntry(requests: seq<SimRequestByEngine>, engineId: string): (r: Option<nat>)
    ensures r.None? <==> NoneFor(requests, engineId)
    ensures r.Some? ==> r.value < |requests| && requests[r.value].engineId == engineId
                        && NoneFor(requests[..r.value], engineId)
  {
    if requests == [] then None
    else if requests[0].engineId == engineId then Some(0)
    else match FindEntry(requests[1..], engineId)
      case None => None
      case Some(i) =>
        assert requests[..i + 1] == [requests[0]] + requests[1..][..i];
        Some(i + 1)
  }

  /**
   * `run_sim`: the run a request starts on the engine `engineId`. A
   * single request always starts one, with its own id and configuration;
   * a fan-out list starts the run of its first entry addressed to this
   * engine, with that entry's inner id and configuration, and none when no
   * entry is.
   */
  function RunSim(request: Request, engineId: string): (r: Option<Run>)
    ensures request.Single? ==> r == Some(Run(request.request.simId, request.request.config))
    ensures request.MultiSimRequest? ==> (r.None? <==> NoneFor(request.requests, engineId))
    ensures request.MultiSimRequest? && r.Some? ==>
              exists j :: 0 <= j < |request.requests|
                       && request.requests[j].engineId == engineId
                       && NoneFor(request.requests[..j], engineId)
                       && r.value == Run(request.requests[j].config.simId, request.requests[j].config.config)
  {
    match request
    case Single(req) => Some(Run(req.simId, req.config))
    case MultiSimRequest(requests) =>
      match FindEntry(requests, engineId)
      case None => None
      case Some(j) => Some(Run(requests[j].config.simId, requests[j].config.config))
  }

  /** The runs one message starts: none for a message that did not parse, else what `run_sim` starts. */
  function RunsFor(message: ParseOutcome, engineId: string): seq<Run> {
    match message
    case ParseError(_) => []
    case NoPayload => []
    case Parsed(request) =>
      match RunSim(request, engineId)
      case None => []
      case Some(run) => [run]
  }

  /**
   * The runs started for `messages`, handled one at a time in arrival
   * order, up to the first message without a payload, where the loop panics.
   */
  function RunsOf(messages: seq<ParseOutcome>, engineId: string): seq<Run>
    decreases |messages|
  {
    if messages == [] then []
    else
      var init := messages[..|messages| - 1];
      if NoPayload in init then RunsOf(init, engineId)
      else RunsOf(init, engineId) + RunsFor(messages[|messages| - 1], engineId)
  }

  /**
   * The runs of two batches of messages are the runs of the first, then,
   * unless the first batch made the loop panic, those of the second.
   */
  lemma {:induction false} RunsOfAppend(a: seq<ParseOutcome>, b: seq<ParseOutcome>, engineId: string)
    ensures RunsOf(a + b, engineId) == RunsOf(a, engineId) + (if NoPayload in a then [] else RunsOf(b, engineId))
    decreases |b|
  {
    if b == [] {
      assert a + b == a;
    } else {
      var init, last := b[..|b| - 1], b[|b| - 1];
      assert (a + b)[..|a + b| - 1] == a + init;
      assert (a + b)[|a + b| - 1] == last;
      RunsOfAppend(a, init, engineId);
      assert NoPayload in a + init <==> NoPayload in a || NoPayload in init;
      if NoPayload !in a {
        var x, y, z := RunsOf(a, engineId), RunsOf(init, engineId), RunsFor(last, engineId);
        if NoPayload in init {
          assert RunsOf(a + b, engineId) == x + y;
          assert RunsOf(b, engineId) == y;
        } else {
          assert RunsOf(a + b, engineId) == (x + y) + z;
          assert RunsOf(b, engineId) == y + z;
          assert (x + y) + z == x + (y + z);
        }
      }
    }
  }

  /** A message without a payload ends the loop: nothing after it is handled. */
  lemma NoPayloadStops(a: seq<ParseOutcome>, b: seq<ParseOutcome>, engineId: string)
    requires NoPayload !in a
    ensures RunsOf(a + [NoPayload] + b, engineId) == RunsOf(a, engineId)
  {
    var stopped := a + [NoPayload];
    assert RunsOf(stopped, engineId) == RunsOf(a, engineId) by {
      assert stopped[..|stopped| - 1] == a;
    }
    assert NoPayload in stopped by {
      assert stopped[|a|] == NoPayload;
    }
    RunsOfAppend(stopped, b, engineId);
  }

  /** Each message starts at most one run. */
  lemma {:induction false} RunsOfBound(messages: seq<ParseOutcome>, engineId: string)
    ensures |RunsOf(messages, engineId)| <= |messages|
    decreases |messages|
  {
    if messages != [] {
      RunsOfBound(messages[..|messages| - 1], engineId);
    }
  }

  /** A message that fails to parse is skipped: the runs are those of the other messages. */
  lemma ParseErrorSkipped(a: seq<ParseOutcome>, details: string, b: seq<ParseOutcome>, engineId: string)
    ensures RunsOf(a + [ParseError(details)] + b, engineId) == RunsOf(a + b, engineId)
  {
    var skipped := a + [ParseError(details)];
    assert RunsOf(skipped, engineId) == RunsOf(a, engineId) by {
      assert skipped[..|skipped| - 1] == a;
    }
    assert NoPayload in skipped <==> NoPayload in a;
    RunsOfAppend(skipped, b, engineId);
    RunsOfAppend(a, b, engineId);
  }

  /**
   * A fan-out list with entries for engine1, engine2 and engine2 again:
   * engine2 starts the first of its two entries, engine3 starts nothing.
   */
  lemma FanOutExample(c1: Config, c2: Config, c3: Config)
    ensures var request := MultiSimRequest([
              SimRequestByEngine("engine1", SimulationRequest("1", c1)),
              SimRequestByEngine("engine2", SimulationRequest("2", c2)),
              SimRequestByEngine("engine2", SimulationRequest("3", c3))]);
            && RunSim(request, "engine2") == Some(Run("2", c2))
            && RunSim(request, "engine3") == None
  {
    var e1 := SimRequestByEngine("engine1", SimulationRequest("1", c1));
    var e2 := SimRequestByEngine("engine2", SimulationRequest("2", c2));
    var e3 := SimRequestByEngine("engine2", SimulationRequest("3", c3));
    var requests := [e1, e2, e3];
    assert "engine1" != "engine2" by { assert "engine1"[6] != "engine2"[6]; }
    assert "engine1" != "engine3" by { assert "engine1"[6] != "engine3"[6]; }
    assert "engine2" != "engine3" by { assert "engine2"[6] != "engine3"[6]; }
    assert requests[1..] == [e2, e3];
    assert FindEntry(requests, "engine2") == Some(1);
    assert NoneFor(requests, "engine3");
  }

  /**
   * `listen_loop`: take the messages in order; report and skip those that
   * did not parse, hand the others to `run_sim`, and stop (the panic) at a
   * message without a payload.
   */
  method ListenLoop(engineId: string, messages: seq<ParseOutcome>) returns (runs: seq<Run>, panicked: bool)
    ensures runs == RunsOf(messages, engineId)
    ensures panicked <==> NoPayload in messages
  {
    runs := [];
    panicked := false;
    var k := 0;
    while k < |messages| && !panicked
      invariant 0 <= k <= |messages|
      invariant runs == RunsOf(messages[..k], engineId)
      invariant panicked <==> NoPayload in messages[..k]
      invariant panicked ==> k > 0 && messages[k - 1] == NoPayload
    {
      var message := messages[k];
      match message {
        case ParseError(_) =>
        case NoPayload =>
          panicked := true;
        case Parsed(request) =>
          var started := RunSim(request, engineId);
          if started.Some? {
            runs := runs + [started.value];
          }
      }
      assert messages[..k + 1][..k] == messages[..k];
      assert messages[..k + 1] == messages[..k] + [message];
      k := k + 1;
    }
    if panicked {
      assert messages == messages[..k] + messages[k..];
      RunsOfAppend(messages[..k], messages[k..], engineId);
    } else {
      assert messages[..k] == messages;
    }
  }
}
