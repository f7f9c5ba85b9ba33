/** DynamicSpeeds.java: the default suppliers, the builder of a dynamic speed
    generator, and the generator itself, whose `generate` simulates traffic
    shockwaves over the road graph. The generator's methods are proved to
    compute what the functions of module ShockwaveSpec describe. */
module DynamicSpeeds {
  import opened Wrappers
  import opened Geom
  import opened ShockwaveSpec

  // ---------------------------------------------------------------------
  // Defaults

  const DefaultNumOfShockwaves: int := 1
  const EightyPercent: real := 0.8
  const TwentyPercent: real := 0.2
  /** 10 km/h in metres per millisecond. */
  const TenKmH: real := 0.002777777777777778
  const FiveKm: real := 5000.0
  const OneAndAHalfHour: int := 5400000
  const ThreeHour: int := 10800000

  /** A stochastic supplier that ignores the number it draws. */
  function Constant<T>(v: T): (s: int -> T)
    ensures forall d :: s(d) == v
  {
    _ => v
  }

  function Max(a: real, b: real): real { if a >= b then a else b }

  function Min(a: real, b: real): real { if a <= b then a else b }

  /** The default behaviour: the factor rises linearly from 0.2 at the
      origin, clamped to [0, 1]. */
  function DefaultBehaviour(x: real): (r: real)
    ensures 0.0 <= r <= 1.0
    ensures r == 1.0 <==> x >= FiveKm
    ensures r == 0.0 <==> x <= -1250.0
    ensures 0.0 <= x <= FiveKm ==> r == TwentyPercent + x * EightyPercent / FiveKm
  {
    Max(0.0, Min(EightyPercent / FiveKm * x + TwentyPercent, 1.0))
  }

  /** The default behaviour never lowers the factor further away from the
      origin. */
  lemma DefaultBehaviourMonotone(x: real, y: real)
    requires x <= y
    ensures DefaultBehaviour(x) <= DefaultBehaviour(y)
  {
    assert EightyPercent / FiveKm * x <= EightyPercent / FiveKm * y;
  }

  /** The suppliers of a fresh builder. */
  ghost predicate IsDefault(cfg: Config) {
    && cfg.graph.None?
    && cfg.startConnections.None?
    && (forall d :: cfg.numberOfShockwaves(d) == DefaultNumOfShockwaves)
    && (forall d :: cfg.creationTimes(d) == 0)
    && (forall d, x :: cfg.behaviour(d)(x) == DefaultBehaviour(x))
    && (forall d :: cfg.eventDurations(d) == ThreeHour)
    && (forall d :: cfg.recedeWaitDurations(d) == OneAndAHalfHour)
    && (forall d, ts :: cfg.expandingSpeed(d)(ts) == TenKmH)
    && (forall d, ts :: cfg.recedingSpeed(d)(ts) == TenKmH)
  }

  /** What the generator handed out by `zeroEvents` returns, whatever it is
      asked: no events. */
  function ZeroEventGenerate(seed: int, scenarioLength: int): (events: seq<Event>)
    ensures |events| == 0
  {
    []
  }

  /** A generator whose configuration is silent behaves as the zero-event
      generator whenever it does not throw. */
  lemma SilentIsZeroEvents(cfg: Config, rng: nat -> int, t: Traversal, seed: int, scenarioLength: int)
    requires Silent(cfg)
    ensures var r := GenerateResult(Generate(cfg, rng, t));
      r.Success? ==> r.value == ZeroEventGenerate(seed, scenarioLength)
  {
  }

  // ---------------------------------------------------------------------
  // The builder

  class Builder {
    var graph: Option<Graph>
    var numberOfShockwaves: int -> int
    var startConnections: Option<int -> Connection>
    var creationTimes: int -> int
    var behaviour: int -> real -> real
    var eventDurations: int -> int
    var recedeWaitDurations: int -> int
    var expandingSpeed: int -> int -> real
    var recedingSpeed: int -> int -> real

    /** The suppliers set so far. */
    function Config(): Config
      reads this
    {
      ShockwaveSpec.Config(graph, numberOfShockwaves, startConnections, creationTimes, behaviour,
        eventDurations, recedeWaitDurations, expandingSpeed, recedingSpeed)
    }

    constructor ()
      ensures IsDefault(Config())
    {
      numberOfShockwaves := Constant(DefaultNumOfShockwaves);
      startConnections := None;
      creationTimes := Constant(0);
      graph := None;
      behaviour := Constant(DefaultBehaviour);
      eventDurations := Constant(ThreeHour);
      recedeWaitDurations := Constant(OneAndAHalfHour);
      expandingSpeed := Constant(Constant(TenKmH));
      recedingSpeed := Constant(Constant(TenKmH));
    }

    method NumberOfShockwaves(num: int -> int) returns (b: Builder)
      modifies this`numberOfShockwaves
      ensures b == this && Config() == old(Config()).(numberOfShockwaves := num)
    {
      numberOfShockwaves := num;
      b := this;
    }

    method StartConnections(conn: int -> Connection) returns (b: Builder)
      modifies this`startConnections
      ensures b == this && Config() == old(Config()).(startConnections := Some(conn))
    {
      startConnections := Some(conn);
      b := this;
    }

    method RandomStartConnections() returns (b: Builder)
      modifies this`startConnections
      ensures b == this && Config() == old(Config()).(startConnections := None)
    {
      startConnections := None;
      b := this;
    }

    method WithGraph(g: Graph) returns (b: Builder)
      modifies this`graph
      ensures b == this && Config() == old(Config()).(graph := Some(g))
    {
      graph := Some(g);
      b := this;
    }

    method ShockwaveBehaviour(f: int -> real -> real) returns (b: Builder)
      modifies this`behaviour
      ensures b == this && Config() == old(Config()).(behaviour := f)
    {
      behaviour := f;
      b := this;
    }

    method ShockwaveExpandingSpeed(speed: int -> int -> real) returns (b: Builder)
      modifies this`expandingSpeed
      ensures b == this && Config() == old(Config()).(expandingSpeed := speed)
    {
      expandingSpeed := speed;
      b := this;
    }

    method ShockwaveRecedingSpeed(speed: int -> int -> real) returns (b: Builder)
      modifies this`recedingSpeed
      ensures b == this && Config() == old(Config()).(recedingSpeed := speed)
    {
      recedingSpeed := speed;
      b := this;
    }

    method ShockwaveWaitForRecedeDurations(times: int -> int) returns (b: Builder)
      modifies this`recedeWaitDurations
      ensures b == this && Config() == old(Config()).(recedeWaitDurations := times)
    {
      recedeWaitDurations := times;
      b := this;
    }

    method ShockwaveEventDurations(times: int -> int) returns (b: Builder)
      modifies this`eventDurations
      ensures b == this && Config() == old(Config()).(eventDurations := times)
    {
      eventDurations := times;
      b := this;
    }

    method CreationTimes(times: int -> int) returns (b: Builder)
      modifies this`creationTimes
      ensures b == this && Config() == old(Config()).(creationTimes := times)
    {
      creationTimes := times;
      b := this;
    }

    /** A new generator with the suppliers set so far; `rng` stands for the
        numbers its new random generator will yield. */
    method Build(rng: nat -> int) returns (g: DefaultDynamicSpeedGenerator)
      ensures fresh(g) && g.cfg == Config() && g.rng == rng
      ensures g.State() == Traversal(0, map[], {})
    {
      g := new DefaultDynamicSpeedGenerator(Config(), rng);
    }
  }

  // ---------------------------------------------------------------------
  // The generator

  class DefaultDynamicSpeedGenerator {
    const cfg: Config
    /** The numbers the random generator yields, in order. */
    const rng: nat -> int
    /** How many numbers have been drawn so far. */
    var drawn: nat
    var expansionMap: map<Connection, seq<Event>>
    var leafNodes: set<Connection>

    function State(): Traversal
      reads this
    {
      Traversal(drawn, expansionMap, leafNodes)
    }

    constructor (cfg: Config, rng: nat -> int)
      ensures this.cfg == cfg && this.rng == rng
      ensures State() == Traversal(0, map[], {})
    {
      this.cfg := cfg;
      this.rng := rng;
      drawn := 0;
      expansionMap := map[];
      leafNodes := {};
    }

    /** `rng.nextLong()`. */
    method NextLong() returns (x: int)
      modifies this`drawn
      ensures x == rng(old(drawn)) && drawn == old(drawn) + 1
    {
      x := rng(drawn);
      drawn := drawn + 1;
    }

    /** The three draws every step starts with: the behaviour factor at the
        connection's midpoint, then the speeds of the expanding and the
        receding front. */
    method DrawSample(s: Step) returns (sm: Sample)
      modifies this`drawn
      ensures sm == SampleStep(cfg, rng, old(drawn), s) && drawn == old(drawn) + 3
    {
      var d0 := NextLong();
      var factor := cfg.behaviour(d0)(s.distance + s.conn.length / 2.0);
      var d1 := NextLong();
      var forwardSpeed := cfg.expandingSpeed(d1)(s.relEx);
      var d2 := NextLong();
      var recedingSpeed := cfg.recedingSpeed(d2)(s.relRe);
      sm := Sample(factor, forwardSpeed, recedingSpeed);
    }

    /** The stop test, whose third condition draws the event duration only
        when the first two fail. */
    method CheckStop(ghost t: Traversal, s: Step, sm: Sample, f: Fronts) returns (stop: bool)
      requires drawn == t.drawn + 3 && expansionMap == t.visited && leafNodes == t.leaves
      requires sm == SampleStep(cfg, rng, t.drawn, s) && f == AdvanceFronts(s, sm)
      modifies this`drawn
      ensures stop == Stops(cfg, rng, t, s) && drawn == t.drawn + StepDraws(sm)
    {
      stop := sm.factor == 1.0 || sm.forwardSpeed == 0.0;
      if !stop {
        var d3 := NextLong();
        stop := f.nextRelEx >= cfg.eventDurations(d3)
          || s.actualEx + f.exJump >= s.actualRe + f.reJump
          || s.conn in expansionMap;
      }
    }

    /** The `for` loop over the upstream points: one step offered per point
        other than the connection's destination, in the graph's order. */
    method OfferUpstream(g: Graph, s: Step, f: Fronts, nextFroms: seq<Point>) returns (offered: seq<Step>)
      requires forall p | p in nextFroms :: HasConnection(g, p, s.conn.from)
      ensures offered == Branch(g, s, f, nextFroms)
    {
      offered := [];
      for i := 0 to |nextFroms|
        invariant offered == Branch(g, s, f, nextFroms[..i])
      {
        assert nextFroms[..i + 1][..i] == nextFroms[..i];
        if nextFroms[i] != s.conn.to {
          var nextConn := GetConnection(g, nextFroms[i], s.conn.from);
          offered := offered + [Step(s.conn, nextConn, f.nextRelEx, f.nextRelRe, f.nextActualEx, f.nextActualRe,
                                     s.distance + s.conn.length)];
        }
      }
      assert nextFroms[..|nextFroms|] == nextFroms;
    }

    /** One simulation step: the events it returns, the steps it offers to
        the queue, in order, and the exception it throws, if any. */
    method SimulateForwardRecedingShockwave(s: Step) returns (events: seq<Event>, offered: seq<Step>, error: Option<Error>)
      modifies this`drawn, this`expansionMap, this`leafNodes
      ensures StepOutcome(State(), events, offered, error) == StepSpec(cfg, rng, old(State()), s)
    {
      ghost var t := State();
      var sm := DrawSample(s);
      var f := AdvanceFronts(s, sm);
      var stop := CheckStop(t, s, sm, f);
      if stop {
        // the origin was the last connection affected
        leafNodes := leafNodes + {s.origin};
        events, offered, error := [], [], None;
      } else {
        events, offered, error := ExpandStep(s, sm, f);
      }
    }

    /** The expanding branch of a step: slow the connection down, record it,
        restore its speed when the receding front moves, and branch
        upstream. */
    method ExpandStep(s: Step, sm: Sample, f: Fronts) returns (events: seq<Event>, offered: seq<Step>, error: Option<Error>)
      requires s.conn !in expansionMap
      modifies this`expansionMap, this`leafNodes
      ensures StepOutcome(State(), events, offered, error) == Expand(cfg.graph, old(State()), s, sm, f)
    {
      var newExEvent := Event(s.actualEx + f.exJump, s.conn, sm.factor);
      events := [newExEvent];
      if s.conn in expansionMap {
        assert false;
      } else {
        expansionMap := expansionMap[s.conn := [newExEvent]];
      }
      if sm.recedingSpeed != 0.0 {
        events := events + [Event(s.actualRe + f.reJump, s.conn, Reciprocal(sm.factor))];
      }
      offered, error := [], None;
      if cfg.graph.None? {
        error := Some(GraphAbsent);
        return;
      }
      var g := cfg.graph.value;
      var nextFroms := Incoming(g, s.conn.from);
      if |nextFroms| == 0 || (|nextFroms| == 1 && nextFroms[0] == s.conn.to) {
        // dead end: no need to branch any further
        leafNodes := leafNodes + {s.conn};
        return;
      }
      offered := OfferUpstream(g, s, f, nextFroms);
    }

    /** The origin of the next shockwave: drawn from the start-connection
        supplier, or a random connection of the graph. */
    method PickStart() returns (r: Result<Connection, Error>)
      modifies this`drawn
      ensures r == PickOrigin(cfg, rng, old(drawn))
      ensures drawn == old(drawn) + (if r.Success? then 1 else 0)
    {
      if cfg.startConnections.Some? {
        var d := NextLong();
        r := Success(cfg.startConnections.value(d));
      } else if cfg.graph.None? {
        r := Failure(GraphAbsent);
      } else if |cfg.graph.value.connections| == 0 {
        r := Failure(EmptyGraph);
      } else {
        var d := NextLong();
        r := Success(cfg.graph.value.connections[d % |cfg.graph.value.connections|]);
      }
    }

    /** One iteration of the `for` loop of `generate`: pick the origin, draw
        the start time, reset the expansion map and the leaves, draw the wait
        before receding, and poll the queue until it is empty. */
    method SimulateShockwave() returns (events: seq<Event>, error: Option<Error>)
      modifies this`drawn, this`expansionMap, this`leafNodes
      ensures RunOutcome(State(), events, error) == Shockwave(cfg, rng, old(State()))
    {
      ghost var t := State();
      var start := PickStart();
      if start.Failure? {
        return [], Some(start.error);
      }
      var conn := start.value;
      var startingTime := NextLong();
      startingTime := cfg.creationTimes(startingTime);
      expansionMap := map[];
      leafNodes := {};
      var wait := NextLong();
      wait := cfg.recedeWaitDurations(wait);
      var queue := [InitialStep(conn, startingTime, wait)];
      ghost var u := Universe(cfg, conn);
      ghost var t0 := State();
      assert t0 == Traversal(t.drawn + 3, map[], {});
      assert InUniverse(u, t0, queue);
      events, error := Drain(u, queue);
      assert RunOutcome(State(), events, error) == RunShockwave(cfg, rng, u, t0, queue);
      ShockwaveUnfold(cfg, rng, t, conn);
    }

    /** The `while (!shockwave.isEmpty())` loop: poll a step, collect its
        events, offer its successors; stop at the first exception. */
    method Drain(ghost u: set<Connection>, queue: seq<Step>) returns (events: seq<Event>, error: Option<Error>)
      requires cfg.graph.Some? ==> forall c | c in cfg.graph.value.connections :: c in u
      requires InUniverse(u, State(), queue)
      modifies this`drawn, this`expansionMap, this`leafNodes
      ensures RunOutcome(State(), events, error) == RunShockwave(cfg, rng, u, old(State()), queue)
    {
      ghost var whole := RunShockwave(cfg, rng, u, State(), queue);
      var pending := queue;
      events := [];
      while pending != []
        invariant InUniverse(u, State(), pending)
        invariant whole == Prepend(events, RunShockwave(cfg, rng, u, State(), pending))
        decreases |u - expansionMap.Keys|, |pending|
      {
        ghost var before := State();
        RunStepUnfold(cfg, rng, u, before, pending);
        var s := pending[0];
        var stepEvents, offered, stepError := SimulateForwardRecedingShockwave(s);
        ghost var so := StepSpec(cfg, rng, before, s);
        assert so.state == State() && so.events == stepEvents && so.successors == offered && so.error == stepError;
        StepProgress(u, before, s, so);
        if stepError.Some? {
          return events + stepEvents, stepError;
        }
        ghost var rest := RunShockwave(cfg, rng, u, so.state, pending[1..] + so.successors);
        assert whole == Prepend(events, Prepend(so.events, rest));
        PrependTwice(events, stepEvents, rest);
        events := events + stepEvents;
        ghost var polled := pending;
        pending := pending[1..] + offered;
        assert || |u - expansionMap.Keys| < |u - before.visited.Keys|
               || (|u - expansionMap.Keys| == |u - before.visited.Keys| && |pending| < |polled|);
        assert InUniverse(u, State(), pending);
        assert whole == Prepend(events, RunShockwave(cfg, rng, u, State(), pending));
      }
      error := None;
    }

    /** `generate`: draw the shockwave count, reject it unless positive, and
        simulate that many shockwaves. The seed and the scenario length are
        never read. */
    method Generate(seed: int, scenarioLength: int) returns (r: Result<seq<Event>, Error>)
      modifies this`drawn, this`expansionMap, this`leafNodes
      ensures var o := ShockwaveSpec.Generate(cfg, rng, old(State()));
        r == GenerateResult(o) && State() == o.state
    {
      var numShockwaves := NextLong();
      numShockwaves := cfg.numberOfShockwaves(numShockwaves);
      if numShockwaves <= 0 {
        return Failure(NonPositiveShockwaveCount(numShockwaves));
      }
      ghost var whole := Shockwaves(cfg, rng, State(), numShockwaves);
      assert whole == ShockwaveSpec.Generate(cfg, rng, old(State()));
      var events := [];
      PrependNothing(whole);
      for i := 0 to numShockwaves
        invariant whole == Prepend(events, Shockwaves(cfg, rng, State(), numShockwaves - i))
      {
        ghost var before := State();
        ShockwavesUnfold(cfg, rng, before, numShockwaves - i);
        var shockEvents, error := SimulateShockwave();
        if error.Some? {
          assert whole == RunOutcome(State(), events + shockEvents, error);
          return Failure(error.value);
        }
        ghost var rest := Shockwaves(cfg, rng, State(), numShockwaves - i - 1);
        PrependTwice(events, shockEvents, rest);
        events := events + shockEvents;
        assert whole == Prepend(events, rest);
      }
      assert whole == RunOutcome(State(), events, None);
      return Success(events);
    }
  }
}
