/** The shockwave traversal of DynamicSpeeds.java as pure functions: what one
    simulation step, one shockwave and one call of `generate` compute, given the
    generator's configuration and the stream of numbers its random generator
    yields. The class in dynamic_speeds.dfy is proved to compute exactly these. */
module ShockwaveSpec {
  import opened Wrappers
  import opened Geom

  /** A directed road connection with its length. */
  datatype Connection = Connection(from: Point, to: Point, length: real)

  /** The road graph: its connections, in the order the graph lists them. */
  datatype Graph = Graph(connections: seq<Connection>)

  /** ChangeConnectionSpeedEvent: from `time` on, the speed of `conn` is
      multiplied by `factor`. */
  datatype Event = Event(time: int, conn: Connection, factor: real)

  /** Why `generate` throws: a drawn shockwave count that is not positive
      (IllegalArgumentException), a graph that was never set
      (IllegalStateException of Optional.get), an empty graph to pick a
      random start connection from. */
  datatype Error = NonPositiveShockwaveCount(found: int) | GraphAbsent | EmptyGraph

  /** A stochastic supplier draws its value from one number of the random
      stream; these are the suppliers a built generator holds. */
  datatype Config = Config(
    graph: Option<Graph>,
    numberOfShockwaves: int -> int,
    startConnections: Option<int -> Connection>,
    creationTimes: int -> int,
    behaviour: int -> real -> real,
    eventDurations: int -> int,
    recedeWaitDurations: int -> int,
    expandingSpeed: int -> int -> real,
    recedingSpeed: int -> int -> real)

  /** ShockwaveSimulation: one pending step. `origin` is the connection the
      step was reached from (the origin connection itself for the first
      step). The scenario length it also carries is never read. */
  datatype Step = Step(
    origin: Connection,
    conn: Connection,
    relEx: int,
    relRe: int,
    actualEx: int,
    actualRe: int,
    distance: real)

  /** The generator state one shockwave works on: how many numbers have been
      drawn from the random stream, the expansion map and the leaf set. */
  datatype Traversal = Traversal(
    drawn: nat,
    visited: map<Connection, seq<Event>>,
    leaves: set<Connection>)

  /** What one step does: the new state, the events it returns, the steps it
      offers to the queue, and the exception it throws, if any. */
  datatype StepOutcome = StepOutcome(
    state: Traversal,
    events: seq<Event>,
    successors: seq<Step>,
    error: Option<Error>)

  /** What a run of steps does: the final state, the events collected and the
      exception that ended it, if any. */
  datatype RunOutcome = RunOutcome(
    state: Traversal,
    events: seq<Event>,
    error: Option<Error>)

  // ---------------------------------------------------------------------
  // Graph queries

  ghost predicate HasConnection(g: Graph, a: Point, b: Point) {
    exists c :: c in g.connections && c.from == a && c.to == b
  }

  /** getIncomingConnections: the points with a connection into `q`. */
  function Incoming(g: Graph, q: Point): (r: seq<Point>)
    ensures |r| <= |g.connections|
    ensures forall p :: p in r <==> HasConnection(g, p, q)
  {
    IncomingFrom(g.connections, q)
  }

  function IncomingFrom(cs: seq<Connection>, q: Point): (r: seq<Point>)
    ensures |r| <= |cs|
    ensures forall p :: p in r <==> exists c :: c in cs && c.from == p && c.to == q
  {
    if cs == [] then []
    else
      var rest := IncomingFrom(cs[1..], q);
      assert forall c :: c in cs <==> c == cs[0] || c in cs[1..];
      (if cs[0].to == q then [cs[0].from] else []) + rest
  }

  /** getConnection(a, b) for two points that are connected. */
  function GetConnection(g: Graph, a: Point, b: Point): (c: Connection)
    requires HasConnection(g, a, b)
    ensures c in g.connections && c.from == a && c.to == b
  {
    FindIn(g.connections, a, b)
  }

  function FindIn(cs: seq<Connection>, a: Point, b: Point): (c: Connection)
    requires exists c :: c in cs && c.from == a && c.to == b
    ensures c in cs && c.from == a && c.to == b
  {
    if cs[0].from == a && cs[0].to == b then cs[0]
    else
      assert forall c :: c in cs ==> c == cs[0] || c in cs[1..];
      FindIn(cs[1..], a, b)
  }

  /** Every connection a shockwave from `origin` can reach: those of the
      graph, and the origin, which a start-connection supplier may pick from
      outside the graph. */
  function Universe(cfg: Config, origin: Connection): (u: set<Connection>)
    ensures origin in u
    ensures cfg.graph.Some? ==> forall c | c in cfg.graph.value.connections :: c in u
  {
    (if cfg.graph.Some? then set c | c in cfg.graph.value.connections else {}) + {origin}
  }

  // ---------------------------------------------------------------------
  // Numbers

  /** Java's `(long)` cast of a double: truncation toward zero. */
  function Truncate(x: real): (r: int)
    ensures 0.0 <= x ==> r as real <= x < r as real + 1.0
    ensures x < 0.0 ==> r as real - 1.0 < x <= r as real
  {
    if x >= 0.0 then x.Floor else -((-x).Floor)
  }

  /** Java's `d / 2` on a long: division truncating toward zero. */
  function Half(d: int): (r: int)
    ensures 0 <= d ==> 0 <= r && (2 * r == d || 2 * r + 1 == d)
    ensures d < 0 ==> r <= 0 && (2 * r == d || 2 * r - 1 == d)
  {
    if d >= 0 then d / 2 else -((-d) / 2)
  }

  /** A front's timestamp after crossing `length` at `speed`: the truncated
      sum when the speed is non-zero, the old timestamp when it is zero. */
  function Advance(ts: int, length: real, speed: real): (r: int)
    ensures speed == 0.0 ==> r == ts
    ensures speed != 0.0 && 0.0 <= ts as real + length / speed ==>
      r as real <= ts as real + length / speed < r as real + 1.0
  {
    if speed != 0.0 then Truncate(ts as real + length / speed) else ts
  }

  /** `1 / factor`; Java yields infinity for a zero factor, this model 0. */
  function Reciprocal(f: real): (r: real)
    ensures f != 0.0 ==> r * f == 1.0
  {
    if f != 0.0 then 1.0 / f else 0.0
  }

  // ---------------------------------------------------------------------
  // One step: simulateForwardRecedingShockwave

  /** The values one step reads: the behaviour factor at the connection's
      midpoint and the speeds of both fronts. */
  datatype Sample = Sample(factor: real, forwardSpeed: real, recedingSpeed: real)

  /** The three draws every step makes, in the order Java makes them. */
  function SampleStep(cfg: Config, rng: nat -> int, drawn: nat, s: Step): Sample {
    Sample(
      cfg.behaviour(rng(drawn))(s.distance + s.conn.length / 2.0),
      cfg.expandingSpeed(rng(drawn + 1))(s.relEx),
      cfg.recedingSpeed(rng(drawn + 2))(s.relRe))
  }

  /** The advanced timestamps of both fronts and their half-deltas. */
  datatype Fronts = Fronts(
    nextRelEx: int,
    nextActualEx: int,
    nextRelRe: int,
    nextActualRe: int,
    exJump: int,
    reJump: int)

  function AdvanceFronts(s: Step, sm: Sample): Fronts {
    var nextActualEx := Advance(s.actualEx, s.conn.length, sm.forwardSpeed);
    var nextActualRe := Advance(s.actualRe, s.conn.length, sm.recedingSpeed);
    Fronts(
      Advance(s.relEx, s.conn.length, sm.forwardSpeed), nextActualEx,
      Advance(s.relRe, s.conn.length, sm.recedingSpeed), nextActualRe,
      Half(nextActualEx - s.actualEx), Half(nextActualRe - s.actualRe))
  }

  /** The event duration is drawn only when the first two stop conditions
      fail, since `||` short-circuits: a step draws three or four numbers. */
  function StepDraws(sm: Sample): nat {
    if sm.factor == 1.0 || sm.forwardSpeed == 0.0 then 3 else 4
  }

  /** The five-way stop test of a step taken in state `t`. */
  predicate Stops(cfg: Config, rng: nat -> int, t: Traversal, s: Step) {
    var sm := SampleStep(cfg, rng, t.drawn, s);
    var f := AdvanceFronts(s, sm);
    || sm.factor == 1.0
    || sm.forwardSpeed == 0.0
    || f.nextRelEx >= cfg.eventDurations(rng(t.drawn + 3))
    || s.actualEx + f.exJump >= s.actualRe + f.reJump
    || s.conn in t.visited
  }

  /** The configurations under which no connection ever slows down: the
      behaviour factor is exactly 1 everywhere, or the expanding front never
      moves. */
  ghost predicate Silent(cfg: Config) {
    || (forall d: int, x: real :: cfg.behaviour(d)(x) == 1.0)
    || (forall d: int, ts: int :: cfg.expandingSpeed(d)(ts) == 0.0)
  }

  /** Under a silent configuration every step stops. */
  lemma SilentStops(cfg: Config, rng: nat -> int, t: Traversal, s: Step)
    ensures Silent(cfg) ==> Stops(cfg, rng, t, s)
  {
    if Silent(cfg) {
      var sm := SampleStep(cfg, rng, t.drawn, s);
      if forall d: int, x: real :: cfg.behaviour(d)(x) == 1.0 {
        assert sm.factor == cfg.behaviour(rng(t.drawn))(s.distance + s.conn.length / 2.0) == 1.0;
      } else {
        var d := rng(t.drawn + 1);
        assert forall ts: int :: cfg.expandingSpeed(d)(ts) == 0.0;
        assert sm.forwardSpeed == cfg.expandingSpeed(d)(s.relEx) == 0.0;
      }
    }
  }

  /** The step offered for the upstream point `p`. */
  function Successor(g: Graph, s: Step, f: Fronts, p: Point): Step
    requires HasConnection(g, p, s.conn.from)
  {
    Step(s.conn, GetConnection(g, p, s.conn.from), f.nextRelEx, f.nextRelRe,
         f.nextActualEx, f.nextActualRe, s.distance + s.conn.length)
  }

  /** The steps offered for the upstream points `froms`, skipping the one
      equal to the connection's own destination (no backtracking). */
  function Branch(g: Graph, s: Step, f: Fronts, froms: seq<Point>): (r: seq<Step>)
    requires forall p | p in froms :: HasConnection(g, p, s.conn.from)
    ensures |r| <= |froms|
    ensures forall i | 0 <= i < |r| :: r[i].conn in g.connections
  {
    if froms == [] then []
    else
      var last := froms[|froms| - 1];
      Branch(g, s, f, froms[..|froms| - 1])
        + (if last == s.conn.to then [] else [Successor(g, s, f, last)])
  }

  /** The step `s` taken in state `t`. A stopping step only records its
      predecessor as a leaf. An expanding step emits the slowdown event,
      records its connection in the expansion map, emits the restoration
      event when the receding front moves, and branches upstream; with no
      graph set, the branch throws. */
  function StepSpec(cfg: Config, rng: nat -> int, t: Traversal, s: Step): (o: StepOutcome)
    ensures o.state.drawn == t.drawn + StepDraws(SampleStep(cfg, rng, t.drawn, s))
    ensures o.events == [] ==> o.state.visited == t.visited && o.successors == []
    ensures o.events != [] ==> s.conn !in t.visited && o.state.visited == t.visited[s.conn := [o.events[0]]]
    ensures cfg.graph.Some? ==>
              forall i | 0 <= i < |o.successors| :: o.successors[i].conn in cfg.graph.value.connections
    ensures cfg.graph.None? ==> o.successors == []
    ensures o.error.Some? ==> o.error == Some(GraphAbsent) && o.events != []
    ensures |o.events| <= 2 && forall e | e in o.events :: e.conn == s.conn
    ensures Silent(cfg) ==> o.events == []
  {
    SilentStops(cfg, rng, t, s);
    var sm := SampleStep(cfg, rng, t.drawn, s);
    var t' := t.(drawn := t.drawn + StepDraws(sm));
    if Stops(cfg, rng, t, s) then
      StepOutcome(t'.(leaves := t.leaves + {s.origin}), [], [], None)
    else
      Expand(cfg.graph, t', s, sm, AdvanceFronts(s, sm))
  }

  /** A step that does not stop, in state `t` (draws already counted): it
      emits the slowdown event, records its connection in the expansion map,
      emits the restoration event when the receding front moves, and
      branches upstream; with no graph set, the branch throws. */
  function Expand(graph: Option<Graph>, t: Traversal, s: Step, sm: Sample, f: Fronts): (o: StepOutcome)
    ensures o.state.drawn == t.drawn
    ensures o.events != [] && o.events[0] == Event(s.actualEx + f.exJump, s.conn, sm.factor)
    ensures o.state.visited == t.visited[s.conn := [o.events[0]]]
    ensures |o.events| == 2 <==> sm.recedingSpeed != 0.0
    ensures |o.events| <= 2 && forall e | e in o.events :: e.conn == s.conn
    ensures graph.Some? ==>
              forall i | 0 <= i < |o.successors| :: o.successors[i].conn in graph.value.connections
    ensures graph.None? ==> o.successors == [] && o.error == Some(GraphAbsent)
    ensures graph.Some? ==> o.error == None
  {
    var slowdown := Event(s.actualEx + f.exJump, s.conn, sm.factor);
    var restoration :=
      if sm.recedingSpeed != 0.0
      then [Event(s.actualRe + f.reJump, s.conn, Reciprocal(sm.factor))]
      else [];
    var events := [slowdown] + restoration;
    var visited := t.visited[s.conn := [slowdown]];
    if graph.None? then
      StepOutcome(t.(visited := visited), events, [], Some(GraphAbsent))
    else
      var g := graph.value;
      var froms := Incoming(g, s.conn.from);
      if |froms| == 0 || (|froms| == 1 && froms[0] == s.conn.to) then
        StepOutcome(t.(visited := visited, leaves := t.leaves + {s.conn}), events, [], None)
      else
        StepOutcome(t.(visited := visited), events, Branch(g, s, f, froms), None)
  }

  // ---------------------------------------------------------------------
  // One shockwave: draining the queue

  /** Every queued connection and every visited one lies in `u`. */
  predicate InUniverse(u: set<Connection>, t: Traversal, queue: seq<Step>) {
    && t.visited.Keys <= u
    && forall i | 0 <= i < |queue| :: queue[i].conn in u
  }

  function Prepend(events: seq<Event>, o: RunOutcome): RunOutcome {
    RunOutcome(o.state, events + o.events, o.error)
  }

  lemma PrependNothing(o: RunOutcome)
    ensures Prepend([], o) == o
  {
    assert [] + o.events == o.events;
  }

  lemma PrependTwice(a: seq<Event>, b: seq<Event>, o: RunOutcome)
    ensures Prepend(a, Prepend(b, o)) == Prepend(a + b, o)
  {
    assert a + (b + o.events) == (a + b) + o.events;
  }

  /** Each step either adds a connection of `u` to the expansion map or
      leaves the map alone and offers nothing: the loop makes progress. */
  lemma StepProgress(u: set<Connection>, t: Traversal, s: Step, so: StepOutcome)
    requires StepFacts(u, t, s, so) && t.visited.Keys <= u
    ensures || |u - so.state.visited.Keys| < |u - t.visited.Keys|
            || (so.state.visited == t.visited && so.successors == [])
  {
    if so.events != [] {
      assert u - so.state.visited.Keys == (u - t.visited.Keys) - {s.conn};
    }
  }

  /** What draining the queue from state `t` guarantees of its outcome `o`:
      no number is given back to the random stream, the expansion map only
      grows inside `u` and its existing entries are never rewritten, the only
      exception is the missing graph, every event concerns a connection
      first visited on the way, whose map entry is its one slowdown event,
      and there are at most two events per such connection. */
  predicate Drained(u: set<Connection>, t: Traversal, o: RunOutcome) {
    && t.drawn <= o.state.drawn
    && t.visited.Keys <= o.state.visited.Keys <= u
    && (forall c | c in t.visited :: o.state.visited[c] == t.visited[c])
    && (o.error.Some? ==> o.error == Some(GraphAbsent))
    && (forall e | e in o.events :: e.conn in o.state.visited && e.conn !in t.visited)
    && (forall c | c in o.state.visited && c !in t.visited ::
          |o.state.visited[c]| == 1 && o.state.visited[c][0] in o.events && o.state.visited[c][0].conn == c)
    && |o.events| <= 2 * |o.state.visited.Keys - t.visited.Keys|
  }

  /** One step followed by the rest of the run keeps `Drained`. The step is
      described by the facts `StepSpec` ensures of it. */
  lemma DrainedStep(u: set<Connection>, t: Traversal, s: Step, so: StepOutcome, r: RunOutcome)
    requires StepFacts(u, t, s, so) && t.visited.Keys <= u
    requires Drained(u, so.state, r)
    ensures Drained(u, t, Prepend(so.events, r))
  {
    DrainedStepMap(u, t, s, so, r);
    DrainedStepEvents(u, t, s, so, r);
    DrainedStepCount(u, t, s, so, r);
  }

  lemma DrainedStepMap(u: set<Connection>, t: Traversal, s: Step, so: StepOutcome, r: RunOutcome)
    requires StepFacts(u, t, s, so) && t.visited.Keys <= u
    requires Drained(u, so.state, r)
    ensures t.visited.Keys <= r.state.visited.Keys
    ensures forall c | c in t.visited :: r.state.visited[c] == t.visited[c]
  {
  }

  lemma DrainedStepEvents(u: set<Connection>, t: Traversal, s: Step, so: StepOutcome, r: RunOutcome)
    requires StepFacts(u, t, s, so) && t.visited.Keys <= u
    requires Drained(u, so.state, r)
    ensures forall e | e in so.events + r.events :: e.conn in r.state.visited && e.conn !in t.visited
    ensures forall c | c in r.state.visited && c !in t.visited ::
          |r.state.visited[c]| == 1 && r.state.visited[c][0] in so.events + r.events && r.state.visited[c][0].conn == c
  {
    if so.events != [] {
      assert r.state.visited[s.conn] == [so.events[0]];
    }
  }

  lemma DrainedStepCount(u: set<Connection>, t: Traversal, s: Step, so: StepOutcome, r: RunOutcome)
    requires StepFacts(u, t, s, so) && t.visited.Keys <= u
    requires Drained(u, so.state, r)
    ensures |so.events + r.events| <= 2 * |r.state.visited.Keys - t.visited.Keys|
  {
    var v0, v1, v2 := t.visited.Keys, so.state.visited.Keys, r.state.visited.Keys;
    if so.events != [] {
      assert v1 == v0 + {s.conn};
      assert v2 - v0 == (v2 - v1) + {s.conn};
    } else {
      assert v2 - v0 == v2 - v1;
    }
  }

  /** What `StepSpec` ensures of the outcome `so` of step `s` in state `t`,
      as far as draining the queue needs it. */
  predicate StepFacts(u: set<Connection>, t: Traversal, s: Step, so: StepOutcome) {
    && s.conn in u
    && t.drawn <= so.state.drawn
    && (so.events == [] ==> so.state.visited == t.visited && so.successors == [])
    && (so.events != [] ==> s.conn !in t.visited && so.state.visited == t.visited[s.conn := [so.events[0]]])
    && (forall i | 0 <= i < |so.successors| :: so.successors[i].conn in u)
    && (so.error.Some? ==> so.error == Some(GraphAbsent))
    && |so.events| <= 2 && (forall e | e in so.events :: e.conn == s.conn)
  }

  lemma OfferedInUniverse(u: set<Connection>, t: Traversal, queue: seq<Step>, so: StepOutcome)
    requires InUniverse(u, t, queue) && queue != []
    requires StepFacts(u, t, queue[0], so)
    requires so.error.None?
    ensures InUniverse(u, so.state, queue[1..] + so.successors)
  {
    var rest := queue[1..] + so.successors;
    forall i | 0 <= i < |rest|
      ensures rest[i].conn in u
    {
      if i < |queue| - 1 {
        assert rest[i] == queue[i + 1];
      } else {
        assert rest[i] == so.successors[i - |queue| + 1];
      }
    }
  }

  /** The `while (!shockwave.isEmpty())` loop: poll a step, collect its
      events, offer its successors. Every expanding step adds a connection of
      `u` to the expansion map and every other step offers nothing, so the
      loop ends on any graph, cyclic or not. */
  function RunShockwave(cfg: Config, rng: nat -> int, u: set<Connection>, t: Traversal, queue: seq<Step>): (o: RunOutcome)
    requires cfg.graph.Some? ==> forall c | c in cfg.graph.value.connections :: c in u
    requires InUniverse(u, t, queue)
    ensures Silent(cfg) ==> o.events == []
    decreases |u - t.visited.Keys|, |queue|, 2
  {
    if queue == [] then RunOutcome(t, [], None)
    else Poll(cfg, rng, u, t, queue)
  }

  /** One iteration of the loop: poll the head of the queue, simulate it
      and go on with its outcome. */
  function Poll(cfg: Config, rng: nat -> int, u: set<Connection>, t: Traversal, queue: seq<Step>): (o: RunOutcome)
    requires cfg.graph.Some? ==> forall c | c in cfg.graph.value.connections :: c in u
    requires InUniverse(u, t, queue) && queue != []
    ensures Silent(cfg) ==> o.events == []
    decreases |u - t.visited.Keys|, |queue|, 1
  {
    RunAfterStep(cfg, rng, u, t, queue, StepSpec(cfg, rng, t, queue[0]))
  }

  /** The rest of the loop once the polled step `queue[0]` has had outcome
      `so`: stop at its exception, or offer its successors and go on. */
  function RunAfterStep(cfg: Config, rng: nat -> int, u: set<Connection>, t: Traversal, queue: seq<Step>, so: StepOutcome): (o: RunOutcome)
    requires cfg.graph.Some? ==> forall c | c in cfg.graph.value.connections :: c in u
    requires InUniverse(u, t, queue) && queue != []
    requires StepFacts(u, t, queue[0], so)
    requires Silent(cfg) ==> so.events == []
    ensures Silent(cfg) ==> o.events == []
    decreases |u - t.visited.Keys|, |queue|, 0
  {
    if so.error.Some? then RunOutcome(so.state, so.events, so.error)
    else
      OfferedInUniverse(u, t, queue, so);
      StepProgress(u, t, queue[0], so);
      Prepend(so.events, RunShockwave(cfg, rng, u, so.state, queue[1..] + so.successors))
  }

  /** Everything `Drained` says holds of every run: the loop only draws,
      grows the expansion map inside `u` without rewriting an entry, throws
      nothing but the missing-graph exception and emits at most two events
      per connection it visits. */
  lemma {:induction false} RunDrained(cfg: Config, rng: nat -> int, u: set<Connection>, t: Traversal, queue: seq<Step>)
    requires cfg.graph.Some? ==> forall c | c in cfg.graph.value.connections :: c in u
    requires InUniverse(u, t, queue)
    ensures Drained(u, t, RunShockwave(cfg, rng, u, t, queue))
    decreases |u - t.visited.Keys|, |queue|
  {
    if queue != [] {
      RunStepUnfold(cfg, rng, u, t, queue);
      var so := StepSpec(cfg, rng, t, queue[0]);
      assert StepFacts(u, t, queue[0], so);
      if so.error.Some? {
        DrainedStep(u, t, queue[0], so, RunOutcome(so.state, [], so.error));
      } else {
        var rest := queue[1..] + so.successors;
        StepProgress(u, t, queue[0], so);
        RunDrained(cfg, rng, u, so.state, rest);
        DrainedStep(u, t, queue[0], so, RunShockwave(cfg, rng, u, so.state, rest));
      }
    }
  }

  /** One turn of the loop, unfolded: the outcome of draining a non-empty
      queue is the polled step's exception, or its events followed by the
      outcome of draining the rest of the queue and the offered steps. */
  lemma RunStepUnfold(cfg: Config, rng: nat -> int, u: set<Connection>, t: Traversal, queue: seq<Step>)
    requires cfg.graph.Some? ==> forall c | c in cfg.graph.value.connections :: c in u
    requires InUniverse(u, t, queue) && queue != []
    ensures var so := StepSpec(cfg, rng, t, queue[0]);
      && (so.error.Some? ==> RunShockwave(cfg, rng, u, t, queue) == RunOutcome(so.state, so.events, so.error))
      && (so.error.None? ==>
            && InUniverse(u, so.state, queue[1..] + so.successors)
            && RunShockwave(cfg, rng, u, t, queue)
               == Prepend(so.events, RunShockwave(cfg, rng, u, so.state, queue[1..] + so.successors)))
  {
    var so := StepSpec(cfg, rng, t, queue[0]);
    assert RunShockwave(cfg, rng, u, t, queue) == RunAfterStep(cfg, rng, u, t, queue, so);
    AfterStepUnfold(cfg, rng, u, t, queue, so);
  }

  lemma AfterStepUnfold(cfg: Config, rng: nat -> int, u: set<Connection>, t: Traversal, queue: seq<Step>, so: StepOutcome)
    requires cfg.graph.Some? ==> forall c | c in cfg.graph.value.connections :: c in u
    requires InUniverse(u, t, queue) && queue != []
    requires StepFacts(u, t, queue[0], so)
    requires Silent(cfg) ==> so.events == []
    ensures so.error.Some? ==> RunAfterStep(cfg, rng, u, t, queue, so) == RunOutcome(so.state, so.events, so.error)
    ensures so.error.None? ==>
      && InUniverse(u, so.state, queue[1..] + so.successors)
      && RunAfterStep(cfg, rng, u, t, queue, so)
         == Prepend(so.events, RunShockwave(cfg, rng, u, so.state, queue[1..] + so.successors))
  {
    if so.error.None? {
      OfferedInUniverse(u, t, queue, so);
    }
  }

  /** The first step of a shockwave: both relative timestamps 0, the
      expanding front at the start time, the receding front `wait` later. */
  function InitialStep(origin: Connection, start: int, wait: int): Step {
    Step(origin, origin, 0, 0, start, start + wait, 0.0)
  }

  /** The origin of a shockwave, drawn with one number: from the
      start-connection supplier, or a random connection of the graph. */
  function PickOrigin(cfg: Config, rng: nat -> int, drawn: nat): (r: Result<Connection, Error>)
    ensures r.Failure? <==> cfg.startConnections.None? && (cfg.graph.None? || cfg.graph.value.connections == [])
    ensures r.Failure? ==> r.error == (if cfg.graph.None? then GraphAbsent else EmptyGraph)
    ensures r.Success? && cfg.startConnections.None? ==> r.value in cfg.graph.value.connections
  {
    if cfg.startConnections.Some? then Success(cfg.startConnections.value(rng(drawn)))
    else if cfg.graph.None? then Failure(GraphAbsent)
    else if |cfg.graph.value.connections| == 0 then Failure(EmptyGraph)
    else
      var cs := cfg.graph.value.connections;
      Success(cs[rng(drawn) % |cs|])
  }

  /** A shockwave from `origin` once its origin is drawn: draw the start
      time and the wait before receding, and drain the queue from an empty
      expansion map and an empty leaf set. Only the draw count carries over
      from earlier shockwaves. */
  function ShockwaveFrom(cfg: Config, rng: nat -> int, origin: Connection, drawn: nat): (o: RunOutcome)
    ensures drawn + 2 <= o.state.drawn
    ensures o.error.Some? ==> o.error == Some(GraphAbsent)
    ensures Silent(cfg) ==> o.events == []
  {
    var start := cfg.creationTimes(rng(drawn));
    var wait := cfg.recedeWaitDurations(rng(drawn + 1));
    var t0 := Traversal(drawn + 2, map[], {});
    var o := RunShockwave(cfg, rng, Universe(cfg, origin), t0, [InitialStep(origin, start, wait)]);
    RunDrained(cfg, rng, Universe(cfg, origin), t0, [InitialStep(origin, start, wait)]);
    o
  }

  lemma {:induction false} SubsetCard<T>(a: set<T>, b: set<T>)
    requires a <= b
    ensures |a| <= |b|
    decreases |b|
  {
    if a != {} {
      var x :| x in a;
      SubsetCard(a - {x}, b - {x});
    }
  }

  /** One iteration of the `for` loop of `generate`. */
  function Shockwave(cfg: Config, rng: nat -> int, t: Traversal): (o: RunOutcome)
    ensures t.drawn <= o.state.drawn
    ensures o.error.Some? ==> o.error == Some(GraphAbsent) || o.error == Some(EmptyGraph)
    ensures Silent(cfg) ==> o.events == []
  {
    match PickOrigin(cfg, rng, t.drawn)
    case Failure(e) => RunOutcome(t, [], Some(e))
    case Success(origin) => ShockwaveFrom(cfg, rng, origin, t.drawn + 1)
  }

  /** A shockwave whose origin is drawn, unfolded: the start time and the
      wait are the next two numbers, and the queue starts from the origin's
      initial step with an empty expansion map and no leaves. */
  lemma ShockwaveUnfold(cfg: Config, rng: nat -> int, t: Traversal, origin: Connection)
    requires PickOrigin(cfg, rng, t.drawn) == Success(origin)
    ensures var start := cfg.creationTimes(rng(t.drawn + 1));
      var wait := cfg.recedeWaitDurations(rng(t.drawn + 2));
      Shockwave(cfg, rng, t)
      == RunShockwave(cfg, rng, Universe(cfg, origin), Traversal(t.drawn + 3, map[], {}), [InitialStep(origin, start, wait)])
  {
  }

  /** `n` shockwaves one after the other, stopping at the first exception. */
  function Shockwaves(cfg: Config, rng: nat -> int, t: Traversal, n: nat): (o: RunOutcome)
    ensures t.drawn <= o.state.drawn
    ensures o.error.Some? ==> o.error == Some(GraphAbsent) || o.error == Some(EmptyGraph)
    ensures Silent(cfg) ==> o.events == []
    decreases n
  {
    if n == 0 then RunOutcome(t, [], None)
    else
      var o := Shockwave(cfg, rng, t);
      if o.error.Some? then o
      else
        var rest := Shockwaves(cfg, rng, o.state, n - 1);
        RunOutcome(rest.state, o.events + rest.events, rest.error)
  }

  /** The first of `n > 0` shockwaves, unfolded: its exception ends the run,
      otherwise its events come before those of the other `n - 1`. */
  lemma ShockwavesUnfold(cfg: Config, rng: nat -> int, t: Traversal, n: nat)
    requires n > 0
    ensures var o := Shockwave(cfg, rng, t);
      && (o.error.Some? ==> Shockwaves(cfg, rng, t, n) == o)
      && (o.error.None? ==> Shockwaves(cfg, rng, t, n) == Prepend(o.events, Shockwaves(cfg, rng, o.state, n - 1)))
  {
  }

  /** `generate`: draw the shockwave count, reject it unless positive, and
      run that many shockwaves. It throws the argument error exactly when
      the count is not positive, and then has drawn one number and changed
      nothing else. */
  function Generate(cfg: Config, rng: nat -> int, t: Traversal): (o: RunOutcome)
    ensures var count := cfg.numberOfShockwaves(rng(t.drawn));
      && (o.error == Some(NonPositiveShockwaveCount(count)) <==> count <= 0)
      && (count <= 0 ==> o.state == t.(drawn := t.drawn + 1) && o.events == [])
    ensures t.drawn < o.state.drawn
    ensures Silent(cfg) ==> o.events == []
  {
    var count := cfg.numberOfShockwaves(rng(t.drawn));
    var t' := t.(drawn := t.drawn + 1);
    if count <= 0 then RunOutcome(t', [], Some(NonPositiveShockwaveCount(count)))
    else Shockwaves(cfg, rng, t', count)
  }

  /** What `generate` returns: the events, or the exception it throws. */
  function GenerateResult(o: RunOutcome): Result<seq<Event>, Error> {
    if o.error.Some? then Failure(o.error.value) else Success(o.events)
  }
}
