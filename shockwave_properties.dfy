/** What the shockwave traversal of DynamicSpeeds.java guarantees, proved about
    the functions of module ShockwaveSpec. */
module ShockwaveProperties {
  import opened Wrappers
  import opened Geom
  import opened ShockwaveSpec

  // ---------------------------------------------------------------------
  // One step

  /** A step emits nothing, offers nothing and only records its predecessor
      as a leaf exactly when one of the five stop conditions holds. */
  lemma StopTest(cfg: Config, rng: nat -> int, t: Traversal, s: Step)
    ensures var o := StepSpec(cfg, rng, t, s);
      && (Stops(cfg, rng, t, s) <==> o.events == [])
      && (Stops(cfg, rng, t, s) ==>
            && o.successors == []
            && o.error == None
            && o.state.visited == t.visited
            && o.state.leaves == t.leaves + {s.origin})
  {
  }

  /** An expanding step emits one slowdown event at the expanding front's
      midpoint time, and a restoration event with the reciprocal factor at
      the receding front's midpoint time exactly when the receding speed is
      non-zero; the restoration comes strictly after the slowdown. */
  lemma ExpandingStepEvents(cfg: Config, rng: nat -> int, t: Traversal, s: Step)
    requires !Stops(cfg, rng, t, s)
    ensures var sm := SampleStep(cfg, rng, t.drawn, s);
      var f := AdvanceFronts(s, sm);
      var o := StepSpec(cfg, rng, t, s);
      && 1 <= |o.events| <= 2
      && o.events[0] == Event(s.actualEx + f.exJump, s.conn, sm.factor)
      && (|o.events| == 2 <==> sm.recedingSpeed != 0.0)
      && (|o.events| == 2 ==>
            && o.events[1] == Event(s.actualRe + f.reJump, s.conn, Reciprocal(sm.factor))
            && o.events[1].time > o.events[0].time)
      && s.conn !in t.visited
      && o.state.visited == t.visited[s.conn := [o.events[0]]]
  {
  }

  /** The cycle guard: a connection already in the expansion map never emits
      again, so the map entry of a connection is never appended to. */
  lemma RevisitIsSilent(cfg: Config, rng: nat -> int, t: Traversal, s: Step)
    requires s.conn in t.visited
    ensures var o := StepSpec(cfg, rng, t, s);
      o.events == [] && o.successors == [] && o.state.visited == t.visited
  {
  }

  /** A step's sample depends on the three numbers drawn from `drawn` on,
      and on no other number of the stream. */
  lemma SampleDraws(cfg: Config, rng: nat -> int, rng': nat -> int, drawn: nat, s: Step)
    requires rng(drawn) == rng'(drawn) && rng(drawn + 1) == rng'(drawn + 1) && rng(drawn + 2) == rng'(drawn + 2)
    ensures SampleStep(cfg, rng, drawn, s) == SampleStep(cfg, rng', drawn, s)
  {
  }

  /** A front whose speed is zero keeps both its timestamps and jumps by 0. */
  lemma StalledFrontsKeepTime(s: Step, sm: Sample)
    ensures var f := AdvanceFronts(s, sm);
      && (sm.forwardSpeed == 0.0 ==> f.nextRelEx == s.relEx && f.nextActualEx == s.actualEx && f.exJump == 0)
      && (sm.recedingSpeed == 0.0 ==> f.nextRelRe == s.relRe && f.nextActualRe == s.actualRe && f.reJump == 0)
  {
  }

  /** A moving front at a non-negative time advances by the truncated
      travel time `length / speed`, and its jump is half of that advance. */
  lemma MovingFrontAdvance(ts: int, length: real, speed: real)
    requires speed != 0.0 && 0 <= ts && 0.0 <= length / speed
    ensures Advance(ts, length, speed) == ts + (length / speed).Floor
    ensures Half(Advance(ts, length, speed) - ts) == (length / speed).Floor / 2
  {
    var q := length / speed;
    var k := q.Floor;
    assert k as real <= q < k as real + 1.0;
    assert (ts + k) as real <= ts as real + q < (ts + k) as real + 1.0;
  }

  /** Every step offered for `froms` continues upstream: from a point of
      `froms` other than the connection's destination into the connection's
      source, with the step as predecessor, the advanced timestamps and the
      connection's length added to the distance; and every such point gets
      one. */
  lemma {:induction false} BranchSteps(g: Graph, s: Step, f: Fronts, froms: seq<Point>)
    requires forall p | p in froms :: HasConnection(g, p, s.conn.from)
    ensures forall st | st in Branch(g, s, f, froms) ::
      && st.origin == s.conn
      && st.conn in g.connections
      && st.conn.to == s.conn.from
      && st.conn.from in froms
      && st.conn.from != s.conn.to
      && st.relEx == f.nextRelEx && st.actualEx == f.nextActualEx
      && st.relRe == f.nextRelRe && st.actualRe == f.nextActualRe
      && st.distance == s.distance + s.conn.length
    ensures forall p | p in froms && p != s.conn.to ::
      exists st | st in Branch(g, s, f, froms) :: st.conn.from == p
  {
    if froms != [] {
      var init := froms[..|froms| - 1];
      var last := froms[|froms| - 1];
      assert froms == init + [last];
      BranchSteps(g, s, f, init);
      var tail := if last == s.conn.to then [] else [Successor(g, s, f, last)];
      assert Branch(g, s, f, froms) == Branch(g, s, f, init) + tail;
      forall p | p in froms && p != s.conn.to
        ensures exists st | st in Branch(g, s, f, froms) :: st.conn.from == p
      {
        if p == last {
          assert Successor(g, s, f, last) in Branch(g, s, f, froms);
        } else {
          assert p in init;
          var st :| st in Branch(g, s, f, init) && st.conn.from == p;
          assert st in Branch(g, s, f, froms);
        }
      }
    }
  }

  /** Branching of an expanding step: it offers exactly one step per
      connection into its source that does not come from its destination;
      with no such connection it offers nothing and becomes a leaf. */
  lemma ExpandingStepBranches(cfg: Config, rng: nat -> int, t: Traversal, s: Step)
    requires !Stops(cfg, rng, t, s) && cfg.graph.Some?
    ensures var g := cfg.graph.value;
      var f := AdvanceFronts(s, SampleStep(cfg, rng, t.drawn, s));
      var o := StepSpec(cfg, rng, t, s);
      && o.error == None
      && (forall st | st in o.successors ::
            && st.origin == s.conn
            && st.conn in g.connections
            && st.conn.to == s.conn.from
            && st.conn.from != s.conn.to
            && st.relEx == f.nextRelEx && st.actualEx == f.nextActualEx
            && st.relRe == f.nextRelRe && st.actualRe == f.nextActualRe
            && st.distance == s.distance + s.conn.length)
      && (forall p | HasConnection(g, p, s.conn.from) && p != s.conn.to ::
            exists st | st in o.successors :: st.conn.from == p)
      && (var froms := Incoming(g, s.conn.from);
          if froms == [] || froms == [s.conn.to]
          then o.successors == [] && o.state.leaves == t.leaves + {s.conn}
          else o.state.leaves == t.leaves)
      && |o.successors| <= |Incoming(g, s.conn.from)|
  {
    var g := cfg.graph.value;
    var f := AdvanceFronts(s, SampleStep(cfg, rng, t.drawn, s));
    var froms := Incoming(g, s.conn.from);
    var o := StepSpec(cfg, rng, t, s);
    if |froms| == 0 || (|froms| == 1 && froms[0] == s.conn.to) {
      assert o.successors == [];
    } else {
      BranchSteps(g, s, f, froms);
    }
  }

  // ---------------------------------------------------------------------
  // One shockwave

  /** The first step of a shockwave is on its origin, with no distance
      travelled, both relative clocks at 0, the expanding front at the start
      time and the receding front `wait` behind it. */
  lemma FirstStep(origin: Connection, start: int, wait: int)
    ensures var s := InitialStep(origin, start, wait);
      && s.origin == origin && s.conn == origin && s.distance == 0.0
      && s.relEx == 0 && s.relRe == 0
      && s.actualEx == start && s.actualRe - s.actualEx == wait
  {
  }

  /** Termination on any finite graph, counted: one shockwave emits at most
      two events per connection it can reach. */
  lemma ShockwaveEventBound(cfg: Config, rng: nat -> int, u: set<Connection>, t: Traversal, queue: seq<Step>)
    requires cfg.graph.Some? ==> forall c | c in cfg.graph.value.connections :: c in u
    requires InUniverse(u, t, queue)
    ensures |RunShockwave(cfg, rng, u, t, queue).events| <= 2 * |u - t.visited.Keys|
  {
    var o := RunShockwave(cfg, rng, u, t, queue);
    RunDrained(cfg, rng, u, t, queue);
    SubsetCard(o.state.visited.Keys - t.visited.Keys, u - t.visited.Keys);
  }

  /** A whole shockwave emits at most two events per connection of the
      graph, its origin included. */
  lemma ShockwaveFromEventBound(cfg: Config, rng: nat -> int, origin: Connection, drawn: nat)
    ensures |ShockwaveFrom(cfg, rng, origin, drawn).events| <= 2 * |Universe(cfg, origin)|
  {
    var start := cfg.creationTimes(rng(drawn));
    var wait := cfg.recedeWaitDurations(rng(drawn + 1));
    ShockwaveEventBound(cfg, rng, Universe(cfg, origin), Traversal(drawn + 2, map[], {}), [InitialStep(origin, start, wait)]);
  }
}
