/**
  * The quadrature wheel decoder of the radio's rotary knob (class `Wheel`).
  *
  * Each interrupt reports that one phase pin changed to a level; the decoder
  * drops glitches and duplicate edges, picks a direction from a fixed table,
  * moves a raw step counter by one (clamped to its range) and hands the
  * counter, rescaled into the user range, to a callback.
  *
  * Pin levels are booleans: `true` stands for a pin reading 1.
  */
module UserInput {
  import opened Py2

  /** Steps per turn that the wheel constructor uses by default. */
  const DEFAULT_STEPS_PER_TURN := 96

  datatype Phase = PhaseA | PhaseB

  datatype Direction = Clockwise | CounterClockwise

  /**
    * One interrupt: pin `phase` now reads `level`, while the other phase's pin
    * reads `other` at the moment the handler samples it.
    */
  datatype Edge = Edge(phase: Phase, level: bool, other: bool)

  /**
    * The decoder's state as the wheel's fields hold it: the recorded level of
    * each phase, the raw counter and its range, the user range and the number
    * of raw steps `span` (turns times steps per turn) that it is spread over.
    */
  datatype Decoder = Decoder(levelA: bool, levelB: bool,
                             rawMin: int, raw: int, rawMax: int,
                             min: int, max: int, span: int)

  function Other(p: Phase): Phase {
    if p == PhaseA then PhaseB else PhaseA
  }

  /** The level last recorded for phase `p`. */
  function Recorded(s: Decoder, p: Phase): bool {
    if p == PhaseA then s.levelA else s.levelB
  }

  /** The other phase moved since it was last recorded. */
  predicate IsGlitch(s: Decoder, e: Edge) {
    Recorded(s, Other(e.phase)) != e.other
  }

  /** The edge reports the level already recorded for its own phase. */
  predicate IsDuplicate(s: Decoder, e: Edge) {
    Recorded(s, e.phase) == e.level
  }

  predicate Accepts(s: Decoder, e: Edge) {
    !IsGlitch(s, e) && !IsDuplicate(s, e)
  }

  /**
    * The fixed direction table: the new level of the moving phase against the
    * recorded level of the other phase.
    */
  function Turn(p: Phase, level: bool, otherRecorded: bool): Direction {
    match p
    case PhaseA =>
      if otherRecorded then (if !level then Clockwise else CounterClockwise)
      else (if !level then CounterClockwise else Clockwise)
    case PhaseB =>
      if otherRecorded then (if !level then CounterClockwise else Clockwise)
      else (if !level then Clockwise else CounterClockwise)
  }

  /** One raw step in direction `d`, clamped on the side it moves towards. */
  function Move(raw: int, rawMin: int, rawMax: int, d: Direction): int {
    if d == Clockwise then (if raw + 1 > rawMax then rawMax else raw + 1)
    else (if raw - 1 < rawMin then rawMin else raw - 1)
  }

  function Record(s: Decoder, p: Phase, level: bool): Decoder {
    if p == PhaseA then s.(levelA := level) else s.(levelB := level)
  }

  /** The decoder's state after one interrupt. */
  function Step(s: Decoder, e: Edge): Decoder {
    if !Accepts(s, e) then s
    else
      var d := Turn(e.phase, e.level, Recorded(s, Other(e.phase)));
      Record(s, e.phase, e.level).(raw := Move(s.raw, s.rawMin, s.rawMax, d))
  }

  /**
    * The value handed to the callback for counter `s.raw`; `None` when the
    * span is zero and the scaling division raises instead.
    */
  function Reported(s: Decoder): Option<int> {
    if s.span == 0 then None else Some(FloorDiv(s.raw * (s.max - s.min), s.span))
  }

  /** The callback invocations that edge `e` causes, in order. */
  function Callbacks(s: Decoder, e: Edge): seq<int> {
    if !Accepts(s, e) then []
    else match Reported(Step(s, e))
      case None => []
      case Some(v) => [v]
  }

  /** The state after a finite sequence of interrupts. */
  function Run(s: Decoder, edges: seq<Edge>): Decoder
    decreases |edges|
  {
    if edges == [] then s else Run(Step(s, edges[0]), edges[1..])
  }

  /** The new range and counter that `setup` computes; `span` is turns*steps_per_turn. */
  function Configure(s: Decoder, min: int, initial: int, max: int, span: int): Decoder
    requires max != min
  {
    s.(rawMin := FloorDiv(min * span, max - min),
       raw := FloorDiv(initial * span, max - min),
       rawMax := FloorDiv(max * span, max - min),
       min := min, max := max, span := span)
  }

  predicate InRange(s: Decoder) {
    s.rawMin <= s.raw <= s.rawMax
  }

  /** Same range, scaling and span: only levels and the counter differ. */
  predicate SameConfiguration(s: Decoder, t: Decoder) {
    s.rawMin == t.rawMin && s.rawMax == t.rawMax && s.min == t.min && s.max == t.max && s.span == t.span
  }

  // ---------------------------------------------------------------------------
  // setup

  /** The raw range spans exactly turns*steps_per_turn steps, whatever the user range. */
  lemma ConfigureSpan(s: Decoder, min: int, initial: int, max: int, span: int)
    requires max != min
    ensures Configure(s, min, initial, max, span).rawMax - Configure(s, min, initial, max, span).rawMin == span
  {
    assert max * span == min * span + span * (max - min);
    FloorDivShift(min * span, max - min, span);
  }

  /** An initial value inside an increasing user range gives a counter inside the raw range. */
  lemma ConfigureInRange(s: Decoder, min: int, initial: int, max: int, span: int)
    requires min <= initial <= max && min < max && span >= 0
    ensures InRange(Configure(s, min, initial, max, span))
    ensures Configure(s, min, initial, max, span).levelA == s.levelA
    ensures Configure(s, min, initial, max, span).levelB == s.levelB
  {
    MulMonotone(span, min, initial);
    MulMonotone(span, initial, max);
    FloorDivMonotone(min * span, initial * span, max - min);
    FloorDivMonotone(initial * span, max * span, max - min);
  }

  /** The configuration the wheel constructor installs: 0..100 from 50 over one turn of 96 steps. */
  lemma DefaultConfiguration(s: Decoder)
    ensures var t := Configure(s, 0, 50, 100, DEFAULT_STEPS_PER_TURN);
            t.rawMin == 0 && t.raw == 48 && t.rawMax == 96 && InRange(t) && Reported(t) == Some(50)
  {
  }

  /**
    * The value reported right after `setup` is the initial value, rounded
    * down by at most one step of the counter: (max - min) / span in the
    * user's range, plus one.
    */
  lemma ReportAfterSetup(s: Decoder, min: int, initial: int, max: int, span: int)
    requires min < max && span > 0
    ensures var t := Configure(s, min, initial, max, span);
            Reported(t).Some? && Reported(t).value <= initial &&
            span * (initial - Reported(t).value) < span + (max - min)
  {
    var t := Configure(s, min, initial, max, span);
    var v := Reported(t).value;
    if v > initial {
      MulMonotone(span, initial + 1, v);
    }
  }

  // ---------------------------------------------------------------------------
  // one edge

  /** The direction table: phase A turns clockwise when its new level differs from B's, phase B when it equals A's. */
  lemma TurnTable(level: bool, otherRecorded: bool)
    ensures Turn(PhaseA, level, otherRecorded) == (if level != otherRecorded then Clockwise else CounterClockwise)
    ensures Turn(PhaseB, level, otherRecorded) == (if level == otherRecorded then Clockwise else CounterClockwise)
  {
  }

  /** A glitch or a duplicate edge changes nothing and fires no callback. */
  lemma RejectedEdge(s: Decoder, e: Edge)
    requires IsGlitch(s, e) || IsDuplicate(s, e)
    ensures Step(s, e) == s && Callbacks(s, e) == []
  {
  }

  /**
    * An accepted edge records the new level, leaves the other level and the
    * configuration alone, moves the counter by exactly one step unless it is
    * clamped, and fires the callback once with the rescaled counter.
    */
  lemma AcceptedEdge(s: Decoder, e: Edge)
    requires Accepts(s, e)
    ensures var t := Step(s, e);
            var d := Turn(e.phase, e.level, Recorded(s, Other(e.phase)));
            && Recorded(t, e.phase) == e.level
            && Recorded(t, Other(e.phase)) == Recorded(s, Other(e.phase))
            && SameConfiguration(s, t)
            && (d == Clockwise && s.raw < s.rawMax ==> t.raw == s.raw + 1)
            && (d == Clockwise && s.raw >= s.rawMax ==> t.raw == s.rawMax)
            && (d == CounterClockwise && s.raw > s.rawMin ==> t.raw == s.raw - 1)
            && (d == CounterClockwise && s.raw <= s.rawMin ==> t.raw == s.rawMin)
            && (s.span != 0 ==> Callbacks(s, e) == [FloorDiv(t.raw * (s.max - s.min), s.span)])
            && (s.span == 0 ==> Callbacks(s, e) == [])
  {
  }

  /** Any edge keeps the counter inside its range. */
  lemma StepInRange(s: Decoder, e: Edge)
    requires InRange(s)
    ensures InRange(Step(s, e)) && SameConfiguration(s, Step(s, e))
  {
  }

  /** For any finite edge sequence the counter stays within [rawMin, rawMax]. */
  lemma {:induction false} RunInRange(s: Decoder, edges: seq<Edge>)
    requires InRange(s)
    ensures InRange(Run(s, edges)) && SameConfiguration(s, Run(s, edges))
    decreases |edges|
  {
    if edges != [] {
      StepInRange(s, edges[0]);
      RunInRange(Step(s, edges[0]), edges[1..]);
    }
  }

  /** From levels (1,1), the quadrature cycle A falls, B falls, A rises, B rises is four clockwise steps. */
  lemma ClockwiseCycle(s: Decoder)
    requires s.levelA && s.levelB && s.raw + 4 <= s.rawMax
    ensures Run(s, [Edge(PhaseA, false, true), Edge(PhaseB, false, false),
                    Edge(PhaseA, true, false), Edge(PhaseB, true, true)]) == s.(raw := s.raw + 4)
  {
    var e0, e1, e2, e3 := Edge(PhaseA, false, true), Edge(PhaseB, false, false),
                          Edge(PhaseA, true, false), Edge(PhaseB, true, true);
    var s1 := Step(s, e0);
    var s2 := Step(s1, e1);
    var s3 := Step(s2, e2);
    assert [e0, e1, e2, e3][1..] == [e1, e2, e3];
    assert [e1, e2, e3][1..] == [e2, e3];
    assert [e2, e3][1..] == [e3];
    assert Run(s3, [e3]) == Step(s3, e3);
  }

  /** From levels (1,1), the reverse cycle B falls, A falls, B rises, A rises is four counter-clockwise steps. */
  lemma CounterClockwiseCycle(s: Decoder)
    requires s.levelA && s.levelB && s.rawMin <= s.raw - 4
    ensures Run(s, [Edge(PhaseB, false, true), Edge(PhaseA, false, false),
                    Edge(PhaseB, true, false), Edge(PhaseA, true, true)]) == s.(raw := s.raw - 4)
  {
    var e0, e1, e2, e3 := Edge(PhaseB, false, true), Edge(PhaseA, false, false),
                          Edge(PhaseB, true, false), Edge(PhaseA, true, true);
    var s1 := Step(s, e0);
    var s2 := Step(s1, e1);
    var s3 := Step(s2, e2);
    assert [e0, e1, e2, e3][1..] == [e1, e2, e3];
    assert [e1, e2, e3][1..] == [e2, e3];
    assert [e2, e3][1..] == [e3];
    assert Run(s3, [e3]) == Step(s3, e3);
  }

  /** An edge followed by the opposite edge on the same phase restores the state when no clamp occurs. */
  lemma EdgeThenOpposite(s: Decoder, e: Edge)
    requires Accepts(s, e) && s.rawMin <= s.raw <= s.rawMax
    requires Turn(e.phase, e.level, Recorded(s, Other(e.phase))) == Clockwise ==> s.raw < s.rawMax
    requires Turn(e.phase, e.level, Recorded(s, Other(e.phase))) == CounterClockwise ==> s.raw > s.rawMin
    ensures Accepts(Step(s, e), Edge(e.phase, !e.level, e.other))
    ensures Step(Step(s, e), Edge(e.phase, !e.level, e.other)) == s
  {
  }

  // ---------------------------------------------------------------------------
  // the object

  class Wheel {
    const pinA: int
    const pinB: int
    const stepsPerTurn: int
    var stateA: bool
    var stateB: bool
    var rawMin: int
    var raw: int
    var rawMax: int
    var max: int
    var min: int
    var turns: int
    /** Every value handed to the callback so far, oldest first. */
    var reported: seq<int>

    /** The decoder state that the fields hold. */
    function State(): Decoder
      reads this
    {
      Decoder(stateA, stateB, rawMin, raw, rawMax, min, max, turns * stepsPerTurn)
    }

    /**
      * `levelA` and `levelB` are what the two pins read at construction; the
      * wheel then configures the range 0..100 with initial value 50 over one turn.
      */
    constructor (pinA: int, pinB: int, levelA: bool, levelB: bool,
                 stepsPerTurn: int := DEFAULT_STEPS_PER_TURN)
      ensures this.pinA == pinA && this.pinB == pinB && this.stepsPerTurn == stepsPerTurn
      ensures stateA == levelA && stateB == levelB
      ensures min == 0 && max == 100 && turns == 1 && reported == []
      ensures State() == Configure(Decoder(levelA, levelB, 0, 0, 0, 0, 0, 0), 0, 50, 100, stepsPerTurn)
      ensures stepsPerTurn == DEFAULT_STEPS_PER_TURN ==> rawMin == 0 && raw == 48 && rawMax == 96
    {
      this.pinA := pinA;
      this.pinB := pinB;
      this.stepsPerTurn := stepsPerTurn;
      stateA := levelA;
      stateB := levelB;
      reported := [];
      new;
      var ok := Setup(0, 50, 100, 1);
    }

    /**
      * Rescales the user range [min, max] onto the raw counter. With
      * `max == min` the first division raises before anything is written:
      * `ok` is false and nothing changes.
      */
    method Setup(min: int, initial: int, max: int, turns: int) returns (ok: bool)
      modifies this
      ensures ok == (max != min)
      ensures !ok ==> unchanged(this)
      ensures ok ==> State() == Configure(old(State()), min, initial, max, turns * stepsPerTurn)
      ensures ok ==> this.turns == turns && reported == old(reported)
    {
      if max == min {
        return false;
      }
      var span := turns * stepsPerTurn;
      rawMin := FloorDiv(min * span, max - min);
      raw := FloorDiv(initial * span, max - min);
      rawMax := FloorDiv(max * span, max - min);
      this.max := max;
      this.min := min;
      this.turns := turns;
      ok := true;
    }

    /** Interrupt on pin A: it now reads `level`; pin B reads `levelB`. */
    method PinAChanged(level: bool, levelB: bool)
      modifies this
      ensures State() == Step(old(State()), Edge(PhaseA, level, levelB))
      ensures reported == old(reported) + Callbacks(old(State()), Edge(PhaseA, level, levelB))
      ensures turns == old(turns)
    {
      if stateB != levelB {
        return;
      }
      if stateA == level {
        return;
      }
      stateA := level;
      var dir;
      if stateB {
        dir := if !level then Clockwise else CounterClockwise;
      } else {
        dir := if !level then CounterClockwise else Clockwise;
      }
      Advance(dir);
    }

    /** Interrupt on pin B: it now reads `level`; pin A reads `levelA`. */
    method PinBChanged(level: bool, levelA: bool)
      modifies this
      ensures State() == Step(old(State()), Edge(PhaseB, level, levelA))
      ensures reported == old(reported) + Callbacks(old(State()), Edge(PhaseB, level, levelA))
      ensures turns == old(turns)
    {
      if stateA != levelA {
        return;
      }
      if stateB == level {
        return;
      }
      stateB := level;
      var dir;
      if stateA {
        dir := if !level then CounterClockwise else Clockwise;
      } else {
        dir := if !level then Clockwise else CounterClockwise;
      }
      Advance(dir);
    }

    /** The clamped step and the callback, shared by both interrupt handlers. */
    method Advance(dir: Direction)
      modifies this`raw, this`reported
      ensures raw == Move(old(raw), rawMin, rawMax, dir)
      ensures reported == old(reported) + match Reported(State()) case None => [] case Some(v) => [v]
    {
      if dir == Clockwise {
        raw := raw + 1;
        if raw > rawMax {
          raw := rawMax;
        }
      } else {
        raw := raw - 1;
        if raw < rawMin {
          raw := rawMin;
        }
      }
      if turns * stepsPerTurn != 0 {
        reported := reported + [FloorDiv(raw * (max - min), turns * stepsPerTurn)];
      }
    }
  }
}
