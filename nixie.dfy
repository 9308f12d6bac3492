/**
  * The multiplexed nixie display: four tubes share one cyclic pulse channel.
  * Tube k owns a time slot starting at k*STRIDE; its digit (cathode) lines are
  * held for DIGIT_LENGTH ticks from the slot start and its anode lines are
  * pulsed for `tubeLength` ticks from one tick later.
  *
  * The hardware pulse channel is modelled as the list of pulses it currently
  * holds; the display thread's render loop is modelled one pass at a time.
  */
module Nixie {
  import opened Py2

  const TUBE_LENGTH := 170
  const STRIDE := 250
  const DIGIT_LENGTH := 240
  const TUBES := 4
  /** Period of the pulse channel set up by the clock sequence, in microseconds. */
  const PERIOD := 10000
  /**
    * Pulse starts and widths count increments of the PWM library's default
    * granularity, 10 microseconds; every other length in this module is in
    * these ticks.
    */
  const TICK_US := 10

  /** anode_a, anode_b, anode_c */
  const AnodeGpios: seq<int> := [8, 25, 7]
  /** cathode_A .. cathode_D */
  const CathodeGpios: seq<int> := [10, 18, 11, 9]

  /** Anode pattern selecting tube k. */
  const TubePatterns: seq<seq<int>> := [[1, 1, 0], [0, 0, 1], [0, 1, 0], [1, 0, 1]]
  const BlankPattern: seq<int> := [0, 0, 0]

  /** Cathode pattern for digit d. */
  const DigitPatterns: seq<seq<int>> :=
    [[0, 0, 0, 0], [0, 1, 0, 0], [1, 0, 0, 1], [1, 1, 0, 0], [1, 1, 1, 0],
     [0, 1, 1, 0], [0, 0, 0, 1], [0, 0, 1, 0], [1, 0, 1, 0], [1, 0, 0, 0]]

  /** One entry of a sequence's `gpio_sets`: a line pattern, its start tick and its width. */
  datatype Slot = Slot(pattern: seq<int>, start: int, width: int)

  /** One pulse programmed on the channel for one output line. */
  datatype Pulse = Pulse(gpio: int, start: int, width: int)

  // ---------------------------------------------------------------------------
  // Pattern tables

  predicate IsBits(p: seq<int>) {
    forall i :: 0 <= i < |p| ==> p[i] == 0 || p[i] == 1
  }

  /** A 4-bit pattern read as a binary number, first line most significant. */
  function DigitCode(p: seq<int>): int
    requires |p| == 4
  {
    8 * p[0] + 4 * p[1] + 2 * p[2] + p[3]
  }

  /** A 3-bit pattern read as a binary number, first line most significant. */
  function TubeCode(p: seq<int>): int
    requires |p| == 3
  {
    4 * p[0] + 2 * p[1] + p[2]
  }

  /** The binary codes of the ten digit patterns. */
  const DigitCodes: seq<int> := [0, 4, 9, 12, 14, 6, 1, 2, 10, 8]

  /** Each digit has its own 4-bit cathode pattern. */
  lemma DigitTable()
    ensures |DigitPatterns| == 10
    ensures forall d :: 0 <= d < 10 ==> |DigitPatterns[d]| == 4 && IsBits(DigitPatterns[d])
    ensures forall d :: 0 <= d < 10 ==> DigitCode(DigitPatterns[d]) == DigitCodes[d]
    ensures forall d, e :: 0 <= d < e < 10 ==> DigitPatterns[d] != DigitPatterns[e]
  {
    forall d, e | 0 <= d < e < 10
      ensures DigitPatterns[d] != DigitPatterns[e]
    {
      assert DigitCodes[d] != DigitCodes[e];
    }
  }

  /** The four tube patterns are distinct 3-bit patterns, none all zeros; the blank pattern is all zeros. */
  lemma TubeTable()
    ensures |TubePatterns| == TUBES
    ensures forall k :: 0 <= k < TUBES ==> |TubePatterns[k]| == 3 && IsBits(TubePatterns[k]) && 1 in TubePatterns[k]
    ensures forall k, j :: 0 <= k < j < TUBES ==> TubePatterns[k] != TubePatterns[j]
    ensures |BlankPattern| == 3 && forall i :: 0 <= i < 3 ==> BlankPattern[i] == 0
  {
    forall k, j | 0 <= k < j < TUBES
      ensures TubePatterns[k] != TubePatterns[j]
    {
      assert TubeCode(TubePatterns[k]) != TubeCode(TubePatterns[j]);
    }
  }

  // ---------------------------------------------------------------------------
  // Slot timing

  function DigitStart(k: int): int {
    k * STRIDE
  }

  function AnodeStart(k: int): int {
    1 + k * STRIDE
  }

  /** The digit slot of tube k showing digit d. */
  function DigitSlot(k: int, d: int): Slot
    requires 0 <= d < 10
  {
    Slot(DigitPatterns[d], DigitStart(k), DIGIT_LENGTH)
  }

  /** The anode slot of tube k, lit or blanked, with the given width. */
  function AnodeSlot(k: int, lit: bool, width: int): Slot
    requires 0 <= k < TUBES
  {
    Slot(if lit then TubePatterns[k] else BlankPattern, AnodeStart(k), width)
  }

  /**
    * The anode pulse of every tube sits strictly inside its digit pulse, and
    * both end within the cycle.
    */
  lemma SlotInside(k: int, width: int)
    requires 0 <= k < TUBES && 0 <= width <= TUBE_LENGTH
    ensures DigitStart(k) < AnodeStart(k)
    ensures AnodeStart(k) + width < DigitStart(k) + DIGIT_LENGTH
    ensures DigitStart(k) + DIGIT_LENGTH <= TUBES * STRIDE
    ensures TUBES * STRIDE * TICK_US == PERIOD
  {
  }

  /** The slots of an earlier tube end before those of a later tube begin. */
  lemma SlotsApart(k: int, j: int, width: int)
    requires 0 <= k < j < TUBES && 0 <= width <= TUBE_LENGTH
    ensures DigitStart(k) + DIGIT_LENGTH <= DigitStart(j)
    ensures AnodeStart(k) + width <= AnodeStart(j)
  {
  }

  // ---------------------------------------------------------------------------
  // Brightness

  /** `brightness*TUBE_LENGTH/100` (floor division), clamped to [0, TUBE_LENGTH]. */
  function TubeLength(brightness: int): (r: int)
    ensures 0 <= r <= TUBE_LENGTH
  {
    var len := FloorDiv(brightness * TUBE_LENGTH, 100);
    if len > TUBE_LENGTH then TUBE_LENGTH else if len < 0 then 0 else len
  }

  /** Brightness in 0..100 scales linearly; beyond 100 it saturates, at 0 or below it gives zero. */
  lemma BrightnessScale(brightness: int, other: int)
    ensures 0 <= brightness <= 100 ==> TubeLength(brightness) == brightness * TUBE_LENGTH / 100
    ensures brightness >= 100 ==> TubeLength(brightness) == TUBE_LENGTH
    ensures brightness <= 0 ==> TubeLength(brightness) == 0
    ensures brightness <= other ==> TubeLength(brightness) <= TubeLength(other)
  {
    if brightness <= other {
      FloorDivMonotone(brightness * TUBE_LENGTH, other * TUBE_LENGTH, 100);
    }
    if brightness >= 100 {
      FloorDivMonotone(100 * TUBE_LENGTH, brightness * TUBE_LENGTH, 100);
    }
    if brightness <= 0 {
      FloorDivMonotone(brightness * TUBE_LENGTH, 0, 100);
    }
  }

  // ---------------------------------------------------------------------------
  // Pulses

  predicate SlotsFit(gpios: seq<int>, slots: seq<Slot>) {
    forall k :: 0 <= k < |slots| ==> |gpios| <= |slots[k].pattern|
  }

  /** The pulses `apply` issues for one slot, over its first n lines, in order. */
  function SlotPulses(gpios: seq<int>, slot: Slot, n: nat): seq<Pulse>
    requires n <= |gpios| && n <= |slot.pattern|
  {
    if n == 0 then []
    else SlotPulses(gpios, slot, n - 1) +
         (if slot.pattern[n - 1] == 1 then [Pulse(gpios[n - 1], slot.start, slot.width)] else [])
  }

  /** The pulses `apply` issues for a list of slots, in order. */
  function Emitted(gpios: seq<int>, slots: seq<Slot>): seq<Pulse>
    requires SlotsFit(gpios, slots)
  {
    if slots == [] then []
    else Emitted(gpios, slots[..|slots| - 1]) + SlotPulses(gpios, slots[|slots| - 1], |gpios|)
  }

  /** Emitting one more slot of a list appends that slot's pulses. */
  lemma EmittedPrefix(gpios: seq<int>, slots: seq<Slot>, k: nat)
    requires SlotsFit(gpios, slots) && k < |slots|
    ensures SlotsFit(gpios, slots[..k]) && SlotsFit(gpios, slots[..k + 1])
    ensures Emitted(gpios, slots[..k + 1]) == Emitted(gpios, slots[..k]) + SlotPulses(gpios, slots[k], |gpios|)
  {
    var longer, shorter := slots[..k + 1], slots[..k];
    assert SlotsFit(gpios, longer) by {
      forall j | 0 <= j < k + 1
        ensures |gpios| <= |longer[j].pattern|
      {
        assert longer[j] == slots[j];
      }
    }
    assert SlotsFit(gpios, shorter) by {
      forall j | 0 <= j < k
        ensures |gpios| <= |shorter[j].pattern|
      {
        assert shorter[j] == slots[j];
      }
    }
    assert longer[..|longer| - 1] == shorter;
    assert longer[|longer| - 1] == slots[k];
    assert Emitted(gpios, longer) == Emitted(gpios, shorter) + SlotPulses(gpios, slots[k], |gpios|);
  }

  lemma {:induction false} SlotPulsesExactly(gpios: seq<int>, slot: Slot, n: nat, p: Pulse)
    requires n <= |gpios| && n <= |slot.pattern|
    ensures p in SlotPulses(gpios, slot, n) <==>
            exists i :: 0 <= i < n && slot.pattern[i] == 1 && p == Pulse(gpios[i], slot.start, slot.width)
  {
    if n > 0 {
      SlotPulsesExactly(gpios, slot, n - 1, p);
      if p == Pulse(gpios[n - 1], slot.start, slot.width) && slot.pattern[n - 1] == 1 {
        assert p in SlotPulses(gpios, slot, n);
      }
    }
  }

  /**
    * `apply` emits exactly one pulse (line, start, width) for each bit that is 1
    * in a slot's pattern, and none for the bits that are 0.
    */
  lemma {:induction false} EmittedExactly(gpios: seq<int>, slots: seq<Slot>, p: Pulse)
    requires SlotsFit(gpios, slots)
    ensures p in Emitted(gpios, slots) <==>
            exists k, i :: 0 <= k < |slots| && 0 <= i < |gpios| && slots[k].pattern[i] == 1 &&
                           p == Pulse(gpios[i], slots[k].start, slots[k].width)
  {
    if p in Emitted(gpios, slots) {
      EmittedSound(gpios, slots, p);
    }
    if exists k, i :: 0 <= k < |slots| && 0 <= i < |gpios| && slots[k].pattern[i] == 1 &&
                      p == Pulse(gpios[i], slots[k].start, slots[k].width) {
      var k, i :| 0 <= k < |slots| && 0 <= i < |gpios| && slots[k].pattern[i] == 1 &&
                  p == Pulse(gpios[i], slots[k].start, slots[k].width);
      EmittedComplete(gpios, slots, k, i);
    }
  }

  /** Every pulse `apply` issues comes from a set bit of some slot. */
  lemma {:induction false} EmittedSound(gpios: seq<int>, slots: seq<Slot>, p: Pulse)
    requires SlotsFit(gpios, slots) && p in Emitted(gpios, slots)
    ensures exists k, i :: 0 <= k < |slots| && 0 <= i < |gpios| && slots[k].pattern[i] == 1 &&
                           p == Pulse(gpios[i], slots[k].start, slots[k].width)
  {
    var init, last := slots[..|slots| - 1], slots[|slots| - 1];
    if p in Emitted(gpios, init) {
      EmittedSound(gpios, init, p);
      var k, i :| 0 <= k < |init| && 0 <= i < |gpios| && init[k].pattern[i] == 1 &&
                  p == Pulse(gpios[i], init[k].start, init[k].width);
      assert slots[k] == init[k];
    } else {
      SlotPulsesExactly(gpios, last, |gpios|, p);
      var i :| 0 <= i < |gpios| && last.pattern[i] == 1 && p == Pulse(gpios[i], last.start, last.width);
      assert slots[|slots| - 1].pattern[i] == 1;
    }
  }

  /** Every set bit of every slot gives a pulse. */
  lemma {:induction false} EmittedComplete(gpios: seq<int>, slots: seq<Slot>, k: nat, i: nat)
    requires SlotsFit(gpios, slots) && k < |slots| && i < |gpios| && slots[k].pattern[i] == 1
    ensures Pulse(gpios[i], slots[k].start, slots[k].width) in Emitted(gpios, slots)
  {
    var init, last := slots[..|slots| - 1], slots[|slots| - 1];
    var p := Pulse(gpios[i], slots[k].start, slots[k].width);
    assert Emitted(gpios, slots) == Emitted(gpios, init) + SlotPulses(gpios, last, |gpios|);
    if k < |init| {
      assert init[k] == slots[k];
      EmittedComplete(gpios, init, k, i);
      assert p in Emitted(gpios, init);
    } else {
      SlotPulsesExactly(gpios, last, |gpios|, p);
      assert p in SlotPulses(gpios, last, |gpios|);
    }
  }

  /** Every pulse a sequence emits is on one of its own lines. */
  lemma EmittedOnLines(gpios: seq<int>, slots: seq<Slot>)
    requires SlotsFit(gpios, slots)
    ensures forall p :: p in Emitted(gpios, slots) ==> p.gpio in gpios
  {
    forall p | p in Emitted(gpios, slots)
      ensures p.gpio in gpios
    {
      EmittedExactly(gpios, slots, p);
    }
  }

  /** The channel's pulses after clearing every line in `gpios`. */
  function Cleared(ps: seq<Pulse>, gpios: seq<int>): seq<Pulse> {
    if ps == [] then []
    else (if ps[0].gpio in gpios then [] else [ps[0]]) + Cleared(ps[1..], gpios)
  }

  /** Clearing keeps exactly the pulses on the other lines. */
  lemma {:induction false} ClearedMembers(ps: seq<Pulse>, gpios: seq<int>)
    ensures forall p :: p in Cleared(ps, gpios) <==> p in ps && p.gpio !in gpios
  {
    if ps != [] {
      ClearedMembers(ps[1..], gpios);
      assert ps == [ps[0]] + ps[1..];
    }
  }

  lemma {:induction false} ClearedNothing(ps: seq<Pulse>)
    ensures Cleared(ps, []) == ps
  {
    if ps != [] {
      ClearedNothing(ps[1..]);
    }
  }

  lemma {:induction false} ClearedConcat(a: seq<Pulse>, b: seq<Pulse>, gpios: seq<int>)
    ensures Cleared(a + b, gpios) == Cleared(a, gpios) + Cleared(b, gpios)
  {
    if a == [] {
      assert a + b == b;
    } else {
      assert (a + b)[0] == a[0];
      assert (a + b)[1..] == a[1..] + b;
      ClearedConcat(a[1..], b, gpios);
    }
  }

  /** Clearing one set of lines and then another is clearing both. */
  lemma {:induction false} ClearedTwice(ps: seq<Pulse>, g: seq<int>, h: seq<int>)
    ensures Cleared(Cleared(ps, g), h) == Cleared(ps, g + h)
  {
    if ps != [] {
      ClearedTwice(ps[1..], g, h);
      if ps[0].gpio in g {
        assert Cleared(ps, g) == Cleared(ps[1..], g);
        assert ps[0].gpio in g + h;
      } else {
        var rest := Cleared(ps[1..], g);
        assert Cleared(ps, g) == [ps[0]] + rest;
        assert ([ps[0]] + rest)[0] == ps[0];
        assert ([ps[0]] + rest)[1..] == rest;
      }
    }
  }

  /** A list without any member is empty. */
  lemma NoMembers(ps: seq<Pulse>)
    ensures (forall p :: p !in ps) ==> ps == []
  {
    if ps != [] {
      assert ps[0] in ps;
    }
  }

  /** Clearing lines that no pulse uses changes nothing. */
  lemma {:induction false} ClearedDisjoint(ps: seq<Pulse>, gpios: seq<int>)
    requires forall p :: p in ps ==> p.gpio !in gpios
    ensures Cleared(ps, gpios) == ps
  {
    if ps != [] {
      assert ps[0] in ps;
      forall p | p in ps[1..]
        ensures p.gpio !in gpios
      {
        assert p in ps;
      }
      ClearedDisjoint(ps[1..], gpios);
      assert [ps[0]] + ps[1..] == ps;
    }
  }

  /** The start-up pulse (line, 0, 1) that the sequence constructor programs on each line. */
  function Marks(gpios: seq<int>): (r: seq<Pulse>)
    ensures forall p :: p in r ==> p.gpio in gpios
  {
    if gpios == [] then []
    else Marks(gpios[..|gpios| - 1]) + [Pulse(gpios[|gpios| - 1], 0, 1)]
  }

  /** Clearing its lines removes every start-up pulse of a sequence. */
  lemma ClearedMarks(gpios: seq<int>)
    ensures Cleared(Marks(gpios), gpios) == []
  {
    ClearedMembers(Marks(gpios), gpios);
    NoMembers(Cleared(Marks(gpios), gpios));
  }

  /** The hardware pulse channel, as the list of pulses it currently holds. */
  class PulseChannel {
    const period: int
    var pulses: seq<Pulse>

    constructor (period: int)
      ensures this.period == period && pulses == []
    {
      this.period := period;
      pulses := [];
    }

    method AddPulse(gpio: int, start: int, width: int)
      modifies this
      ensures pulses == old(pulses) + [Pulse(gpio, start, width)]
    {
      pulses := pulses + [Pulse(gpio, start, width)];
    }

    method ClearGpio(gpio: int)
      modifies this
      ensures pulses == Cleared(old(pulses), [gpio])
    {
      pulses := Cleared(pulses, [gpio]);
    }
  }

  /** A group of output lines and the slots they are pulsed in. */
  class Sequence {
    const gpios: seq<int>
    var gpioSets: seq<Slot>

    ghost predicate WellFormed()
      reads this
    {
      SlotsFit(gpios, gpioSets)
    }

    /** Claims the lines: programs a start-up pulse on each, then clears them all. */
    constructor (gpios: seq<int>, gpioSets: seq<Slot>, pwm: PulseChannel)
      modifies pwm
      ensures this.gpios == gpios && this.gpioSets == gpioSets
      ensures pwm.pulses == Cleared(old(pwm.pulses), gpios)
    {
      this.gpios := gpios;
      this.gpioSets := gpioSets;
      new;
      Claim(pwm);
      Reset(pwm);
      ClearedConcat(old(pwm.pulses), Marks(gpios), gpios);
      ClearedMarks(gpios);
    }

    /** The start-up pulse, one short pulse on each line in turn. */
    method Claim(pwm: PulseChannel)
      modifies pwm
      ensures pwm.pulses == old(pwm.pulses) + Marks(gpios)
    {
      for i := 0 to |gpios|
        invariant pwm.pulses == old(pwm.pulses) + Marks(gpios[..i])
      {
        pwm.AddPulse(gpios[i], 0, 1);
        assert gpios[..i + 1][..i] == gpios[..i];
      }
      assert gpios[..|gpios|] == gpios;
    }

    /** Programs one pulse per set bit of every slot. */
    method Apply(pwm: PulseChannel)
      requires WellFormed()
      modifies pwm
      ensures pwm.pulses == old(pwm.pulses) + Emitted(gpios, gpioSets)
    {
      for k := 0 to |gpioSets|
        invariant pwm.pulses == old(pwm.pulses) + Emitted(gpios, gpioSets[..k])
      {
        ApplySlot(gpioSets[k], pwm);
        EmittedPrefix(gpios, gpioSets, k);
      }
      assert gpioSets[..|gpioSets|] == gpioSets;
    }

    /** Programs one pulse per set bit of one slot, line by line. */
    method ApplySlot(slot: Slot, pwm: PulseChannel)
      requires |gpios| <= |slot.pattern|
      modifies pwm
      ensures pwm.pulses == old(pwm.pulses) + SlotPulses(gpios, slot, |gpios|)
    {
      for i := 0 to |gpios|
        invariant pwm.pulses == old(pwm.pulses) + SlotPulses(gpios, slot, i)
      {
        if slot.pattern[i] == 1 {
          pwm.AddPulse(gpios[i], slot.start, slot.width);
        }
      }
    }

    /** Clears every pulse on this sequence's lines. */
    method Reset(pwm: PulseChannel)
      modifies pwm
      ensures pwm.pulses == Cleared(old(pwm.pulses), gpios)
    {
      ClearedNothing(pwm.pulses);
      for i := 0 to |gpios|
        invariant pwm.pulses == Cleared(old(pwm.pulses), gpios[..i])
      {
        pwm.ClearGpio(gpios[i]);
        ClearedTwice(old(pwm.pulses), gpios[..i], [gpios[i]]);
        assert gpios[..i] + [gpios[i]] == gpios[..i + 1];
      }
      assert gpios[..|gpios|] == gpios;
    }
  }

  // ---------------------------------------------------------------------------
  // The display

  predicate AnodeSlotOk(k: int, s: Slot)
    requires 0 <= k < TUBES
  {
    && |s.pattern| == 3
    && (s.pattern == BlankPattern || s.pattern == TubePatterns[k])
    && s.start == AnodeStart(k)
    && 0 <= s.width <= TUBE_LENGTH
  }

  predicate DigitSlotOk(k: int, s: Slot) {
    && |s.pattern| == 4
    && s.pattern in DigitPatterns
    && s.start == DigitStart(k)
    && s.width == DIGIT_LENGTH
  }

  /** The same slots with every width replaced by `width`. */
  function Rewidth(slots: seq<Slot>, width: int): seq<Slot>
  {
    seq(|slots|, k requires 0 <= k < |slots| => slots[k].(width := width))
  }

  /** A list of pulses with every width replaced. */
  function Widened(pulses: seq<Pulse>, width: int): seq<Pulse>
  {
    seq(|pulses|, i requires 0 <= i < |pulses| => pulses[i].(width := width))
  }

  /** One slot at another width gives the same pulses at that width. */
  lemma {:induction false} SlotPulsesRewidth(gpios: seq<int>, slot: Slot, n: nat, width: int)
    requires n <= |gpios| && n <= |slot.pattern|
    ensures SlotPulses(gpios, slot.(width := width), n) == Widened(SlotPulses(gpios, slot, n), width)
  {
    if n > 0 {
      SlotPulsesRewidth(gpios, slot, n - 1, width);
      var a := SlotPulses(gpios, slot, n - 1);
      var b := if slot.pattern[n - 1] == 1 then [Pulse(gpios[n - 1], slot.start, slot.width)] else [];
      assert Widened(a + b, width) == Widened(a, width) + Widened(b, width);
    }
  }

  /**
    * Re-programming slots at a new width emits the very same pulses, in the
    * same order, with only their width replaced.
    */
  lemma {:induction false} RewidthEmitted(gpios: seq<int>, slots: seq<Slot>, width: int)
    requires SlotsFit(gpios, slots)
    ensures SlotsFit(gpios, Rewidth(slots, width))
    ensures Emitted(gpios, Rewidth(slots, width)) == Widened(Emitted(gpios, slots), width)
  {
    var r := Rewidth(slots, width);
    assert SlotsFit(gpios, r) by {
      forall k | 0 <= k < |r|
        ensures |gpios| <= |r[k].pattern|
      {
        assert r[k].pattern == slots[k].pattern;
      }
    }
    if slots != [] {
      var init, last := slots[..|slots| - 1], slots[|slots| - 1];
      assert r[..|r| - 1] == Rewidth(init, width);
      assert r[|r| - 1] == last.(width := width);
      RewidthEmitted(gpios, init, width);
      SlotPulsesRewidth(gpios, last, |gpios|, width);
      var a, b := Emitted(gpios, init), SlotPulses(gpios, last, |gpios|);
      assert Widened(a + b, width) == Widened(a, width) + Widened(b, width);
    }
  }

  /** Four tube entries, each a digit or -1 for a blank tube. */
  predicate Entries(values: seq<int>) {
    |values| == TUBES && forall k :: 0 <= k < TUBES ==> -1 <= values[k] <= 9
  }

  /** Overwriting every entry of a four-entry list, in order, gives the list of the new entries. */
  lemma FourUpdates(s: seq<Slot>, a: Slot, b: Slot, c: Slot, d: Slot)
    requires |s| == TUBES
    ensures s[0 := a][1 := b][2 := c][3 := d] == [a, b, c, d]
  {
  }

  /** The anode slots for the tube entries `values`: tube k is lit exactly when its entry is not -1. */
  function TubeSlots(values: seq<int>, width: int): seq<Slot>
    requires |values| == TUBES
  {
    [AnodeSlot(0, values[0] != -1, width), AnodeSlot(1, values[1] != -1, width),
     AnodeSlot(2, values[2] != -1, width), AnodeSlot(3, values[3] != -1, width)]
  }

  /** The digit slot of tube k for entry v: a blank tube keeps `prior`. */
  function DigitSlotFor(k: int, v: int, prior: Slot): Slot
    requires -1 <= v <= 9
  {
    if v == -1 then prior else DigitSlot(k, v)
  }

  /** The digit slots for the tube entries `values`, blank tubes keeping theirs from `before`. */
  function DigitSlots(values: seq<int>, before: seq<Slot>): seq<Slot>
    requires Entries(values) && |before| == TUBES
  {
    [DigitSlotFor(0, values[0], before[0]), DigitSlotFor(1, values[1], before[1]),
     DigitSlotFor(2, values[2], before[2]), DigitSlotFor(3, values[3], before[3])]
  }

  /**
    * What the slots for `values` mean tube by tube: the anode slot is lit
    * exactly for an entry other than -1; such a tube shows its entry's digit
    * pattern in its own digit slot, and a blank tube keeps its digit slot.
    */
  lemma DisplaysMeans(values: seq<int>, before: seq<Slot>, width: int, k: int)
    requires Entries(values) && |before| == TUBES && 0 <= k < TUBES
    ensures TubeSlots(values, width)[k].pattern == (if values[k] == -1 then BlankPattern else TubePatterns[k])
    ensures TubeSlots(values, width)[k].start == AnodeStart(k) && TubeSlots(values, width)[k].width == width
    ensures values[k] == -1 ==> DigitSlots(values, before)[k] == before[k]
    ensures values[k] != -1 ==> DigitSlots(values, before)[k] == Slot(DigitPatterns[values[k]], k * STRIDE, DIGIT_LENGTH)
  {
  }

  /** The slots the display starts with: every tube lit at full length, showing 0. */
  lemma InitialSlots(anodeSlots: seq<Slot>, digitSlots: seq<Slot>)
    requires anodeSlots == [AnodeSlot(0, true, TUBE_LENGTH), AnodeSlot(1, true, TUBE_LENGTH),
                            AnodeSlot(2, true, TUBE_LENGTH), AnodeSlot(3, true, TUBE_LENGTH)]
    requires digitSlots == [DigitSlot(0, 0), DigitSlot(1, 0), DigitSlot(2, 0), DigitSlot(3, 0)]
    ensures |anodeSlots| == TUBES && |digitSlots| == TUBES
    ensures forall k :: 0 <= k < TUBES ==> AnodeSlotOk(k, anodeSlots[k]) && anodeSlots[k] == AnodeSlot(k, true, TUBE_LENGTH)
    ensures forall k :: 0 <= k < TUBES ==> DigitSlotOk(k, digitSlots[k]) && digitSlots[k] == DigitSlot(k, 0)
    ensures SlotsFit(AnodeGpios, anodeSlots) && SlotsFit(CathodeGpios, digitSlots)
  {
    DigitTable();
    TubeTable();
  }

  /** The pulses of anode and digit slots lie on the display's own lines, never on both kinds. */
  lemma ProgrammeOnLines(anodeSlots: seq<Slot>, digitSlots: seq<Slot>)
    requires SlotsFit(AnodeGpios, anodeSlots) && SlotsFit(CathodeGpios, digitSlots)
    ensures forall p :: p in Emitted(AnodeGpios, anodeSlots) ==> p.gpio in AnodeGpios && p.gpio !in CathodeGpios
    ensures forall p :: p in Emitted(CathodeGpios, digitSlots) ==> p.gpio in CathodeGpios
  {
    EmittedOnLines(AnodeGpios, anodeSlots);
    EmittedOnLines(CathodeGpios, digitSlots);
  }

  /**
    * The first half of building the display: the anode sequence claims its
    * lines and programs its slots, then the digit sequence does the same.
    */
  method ClaimAndApply(anodeSlots: seq<Slot>, digitSlots: seq<Slot>, channel: PulseChannel)
    returns (t: Sequence, d: Sequence)
    requires channel.pulses == []
    requires SlotsFit(AnodeGpios, anodeSlots) && SlotsFit(CathodeGpios, digitSlots)
    modifies channel
    ensures fresh(t) && fresh(d)
    ensures t.gpios == AnodeGpios && t.gpioSets == anodeSlots
    ensures d.gpios == CathodeGpios && d.gpioSets == digitSlots
    ensures channel.pulses == Emitted(AnodeGpios, anodeSlots) + Emitted(CathodeGpios, digitSlots)
  {
    t := new Sequence(AnodeGpios, anodeSlots, channel);
    t.Apply(channel);
    ghost var anodes := channel.pulses;
    assert anodes == Emitted(AnodeGpios, anodeSlots);
    ProgrammeOnLines(anodeSlots, []);
    d := new Sequence(CathodeGpios, digitSlots, channel);
    ClearedDisjoint(anodes, CathodeGpios);
    d.Apply(channel);
  }

  class StandardDisplay {
    var tubeLength: int
    const pwm: PulseChannel
    /** The anode lines. */
    const tube: Sequence
    /** The cathode (digit) lines. */
    const digit: Sequence

    ghost predicate Valid()
      reads this, pwm, tube, digit
    {
      && tube != digit
      && tube.gpios == AnodeGpios && digit.gpios == CathodeGpios
      && |tube.gpioSets| == TUBES && |digit.gpioSets| == TUBES
      && 0 <= tubeLength <= TUBE_LENGTH
      && (forall k :: 0 <= k < TUBES ==> AnodeSlotOk(k, tube.gpioSets[k]))
      && (forall k :: 0 <= k < TUBES ==> DigitSlotOk(k, digit.gpioSets[k]))
      && (forall p :: p in pwm.pulses ==> p.gpio in AnodeGpios || p.gpio in CathodeGpios)
    }

    /** The pulses that the current slots call for: digits first, then anodes, as `apply` issues them. */
    ghost function Programme(): seq<Pulse>
      reads this, pwm, tube, digit
      requires Valid()
    {
      Emitted(CathodeGpios, digit.gpioSets) + Emitted(AnodeGpios, tube.gpioSets)
    }

    /** The channel holds exactly the pulses the current slots call for, in the order `apply` issues them. */
    ghost predicate Showing()
      reads this, pwm, tube, digit
    {
      Valid() && pwm.pulses == Programme()
    }

    /** The pulses the constructor leaves on the channel: the anode slots' pulses, then the digit slots'. */
    ghost function Initial(): seq<Pulse>
      reads this, pwm, tube, digit
      requires Valid()
    {
      Emitted(AnodeGpios, tube.gpioSets) + Emitted(CathodeGpios, digit.gpioSets)
    }

    /**
      * The display shows the tube entries `values`: the slots are the ones
      * `values` calls for (see `DisplaysMeans`), with `before` supplying the
      * digit slots of blanked tubes, and the channel holds exactly the
      * resulting programme.
      */
    ghost predicate Displays(values: seq<int>, before: seq<Slot>)
      reads this, pwm, tube, digit
    {
      && Showing()
      && Entries(values) && |before| == TUBES
      && tube.gpioSets == TubeSlots(values, tubeLength)
      && digit.gpioSets == DigitSlots(values, before)
    }

    /** All tubes lit at full length, all showing 0, and the channel programmed accordingly. */
    constructor (channel: PulseChannel)
      requires channel.pulses == []
      modifies channel
      ensures Valid() && pwm.pulses == Initial()
      ensures pwm == channel && fresh(tube) && fresh(digit)
      ensures tubeLength == TUBE_LENGTH
      ensures forall k :: 0 <= k < TUBES ==> tube.gpioSets[k] == AnodeSlot(k, true, TUBE_LENGTH)
      ensures forall k :: 0 <= k < TUBES ==> digit.gpioSets[k] == DigitSlot(k, 0)
    {
      var anodeSlots := [AnodeSlot(0, true, TUBE_LENGTH), AnodeSlot(1, true, TUBE_LENGTH),
                         AnodeSlot(2, true, TUBE_LENGTH), AnodeSlot(3, true, TUBE_LENGTH)];
      var digitSlots := [DigitSlot(0, 0), DigitSlot(1, 0), DigitSlot(2, 0), DigitSlot(3, 0)];
      InitialSlots(anodeSlots, digitSlots);
      var t, d := ClaimAndApply(anodeSlots, digitSlots, channel);
      tubeLength := TUBE_LENGTH;
      pwm := channel;
      tube := t;
      digit := d;
      new;
      ProgrammeOnLines(anodeSlots, digitSlots);
    }

    /** Clears every display line from the channel. */
    method Reset()
      requires Valid()
      modifies pwm
      ensures Valid() && pwm.pulses == []
    {
      ghost var before := pwm.pulses;
      tube.Reset(pwm);
      digit.Reset(pwm);
      ClearedTwice(before, AnodeGpios, CathodeGpios);
      ClearedMembers(before, AnodeGpios + CathodeGpios);
      NoMembers(pwm.pulses);
    }

    /** Programs the digit slots, then the anode slots. */
    method Apply()
      requires Valid()
      modifies pwm
      ensures Valid() && pwm.pulses == old(pwm.pulses) + Programme()
    {
      digit.Apply(pwm);
      tube.Apply(pwm);
      EmittedOnLines(CathodeGpios, digit.gpioSets);
      EmittedOnLines(AnodeGpios, tube.gpioSets);
    }

    /**
      * Sets the anode length from a brightness percentage and re-programs the
      * channel with every anode slot at the new length.
      */
    method SetBrightness(brightness: int)
      requires Valid()
      modifies this, tube, pwm
      ensures Valid() && Showing()
      ensures tubeLength == TubeLength(brightness)
      ensures tube.gpioSets == Rewidth(old(tube.gpioSets), tubeLength)
      ensures digit.gpioSets == old(digit.gpioSets)
    {
      tubeLength := FloorDiv(brightness * TUBE_LENGTH, 100);
      if tubeLength > TUBE_LENGTH {
        tubeLength := TUBE_LENGTH;
      }
      if tubeLength < 0 {
        tubeLength := 0;
      }
      tube.gpioSets := Rewidth(tube.gpioSets, tubeLength);
      Reset();
      Apply();
    }

    /**
      * `set_brightness` as the source writes it: the new length is stored, but
      * the channel is re-programmed from the unchanged anode slots.
      */
    method SetBrightnessAsWritten(brightness: int)
      requires Valid()
      modifies this, pwm
      ensures Valid() && Showing()
      ensures tubeLength == TubeLength(brightness)
      ensures tube.gpioSets == old(tube.gpioSets) && digit.gpioSets == old(digit.gpioSets)
    {
      tubeLength := FloorDiv(brightness * TUBE_LENGTH, 100);
      if tubeLength > TUBE_LENGTH {
        tubeLength := TUBE_LENGTH;
      }
      if tubeLength < 0 {
        tubeLength := 0;
      }
      Reset();
      Apply();
    }

    /** Puts digit `d` into the digit slot of tube `k`; no other slot changes. */
    method SetTube(k: int, d: int)
      requires Valid() && 0 <= k < TUBES && 0 <= d < 10
      modifies digit
      ensures Valid()
      ensures digit.gpioSets == old(digit.gpioSets)[k := DigitSlot(k, d)]
    {
      DigitTable();
      digit.gpioSets := digit.gpioSets[k := DigitSlot(k, d)];
    }

    /** Turns the anode slot of tube `k` off; no other slot changes. */
    method BlankTube(k: int)
      requires Valid() && 0 <= k < TUBES
      modifies tube
      ensures Valid()
      ensures tube.gpioSets == old(tube.gpioSets)[k := AnodeSlot(k, false, tubeLength)]
    {
      tube.gpioSets := tube.gpioSets[k := AnodeSlot(k, false, tubeLength)];
    }

    /** Turns the anode slot of tube `k` back on at the current length; no other slot changes. */
    method UnblankTube(k: int)
      requires Valid() && 0 <= k < TUBES
      modifies tube
      ensures Valid()
      ensures tube.gpioSets == old(tube.gpioSets)[k := AnodeSlot(k, true, tubeLength)]
    {
      TubeTable();
      tube.gpioSets := tube.gpioSets[k := AnodeSlot(k, true, tubeLength)];
    }
  }

  /** After `set_brightness` the anode pulses all have the new length. */
  lemma AnodeWidthsFollowBrightness(slots: seq<Slot>, width: int)
    requires SlotsFit(AnodeGpios, slots)
    ensures forall p :: p in Emitted(AnodeGpios, Rewidth(slots, width)) ==> p.width == width
  {
    forall p | p in Emitted(AnodeGpios, Rewidth(slots, width))
      ensures p.width == width
    {
      EmittedExactly(AnodeGpios, Rewidth(slots, width), p);
    }
  }

  /**
    * As written, lowering the brightness of a freshly built display to 50
    * stores a length of 85 ticks, yet the re-programmed anode pulse of tube 0
    * still lasts the full 170 ticks.
    */
  lemma StaleAnodeWidth()
    ensures TubeLength(50) == 85
    ensures Pulse(AnodeGpios[0], AnodeStart(0), TUBE_LENGTH) in
            Emitted(AnodeGpios, [AnodeSlot(0, true, TUBE_LENGTH), AnodeSlot(1, true, TUBE_LENGTH),
                                 AnodeSlot(2, true, TUBE_LENGTH), AnodeSlot(3, true, TUBE_LENGTH)])
  {
    var slots := [AnodeSlot(0, true, TUBE_LENGTH), AnodeSlot(1, true, TUBE_LENGTH),
                  AnodeSlot(2, true, TUBE_LENGTH), AnodeSlot(3, true, TUBE_LENGTH)];
    assert slots[0].pattern[0] == 1;
    EmittedExactly(AnodeGpios, slots, Pulse(AnodeGpios[0], AnodeStart(0), TUBE_LENGTH));
  }

  // ---------------------------------------------------------------------------
  // What the tubes show

  /** The value a tube entry stands for: a blank tube counts as 0. */
  function Shown(v: int): int {
    if v == -1 then 0 else v
  }

  /** The four tube entries `display_number` writes for `n`. */
  function DecimalTubes(n: int): (r: seq<int>)
    ensures |r| == TUBES
    ensures n < 10000 ==> forall k :: 0 <= k < TUBES ==> -1 <= r[k] <= 9
  {
    [if n >= 1000 then n / 1000 else -1,
     if n >= 100 then n % 1000 / 100 else -1,
     if n >= 10 then n % 100 / 10 else -1,
     n % 10]
  }

  /**
    * For 0 <= n < 10000 the tubes hold the decimal digits of n, most
    * significant first, with the leading zeros blanked, and read back as n.
    */
  lemma DecimalTubesRoundTrip(n: int)
    requires 0 <= n < 10000
    ensures var t := DecimalTubes(n);
            && Shown(t[0]) * 1000 + Shown(t[1]) * 100 + Shown(t[2]) * 10 + t[3] == n
            && (t[0] == -1 <==> n < 1000)
            && (t[1] == -1 <==> n < 100)
            && (t[2] == -1 <==> n < 10)
            && t[3] == n % 10
            && forall k :: 0 <= k < TUBES && t[k] != -1 ==> 0 <= t[k] <= 9
  {
    var a, r := n / 1000, n % 1000;
    var b, s := r / 100, r % 100;
    var c, d := s / 10, s % 10;
    DivModUnique(n, 100, 10 * a + b, s);
    DivModUnique(n, 10, 100 * a + 10 * b + c, d);
  }

  /** Quotient and remainder are determined by the division equation. */
  lemma DivModUnique(n: int, m: int, q: int, r: int)
    requires m > 0 && n == q * m + r && 0 <= r < m
    ensures n / m == q && n % m == r
  {
    assert m * q == q * m;
    FloorDivUnique(n, m, q);
  }

  lemma DisplayNumberExamples()
    ensures DecimalTubes(7) == [-1, -1, -1, 7]
    ensures DecimalTubes(1234) == [1, 2, 3, 4]
    ensures DecimalTubes(50) == [-1, -1, 5, 0]
  {
  }

  datatype ClockTime = ClockTime(hour: int, minute: int, second: int) {
    predicate Valid() {
      0 <= hour < 24 && 0 <= minute < 60 && 0 <= second <= 61
    }
  }

  /** The tube entries for the clock: hours and minutes, a leading hour zero blanked. */
  function ClockTubes(hour: int, minute: int): seq<int> {
    [if hour >= 10 then hour / 10 else -1, hour % 10, minute / 10, minute % 10]
  }

  /** The clock tubes read back as the hour and the minute; tube 0 is blank exactly before 10 o'clock. */
  lemma ClockTubesShowTime(t: ClockTime)
    requires t.Valid()
    ensures var v := ClockTubes(t.hour, t.minute);
            && |v| == TUBES
            && (forall k :: 0 <= k < TUBES ==> -1 <= v[k] <= 9)
            && (v[0] == -1 <==> t.hour < 10)
            && Shown(v[0]) * 10 + v[1] == t.hour
            && v[2] * 10 + v[3] == t.minute
  {
  }

  /** A clock pass redraws when no time is on the tubes, or when the hour or the minute changed. */
  predicate ClockRedraws(now: ClockTime, previous: Option<ClockTime>) {
    previous.None? || now.hour != previous.value.hour || now.minute != previous.value.minute
  }

  /**
    * The redraw test as written: the previous stamp is always a time, and after
    * a custom or blanked pass it is the local time of the epoch.
    */
  predicate ClockRedrawsAsWritten(now: ClockTime, previous: ClockTime) {
    now.hour != previous.hour || now.minute != previous.minute
  }

  /**
    * As written, with the local time of the epoch at 00:00 (UTC), a clock pass
    * at 00:00:30 that follows the display of 50 does not redraw: the tubes keep
    * showing 50 instead of the time.
    */
  lemma EpochStampSkipsRedraw()
    ensures !ClockRedrawsAsWritten(ClockTime(0, 0, 30), ClockTime(0, 0, 0))
    ensures DecimalTubes(50) != ClockTubes(0, 0)
  {
  }

  // ---------------------------------------------------------------------------
  // The display thread

  /** The clock sequence's channel with a standard display built on it. */
  method NewDisplay() returns (d: StandardDisplay)
    ensures fresh(d) && fresh(d.pwm) && fresh(d.tube) && fresh(d.digit)
    ensures d.Valid() && d.pwm.period == PERIOD && d.pwm.pulses == d.Initial()
    ensures d.tubeLength == TUBE_LENGTH
    ensures forall k :: 0 <= k < TUBES ==> d.tube.gpioSets[k] == AnodeSlot(k, true, TUBE_LENGTH)
    ensures forall k :: 0 <= k < TUBES ==> d.digit.gpioSets[k] == DigitSlot(k, 0)
  {
    var channel := new PulseChannel(PERIOD);
    d := new StandardDisplay(channel);
  }

  /**
    * As written, lowering the brightness of a freshly built display to 50
    * stores a length of 85 ticks, while the channel still holds tube 0's
    * anode pulse of the full 170 ticks.
    */
  method StaleAnodeWidthOnDisplay() returns (d: StandardDisplay)
    ensures d.Valid() && d.tubeLength == 85
    ensures Pulse(8, 1, 170) in d.pwm.pulses
  {
    var channel := new PulseChannel(PERIOD);
    d := new StandardDisplay(channel);
    d.SetBrightnessAsWritten(50);
    var slot := d.tube.gpioSets[0];
    assert slot == AnodeSlot(0, true, TUBE_LENGTH);
    assert slot.pattern[0] == 1;
    EmittedComplete(AnodeGpios, d.tube.gpioSets, 0, 0);
  }

  class DisplayThread {
    const display: StandardDisplay
    var blanked: bool
    var custom: bool
    /** The entries pushed by `display_number`; -1 blanks a tube. */
    var customTubes: seq<int>
    /** The flag of the wake-up event. */
    var signalled: bool

    ghost predicate Valid()
      reads this, display, display.pwm, display.tube, display.digit
    {
      && display.Valid()
      && |customTubes| == TUBES
      && forall k :: 0 <= k < TUBES ==> -1 <= customTubes[k] <= 9
    }

    /** Sets up the pulse channel and the display; nothing custom, not blanked. */
    constructor ()
      ensures Valid() && display.pwm.pulses == display.Initial()
      ensures fresh(display) && fresh(display.pwm) && fresh(display.tube) && fresh(display.digit)
      ensures !blanked && !custom && !signalled && customTubes == [0, 0, 0, 0]
      ensures display.tubeLength == TUBE_LENGTH
      ensures forall k :: 0 <= k < TUBES ==> display.tube.gpioSets[k] == AnodeSlot(k, true, TUBE_LENGTH)
      ensures forall k :: 0 <= k < TUBES ==> display.digit.gpioSets[k] == DigitSlot(k, 0)
    {
      blanked := false;
      custom := false;
      customTubes := [0, 0, 0, 0];
      signalled := false;
      var d := NewDisplay();
      display := d;
    }

    /** Pushes `n` onto the tubes for the next pass and wakes the thread. */
    method DisplayNumber(n: int)
      requires Valid() && n < 10000
      modifies this
      ensures Valid()
      ensures customTubes == DecimalTubes(n)
      ensures custom && signalled && blanked == old(blanked)
    {
      if n >= 1000 {
        customTubes := customTubes[0 := n / 1000];
      } else {
        customTubes := customTubes[0 := -1];
      }
      if n >= 100 {
        customTubes := customTubes[1 := n % 1000 / 100];
      } else {
        customTubes := customTubes[1 := -1];
      }
      if n >= 10 {
        customTubes := customTubes[2 := n % 100 / 10];
      } else {
        customTubes := customTubes[2 := -1];
      }
      customTubes := customTubes[3 := n % 10];
      custom := true;
      signalled := true;
    }

    method Blank()
      requires Valid()
      modifies this
      ensures Valid()
      ensures blanked && !custom && signalled && customTubes == old(customTubes)
    {
      blanked := true;
      custom := false;
      signalled := true;
    }

    method Unblank()
      requires Valid()
      modifies this
      ensures Valid()
      ensures !blanked && !custom && signalled && customTubes == old(customTubes)
    {
      blanked := false;
      custom := false;
      signalled := true;
    }

    /** Blanks tube k for -1, otherwise lights it and shows digit v. */
    method ShowTube(k: int, v: int)
      requires display.Valid() && 0 <= k < TUBES && -1 <= v <= 9
      modifies display.tube, display.digit
      ensures display.Valid()
      ensures display.tube.gpioSets == old(display.tube.gpioSets)[k := AnodeSlot(k, v != -1, display.tubeLength)]
      ensures display.digit.gpioSets == old(display.digit.gpioSets)[k := DigitSlotFor(k, v, old(display.digit.gpioSets)[k])]
    {
      if v == -1 {
        display.BlankTube(k);
      } else {
        display.UnblankTube(k);
        display.SetTube(k, v);
      }
    }

    /** Sets the four tubes from `values`, tube by tube. */
    method ShowTubes(values: seq<int>)
      requires display.Valid() && Entries(values)
      modifies display.tube, display.digit
      ensures display.Valid()
      ensures display.tube.gpioSets == TubeSlots(values, display.tubeLength)
      ensures display.digit.gpioSets == DigitSlots(values, old(display.digit.gpioSets))
    {
      ghost var before, anodes := display.digit.gpioSets, display.tube.gpioSets;
      ShowTube(0, values[0]);
      ShowTube(1, values[1]);
      ShowTube(2, values[2]);
      ShowTube(3, values[3]);
      ghost var w := display.tubeLength;
      FourUpdates(anodes, AnodeSlot(0, values[0] != -1, w), AnodeSlot(1, values[1] != -1, w),
                  AnodeSlot(2, values[2] != -1, w), AnodeSlot(3, values[3] != -1, w));
      FourUpdates(before, DigitSlotFor(0, values[0], before[0]), DigitSlotFor(1, values[1], before[1]),
                  DigitSlotFor(2, values[2], before[2]), DigitSlotFor(3, values[3], before[3]));
    }

    /** Clears the channel, sets the four tubes from `values` and programs the channel again. */
    method Render(values: seq<int>)
      requires Valid() && Entries(values)
      modifies display.pwm, display.tube, display.digit
      ensures Valid()
      ensures display.Displays(values, old(display.digit.gpioSets))
    {
      display.Reset();
      ShowTubes(values);
      display.Apply();
    }

    /**
      * One pass of the render loop. A pushed number takes priority over
      * blanking, which takes priority over the clock; the clock redraws only
      * when the hour or the minute changed. `timeout` is how long the thread
      * then waits (None: until woken) and `stamp` the time the next pass
      * compares against.
      */
    method RenderPass(now: ClockTime, previous: Option<ClockTime>)
      returns (timeout: Option<int>, stamp: Option<ClockTime>)
      requires Valid() && now.Valid()
      modifies display.pwm, display.tube, display.digit
      ensures Valid()
      ensures custom ==> timeout == Some(3) && stamp == None &&
                         display.Displays(customTubes, old(display.digit.gpioSets))
      ensures !custom && blanked ==> timeout == None && stamp == None &&
                                     display.Displays([-1, -1, -1, -1], old(display.digit.gpioSets))
      ensures !custom && !blanked ==> timeout == Some(60 - now.second) && stamp == Some(now)
      ensures !custom && !blanked && ClockRedraws(now, previous) ==>
                display.Displays(ClockTubes(now.hour, now.minute), old(display.digit.gpioSets))
      ensures !custom && !blanked && !ClockRedraws(now, previous) ==>
                unchanged(display.pwm, display.tube, display.digit)
    {
      timeout := None;
      if custom {
        timeout := Some(3);
        stamp := None;
        Render(customTubes);
      } else if blanked {
        stamp := None;
        Render([-1, -1, -1, -1]);
      } else {
        if ClockRedraws(now, previous) {
          Render(ClockTubes(now.hour, now.minute));
        }
        stamp := Some(now);
        timeout := Some(60 - now.second);
      }
    }

    /**
      * A custom pass, a wait that times out, then a clock pass: whatever time
      * the clock reads, the tubes then show it.
      */
    method CustomThenClock(first: ClockTime, now: ClockTime, previous: Option<ClockTime>)
      requires Valid() && custom && !blanked && !signalled && first.Valid() && now.Valid()
      modifies this, display.pwm, display.tube, display.digit
      ensures Valid() && !custom
      ensures display.Displays(ClockTubes(now.hour, now.minute),
                               DigitSlots(old(customTubes), old(display.digit.gpioSets)))
    {
      var timeout, stamp := RenderPass(first, previous);
      ghost var shown := display.digit.gpioSets;
      AfterWait(false);
      assert display.digit.gpioSets == shown;
      timeout, stamp := RenderPass(now, stamp);
    }

    /**
      * The end of a pass: `event` is what the wait returned (it returns at once
      * when the event is already set). A timed-out wait ends the custom display;
      * the event is then cleared.
      */
    method AfterWait(event: bool)
      requires Valid() && (signalled ==> event)
      modifies this
      ensures Valid()
      ensures custom == (old(custom) && event) && !signalled
      ensures blanked == old(blanked) && customTubes == old(customTubes)
    {
      if !event {
        custom := false;
      }
      signalled := false;
    }
  }
}
