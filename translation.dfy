/** The event-translation state machine of the keyboard-mouse program, as a pure
    reference definition: one step per event read from the keyboard.

    The machine keeps three slots for the report under assembly, the slot index
    `position` (which is also the state), `skipFirst` (slot 0 is a placeholder
    that must not be written), `superHeld` (the right Meta key is down) and the
    motion `speed`. */
module Translation {
  import opened InputCodes

  const BASE_SPEED: int := 10

  /** What the key code in slot 1 means when a report is complete. */
  datatype KeyRole = Modifier | Grid(dx: int, dy: int) | ButtonKey(button: int) | Other

  /** First key code of each row of the movement block W E R / S D F / X C V. */
  function GridRowStart(dy: int): int
    requires -1 <= dy <= 1
  {
    if dy == -1 then KEY_W else if dy == 0 then KEY_S else KEY_X
  }

  /** The key-code table of the classification switch. */
  function RoleOf(code: int): (r: KeyRole)
    ensures r.Modifier? <==> code == KEY_RIGHTMETA
    ensures r.Grid? <==> code in {KEY_W, KEY_E, KEY_R, KEY_S, KEY_D, KEY_F, KEY_X, KEY_C, KEY_V}
    ensures r.Grid? ==> -1 <= r.dx <= 1 && -1 <= r.dy <= 1 && code == GridRowStart(r.dy) + r.dx + 1
    ensures r.ButtonKey? <==> code in {KEY_J, KEY_K, KEY_L}
    ensures r.ButtonKey? ==>
      (code == KEY_J <==> r.button == BTN_LEFT) &&
      (code == KEY_K <==> r.button == BTN_MIDDLE) &&
      (code == KEY_L <==> r.button == BTN_RIGHT)
  {
    if code == KEY_RIGHTMETA then Modifier
    else if code == KEY_W then Grid(-1, -1)
    else if code == KEY_E then Grid(0, -1)
    else if code == KEY_R then Grid(1, -1)
    else if code == KEY_S then Grid(-1, 0)
    else if code == KEY_D then Grid(0, 0)
    else if code == KEY_F then Grid(1, 0)
    else if code == KEY_X then Grid(-1, 1)
    else if code == KEY_C then Grid(0, 1)
    else if code == KEY_V then Grid(1, 1)
    else if code == KEY_J then ButtonKey(BTN_LEFT)
    else if code == KEY_K then ButtonKey(BTN_MIDDLE)
    else if code == KEY_L then ButtonKey(BTN_RIGHT)
    else Other
  }

  /** Every direction of the 3x3 grid belongs to exactly one movement key. */
  lemma GridCoversBlock(dx: int, dy: int)
    requires -1 <= dx <= 1 && -1 <= dy <= 1
    ensures exists code :: RoleOf(code) == Grid(dx, dy)
    ensures forall code :: RoleOf(code) == Grid(dx, dy) ==> code == GridRowStart(dy) + dx + 1
  {
    var code := GridRowStart(dy) + dx + 1;
    assert RoleOf(code) == Grid(dx, dy);
  }

  /** `buffer_position`: the slot the next read fills, which is also the state of the machine. */
  type SlotIndex = i: int | 0 <= i < 3

  datatype MachineState = MachineState(
    slot0: Event,
    slot1: Event,
    slot2: Event,
    position: SlotIndex,
    skipFirst: bool,
    superHeld: bool,
    speed: int)

  /** The events one step writes, and the state it leaves. */
  datatype StepResult = StepResult(next: MachineState, emitted: seq<Event>)

  /** What holds between two reads (`SlotIndex` already rules out the `assert(0)` default case). */
  predicate Inv(s: MachineState)
  {
    (s.position < 2 ==> !s.skipFirst) &&
    (s.position == 1 ==> IsScan(s.slot0)) &&
    (s.position == 2 ==> s.slot1.evType == EV_KEY) &&
    (s.position == 2 && s.skipFirst ==> s.slot0 == s.slot1)
  }

  /** The state before the first read; `blank` stands for the buffer's unread contents. */
  function Initial(blank: Event): (s: MachineState)
    ensures Inv(s) && s.position == 0 && !s.superHeld && s.speed == BASE_SPEED
  {
    MachineState(blank, blank, blank, 0, false, false, BASE_SPEED)
  }

  /** The shared `do_write` tail: slot 0 unless it is a placeholder, slots 1 and 2, back to a report start. */
  function Flush(s: MachineState): StepResult
  {
    StepResult(
      s.(position := 0, skipFirst := false),
      (if s.skipFirst then [] else [s.slot0]) + [s.slot1, s.slot2])
  }

  /** The state after `do_x_y` rewrote slots 0 and 1 into the motion of a grid press. */
  function Moved(s: MachineState, dx: int, dy: int): MachineState
  {
    var x := s.slot0.(time := if s.skipFirst then s.slot1.time else s.slot0.time);
    s.(slot0 := x.(evType := EV_REL, code := REL_X, value := dx * s.speed),
       slot1 := s.slot1.(evType := EV_REL, code := REL_Y, value := dy * s.speed),
       skipFirst := false,
       speed := s.speed + 1)
  }

  /** Whether classification rewrites a report with this key event instead of forwarding
      it: a grid key, or a button key other than an autorepeat, while the modifier is held. */
  predicate Remapped(superHeld: bool, key: Event)
  {
    match RoleOf(key.code)
    case Grid(_, _) => superHeld
    case ButtonKey(_) => superHeld && key.value != 2
    case _ => false
  }

  /** Where classification leaves a complete report: kept in the slots without writing
      anything, or handed to the shared flush after `written` has already gone out. */
  datatype Verdict = Held(kept: MachineState) | ToFlush(state: MachineState, written: seq<Event>)

  /** A complete report in slots 0..2 (slot 2 holds a SYN) classified by the key code in slot 1. */
  function Classify(t: MachineState): Verdict
  {
    var key := t.slot1;
    var syn := t.slot2;
    match RoleOf(key.code)
    case Modifier => ToFlush(t.(superHeld := key.value != 0), [])
    case Grid(dx, dy) =>
      if !t.superHeld then ToFlush(t, [])
      else if key.value == 0 then Held(t.(speed := BASE_SPEED))
      else ToFlush(Moved(t, dx, dy), [])
    case ButtonKey(b) =>
      if t.superHeld && key.value != 2 then
        ToFlush(t.(slot1 := key.(code := KEY_RIGHTMETA, value := 1), skipFirst := true),
                [key.(code := KEY_RIGHTMETA, value := 0), syn, key.(code := b), syn])
      else ToFlush(t, [])
    case Other => ToFlush(t, [])
  }

  /** Position 2 once slot 2 is filled: a report whose slot 2 is not a SYN goes straight to
      the flush, any other is classified first. */
  function Complete(t: MachineState): StepResult
  {
    var verdict := if t.slot2.evType != EV_SYN then ToFlush(t, []) else Classify(t);
    match verdict
    case Held(kept) => StepResult(kept, [])
    case ToFlush(u, written) =>
      var f := Flush(u);
      StepResult(f.next, written + f.emitted)
  }

  /** The flush writes the report in the slots, slot 0 only when it is not a placeholder,
      and returns to a report start; the modifier flag and speed are kept. */
  lemma FlushLaw(s: MachineState)
    ensures var r := Flush(s);
      r.next.position == 0 && !r.next.skipFirst &&
      r.next.superHeld == s.superHeld && r.next.speed == s.speed &&
      |r.emitted| == (if s.skipFirst then 2 else 3) &&
      r.emitted[|r.emitted| - 2..] == [s.slot1, s.slot2] &&
      (!s.skipFirst ==> r.emitted[0] == s.slot0)
  {
  }

  /** A grid press rewrites slots 0 and 1 into REL_X and REL_Y moves scaled by the speed,
      slot 0 taking slot 1's timestamp when it was a placeholder, and the speed grows. */
  lemma MovedLaw(s: MachineState, dx: int, dy: int)
    ensures var m := Moved(s, dx, dy);
      m.slot0.evType == EV_REL && m.slot0.code == REL_X && m.slot0.value == dx * s.speed &&
      m.slot1.evType == EV_REL && m.slot1.code == REL_Y && m.slot1.value == dy * s.speed &&
      m.slot0.time == (if s.skipFirst then s.slot1.time else s.slot0.time) &&
      m.slot1.time == s.slot1.time && m.slot2 == s.slot2 &&
      m.speed == s.speed + 1 && !m.skipFirst &&
      m.position == s.position && m.superHeld == s.superHeld
  {
  }

  /** Between reads, a placeholder slot 0 is a copy of slot 1, so the timestamp copy of a
      grid press changes nothing: slot 0 keeps its own timestamp either way. */
  lemma MovedKeepsTime(s: MachineState, dx: int, dy: int)
    requires Inv(s) && s.position == 2
    ensures Moved(s, dx, dy).slot0.time == s.slot0.time
  {
  }

  /** Classification keeps the report in its slots exactly for a movement key released
      while the modifier is held; it writes events of its own exactly for a button key
      that is not autorepeating while the modifier is held; a report it does not remap
      goes to the flush as it is, with the modifier flag updated for the modifier key. */
  lemma ClassifyLaw(t: MachineState)
    ensures var v := Classify(t);
      (v.Held? <==> RoleOf(t.slot1.code).Grid? && t.superHeld && t.slot1.value == 0) &&
      (v.Held? ==> v.kept == t.(speed := BASE_SPEED)) &&
      (v.ToFlush? && v.written != [] <==>
         RoleOf(t.slot1.code).ButtonKey? && t.superHeld && t.slot1.value != 2) &&
      (v.ToFlush? ==> v.state.position == t.position && |v.written| <= 4) &&
      (v.ToFlush? && !Remapped(t.superHeld, t.slot1) ==>
         v.written == [] &&
         v.state == t.(superHeld := if RoleOf(t.slot1.code).Modifier? then t.slot1.value != 0 else t.superHeld))
  {
  }

  /** A complete report leaves the machine at position 2 exactly when it is a movement-key
      release with the modifier held, writing nothing; any other returns to a report start. */
  lemma CompleteLaw(t: MachineState)
    requires t.position == 2
    ensures var r := Complete(t);
      (r.next.position == 2 <==>
         t.slot2.evType == EV_SYN && RoleOf(t.slot1.code).Grid? && t.superHeld && t.slot1.value == 0) &&
      (r.next.position != 2 ==> r.next.position == 0 && !r.next.skipFirst) &&
      (r.next.position == 2 ==> r.emitted == [] && r.next == t.(speed := BASE_SPEED)) &&
      |r.emitted| <= 6
  {
    if t.slot2.evType == EV_SYN {
      ClassifyLaw(t);
    }
  }

  /** One iteration of the translation loop: event `e` has been read into slot `position`. */
  function Step(s: MachineState, e: Event): (r: StepResult)
    ensures Inv(s) ==> Inv(r.next)
    ensures r.next.position == 2 ==> r.emitted == []
    ensures |r.emitted| <= 6
  {
    if s.position == 0 then
      if e.evType == EV_KEY then
        StepResult(s.(slot0 := e, slot1 := e, position := 2, skipFirst := true), [])
      else if IsScan(e) then
        StepResult(s.(slot0 := e, position := 1), [])
      else
        StepResult(s.(slot0 := e), [e])
    else if s.position == 1 then
      if e.evType == EV_KEY then
        StepResult(s.(slot1 := e, position := 2), [])
      else
        StepResult(s.(slot1 := e, position := 0),
                   (if s.skipFirst then [] else [s.slot0]) + [e])
    else
      Complete(s.(slot2 := e))
  }

  /** Folds a step function over a stream of reads, concatenating what each step writes. */
  function RunWith(step: (MachineState, Event) -> StepResult, s: MachineState, input: seq<Event>): StepResult
    decreases |input|
  {
    if input == [] then StepResult(s, [])
    else
      var done := RunWith(step, s, input[..|input| - 1]);
      var last := step(done.next, input[|input| - 1]);
      StepResult(last.next, done.emitted + last.emitted)
  }

  /** The translation loop over a finite stream of reads (it stops where `read` comes back short). */
  function Run(s: MachineState, input: seq<Event>): StepResult
  {
    RunWith(Step, s, input)
  }

  /** Running two streams one after the other is running their concatenation. */
  lemma {:induction false} RunAppend(step: (MachineState, Event) -> StepResult, s: MachineState,
                                     a: seq<Event>, b: seq<Event>)
    ensures var ra := RunWith(step, s, a);
      var rb := RunWith(step, ra.next, b);
      RunWith(step, s, a + b) == StepResult(rb.next, ra.emitted + rb.emitted)
    decreases |b|
  {
    if b == [] {
      assert a + b == a;
    } else {
      var ab := a + b;
      var front := b[..|b| - 1];
      assert ab[..|ab| - 1] == a + front;
      assert ab[|ab| - 1] == b[|b| - 1];
      RunAppend(step, s, a, front);
      var ra := RunWith(step, s, a);
      var rf := RunWith(step, ra.next, front);
      var last := step(rf.next, b[|b| - 1]);
      assert ra.emitted + rf.emitted + last.emitted == ra.emitted + (rf.emitted + last.emitted);
    }
  }

  /** Running one event and then a stream is running the longer stream. */
  lemma RunCons(step: (MachineState, Event) -> StepResult, s: MachineState, e: Event, rest: seq<Event>)
    ensures var first := step(s, e);
      var r := RunWith(step, first.next, rest);
      RunWith(step, s, [e] + rest) == StepResult(r.next, first.emitted + r.emitted)
  {
    RunAppend(step, s, [e], rest);
    assert [e][..0] == [];
  }

  /** The invariant holds at every read of the loop. */
  lemma {:induction false} RunKeepsInv(s: MachineState, input: seq<Event>)
    requires Inv(s)
    ensures Inv(Run(s, input).next)
    decreases |input|
  {
    if input != [] {
      RunKeepsInv(s, input[..|input| - 1]);
    }
  }
}
