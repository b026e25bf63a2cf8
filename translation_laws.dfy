/** What the translation machine promises, read by read and report by report. */
module TranslationLaws {
  import opened InputCodes
  import opened Translation

  // ---------------------------------------------------------------------------
  // One read at a time

  /** Position 0: a key event becomes a report whose slot 0 is a placeholder copy of
      it, a scan event opens a three-event report, anything else is written at once. */
  lemma ReportStartLaw(s: MachineState, e: Event)
    requires Inv(s) && s.position == 0
    ensures var r := Step(s, e);
      (e.evType == EV_KEY ==>
         r.emitted == [] && r.next.position == 2 && r.next.skipFirst &&
         r.next.slot0 == e && r.next.slot1 == e) &&
      (IsScan(e) ==>
         r.emitted == [] && r.next.position == 1 && r.next.slot0 == e) &&
      (e.evType != EV_KEY && !IsScan(e) ==>
         r.emitted == [e] && r.next.position == 0) &&
      r.next.superHeld == s.superHeld && r.next.speed == s.speed
  {
  }

  /** Position 1: a key event completes the first two slots; anything else writes the
      scan event and itself, in that order (slot 0 is never a placeholder here, so the
      `!skip_first` guard always holds). */
  lemma KeyPositionLaw(s: MachineState, e: Event)
    requires Inv(s) && s.position == 1
    ensures var r := Step(s, e);
      (e.evType == EV_KEY ==>
         r.emitted == [] && r.next.position == 2 && r.next.slot0 == s.slot0 && r.next.slot1 == e) &&
      (e.evType != EV_KEY ==>
         r.emitted == [s.slot0, e] && r.next.position == 0) &&
      !r.next.skipFirst && r.next.superHeld == s.superHeld && r.next.speed == s.speed
  {
  }

  /** Position 2 with anything but a SYN: the report is flushed without being classified. */
  lemma UnsyncedFlushLaw(s: MachineState, e: Event)
    requires Inv(s) && s.position == 2 && e.evType != EV_SYN
    ensures var r := Step(s, e);
      r.emitted == (if s.skipFirst then [s.slot1, e] else [s.slot0, s.slot1, e]) &&
      r.next.position == 0 && !r.next.skipFirst &&
      r.next.superHeld == s.superHeld && r.next.speed == s.speed
  {
  }

  // ---------------------------------------------------------------------------
  // Whole reports

  /** One report as a keyboard sends it: an optional MSC_SCAN event, the key event and a SYN. */
  datatype Report = Report(scan: Option<Event>, key: Event, syn: Event)

  function Events(rep: Report): seq<Event>
  {
    (if rep.scan.Some? then [rep.scan.value] else []) + [rep.key, rep.syn]
  }

  predicate WellFormed(rep: Report)
  {
    (rep.scan.Some? ==> IsScan(rep.scan.value)) &&
    rep.key.evType == EV_KEY && rep.syn.evType == EV_SYN
  }

  /** The events of a sequence of reports, back to back. */
  function Flatten(reports: seq<Report>): seq<Event>
  {
    if reports == [] then [] else Events(reports[0]) + Flatten(reports[1..])
  }

  /** The slots once a report's SYN has been read from a report start. */
  function Assembled(s: MachineState, rep: Report): MachineState
  {
    s.(slot0 := if rep.scan.Some? then rep.scan.value else rep.key,
       slot1 := rep.key,
       slot2 := rep.syn,
       position := 2,
       skipFirst := rep.scan.None?)
  }

  /** Reading a well-formed report from a report start writes nothing until its SYN,
      and the SYN finds the report assembled in the three slots. */
  lemma ReportAssembly(s: MachineState, rep: Report)
    requires Inv(s) && s.position == 0 && WellFormed(rep)
    ensures Run(s, Events(rep)) == Complete(Assembled(s, rep))
  {
    var key, syn := rep.key, rep.syn;
    if rep.scan.Some? {
      var scan := rep.scan.value;
      var s1 := Step(s, scan).next;
      var s2 := Step(s1, key).next;
      assert Events(rep) == [scan] + ([key] + ([syn] + []));
      RunCons(Step, s, scan, [key] + ([syn] + []));
      RunCons(Step, s1, key, [syn] + []);
      RunCons(Step, s2, syn, []);
    } else {
      var s1 := Step(s, key).next;
      assert Events(rep) == [key] + ([syn] + []);
      RunCons(Step, s, key, [syn] + []);
      RunCons(Step, s1, syn, []);
    }
  }

  /** A report is forwarded byte for byte, timestamps included, exactly when it is not
      remapped; forwarding only updates the modifier flag, for the modifier key itself. */
  lemma ForwardedUnchangedLaw(s: MachineState, rep: Report)
    requires Inv(s) && s.position == 0 && WellFormed(rep)
    ensures var r := Run(s, Events(rep));
      (r.emitted == Events(rep) <==> !Remapped(s.superHeld, rep.key))
    ensures var r := Run(s, Events(rep));
      !Remapped(s.superHeld, rep.key) ==>
        r.next.position == 0 && !r.next.skipFirst && r.next.speed == s.speed &&
        r.next.superHeld == (if rep.key.code == KEY_RIGHTMETA then rep.key.value != 0 else s.superHeld)
  {
    ReportAssembly(s, rep);
    var t := Assembled(s, rep);
    var r := Run(s, Events(rep));
    if Remapped(s.superHeld, rep.key) {
      match RoleOf(rep.key.code)
      case Grid(dx, dy) =>
        if rep.key.value != 0 {
          assert r.emitted[|r.emitted| - 2].evType == EV_REL;
          if rep.scan.Some? {
            assert |r.emitted| == 3 && Events(rep)[1] == rep.key;
          }
        }
      case ButtonKey(b) =>
        assert |r.emitted| == 6;
    }
  }

  /** The timestamp a synthesized horizontal move carries: that of the report's first event. */
  function ReportTime(rep: Report): TimeVal
  {
    if rep.scan.Some? then rep.scan.value.time else rep.key.time
  }

  predicate GridPress(rep: Report)
  {
    WellFormed(rep) && RoleOf(rep.key.code).Grid? && rep.key.value != 0
  }

  /** The motion a grid press report turns into at a given speed: REL_X, REL_Y, the SYN. */
  function MotionOf(rep: Report, speed: int): seq<Event>
    requires RoleOf(rep.key.code).Grid?
  {
    var d := RoleOf(rep.key.code);
    [ Event(ReportTime(rep), EV_REL, REL_X, d.dx * speed),
      Event(rep.key.time, EV_REL, REL_Y, d.dy * speed),
      rep.syn ]
  }

  /** A grid key pressed or repeated with the modifier held is replaced by the motion at
      the current speed, and the speed grows by one. */
  lemma GridPressLaw(s: MachineState, rep: Report)
    requires Inv(s) && s.position == 0 && s.superHeld && GridPress(rep)
    ensures var r := Run(s, Events(rep));
      r.emitted == MotionOf(rep, s.speed) &&
      r.next.speed == s.speed + 1 && r.next.position == 0 && !r.next.skipFirst && r.next.superHeld
  {
    ReportAssembly(s, rep);
  }

  /** A grid key released with the modifier held writes nothing and resets the speed, but
      the machine stays at position 2 with the report still in its slots. */
  lemma GridReleaseLaw(s: MachineState, rep: Report)
    requires Inv(s) && s.position == 0 && s.superHeld && WellFormed(rep)
    requires RoleOf(rep.key.code).Grid? && rep.key.value == 0
    ensures var r := Run(s, Events(rep));
      r.emitted == [] && r.next == Assembled(s, rep).(speed := BASE_SPEED)
  {
    ReportAssembly(s, rep);
  }

  /** A button key pressed or released with the modifier held: the modifier is released,
      the mouse button event is sent, the modifier is pressed again, each followed by the
      report's SYN; neither the scan event nor the original key event is written. */
  lemma ButtonLaw(s: MachineState, rep: Report)
    requires Inv(s) && s.position == 0 && s.superHeld && WellFormed(rep)
    requires RoleOf(rep.key.code).ButtonKey? && rep.key.value != 2
    ensures var r := Run(s, Events(rep));
      var k := rep.key;
      r.emitted == [ Event(k.time, EV_KEY, KEY_RIGHTMETA, 0), rep.syn,
                     Event(k.time, EV_KEY, RoleOf(k.code).button, k.value), rep.syn,
                     Event(k.time, EV_KEY, KEY_RIGHTMETA, 1), rep.syn ] &&
      r.next.position == 0 && !r.next.skipFirst && r.next.superHeld && r.next.speed == s.speed
  {
    ReportAssembly(s, rep);
  }

  // ---------------------------------------------------------------------------
  // Runs of reports

  /** The motion of consecutive grid press reports, the speed one larger for each. */
  function MotionOutput(reports: seq<Report>, speed: int): seq<Event>
    requires forall i :: 0 <= i < |reports| ==> GridPress(reports[i])
    decreases |reports|
  {
    if reports == [] then []
    else
      assert GridPress(reports[0]);
      MotionOf(reports[0], speed) + MotionOutput(reports[1..], speed + 1)
  }

  /** Consecutive grid presses with the modifier held accelerate: the n-th is moved by
      `speed + n` (counting from 0) and nothing else is written. */
  lemma {:induction false} MovementLaw(s: MachineState, reports: seq<Report>)
    requires Inv(s) && s.position == 0 && s.superHeld
    requires forall i :: 0 <= i < |reports| ==> GridPress(reports[i])
    ensures var r := Run(s, Flatten(reports));
      r.emitted == MotionOutput(reports, s.speed) &&
      r.next.speed == s.speed + |reports| && r.next.position == 0 && r.next.superHeld && Inv(r.next)
    decreases |reports|
  {
    if reports != [] {
      var head := reports[0];
      GridPressLaw(s, head);
      var s1 := Run(s, Events(head)).next;
      RunKeepsInv(s, Events(head));
      MovementLaw(s1, reports[1..]);
      RunAppend(Step, s, Events(head), Flatten(reports[1..]));
    }
  }

  /** In the motion of a run of grid presses, the n-th report moves by `speed + n` along
      its direction. */
  lemma {:induction false} MotionMagnitude(reports: seq<Report>, speed: int, n: nat)
    requires forall i :: 0 <= i < |reports| ==> GridPress(reports[i])
    requires n < |reports|
    ensures var out := MotionOutput(reports, speed);
      var d := RoleOf(reports[n].key.code);
      |out| == 3 * |reports| &&
      out[3 * n] == Event(ReportTime(reports[n]), EV_REL, REL_X, d.dx * (speed + n)) &&
      out[3 * n + 1] == Event(reports[n].key.time, EV_REL, REL_Y, d.dy * (speed + n))
    decreases n
  {
    MotionLength(reports, speed);
    if n > 0 {
      MotionMagnitude(reports[1..], speed + 1, n - 1);
      var rest := MotionOutput(reports[1..], speed + 1);
      assert MotionOutput(reports, speed)[3 * n] == rest[3 * (n - 1)];
      assert MotionOutput(reports, speed)[3 * n + 1] == rest[3 * (n - 1) + 1];
    }
  }

  lemma {:induction false} MotionLength(reports: seq<Report>, speed: int)
    requires forall i :: 0 <= i < |reports| ==> GridPress(reports[i])
    ensures |MotionOutput(reports, speed)| == 3 * |reports|
    decreases |reports|
  {
    if reports != [] {
      MotionLength(reports[1..], speed + 1);
    }
  }

  // ---------------------------------------------------------------------------
  // A released movement key leaves its report in the buffer

  /** As written: after a movement key is released with the modifier held, the machine
      stays at position 2, so the next read lands in slot 2. When the next report has no
      scan event, its key event arrives there, the stale report is flushed together with
      it, and that report's SYN is then forwarded on its own: the key release and the next
      key press reach the device untranslated, and no motion is produced. */
  lemma ReleaseLeak(s: MachineState, release: Report, press: Report)
    requires Inv(s) && s.position == 0 && s.superHeld
    requires WellFormed(release) && release.scan.None?
    requires RoleOf(release.key.code).Grid? && release.key.value == 0
    requires GridPress(press) && press.scan.None?
    ensures var r := Run(s, Events(release) + Events(press));
      r.emitted == [release.key, press.key, press.syn] &&
      r.next.position == 0 && r.next.speed == BASE_SPEED
  {
    GridReleaseLaw(s, release);
    var s1 := Run(s, Events(release)).next;
    RunAppend(Step, s, Events(release), Events(press));
    var s2 := Step(s1, press.key).next;
    assert Events(press) == [press.key] + ([press.syn] + []);
    RunCons(Step, s1, press.key, [press.syn] + []);
    RunCons(Step, s2, press.syn, []);
  }

  /** As written, with scan events: the next report's scan event lands in slot 2 and
      flushes the stale report, so the raw release (with its scan event) reaches the
      device. The press itself is still translated, but as a report without a scan
      event: its horizontal move carries the key event's timestamp. */
  lemma ReleaseLeakScanned(s: MachineState, release: Report, press: Report)
    requires Inv(s) && s.position == 0 && s.superHeld
    requires WellFormed(release) && release.scan.Some?
    requires RoleOf(release.key.code).Grid? && release.key.value == 0
    requires GridPress(press) && press.scan.Some?
    ensures var r := Run(s, Events(release) + Events(press));
      r.emitted == [release.scan.value, release.key, press.scan.value] + MotionOf(press.(scan := None), BASE_SPEED) &&
      r.next.position == 0 && r.next.speed == BASE_SPEED + 1
  {
    GridReleaseLaw(s, release);
    RunKeepsInv(s, Events(release));
    var s1 := Run(s, Events(release)).next;
    var scan := press.scan.value;
    var bare := press.(scan := None);
    UnsyncedFlushLaw(s1, scan);
    var s2 := Step(s1, scan).next;
    GridPressLaw(s2, bare);
    assert Events(press) == [scan] + Events(bare);
    RunCons(Step, s1, scan, Events(bare));
    RunAppend(Step, s, Events(release), Events(press));
  }

  /** The step the release branch evidently intends: a report that classification keeps
      (a movement-key release) is dropped, and the next read starts a new report. */
  function StepCorrected(s: MachineState, e: Event): (r: StepResult)
    ensures Inv(s) ==> Inv(r.next)
    ensures s.position == 2 ==> r.next.position == 0
  {
    var r := Step(s, e);
    if s.position == 2 && r.next.position == 2 then
      StepResult(r.next.(position := 0, skipFirst := false), r.emitted)
    else r
  }

  /** On a well-formed report from a report start, the corrected machine writes what the
      program writes, and differs only by returning to a report start where the program
      stays at position 2. */
  lemma CorrectedReport(s: MachineState, rep: Report)
    requires Inv(s) && s.position == 0 && WellFormed(rep)
    ensures var r := Run(s, Events(rep));
      RunWith(StepCorrected, s, Events(rep)) ==
        (if r.next.position == 2 then StepResult(r.next.(position := 0, skipFirst := false), r.emitted)
         else r)
  {
    ReportAssembly(s, rep);
    var key, syn := rep.key, rep.syn;
    if rep.scan.Some? {
      var scan := rep.scan.value;
      var s1 := Step(s, scan).next;
      var s2 := Step(s1, key).next;
      assert Events(rep) == [scan] + ([key] + ([syn] + []));
      RunCons(StepCorrected, s, scan, [key] + ([syn] + []));
      RunCons(StepCorrected, s1, key, [syn] + []);
      RunCons(StepCorrected, s2, syn, []);
    } else {
      var s1 := Step(s, key).next;
      assert Events(rep) == [key] + ([syn] + []);
      RunCons(StepCorrected, s, key, [syn] + []);
      RunCons(StepCorrected, s1, syn, []);
    }
  }

  /** Corrected: every well-formed report is handled completely, leaving a report start. */
  lemma CorrectedReportCompletes(s: MachineState, rep: Report)
    requires Inv(s) && s.position == 0 && WellFormed(rep)
    ensures var r := RunWith(StepCorrected, s, Events(rep));
      r.next.position == 0 && !r.next.skipFirst && Inv(r.next)
  {
    CorrectedReport(s, rep);
    ReportAssembly(s, rep);
  }

  /** Corrected: a released movement key writes nothing, resets the speed and is
      forgotten; the press that follows is translated into motion at the base speed. */
  lemma CorrectedReleaseThenPress(s: MachineState, release: Report, press: Report)
    requires Inv(s) && s.position == 0 && s.superHeld
    requires WellFormed(release) && RoleOf(release.key.code).Grid? && release.key.value == 0
    requires GridPress(press)
    ensures var r := RunWith(StepCorrected, s, Events(release) + Events(press));
      r.emitted == MotionOf(press, BASE_SPEED) &&
      r.next.position == 0 && r.next.speed == BASE_SPEED + 1 && r.next.superHeld
  {
    GridReleaseLaw(s, release);
    CorrectedReport(s, release);
    var s1 := RunWith(StepCorrected, s, Events(release)).next;
    assert s1.speed == BASE_SPEED && s1.position == 0 && Inv(s1) && s1.superHeld;
    GridPressLaw(s1, press);
    CorrectedReport(s1, press);
    RunAppend(StepCorrected, s, Events(release), Events(press));
  }
}
