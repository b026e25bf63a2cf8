/** The translation loop as the program runs it: a three-slot buffer overwritten in
    place, counters carried across iterations, and the sink device modelled as the
    sequence of events written to it so far. */
module TranslatorLoop {
  import opened InputCodes
  import opened Translation

  class Translator {
    var incoming: array<Event>
    var bufferPosition: SlotIndex
    var skipFirst: bool
    var superHeld: bool
    var speed: int
    /** Every event `write_packet` has sent to the synthetic device, in order. */
    var output: seq<Event>

    ghost predicate Valid()
      reads this, incoming
    {
      incoming.Length == 3 && Inv(State())
    }

    /** The abstract state the reference machine works on. */
    ghost function State(): MachineState
      reads this, incoming
      requires incoming.Length == 3
    {
      MachineState(incoming[0], incoming[1], incoming[2], bufferPosition, skipFirst, superHeld, speed)
    }

    /** The loop's starting state; `blank` stands for the uninitialised buffer. */
    constructor (blank: Event)
      ensures Valid() && fresh(incoming)
      ensures State() == Initial(blank) && output == []
    {
      incoming := new Event[3](_ => blank);
      bufferPosition := 0;
      skipFirst := false;
      superHeld := false;
      speed := BASE_SPEED;
      output := [];
    }

    method WritePacket(e: Event)
      modifies this`output
      ensures output == old(output) + [e]
    {
      output := output + [e];
    }

    /** The `do_write` label. */
    method DoWrite()
      requires incoming.Length == 3
      modifies this`output, this`skipFirst, this`bufferPosition
      ensures var r := Flush(old(State()));
        State() == r.next && output == old(output) + r.emitted
    {
      if skipFirst {
        skipFirst := false;
      } else {
        WritePacket(incoming[0]);
      }
      WritePacket(incoming[1]);
      WritePacket(incoming[2]);
      bufferPosition := 0;
    }

    /** The `do_x_y` label, reached only for a grid key while the modifier is held. */
    method DoXY(x: int, y: int)
      requires incoming.Length == 3 && bufferPosition == 2
      modifies this, incoming
      ensures incoming == old(incoming)
      ensures old(incoming[1].value) == 0 ==>
        State() == old(State()).(speed := BASE_SPEED) && output == old(output)
      ensures old(incoming[1].value) != 0 ==>
        var r := Flush(Moved(old(State()), x, y));
        State() == r.next && output == old(output) + r.emitted
    {
      if incoming[1].value == 0 {
        speed := BASE_SPEED;
        return;
      }
      if skipFirst {
        incoming[0] := incoming[0].(time := incoming[1].time);
        skipFirst := false;
      }
      incoming[0] := incoming[0].(evType := EV_REL, code := REL_X, value := x * speed);
      incoming[1] := incoming[1].(evType := EV_REL, code := REL_Y, value := y * speed);
      speed := speed + 1;
      DoWrite();
    }

    /** The `do_button` label. */
    method DoButton(buttonCode: int)
      requires incoming.Length == 3 && bufferPosition == 2
      modifies this, incoming
      ensures incoming == old(incoming)
      ensures var s := old(State());
        var key := s.slot1;
        var e := s.slot2;
        if s.superHeld && key.value != 2 then
          var restore := Flush(s.(slot1 := key.(code := KEY_RIGHTMETA, value := 1), skipFirst := true));
          State() == restore.next &&
          output == old(output) + [key.(code := KEY_RIGHTMETA, value := 0), e, key.(code := buttonCode), e]
                    + restore.emitted
        else
          var r := Flush(s);
          State() == r.next && output == old(output) + r.emitted
    {
      if superHeld && incoming[1].value != 2 {
        var saveValue := incoming[1].value;
        incoming[1] := incoming[1].(code := KEY_RIGHTMETA, value := 0);
        WritePacket(incoming[1]);
        WritePacket(incoming[2]);
        incoming[1] := incoming[1].(code := buttonCode, value := saveValue);
        WritePacket(incoming[1]);
        WritePacket(incoming[2]);
        incoming[1] := incoming[1].(code := KEY_RIGHTMETA, value := 1);
        skipFirst := true;
      }
      DoWrite();
    }

    /** `case 2`: slot 2 has just been filled. */
    method CompleteReport()
      requires incoming.Length == 3 && bufferPosition == 2
      modifies this, incoming
      ensures incoming == old(incoming)
      ensures var r := Complete(old(State()));
        State() == r.next && output == old(output) + r.emitted
    {
      if incoming[2].evType != EV_SYN {
        DoWrite();
        return;
      }
      match RoleOf(incoming[1].code)
      case Modifier =>
        superHeld := incoming[1].value != 0;
        DoWrite();
      case Grid(x, y) =>
        if superHeld {
          DoXY(x, y);
        } else {
          DoWrite();
        }
      case ButtonKey(b) =>
        DoButton(b);
      case Other =>
        DoWrite();
    }

    /** One iteration of `while (1)`: `e` is the event that `read` placed in the current slot. */
    method Consume(e: Event)
      requires Valid()
      modifies this, incoming
      ensures Valid() && incoming == old(incoming)
      ensures var r := Step(old(State()), e);
        State() == r.next && output == old(output) + r.emitted
    {
      incoming[bufferPosition] := e;
      if bufferPosition == 0 {
        if incoming[0].evType == EV_KEY {
          incoming[1] := incoming[0];
          bufferPosition := 2;
          skipFirst := true;
        } else if incoming[0].evType == EV_MSC && incoming[0].code == MSC_SCAN {
          bufferPosition := bufferPosition + 1;
        } else {
          WritePacket(incoming[0]);
        }
      } else if bufferPosition == 1 {
        if incoming[1].evType == EV_KEY {
          bufferPosition := bufferPosition + 1;
        } else {
          if !skipFirst {
            WritePacket(incoming[0]);
            skipFirst := false;
          }
          WritePacket(incoming[1]);
          bufferPosition := 0;
        }
      } else {
        CompleteReport();
      }
    }

    /** The loop over a finite stream of reads; it ends where `read` comes back short. */
    method ConsumeAll(input: seq<Event>)
      requires Valid()
      modifies this, incoming
      ensures Valid() && incoming == old(incoming)
      ensures var r := Run(old(State()), input);
        State() == r.next && output == old(output) + r.emitted
    {
      ghost var start := State();
      for i := 0 to |input|
        invariant Valid() && incoming == old(incoming)
        invariant State() == Run(start, input[..i]).next
        invariant output == old(output) + Run(start, input[..i]).emitted
      {
        assert input[..i + 1][..i] == input[..i];
        Consume(input[i]);
      }
      assert input[..|input|] == input;
    }
  }
}
