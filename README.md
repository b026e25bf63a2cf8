# Keyboard Mouse, modelled in Dafny

`keyboard_mouse.c` is a Linux program that grabs a keyboard and puts a synthetic
device in its place. The device is created through uinput. The program turns some
key reports into mouse reports and forwards everything else.

The model covers the two parts of `main` that hold logic:

- **Capability mirroring** (`capability_mirror.dfy`, module `CapabilityMirror`).
  - The program asks the keyboard for its event categories with `EVIOCGBIT`.
  - It registers each category from 1 to `EV_MAX` that the keyboard reports. For the
    eight categories with codes of their own, it also queries their codes from 0 to
    `KEY_MAX` and registers each one with that category's request.
  - It then registers the mouse capabilities it needs itself, gives the device its
    identity and creates it.
  - The first request that fails ends the program.
  - `Mirror` is the nested loop. `MirrorCategory` is one outer iteration, `MirrorCodes`
    the inner loop and `RegisterExtras` the fixed tail. Each is proved to make exactly
    its own part of the plan, up to and including the first request that fails. For
    `Mirror` that is `Attempted(Plan(query))`. Lemmas state what `Plan` registers and in
    what order.
  - The keyboard's answers are a function `query` from category to mask words, or
    `None` when the query fails. Whether the synthetic device accepts a request is a
    predicate `accepts`.
- **The event-translation loop**, in three parts:
  - `translation.dfy`, module `Translation`: a reference state machine. `Step`
    handles one event read into the slot `position`. `Run` folds it over a stream.
  - `translator_loop.dfy`, module `TranslatorLoop`: the loop as the program writes it.
    - It is a class with the three-slot `incoming` array and the fields
      `bufferPosition`, `skipFirst`, `superHeld` and `speed`.
    - `write_packet` is an append to `output`.
    - The `do_write`, `do_x_y` and `do_button` labels are methods.
    - `Consume` and `ConsumeAll` are proved to follow `Step` and `Run`.
  - `translation_laws.dfy`, module `TranslationLaws`: what the machine promises, per
    read and per report. A report is an optional `MSC_SCAN` event, a key event and a
    SYN. Covered:
    - reports forwarded unchanged;
    - grid presses turned into accelerating motion;
    - button keys turned into mouse buttons;
    - the release behaviour described under Findings.

`input_codes.dfy` (module `InputCodes`) holds the event record and the Linux input
constants the program uses.

Two behaviours of the code are kept as written:

- A movement-key release with the modifier held (`keyboard_mouse.c:404-409`) resets
  the speed but does not drop the report. The machine stays at position 2, so the next
  read lands in slot 2. The model keeps this and records it under Findings.
- The centre key D still writes two zero-valued relative events and still increases
  the speed (`keyboard_mouse.c:343-349`, `410-422`).

## Model

| member | source | states |
|---|---|---|
| `Translation.RoleOf` | keyboard_mouse.c:306-391 | The key-code table, both ways. 126 is the modifier. W E R / S D F / X C V are exactly the grid keys, each with its (dx, dy) in -1..1 at row start + dx + 1. J, K and L are exactly the button keys, mapped to BTN_LEFT, BTN_MIDDLE and BTN_RIGHT. |
| `Translation.GridCoversBlock` | keyboard_mouse.c:311-382 | Each of the nine directions has a movement key, and that key is unique. |
| `Translation.Initial` | keyboard_mouse.c:255-259 | The loop starts at position 0, with the modifier not held, speed 10 and the invariant holding. |
| `Translation.FlushLaw` | keyboard_mouse.c:395-403 | `Flush`, the shared `do_write` tail. It writes two events when slot 0 is a placeholder and three otherwise: slot 0 first when it is written, then always slots 1 and 2. It returns to position 0 with `skip_first` clear, and the modifier flag and speed are unchanged. The in-place version is `DoWrite`. |
| `Translation.MovedLaw` | keyboard_mouse.c:410-421 | `Moved`, the rewrite of a grid press. Slot 0 becomes REL_X with value dx·speed and slot 1 REL_Y with value dy·speed. Slot 0 takes slot 1's timestamp exactly when `skip_first` was set, and `skip_first` ends clear. Slot 2, the position and the modifier flag are kept, and the speed grows by one. |
| `Translation.MovedKeepsTime` | keyboard_mouse.c:410-414 | Between reads at position 2, a placeholder slot 0 is a copy of slot 1. The timestamp copy therefore changes nothing: slot 0 keeps its own timestamp either way. |
| `Translation.ClassifyLaw` | keyboard_mouse.c:306-394 | `Classify`, the key-code switch on a complete report. It keeps the report in the slots, with the speed reset to 10, exactly for a grid release while the modifier is held. It writes events of its own exactly for a button key with value ≠ 2 while the modifier is held, at most four. A report it does not remap goes to the flush unchanged, except that the modifier key sets `super_held` to value ≠ 0. |
| `Translation.CompleteLaw` | keyboard_mouse.c:301-439 | `Complete`, position 2 once slot 2 is read. The machine stays at position 2 exactly when slot 2 is a SYN and the report is a grid release with the modifier held. It then writes nothing and only resets the speed. Any other report returns to position 0 with `skip_first` clear, writing at most six events. |
| `Translation.Step` | keyboard_mouse.c:266-442 | One read keeps the invariant. Position is 0..2, so the `assert(0)` case is never reached. Position 1 means slot 0 is a scan event. Position 2 means slot 1 is a key event. Position 0 or 1 means `skip_first` is clear. A step that ends at position 2 writes nothing, and no step writes more than six events. |
| `Translation.RunAppend` | keyboard_mouse.c:260-443 | Reading two streams one after the other is reading their concatenation: the output is concatenated and the state is carried over. |
| `Translation.RunCons` | keyboard_mouse.c:260-443 | Reading one event and then a stream is reading the longer stream. |
| `Translation.RunKeepsInv` | keyboard_mouse.c:260-443 | The invariant holds at every read, however long the stream. |
| `TranslatorLoop.Translator.constructor` | keyboard_mouse.c:255-259 | A fresh three-slot buffer, the initial state and nothing written. |
| `TranslatorLoop.Translator.WritePacket` | keyboard_mouse.c:452-461 | Appends exactly the given event to the output. |
| `TranslatorLoop.Translator.DoWrite` | keyboard_mouse.c:395-403 | The shared flush. It writes slot 0 unless `skip_first` is set, then slots 1 and 2. It clears `skip_first` and returns to position 0. |
| `TranslatorLoop.Translator.DoXY` | keyboard_mouse.c:404-422 | Release: only the speed is reset to 10, nothing is written and the position is kept. Press or repeat: slots 0 and 1 become REL_X = x·speed and REL_Y = y·speed, slot 0 takes slot 1's time when `skip_first` is set, the speed grows by one, then the flush. |
| `TranslatorLoop.Translator.DoButton` | keyboard_mouse.c:423-439 | With the modifier held and a value other than 2, it writes modifier release, SYN, the button with the key's value, SYN, then flushes with slot 1 as a modifier press and slot 0 suppressed. Otherwise it only flushes. |
| `TranslatorLoop.Translator.CompleteReport` | keyboard_mouse.c:301-439 | Position 2 once slot 2 is read equals the reference `Complete`. A non-SYN is flushed without classification. A SYN is classified by slot 1's code. |
| `TranslatorLoop.Translator.Consume` | keyboard_mouse.c:262-442 | One loop iteration on the array and fields changes state and output exactly as `Step` does, and keeps the buffer valid. |
| `TranslatorLoop.Translator.ConsumeAll` | keyboard_mouse.c:260-443 | The loop over a finite stream ends in the state, and has written the output, of `Run`. |
| `TranslationLaws.ReportStartLaw` | keyboard_mouse.c:268-284 | At position 0, a key event writes nothing, goes to position 2 and fills slots 0 and 1 with it, with `skip_first` set. A scan event writes nothing and goes to position 1. Any other event is written once, unchanged, and the position stays 0. |
| `TranslationLaws.KeyPositionLaw` | keyboard_mouse.c:285-300 | At position 1, a key event goes to position 2 without output. Anything else writes the scan event then itself and returns to 0. `skip_first` is clear there, so the `!skip_first` guard is always taken. |
| `TranslationLaws.UnsyncedFlushLaw` | keyboard_mouse.c:301-303 | At position 2, a non-SYN event skips classification. The report is flushed (slot 0 only if it is not a placeholder), and the modifier flag and speed are unchanged. |
| `TranslationLaws.ReportAssembly` | keyboard_mouse.c:266-303 | A well-formed report read from a report start is completed and classified as the slots it fills. |
| `TranslationLaws.ForwardedUnchangedLaw` | keyboard_mouse.c:306-403 | A report is written back exactly, timestamps included, if and only if it is not remapped. Remapped means a grid key with the modifier held, or a button key with the modifier held and a value other than 2. A forwarded report leaves a report start with the speed kept, and only the modifier key changes `super_held`, to value ≠ 0. |
| `TranslationLaws.GridPressLaw` | keyboard_mouse.c:404-422 | A grid press or repeat with the modifier held writes exactly REL_X = dx·speed (timestamp of the report's first event), REL_Y = dy·speed and the report's SYN. The speed grows by one. |
| `TranslationLaws.GridReleaseLaw` | keyboard_mouse.c:404-409 | A grid release with the modifier held writes nothing and resets the speed to 10. The machine stays at position 2 with the report in its slots. |
| `TranslationLaws.ButtonLaw` | keyboard_mouse.c:423-439 | A button key with the modifier held and value ≠ 2 writes exactly modifier release, SYN, button with the key's value, SYN, modifier press, SYN. Neither the scan event nor the original key event is written, and `skip_first` ends clear. |
| `TranslationLaws.MovementLaw` | keyboard_mouse.c:404-422 | A run of grid presses with the modifier held writes only their motion. The n-th moves by speed + n, and the speed ends |run| larger. |
| `TranslationLaws.MotionMagnitude` | keyboard_mouse.c:410-421 | In that motion, event 3n is REL_X = dx·(speed + n) and event 3n+1 is REL_Y = dy·(speed + n) of the n-th report. |
| `TranslationLaws.MotionLength` | keyboard_mouse.c:410-422 | Each grid press contributes exactly three events. |
| `TranslationLaws.ReleaseLeak` | keyboard_mouse.c:404-409 | As written: a grid release (no scan event) followed by a grid press writes the raw release key, the raw press key and the press's SYN, and no motion. |
| `TranslationLaws.ReleaseLeakScanned` | keyboard_mouse.c:404-409 | As written, with scan events: a grid release followed by a grid press writes the release's scan event, the raw release key and the press's scan event. The press is then translated as a report without a scan event, so its REL_X carries the key event's timestamp. The speed ends at 11. |
| `TranslationLaws.StepCorrected` | keyboard_mouse.c:404-409 | Corrected step: a kept release report is dropped. It keeps the invariant, and a read at position 2 always returns the machine to position 0. |
| `TranslationLaws.CorrectedReport` | keyboard_mouse.c:404-409 | On a well-formed report, the corrected machine writes what the program writes. It differs only by returning to a report start where the program stays at position 2. |
| `TranslationLaws.CorrectedReportCompletes` | keyboard_mouse.c:266-442 | Corrected: every well-formed report leaves a report start with `skip_first` clear and the invariant holding. |
| `TranslationLaws.CorrectedReleaseThenPress` | keyboard_mouse.c:404-422 | Corrected: a grid release then a grid press writes exactly the press's motion at speed 10, and the speed ends at 11. |
| `CapabilityMirror.BitIsShiftAnd` | keyboard_mouse.c:76-77 | `Bit`, the halving bit test, is `(w >> i) & 1` on an unsigned word: the quotient by 2 to the i, taken mod 2. |
| `CapabilityMirror.BitSetIsShiftAnd` | keyboard_mouse.c:136-137 | `BitSet` is the loops' test `(words[n / 64] >> (n % 64)) & 1` on 64-bit words. A word the keyboard did not fill reads as clear. |
| `CapabilityMirror.Plan` | keyboard_mouse.c:62-72 | The plan of requests starts with the query of the category mask. It is that query alone exactly when the query fails, because the program then stops. |
| `CapabilityMirror.Attempted` | keyboard_mouse.c:62-253 | The requests made are a prefix of the plan, and not empty when the plan is not. When they stop short of the whole plan, their last request is one that fails: the `return 1` after each failing call. |
| `CapabilityMirror.CodeWriterFor` | keyboard_mouse.c:91-120 | A code request exists exactly for EV_KEY, EV_REL, EV_ABS, EV_MSC, EV_LED, EV_SND, EV_FF and EV_SW, and it belongs to that category. |
| `CapabilityMirror.CodeWriterRoundTrip` | keyboard_mouse.c:91-120 | Each code request is the one the switch picks for its own category. |
| `CapabilityMirror.CodeCallsExact` | keyboard_mouse.c:134-151 | The inner loop registers code c with its category's request if and only if 0 ≤ c < bound and the bit test of c is set. |
| `CapabilityMirror.CodeCallsAscending` | keyboard_mouse.c:134-151 | Those codes are registered in strictly ascending order. |
| `CapabilityMirror.CategoryCallsOrdered` | keyboard_mouse.c:74-152 | The outer loop's requests are exactly those of the categories 1 ≤ ev < bound, in ascending order. |
| `CapabilityMirror.CategoryBodyOrdered` | keyboard_mouse.c:76-151 | One iteration registers its category, then queries it, then its codes. All of these belong to that category and come in order. |
| `CapabilityMirror.AnsweredCodesOrdered` | keyboard_mouse.c:122-151 | The codes registered after a successful query all belong to the queried category and ascend. |
| `CapabilityMirror.NoneFailsMeans` | keyboard_mouse.c:62-253 | Nothing in a run of requests fails if and only if each request in it succeeds. |
| `CapabilityMirror.AttemptedAll` | keyboard_mouse.c:62-253 | When no request fails, every planned request is made. |
| `CapabilityMirror.AttemptedStopsAtFirstFailure` | keyboard_mouse.c:62-253 | When request i is the first to fail, the requests made are exactly the first i + 1. |
| `CapabilityMirror.AttemptedWithin` | keyboard_mouse.c:62-253 | The requests made are a prefix of the plan that ends no later than any failing request. |
| `CapabilityMirror.CategoryRegistered` | keyboard_mouse.c:74-208 | Category ev is registered if and only if 1 ≤ ev ≤ EV_MAX and the keyboard reports it, or ev is EV_KEY or EV_REL. Category 0 is never registered. |
| `CapabilityMirror.CodeRegistered` | keyboard_mouse.c:91-230 | A code is registered with request w if and only if the keyboard reports w's category and, from its query, the code, within 0..KEY_MAX. It is also registered when it is BTN_LEFT, BTN_MIDDLE or BTN_RIGHT with the key request, or REL_X or REL_Y with the relative request. |
| `CapabilityMirror.MirrorOrder` | keyboard_mouse.c:74-152 | Any two mirrored requests come in ascending order: by category, and within one the category, its query, then its codes by number. |
| `CapabilityMirror.ExtrasUnconditional` | keyboard_mouse.c:155-253 | Whatever the keyboard reports, once its categories are known the plan ends with the seven mouse capabilities, the identity and the creation. |
| `CapabilityMirror.NoDeviceBeforeFinish` | keyboard_mouse.c:232-253 | Neither setup nor creation is requested before the fixed tail's last two requests. |
| `CapabilityMirror.NoDeviceAfterFailure` | keyboard_mouse.c:62-253 | A failure in any request before the identity means the device is never set up or created. |
| `CapabilityMirror.PlanHasReportedCategories` | keyboard_mouse.c:74-89 | Every category 1..EV_MAX the keyboard reports is in the plan. |
| `CapabilityMirror.PlanHasReportedCodes` | keyboard_mouse.c:91-151 | Every code 0..KEY_MAX the keyboard reports, in a category it reports and with a successful query, is in the plan with that category's request. |
| `CapabilityMirror.CreatedMirrorsKeyboard` | keyboard_mouse.c:62-253 | When no request fails, so the device is created, every category and code the keyboard reports was registered, and the requests made end with the mouse capabilities, the identity and the creation. |
| `CapabilityMirror.MirrorCodes` | keyboard_mouse.c:134-151 | The inner loop makes the registrations of the set codes up to the first failure. It reports success if and only if none fails. |
| `CapabilityMirror.MirrorCategory` | keyboard_mouse.c:76-151 | One outer iteration makes its category's requests up to the first failure. It reports success if and only if none fails. |
| `CapabilityMirror.Issue` | keyboard_mouse.c:155-164 | One fixed request after earlier successes extends the requests made by one. It fails if and only if the request fails, and then the whole tail stops there. |
| `CapabilityMirror.RegisterExtras` | keyboard_mouse.c:155-253 | The fixed tail is requested in order up to the first failure. It reports success if and only if none fails. |
| `CapabilityMirror.Mirror` | keyboard_mouse.c:62-253 | The whole mirroring makes exactly the planned requests up to and including the first that fails. The device is created if and only if no request fails. |

## Left out

- Opening the keyboard and `/dev/uinput`, grabbing the keyboard, and destroying the device at the end (`keyboard_mouse.c:30-60`, `445-448`) are operating-system I/O. They are not modelled.
- `read` and its short-count exit (`keyboard_mouse.c:262-265`) are modelled as a finite input stream. The loop ends where the stream ends.
- The write-failure exit in `write_packet` (`keyboard_mouse.c:454-460`) is a process exit. Every write succeeds in the model.
- `speed` is an unbounded integer. C `int` overflow after about two billion repeats is not modelled.
- Timestamps are an opaque pair. The `struct timeval` layout is not modelled.
- The buffer's contents before the first read are a parameter, `blank`.
- `EVIOCGBIT` answers are modelled as mask words of 64 bits whatever the platform's `long` width. The byte-length argument and the fixed buffer sizes are not modelled: an answer may have any number of words, and bits beyond them read as clear, like the zeroed buffers.
- The identity given to `UI_DEV_SETUP` (`keyboard_mouse.c:232-237`) is a constant passed along with the request. It is not a byte layout.
- Error messages on standard error are not modelled. Only the fact that the program stops is.
- `TranslatorLoop.Translator` keeps the program's own release behaviour. The corrected step exists only as the function `TranslationLaws.StepCorrected` and its lemmas.

## Findings

| source | as written | input that shows it | evidently intended | confidence | as-written member | corrected member |
|---|---|---|---|---|---|---|
| keyboard_mouse.c:404-409 | A movement-key release with the modifier held `break`s out of the switch. `buffer_position` stays 2, so the next read overwrites slot 2 and the stale report is flushed with whatever arrives. | Modifier held, keyboard without scan events. Then `[key(W,0), SYN]` followed by `[key(W,1), SYN]`. The output is `key(W,0), key(W,1), SYN`: the release and the next press reach the device untranslated, and no motion is produced. With scan events the raw release and both scan events leak, and the press is still translated (`TranslationLaws.ReleaseLeakScanned`). | Drop the release report, return to position 0 and translate the next press into motion at speed 10. | not executed | `TranslationLaws.ReleaseLeak` | `TranslationLaws.CorrectedReleaseThenPress` |
