/** Linux input-subsystem constants and the event record that the keyboard-mouse
    program reads from the physical keyboard and writes to the synthetic device. */
module InputCodes {

  datatype Option<T> = None | Some(value: T)

  /** `struct timeval`; the program never looks inside it, it only copies it. */
  datatype TimeVal = TimeVal(sec: int, usec: int)

  /** `struct input_event`: timestamp, type (here `evType`), code and value. */
  datatype Event = Event(time: TimeVal, evType: int, code: int, value: int)

  // Event types
  const EV_SYN: int := 0x00
  const EV_KEY: int := 0x01
  const EV_REL: int := 0x02
  const EV_ABS: int := 0x03
  const EV_MSC: int := 0x04
  const EV_SW: int := 0x05
  const EV_LED: int := 0x11
  const EV_SND: int := 0x12
  const EV_FF: int := 0x15
  const EV_MAX: int := 0x1f

  // Codes
  const KEY_MAX: int := 0x2ff
  const MSC_SCAN: int := 0x04
  const REL_X: int := 0x00
  const REL_Y: int := 0x01
  const BTN_LEFT: int := 0x110
  const BTN_RIGHT: int := 0x111
  const BTN_MIDDLE: int := 0x112
  const KEY_RIGHTMETA: int := 126

  // Key codes of the letters the program binds
  const KEY_W: int := 17
  const KEY_E: int := 18
  const KEY_R: int := 19
  const KEY_S: int := 31
  const KEY_D: int := 32
  const KEY_F: int := 33
  const KEY_J: int := 36
  const KEY_K: int := 37
  const KEY_L: int := 38
  const KEY_X: int := 45
  const KEY_C: int := 46
  const KEY_V: int := 47

  // Identity given to the synthetic device
  const BUS_USB: int := 0x03

  predicate IsScan(e: Event) { e.evType == EV_MSC && e.code == MSC_SCAN }
}
