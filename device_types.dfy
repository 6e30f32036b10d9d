/**
 * The canonical keyboard and mouse event that every backend publishes on the
 * "device-changed" channel: a closed kind tag and a JSON payload whose shape
 * the kind determines.
 */
module DeviceTypes {

  /** Rust's `u32`, the type of libinput key and button codes. */
  type u32 = x: int | 0 <= x < 0x1_0000_0000

  datatype DeviceKind = MousePress | MouseRelease | MouseMove | KeyboardPress | KeyboardRelease

  /** The two JSON shapes a payload takes: a name string, or an `{x, y}` object of numbers. */
  datatype Value = Text(text: string) | Point(x: real, y: real)

  datatype DeviceEvent = DeviceEvent(kind: DeviceKind, value: Value)

  /** The payload is a point exactly for motion, and a name for every press or release. */
  predicate WellFormed(e: DeviceEvent) {
    e.kind == MouseMove <==> e.value.Point?
  }

  /** Whether the kind is one of the two keyboard kinds. */
  predicate IsKeyboard(k: DeviceKind) {
    k == KeyboardPress || k == KeyboardRelease
  }
}
