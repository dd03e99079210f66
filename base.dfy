/** Small value types shared by the rest of the model. */
module Base {

  datatype Option<+T> = None | Some(value: T)

  /** The `uint8_t` a colour component is stored in. */
  newtype byte = x: int | 0 <= x < 256

  /** The `uint16_t` the transition time, in seconds, is stored in. */
  newtype u16 = x: int | 0 <= x < 65536

  /** A colour of the RGB LED, one byte per component. */
  datatype Rgb = Rgb(red: byte, green: byte, blue: byte)

  /** The colour the main loop forces while the device is in access-point mode. */
  const White: Rgb := Rgb(255, 255, 255)
}
