/** The brand palette of the application, as packed ARGB colours. */
module Colors {

  /** A colour written `Color(0xAARRGGBB)`: one unsigned 32-bit word, alpha in the top byte. */
  type Argb = c: int | 0 <= c < 0x1_0000_0000

  /** The alpha channel of a packed colour. */
  function Alpha(c: Argb): (a: int)
    ensures 0 <= a < 0x100
  {
    c / 0x100_0000
  }

  // Brand palette
  const BluePrimary: Argb := 0xFF3A7DFF
  const BlueSecondary: Argb := 0xFF6BA8FF
  const TealAccent: Argb := 0xFF2CCCD3
  const YellowAccent: Argb := 0xFFFFC960
  const PurpleAccent: Argb := 0xFF9575FF

  // Neutrals
  const DarkerGray: Argb := 0xFF121212
  const NeutralDark: Argb := 0xFF2A2A2A
  const LightGray: Argb := 0xFFE8EAF0
  const PureWhite: Argb := 0xFFFFFFFF

  // Helpers
  const OutlineGray: Argb := 0xFFCBD2E0
  const ErrorRed: Argb := 0xFFB00020

  /** The toolkit's own opaque white (`Color.White`). */
  const White: Argb := 0xFFFFFFFF
}
