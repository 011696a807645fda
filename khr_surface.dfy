/** The constants of the `VK_KHR_surface` extension binding that the example base uses
    or that exercise the wrappers: the extension name, two `make_flag` families and one
    `make_enum` type. They instantiate the wrappers of `Helpers`;
    Rust's associated constants (`TransformFlag::INHERIT`) get the type's name as a
    prefix here, as in the C API. */
module KhrSurface {
  import opened Helpers

  const EXTENSION_NAME: string := "VK_KHR_surface"

  // ---- TransformFlag / TransformFlags ----

  datatype TransformKind = TransformKind
  type TransformFlag = Flag<TransformKind>
  type TransformFlags = Flags<TransformKind>

  const TRANSFORM_IDENTITY: TransformFlag := Flag(0x0000_0001)
  const TRANSFORM_ROTATE_90: TransformFlag := Flag(0x0000_0002)
  const TRANSFORM_ROTATE_180: TransformFlag := Flag(0x0000_0004)
  const TRANSFORM_ROTATE_270: TransformFlag := Flag(0x0000_0008)
  const TRANSFORM_HORIZONTAL_MIRROR: TransformFlag := Flag(0x0000_0010)
  const TRANSFORM_HORIZONTAL_MIRROR_ROTATE_90: TransformFlag := Flag(0x0000_0020)
  const TRANSFORM_HORIZONTAL_MIRROR_ROTATE_180: TransformFlag := Flag(0x0000_0040)
  const TRANSFORM_HORIZONTAL_MIRROR_ROTATE_270: TransformFlag := Flag(0x0000_0080)
  const TRANSFORM_INHERIT: TransformFlag := Flag(0x0000_0100)

  /** The variants in declaration order. */
  const TransformFlagTable: seq<TransformFlag> := [
    TRANSFORM_IDENTITY, TRANSFORM_ROTATE_90, TRANSFORM_ROTATE_180, TRANSFORM_ROTATE_270,
    TRANSFORM_HORIZONTAL_MIRROR, TRANSFORM_HORIZONTAL_MIRROR_ROTATE_90,
    TRANSFORM_HORIZONTAL_MIRROR_ROTATE_180, TRANSFORM_HORIZONTAL_MIRROR_ROTATE_270,
    TRANSFORM_INHERIT]

  // ---- CompositeAlphaFlag / CompositeAlphaFlags ----

  datatype CompositeAlphaKind = CompositeAlphaKind
  type CompositeAlphaFlag = Flag<CompositeAlphaKind>
  type CompositeAlphaFlags = Flags<CompositeAlphaKind>

  const COMPOSITE_ALPHA_OPAQUE: CompositeAlphaFlag := Flag(0x0000_0001)
  const COMPOSITE_ALPHA_PRE_MULTIPLIED: CompositeAlphaFlag := Flag(0x0000_0002)
  const COMPOSITE_ALPHA_POST_MULTIPLIED: CompositeAlphaFlag := Flag(0x0000_0004)
  const COMPOSITE_ALPHA_INHERIT: CompositeAlphaFlag := Flag(0x0000_0008)

  const CompositeAlphaFlagTable: seq<CompositeAlphaFlag> := [
    COMPOSITE_ALPHA_OPAQUE, COMPOSITE_ALPHA_PRE_MULTIPLIED,
    COMPOSITE_ALPHA_POST_MULTIPLIED, COMPOSITE_ALPHA_INHERIT]

  // ---- PresentMode ----

  datatype PresentModeKind = PresentModeKind
  type PresentMode = Enum<PresentModeKind>

  const PRESENT_MODE_IMMEDIATE: PresentMode := Enum(0)
  const PRESENT_MODE_MAILBOX: PresentMode := Enum(1)
  const PRESENT_MODE_FIFO: PresentMode := Enum(2)
  const PRESENT_MODE_FIFO_RELAXED: PresentMode := Enum(3)

  const PresentModeTable: seq<PresentMode> := [
    PRESENT_MODE_IMMEDIATE, PRESENT_MODE_MAILBOX, PRESENT_MODE_FIFO, PRESENT_MODE_FIFO_RELAXED]

  // ---- Properties of the tables ----

  /** Distinct transform variants share no bit, so or-ing any two of them keeps both. */
  lemma TransformFlagsDisjoint()
    ensures forall i, j | 0 <= i < j < |TransformFlagTable| ::
      AndFlagFlag(TransformFlagTable[i], TransformFlagTable[j]) == DefaultFlags()
  {
  }

  /** Distinct composite-alpha variants share no bit. */
  lemma CompositeAlphaFlagsDisjoint()
    ensures forall i, j | 0 <= i < j < |CompositeAlphaFlagTable| ::
      AndFlagFlag(CompositeAlphaFlagTable[i], CompositeAlphaFlagTable[j]) == DefaultFlags()
  {
  }

  /** The present modes are pairwise distinct, being distinct `i32` literals. */
  lemma PresentModesDistinct()
    ensures forall i, j | 0 <= i < j < |PresentModeTable| :: PresentModeTable[i] != PresentModeTable[j]
  {
  }

  /** A supported-transforms word built with `|` answers `&` queries for its members
      only: the kind of test a caller writes against `supportedTransforms`. */
  lemma SupportedTransformsQuery()
    ensures var supported := OrFlagsFlag(OrFlagFlag(TRANSFORM_IDENTITY, TRANSFORM_ROTATE_90), TRANSFORM_INHERIT);
      && IsSet(AndFlagsFlag(supported, TRANSFORM_ROTATE_90))
      && IsSet(AndFlagsFlag(supported, TRANSFORM_INHERIT))
      && !IsSet(AndFlagsFlag(supported, TRANSFORM_ROTATE_180))
      && supported.bits == 0x0000_0103
  {
  }
}
