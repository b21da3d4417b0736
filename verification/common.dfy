/** Types shared by every part of the model: optional references, 32-bit
    form identifiers and the music-type forms the plugin swaps in. */
module Common {

  /** A possibly-null engine pointer. */
  datatype Option<+T> = None | Some(value: T)

  /** The engine's `std::uint32_t`. */
  newtype uint32 = x: int | 0 <= x < 0x1_0000_0000

  /** `RE::FormID`: a 32-bit identifier of a form in the loaded game data. */
  type FormID = uint32

  /** A `RE::BGSMusicType` form. Non-null by construction; a null pointer is
      `None` in an `Option<MusicType>`. Two music types are the same object
      exactly when they have the same form identifier. */
  datatype MusicType = MusicType(formID: FormID)
}
