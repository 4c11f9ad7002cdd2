/**
 * The closed enumerations the application is built on. The three the SDK
 * receives carry the string each member stands for.
 */
module Types {

  /** Output aspect ratio sent to the generation endpoint. */
  datatype AspectRatio =
    | Square | Portrait2x3 | Landscape3x2 | Portrait3x4 | Landscape4x3
    | Portrait9x16 | Landscape16x9 | Cinematic21x9
  {
    function Value(): string {
      match this
      case Square => "1:1"
      case Portrait2x3 => "2:3"
      case Landscape3x2 => "3:2"
      case Portrait3x4 => "3:4"
      case Landscape4x3 => "4:3"
      case Portrait9x16 => "9:16"
      case Landscape16x9 => "16:9"
      case Cinematic21x9 => "21:9"
    }
  }

  /** Output resolution sent to the generation endpoint. */
  datatype ImageResolution = Res1K | Res2K | Res4K
  {
    function Value(): string {
      match this
      case Res1K => "1K"
      case Res2K => "2K"
      case Res4K => "4K"
    }
  }

  /** The two image models: the high-quality one for posters, the fast one for edits. */
  datatype ModelType = ProImage | FlashImage
  {
    function Value(): string {
      match this
      case ProImage => "gemini-3-pro-image-preview"
      case FlashImage => "gemini-2.5-flash-image"
    }
  }

  /** The layout archetypes the user can choose; exactly these five are declared. */
  datatype CompositionType = SplitDiagonal | FaceOff | DoubleExposure | ActionCollage | CenterFocus

  /** The visual treatments the user can choose; exactly these six are declared. */
  datatype PosterStyle =
    | RealisticStadium | CyberpunkNeon | GrungeTexture | Broadcast3D | Illustrative | GoldLuxury

  /** Different output formats and models reach the SDK as different strings. */
  lemma ValuesDistinguish(a1: AspectRatio, a2: AspectRatio, r1: ImageResolution, r2: ImageResolution)
    ensures a1.Value() == a2.Value() ==> a1 == a2
    ensures r1.Value() == r2.Value() ==> r1 == r2
    ensures ProImage.Value() != FlashImage.Value()
  {
  }
}
