/**
 * The shared vocabulary of the display (types.ts): the three scenes, the
 * user configuration and the colour palettes.
 */
module Types {

  /** The scene shown by the particle field (enum AppState). */
  datatype AppState = Bye2025 | Countdown | Happy2026

  /** The celebration themes a user can pick (Config.palette). */
  datatype PaletteName = Sunset | Gold | Rosegold

  /** A CSS colour string such as "#FFD700". */
  type Color = string

  /** User settings read by the particle engine (interface Config). */
  datatype Config = Config(
    particleDensity: nat,
    particleSize: real,
    bgAlpha: real,
    palette: PaletteName,
    showCamera: bool)

  /** PALETTES.cool: the farewell scene cycles through these. */
  const CoolPalette: seq<Color> := ["#00BFFF", "#1ea1ff", "#87CEFA"]
  /** PALETTES.sunset */
  const SunsetPalette: seq<Color> := ["#f59d2a", "#ffb700", "#ff4800"]
  /** PALETTES.gold */
  const GoldPalette: seq<Color> := ["#FFD700", "#DAA520", "#FFFACD"]
  /** PALETTES.rosegold */
  const RosegoldPalette: seq<Color> := ["#fccfee", "#E0B0FF", "#FFB6C1"]
  /** PALETTES.countdown: the single accent colour of the countdown digits. */
  const CountdownColor: Color := "#ccf279"

  /** PALETTES[name] for a celebration theme; every theme has three colours. */
  function Palette(name: PaletteName): (p: seq<Color>)
    ensures |p| == 3
  {
    match name
    case Sunset => SunsetPalette
    case Gold => GoldPalette
    case Rosegold => RosegoldPalette
  }
}
