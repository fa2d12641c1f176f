/**
 * The two rendering targets and the colour palettes `Colors` and
 * `loglevelColors`: ANSI colour indices on the Node target, CSS colour
 * names on the browser target.
 */
module Palette {
  import opened Values
  import opened Levels

  /** Node (`process.env.NODE` set: ANSI escapes, file output) or a browser (CSS-styled console). */
  datatype Target = Node | Browser

  /** The semantic colour names, the keys of `Colors`. */
  datatype Color = Black | Red | Green | Yellow | Blue | Magenta | Cyan | Grey | White | Default

  /** `Colors[c]` on the given target. */
  function ColorValue(target: Target, c: Color): (v: Value)
    ensures target == Node ==> v.Num? && v.n < 10
    ensures target == Browser ==> v.Str? && v.s != "" && '%' !in v.s
  {
    match target
    case Node =>
      Num(match c
          case Black => 0
          case Red => 1
          case Green => 2
          case Yellow => 3
          case Blue => 4
          case Magenta => 5
          case Cyan => 6
          case Grey => 7
          case White => 9
          case Default => 9)
    case Browser =>
      Str(match c
          case Black => "Black"
          case Red => "IndianRed"
          case Green => "LimeGreen"
          case Yellow => "Orange"
          case Blue => "RoyalBlue"
          case Magenta => "Orchid"
          case Cyan => "SkyBlue"
          case Grey => "DimGrey"
          case White => "White"
          case Default => "Black")
  }

  /** `loglevelColors`: one colour per level, in level order. */
  function LevelColors(target: Target): (cs: seq<Value>)
    ensures |cs| == |LevelNames|
  {
    [ColorValue(target, Cyan), ColorValue(target, Green), ColorValue(target, Yellow),
     ColorValue(target, Red), ColorValue(target, Default)]
  }

  /** Each entry-point level gets its own colour, on both targets. */
  lemma LevelColorsDistinct(target: Target, l1: Level, l2: Level)
    requires Emitting(l1) && Emitting(l2) && l1 != l2
    ensures LevelColors(target)[Ordinal(l1)] != LevelColors(target)[Ordinal(l2)]
  {
  }
}
