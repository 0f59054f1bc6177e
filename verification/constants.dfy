/**
 * The constant tables: the light and dark note palettes, the default
 * settings, and the palette lookup that falls back to the first entry.
 */
module Constants {
  import opened Types

  /**
   * A palette entry. `name` holds the entry's `label` field (`label` is a
   * reserved word in Dafny).
   */
  datatype ColorOption = ColorOption(name: string, value: string, border: string)

  const Colors: seq<ColorOption> := [
    ColorOption("Default", "#ffffff", "#e4e4e7"),
    ColorOption("Red", "#fef2f2", "#fecaca"),
    ColorOption("Orange", "#fff7ed", "#fed7aa"),
    ColorOption("Yellow", "#fefce8", "#fde047"),
    ColorOption("Green", "#f0fdf4", "#bbf7d0"),
    ColorOption("Blue", "#eff6ff", "#93c5fd"),
    ColorOption("Purple", "#faf5ff", "#c4b5fd"),
    ColorOption("Pink", "#fdf2f8", "#f9a8d4")
  ]

  const DarkColors: seq<ColorOption> := [
    ColorOption("Default", "#1f1f23", "#27272a"),
    ColorOption("Red", "#450a0a", "#7f1d1d"),
    ColorOption("Orange", "#431407", "#9a3412"),
    ColorOption("Yellow", "#422006", "#a16207"),
    ColorOption("Green", "#052e16", "#166534"),
    ColorOption("Blue", "#0c1e3e", "#1e3a8a"),
    ColorOption("Purple", "#2e1065", "#6b21a8"),
    ColorOption("Pink", "#500724", "#be185d")
  ]

  const DefaultSettings: UserSettings := UserSettings(System, 16, Grid, CreatedDesc, false)

  /** No two entries of the palette share a `value`. */
  ghost predicate ValuesDistinct(palette: seq<ColorOption>) {
    forall i, j :: 0 <= i < j < |palette| ==> palette[i].value != palette[j].value
  }

  /** Both palettes have eight entries with the same labels in the same order. */
  lemma PalettesAligned()
    ensures |Colors| == 8 && |DarkColors| == 8
    ensures forall i :: 0 <= i < 8 ==> Colors[i].name == DarkColors[i].name
  {
  }

  /** Within each palette the values are pairwise distinct. */
  lemma PaletteValuesDistinct()
    ensures ValuesDistinct(Colors)
    ensures ValuesDistinct(DarkColors)
  {
  }

  /** No value of the light palette occurs in the dark palette. */
  lemma PalettesDisjoint()
    ensures forall i, j :: 0 <= i < |Colors| && 0 <= j < |DarkColors| ==>
              Colors[i].value != DarkColors[j].value
  {
  }

  /** The palette the colour scheme selects: dark only for the scheme "dark". */
  function PaletteFor(colorScheme: Option<string>): (palette: seq<ColorOption>)
    ensures |palette| == 8
    ensures colorScheme == Some("dark") ==> palette == DarkColors
    ensures colorScheme != Some("dark") ==> palette == Colors
  {
    if colorScheme == Some("dark") then DarkColors else Colors
  }

  /** `palette.find(c => c.value === color)`: the first entry with that value. */
  function FindByValue(palette: seq<ColorOption>, color: string): (r: Option<ColorOption>)
    ensures r.Some? ==> r.value in palette && r.value.value == color
    ensures r.None? <==> forall i :: 0 <= i < |palette| ==> palette[i].value != color
    ensures r.Some? ==> exists i :: 0 <= i < |palette| && palette[i] == r.value &&
                                    forall j :: 0 <= j < i ==> palette[j].value != color
  {
    if palette == [] then None
    else if palette[0].value == color then Some(palette[0])
    else
      var r := FindByValue(palette[1..], color);
      assert r.Some? ==> exists i :: 0 <= i < |palette[1..]| && palette[1..][i] == r.value &&
                                     forall j :: 0 <= j < i ==> palette[1..][j].value != color;
      if r.Some? then
        var i :| 0 <= i < |palette[1..]| && palette[1..][i] == r.value &&
                 forall j :: 0 <= j < i ==> palette[1..][j].value != color;
        assert palette[i + 1] == r.value;
        assert forall j :: 0 <= j < i + 1 ==> palette[j].value != color by {
          forall j | 0 <= j < i + 1 ensures palette[j].value != color {
            if j > 0 { assert palette[j] == palette[1..][j - 1]; }
          }
        }
        r
      else
        r
  }

  /**
   * `palette.find(c => c.value === color) || palette[0]`: the entry whose value
   * is `color` when there is one, otherwise the first entry.
   */
  function ColorFor(colorScheme: Option<string>, color: string): (c: ColorOption)
    ensures c in PaletteFor(colorScheme)
    ensures (exists i :: 0 <= i < 8 && PaletteFor(colorScheme)[i].value == color) ==> c.value == color
    ensures (forall i :: 0 <= i < 8 ==> PaletteFor(colorScheme)[i].value != color) ==>
              c == PaletteFor(colorScheme)[0]
  {
    var palette := PaletteFor(colorScheme);
    match FindByValue(palette, color)
    case Some(found) => found
    case None => palette[0]
  }

  /**
   * Because values are distinct, a colour that is in the palette selects
   * exactly its own entry.
   */
  lemma ColorForSelectsUniqueEntry(colorScheme: Option<string>, color: string, k: int)
    requires 0 <= k < 8 && PaletteFor(colorScheme)[k].value == color
    ensures ColorFor(colorScheme, color) == PaletteFor(colorScheme)[k]
  {
    PaletteValuesDistinct();
    var palette := PaletteFor(colorScheme);
    var c := ColorFor(colorScheme, color);
    var i :| 0 <= i < |palette| && palette[i] == c;
    assert palette[i].value == palette[k].value;
  }

  /** A light-palette colour is never found in the dark palette: it falls back. */
  lemma LightColorFallsBackInDark(i: int)
    requires 0 <= i < |Colors|
    ensures ColorFor(Some("dark"), Colors[i].value) == DarkColors[0]
  {
    PalettesDisjoint();
  }
}
