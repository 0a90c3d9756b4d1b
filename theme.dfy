/** Colours and the theme palette of the PDF generator. */
module Theme {

  /** One channel of an RGB colour as FPDF takes it. */
  type Channel = x: int | 0 <= x <= 255

  datatype Rgb = Rgb(r: Channel, g: Channel, b: Channel)

  const Black := Rgb(0, 0, 0)
  const White := Rgb(255, 255, 255)
  const LightGrey := Rgb(242, 242, 242)

  /** The colour table of `generate_pdf`, keyed by theme name. */
  const Palette: map<string, Rgb> := map[
    "Teal" := Rgb(52, 165, 173),
    "Forest Green" := Rgb(34, 139, 34),
    "Navy Blue" := Rgb(0, 51, 102),
    "Burgundy" := Rgb(128, 0, 32),
    "Charcoal" := Rgb(54, 69, 79)]

  /** The default of the lookup, written out separately from the table. */
  const Fallback := Rgb(52, 165, 173)

  /**
   * `colors.get(color_name, (52, 165, 173))`: every name yields a palette
   * colour, and a name outside the palette yields Teal's colour.
   */
  function ThemeColor(name: string): (c: Rgb)
    ensures c in Palette.Values
    ensures name in Palette ==> c == Palette[name]
    ensures name !in Palette ==> c == Palette["Teal"]
  {
    if name in Palette then Palette[name]
    else
      assert Palette["Teal"] == Fallback;
      Fallback
  }

  /** The five themes the form offers, with their triples. */
  lemma NamedThemes()
    ensures ThemeColor("Teal") == Rgb(52, 165, 173)
    ensures ThemeColor("Forest Green") == Rgb(34, 139, 34)
    ensures ThemeColor("Navy Blue") == Rgb(0, 51, 102)
    ensures ThemeColor("Burgundy") == Rgb(128, 0, 32)
    ensures ThemeColor("Charcoal") == Rgb(54, 69, 79)
    ensures Palette.Keys == {"Teal", "Forest Green", "Navy Blue", "Burgundy", "Charcoal"}
  {
  }
}
