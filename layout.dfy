/**
 * `generate_pdf(template, color_name, details, content)`: resolve the
 * theme colour, pick the layout from the template label, then replay a
 * fixed sequence of calls on a fresh FPDF context. `PageOps` is the page
 * each layout is meant to produce, written out operation by operation;
 * `GeneratePdf` drives the stateful context and is proved to produce it.
 */
module Layout {
  import opened Options
  import opened Strings
  import opened Theme
  import opened Fpdf

  /** The form data handed to `generate_pdf`, a Python dict of strings. */
  type Details = map<string, string>

  datatype Template = SidebarBold | SidebarMinimal

  /** The substring that selects the sidebar-bold layout. */
  const BoldMarker := "Template 1"

  /** `"Template 1" in template`: the sidebar-bold layout, any other label the minimal one. */
  function SelectTemplate(template: string): (t: Template)
    ensures t == SidebarBold <==> exists i :: OccursAt(template, BoldMarker, i)
  {
    if Contains(template, BoldMarker) then SidebarBold else SidebarMinimal
  }

  /** The two labels of the template drop-down select their layouts; the empty label falls through. */
  lemma MenuTemplates()
    ensures SelectTemplate("Template 1 - Sidebar Bold") == SidebarBold
    ensures SelectTemplate("Template 2 - Sidebar Minimal") == SidebarMinimal
    ensures SelectTemplate("") == SidebarMinimal
  {
    var bold, minimal := "Template 1 - Sidebar Bold", "Template 2 - Sidebar Minimal";
    assert BoldMarker <= bold;
    assert BoldMarker[9] == '1';
    assert '1' !in minimal;
    MissingCharRulesOut(minimal, BoldMarker, '1');
  }

  /** `details.get('name', 'Name')`: the stored name, or "Name" when there is none. */
  function NameOf(details: Details): (r: string)
    ensures "name" in details ==> r == details["name"]
    ensures "name" !in details ==> r == "Name"
  {
    if "name" in details then details["name"] else "Name"
  }

  /** `f"{details.get(key)}"`: an absent key reads as Python's `None` and prints as "None". */
  function FieldText(details: Details, key: string): (r: string)
    ensures key in details ==> r == details[key]
    ensures key !in details ==> r == "None"
  {
    if key in details then details[key] else "None"
  }

  /** Reads the minimal contact block back into its three fields. */
  function ParseMinimalContact(s: string): (r: Option<(string, string, string)>)
    ensures r.Some? ==> s == r.value.0 + "\n" + r.value.1 + "\n" + r.value.2
    ensures r.Some? ==> NoNewline(r.value.0) && NoNewline(r.value.1)
  {
    var first :- SplitAtNewline(s);
    var second :- SplitAtNewline(first.1);
    Some((first.0, second.0, second.1))
  }

  /** Reads the sidebar-bold contact block back into its three fields. */
  function ParseBoldContact(s: string): (r: Option<(string, string, string)>)
    ensures r.Some? ==> s == "Email:\n" + r.value.0 + "\n\nPhone:\n" + r.value.1 + "\n\nAddress:\n" + r.value.2
    ensures r.Some? ==> NoNewline(r.value.0) && NoNewline(r.value.1)
  {
    var afterEmail :- StripPrefix(s, "Email:\n");
    var email :- SplitAtNewline(afterEmail);
    var afterPhone :- StripPrefix(email.1, "\nPhone:\n");
    var phone :- SplitAtNewline(afterPhone);
    var address :- StripPrefix(phone.1, "\nAddress:\n");
    BoldContactShape(email.0, phone.0, address);
    Some((email.0, phone.0, address))
  }

  /** The sidebar-bold block as its label prefixes and fields, nested to the right. */
  lemma BoldContactShape(email: string, phone: string, address: string)
    ensures "Email:\n" + email + "\n\nPhone:\n" + phone + "\n\nAddress:\n" + address
         == "Email:\n" + (email + "\n" + ("\nPhone:\n" + (phone + "\n" + ("\nAddress:\n" + address))))
  {
    assert "\n\nPhone:\n" == "\n" + "\nPhone:\n";
    assert "\n\nAddress:\n" == "\n" + "\nAddress:\n";
  }

  /**
   * The sidebar-bold contact block: each field on the line after its
   * label, the label-and-field pairs separated by a blank line. Single-line
   * email and phone can be read back from it, and so can the address.
   */
  function BoldContactText(email: string, phone: string, address: string): (r: string)
    ensures NoNewline(email) && NoNewline(phone) ==> ParseBoldContact(r) == Some((email, phone, address))
  {
    var r := "Email:\n" + email + "\n\nPhone:\n" + phone + "\n\nAddress:\n" + address;
    assert NoNewline(email) && NoNewline(phone) ==> ParseBoldContact(r) == Some((email, phone, address)) by {
      if NoNewline(email) && NoNewline(phone) {
        var tail2 := "\nAddress:\n" + address;
        var afterPhone := phone + "\n" + tail2;
        var tail1 := "\nPhone:\n" + afterPhone;
        var afterEmail := email + "\n" + tail1;
        BoldContactShape(email, phone, address);
        StripPrefixJoin("Email:\n", afterEmail);
        SplitAtNewlineJoin(email, tail1);
        StripPrefixJoin("\nPhone:\n", afterPhone);
        SplitAtNewlineJoin(phone, tail2);
        StripPrefixJoin("\nAddress:\n", address);
      }
    }
    r
  }

  /**
   * The minimal contact block: email, phone and address, each on its own
   * line. Single-line email and phone can be read back from it, and so
   * can the address.
   */
  function MinimalContactText(email: string, phone: string, address: string): (r: string)
    ensures NoNewline(email) && NoNewline(phone) ==> ParseMinimalContact(r) == Some((email, phone, address))
  {
    var r := email + "\n" + phone + "\n" + address;
    assert NoNewline(email) && NoNewline(phone) ==> ParseMinimalContact(r) == Some((email, phone, address)) by {
      if NoNewline(email) && NoNewline(phone) {
        assert r == email + "\n" + (phone + "\n" + address);
        SplitAtNewlineJoin(email, phone + "\n" + address);
        SplitAtNewlineJoin(phone, address);
      }
    }
    r
  }

  const NameFontBold := Font("helvetica", "B", 26)
  const HeadingFontBold := Font("helvetica", "B", 12)
  const TextFontBold := Font("helvetica", "", 9)
  const NameFontMinimal := Font("helvetica", "B", 18)
  const HeadingFontMinimal := Font("helvetica", "B", 14)
  const TextFontMinimal := Font("helvetica", "", 10)

  /** The fixed headings, which the core fonts can encode. */
  lemma HeadingsEncodable()
    ensures Encodable("Personal details") && Encodable("Contact Info")
  {
  }

  /** Every `cell` and `multi_cell` text of a page can be encoded with the core fonts. */
  predicate Printable(ops: seq<Op>) {
    forall t | t in CellTexts(ops) + MultiCellTexts(ops) :: Encodable(t)
  }

  /** The printable condition for a page of two cells and two text blocks. */
  lemma PrintableOfTexts(ops: seq<Op>, a: string, b: string, c: string, d: string)
    requires CellTexts(ops) == [a, b] && MultiCellTexts(ops) == [c, d]
    ensures Printable(ops) <==> Encodable(a) && Encodable(b) && Encodable(c) && Encodable(d)
  {
    assert CellTexts(ops) + MultiCellTexts(ops) == [a, b, c, d];
  }

  /**
   * The sidebar-bold page: a theme header block, the name in capitals,
   * a full-height theme sidebar with white "Personal details", a rule and
   * the contact block, and the body in black to the right. Its cells are
   * the name and the heading, its text blocks the contact block and the
   * body, both shapes are in the theme colour, and it can be drawn
   * exactly when the name, the contact block and the body can be encoded.
   */
  function BoldOps(theme: Rgb, name: string, contact: string, content: string): (r: seq<Op>)
    ensures |r| == 7
    ensures CellTexts(r) == [Upper(name), "Personal details"]
    ensures MultiCellTexts(r) == [contact, content]
    ensures Fills(r) == [theme, theme]
    ensures Printable(r) <==> Encodable(Upper(name)) && Encodable(contact) && Encodable(content)
  {
    var r :=
      [ Op.Rect(10, 0, 60, 15, theme),
        Op.Cell(Some(Point(10, 20)), 60, 15, Upper(name), Left, Some(NameFontBold), Black),
        Op.Rect(10, 38, 60, 259, theme),
        Op.Cell(Some(Point(15, 45)), 50, 8, "Personal details", Left, Some(HeadingFontBold), White),
        Op.Line(15, 53, 65, 53, Black),
        Op.MultiCell(Some(Point(15, 60)), 45, 5, contact, Some(TextFontBold), White),
        Op.MultiCell(Some(Point(80, 40)), 115, 5, content, Some(TextFontBold), Black) ];
    CollectOfSeven(CellText, r[0], r[1], r[2], r[3], r[4], r[5], r[6]);
    CollectOfSeven(MultiCellText, r[0], r[1], r[2], r[3], r[4], r[5], r[6]);
    CollectOfSeven(Fill, r[0], r[1], r[2], r[3], r[4], r[5], r[6]);
    HeadingsEncodable();
    PrintableOfTexts(r, Upper(name), "Personal details", contact, content);
    r
  }

  /**
   * The minimal page: a light-grey full-height panel, a theme band and
   * ellipse forming the header with the centred name in white, a theme
   * "Contact Info" heading, the contact block and the body in black. Its
   * cells are the name and the heading, its text blocks the contact block
   * and the body, its shapes light grey, then twice the theme colour, and
   * it can be drawn exactly when the name, the contact block and the body
   * can be encoded.
   */
  function MinimalOps(theme: Rgb, name: string, contact: string, content: string): (r: seq<Op>)
    ensures |r| == 7
    ensures CellTexts(r) == [name, "Contact Info"]
    ensures MultiCellTexts(r) == [contact, content]
    ensures Fills(r) == [LightGrey, theme, theme]
    ensures Printable(r) <==> Encodable(name) && Encodable(contact) && Encodable(content)
  {
    var r :=
      [ Op.Rect(0, 0, 75, 297, LightGrey),
        Op.Rect(0, 0, 75, 25, theme),
        Op.Ellipse(-10, 10, 95, 30, theme),
        Op.Cell(Some(Point(5, 12)), 65, 10, name, Center, Some(NameFontMinimal), White),
        Op.Cell(Some(Point(10, 50)), 55, 8, "Contact Info", Left, Some(HeadingFontMinimal), theme),
        Op.MultiCell(Some(Point(10, 60)), 55, 6, contact, Some(TextFontMinimal), Black),
        Op.MultiCell(Some(Point(85, 15)), 110, 5, content, Some(TextFontMinimal), Black) ];
    CollectOfSeven(CellText, r[0], r[1], r[2], r[3], r[4], r[5], r[6]);
    CollectOfSeven(MultiCellText, r[0], r[1], r[2], r[3], r[4], r[5], r[6]);
    CollectOfSeven(Fill, r[0], r[1], r[2], r[3], r[4], r[5], r[6]);
    HeadingsEncodable();
    PrintableOfTexts(r, name, "Contact Info", contact, content);
    r
  }

  /** The third shape of the sidebar-bold page is the theme-coloured sidebar. */
  lemma BoldSidebarRect(theme: Rgb, name: string, contact: string, content: string)
    ensures BoldOps(theme, name, contact, content)[2] == Op.Rect(10, 38, 60, 259, theme)
  {
  }

  /** The contact block of `details` as the chosen layout prints it. */
  function ContactText(t: Template, details: Details): string {
    var email, phone, address := FieldText(details, "email"), FieldText(details, "phone"), FieldText(details, "address");
    match t
    case SidebarBold => BoldContactText(email, phone, address)
    case SidebarMinimal => MinimalContactText(email, phone, address)
  }

  /** The name as the chosen layout's name cell prints it. */
  function NameText(t: Template, name: string): string {
    match t
    case SidebarBold => Upper(name)
    case SidebarMinimal => name
  }

  /** A capital `upper()` produces is Latin-1 exactly for these characters. */
  lemma Latin1Capital(c: char)
    ensures Encodable(UpperOf(c)) <==>
      (c as int < 256 && c != '\U{00B5}' && c != '\U{00FF}') || c == '\U{0131}' || c == '\U{017F}'
      || '\U{FB00}' <= c <= '\U{FB06}'
  {
    var r := UpperOf(c);
    if |r| == 1 {
      assert Encodable(r) <==> r[0] as int < 256;
    } else if |r| == 2 {
      assert r == "SS" || r == "FF" || r == "FI" || r == "FL" || r == "ST";
      assert Encodable(r);
    } else {
      assert r == "FFI" || r == "FFL";
      assert Encodable(r);
    }
  }

  /** An upper-cased name can be encoded exactly when each of its characters has a Latin-1 capital. */
  lemma {:induction false} UpperEncodable(s: string)
    ensures Encodable(Upper(s)) <==> forall i :: 0 <= i < |s| ==> Encodable(UpperOf(s[i]))
    decreases |s|
  {
    if s != [] {
      UpperEncodable(s[1..]);
      EncodableConcat(UpperOf(s[0]), Upper(s[1..]));
      assert forall i :: 1 <= i < |s| ==> s[i] == s[1..][i - 1];
    }
  }

  /**
   * The operations on the one page `generate_pdf` draws: the layout the
   * label selects, in the theme colour, with the name (or "Name") and the
   * contact fields of `details`. It can be drawn exactly when the name
   * cell, the contact block and the body can be encoded.
   */
  function PageOps(template: string, colorName: string, details: Details, content: string): (r: seq<Op>)
    ensures var t := SelectTemplate(template);
      Printable(r) <==> Encodable(NameText(t, NameOf(details))) && Encodable(ContactText(t, details)) && Encodable(content)
  {
    var t := SelectTemplate(template);
    var theme := ThemeColor(colorName);
    match t
    case SidebarBold => BoldOps(theme, NameOf(details), ContactText(t, details), content)
    case SidebarMinimal => MinimalOps(theme, NameOf(details), ContactText(t, details), content)
  }

  /** The cell texts, text blocks and fill colours of the page `generate_pdf` draws, per selected layout. */
  lemma PageFilters(template: string, colorName: string, details: Details, content: string)
    ensures var ops, t := PageOps(template, colorName, details, content), SelectTemplate(template);
      var theme, name := ThemeColor(colorName), NameOf(details);
      MultiCellTexts(ops) == [ContactText(t, details), content]
      && match t
         case SidebarBold => CellTexts(ops) == [Upper(name), "Personal details"] && Fills(ops) == [theme, theme]
         case SidebarMinimal => CellTexts(ops) == [name, "Contact Info"] && Fills(ops) == [LightGrey, theme, theme]
  {
    var t, theme, name := SelectTemplate(template), ThemeColor(colorName), NameOf(details);
    if t == SidebarBold {
      var b := BoldOps(theme, name, ContactText(t, details), content);
    } else {
      var m := MinimalOps(theme, name, ContactText(t, details), content);
    }
  }

  /** What `generate_pdf` hands to `pdf.output()`: page count, page-break mode and the page's operations. */
  datatype Document = Document(pages: nat, autoPageBreak: bool, ops: seq<Op>)

  /**
   * What `generate_pdf` returns: the one-page document, or `None` where
   * FPDF raises because the name cell, the contact block or the body holds
   * a character above U+00FF. That is exactly when some `cell` or
   * `multi_cell` text on the page cannot be encoded.
   */
  function Rendered(template: string, colorName: string, details: Details, content: string): (d: Option<Document>)
    ensures d.Some? <==> Printable(PageOps(template, colorName, details, content))
    ensures d.Some? ==> d.value == Document(1, false, PageOps(template, colorName, details, content))
  {
    var t := SelectTemplate(template);
    if Encodable(NameText(t, NameOf(details))) && Encodable(ContactText(t, details)) && Encodable(content)
    then Some(Document(1, false, PageOps(template, colorName, details, content)))
    else None
  }

  /** A body holding a typographic apostrophe (U+2019), as language-model replies often do, cannot be rendered. */
  lemma ApostropheRaises(template: string, colorName: string, details: Details, content: string)
    requires '\U{2019}' in content
    ensures Rendered(template, colorName, details, content) == None
  {
    var i :| 0 <= i < |content| && content[i] == '\U{2019}';
    assert !Encodable(content);
  }

  /** A name holding 'ÿ', whose capital lies outside Latin-1, cannot be rendered in the sidebar-bold layout. */
  lemma YDiaeresisRaises(template: string, colorName: string, details: Details, content: string)
    requires SelectTemplate(template) == SidebarBold && '\U{00FF}' in NameOf(details)
    ensures Rendered(template, colorName, details, content) == None
  {
    var name := NameOf(details);
    var i :| 0 <= i < |name| && name[i] == '\U{00FF}';
    UpperEncodable(name);
    assert !Encodable(UpperOf(name[i]));
  }

  /**
   * `generate_pdf`: a fresh context, one page, automatic page breaks
   * off, then the layout's calls in source order, stopping where FPDF
   * raises. The colours and fonts recorded in the result come from the
   * context's state, so the proof shows which earlier `set_*` call each
   * operation inherits.
   */
  method GeneratePdf(template: string, colorName: string, details: Details, content: string)
    returns (doc: Option<Document>)
    ensures doc == Rendered(template, colorName, details, content)
  {
    var c := ThemeColor(colorName);
    var pdf := new Context();
    pdf.AddPage();
    pdf.SetAutoPageBreak(false);
    var name := NameOf(details);
    var t := SelectTemplate(template);
    var contact := ContactText(t, details);
    ghost var page := PageOps(template, colorName, details, content);
    assert page == if t == SidebarBold then BoldOps(c, name, contact, content) else MinimalOps(c, name, contact, content);
    assert pdf.ops == [] && pdf.pages == 1 && !pdf.autoPageBreak;
    var ok := DrawLayout(pdf, t, c, name, contact, content);
    assert ok ==> pdf.ops == page;
    doc := if ok then Some(Document(pdf.pages, pdf.autoPageBreak, pdf.ops)) else None;
  }

  /** The `if "Template 1" in template` dispatch: the calls of the selected layout's branch. */
  method DrawLayout(pdf: Context, t: Template, c: Rgb, name: string, contact: string, content: string) returns (ok: bool)
    requires pdf.drawColor == Black
    modifies pdf`fillColor, pdf`textColor, pdf`font, pdf`cursor, pdf`ops
    ensures ok <==> Encodable(NameText(t, name)) && Encodable(contact) && Encodable(content)
    ensures ok ==> pdf.ops == old(pdf.ops) + (if t == SidebarBold then BoldOps(c, name, contact, content) else MinimalOps(c, name, contact, content))
  {
    if t == SidebarBold {
      ok := DrawSidebarBold(pdf, c, name, contact, content);
    } else {
      ok := DrawSidebarMinimal(pdf, c, name, contact, content);
    }
  }

  /**
   * The calls of the "Template 1" branch, on a context whose draw colour
   * is still the initial black. `ok` is false where a text call raises.
   */
  method DrawSidebarBold(pdf: Context, c: Rgb, name: string, contact: string, content: string) returns (ok: bool)
    requires pdf.drawColor == Black
    modifies pdf`fillColor, pdf`textColor, pdf`font, pdf`cursor, pdf`ops
    ensures ok <==> Encodable(Upper(name)) && Encodable(contact) && Encodable(content)
    ensures ok ==> pdf.ops == old(pdf.ops) + BoldOps(c, name, contact, content)
    ensures ok ==> pdf.fillColor == c && pdf.textColor == Black && pdf.font == Some(TextFontBold) && pdf.cursor == None
  {
    ok := DrawBoldHeader(pdf, c, name);
    if ok {
      ok := DrawBoldSidebar(pdf, contact, content);
      assert ok ==> pdf.ops == old(pdf.ops) + BoldOps(c, name, contact, content) by {
        assert BoldOps(c, name, contact, content) == BoldOps(c, name, contact, content)[..3] + BoldOps(c, name, contact, content)[3..];
      }
    }
  }

  /** The theme header block, the name in capitals, and the theme sidebar. */
  method DrawBoldHeader(pdf: Context, c: Rgb, name: string) returns (ok: bool)
    modifies pdf`fillColor, pdf`textColor, pdf`font, pdf`cursor, pdf`ops
    ensures ok <==> Encodable(Upper(name))
    ensures ok ==> pdf.ops == old(pdf.ops) + [Op.Rect(10, 0, 60, 15, c),
      Op.Cell(Some(Point(10, 20)), 60, 15, Upper(name), Left, Some(NameFontBold), Black), Op.Rect(10, 38, 60, 259, c)]
    ensures ok ==> pdf.fillColor == c
  {
    pdf.SetFillColor(c.r, c.g, c.b); pdf.Rect(10, 0, 60, 15);
    pdf.SetXY(10, 20); pdf.SetFont("helvetica", "B", 26);
    pdf.SetTextColor(0, 0, 0); ok := pdf.Cell(60, 15, Upper(name), NextLine, Left);
    if ok {
      pdf.Rect(10, 38, 60, 259);
    }
  }

  /** On the sidebar: the white heading, the rule, the contact block; then the body in black. */
  method DrawBoldSidebar(pdf: Context, contact: string, content: string) returns (ok: bool)
    requires pdf.drawColor == Black
    modifies pdf`textColor, pdf`font, pdf`cursor, pdf`ops
    ensures ok <==> Encodable(contact) && Encodable(content)
    ensures ok ==> pdf.ops == old(pdf.ops) + [
      Op.Cell(Some(Point(15, 45)), 50, 8, "Personal details", Left, Some(HeadingFontBold), White),
      Op.Line(15, 53, 65, 53, Black),
      Op.MultiCell(Some(Point(15, 60)), 45, 5, contact, Some(TextFontBold), White),
      Op.MultiCell(Some(Point(80, 40)), 115, 5, content, Some(TextFontBold), Black) ]
    ensures ok ==> pdf.textColor == Black && pdf.font == Some(TextFontBold) && pdf.cursor == None
  {
    pdf.SetXY(15, 45); pdf.SetTextColor(255, 255, 255);
    pdf.SetFont("helvetica", "B", 12);
    HeadingsEncodable();
    var heading := pdf.Cell(50, 8, "Personal details", NextLine, Left);
    assert heading;
    pdf.Line(15, 53, 65, 53);
    pdf.SetFont("helvetica", "", 9);
    pdf.SetXY(15, 60); ok := pdf.MultiCell(45, 5, contact);
    if ok {
      pdf.SetXY(80, 40); pdf.SetTextColor(0, 0, 0); ok := pdf.MultiCell(115, 5, content);
    }
  }

  /** The calls of the other branch. `ok` is false where a text call raises. */
  method DrawSidebarMinimal(pdf: Context, c: Rgb, name: string, contact: string, content: string) returns (ok: bool)
    modifies pdf`fillColor, pdf`textColor, pdf`font, pdf`cursor, pdf`ops
    ensures ok <==> Encodable(name) && Encodable(contact) && Encodable(content)
    ensures ok ==> pdf.ops == old(pdf.ops) + MinimalOps(c, name, contact, content)
    ensures ok ==> pdf.fillColor == c && pdf.textColor == Black && pdf.font == Some(TextFontMinimal) && pdf.cursor == None
  {
    ok := DrawMinimalHeader(pdf, c, name);
    if ok {
      ok := DrawMinimalContact(pdf, c, contact, content);
      assert ok ==> pdf.ops == old(pdf.ops) + MinimalOps(c, name, contact, content) by {
        assert MinimalOps(c, name, contact, content) == MinimalOps(c, name, contact, content)[..4] + MinimalOps(c, name, contact, content)[4..];
      }
    }
  }

  /** The light-grey panel, the theme band and ellipse, and the centred name in white. */
  method DrawMinimalHeader(pdf: Context, c: Rgb, name: string) returns (ok: bool)
    modifies pdf`fillColor, pdf`textColor, pdf`font, pdf`cursor, pdf`ops
    ensures ok <==> Encodable(name)
    ensures ok ==> pdf.ops == old(pdf.ops) + [Op.Rect(0, 0, 75, 297, LightGrey), Op.Rect(0, 0, 75, 25, c),
      Op.Ellipse(-10, 10, 95, 30, c), Op.Cell(Some(Point(5, 12)), 65, 10, name, Center, Some(NameFontMinimal), White)]
    ensures ok ==> pdf.fillColor == c
  {
    pdf.SetFillColor(242, 242, 242); pdf.Rect(0, 0, 75, 297);
    pdf.SetFillColor(c.r, c.g, c.b); pdf.Rect(0, 0, 75, 25);
    pdf.Ellipse(-10, 10, 95, 30);
    pdf.SetXY(5, 12); pdf.SetFont("helvetica", "B", 18); pdf.SetTextColor(255, 255, 255);
    ok := pdf.Cell(65, 10, name, Right, Center);
  }

  /** The "Contact Info" heading in the theme colour, the contact block and the body in black. */
  method DrawMinimalContact(pdf: Context, c: Rgb, contact: string, content: string) returns (ok: bool)
    modifies pdf`textColor, pdf`font, pdf`cursor, pdf`ops
    ensures ok <==> Encodable(contact) && Encodable(content)
    ensures ok ==> pdf.ops == old(pdf.ops) + [
      Op.Cell(Some(Point(10, 50)), 55, 8, "Contact Info", Left, Some(HeadingFontMinimal), c),
      Op.MultiCell(Some(Point(10, 60)), 55, 6, contact, Some(TextFontMinimal), Black),
      Op.MultiCell(Some(Point(85, 15)), 110, 5, content, Some(TextFontMinimal), Black) ]
    ensures ok ==> pdf.textColor == Black && pdf.font == Some(TextFontMinimal) && pdf.cursor == None
  {
    pdf.SetXY(10, 50); pdf.SetTextColor(c.r, c.g, c.b); pdf.SetFont("helvetica", "B", 14);
    HeadingsEncodable();
    var heading := pdf.Cell(55, 8, "Contact Info", NextLine, Left);
    assert heading;
    pdf.SetTextColor(0, 0, 0); pdf.SetFont("helvetica", "", 10); pdf.SetXY(10, 60);
    ok := pdf.MultiCell(55, 6, contact);
    if ok {
      pdf.SetXY(85, 15); ok := pdf.MultiCell(110, 5, content);
    }
  }

  /** No upper-cased text equals the sidebar heading, which has lower-case letters. */
  lemma UpperIsNotHeading(name: string)
    ensures Upper(name) != "Personal details"
  {
    UpperHasNoLower(name);
    assert IsLower("Personal details"[1]);
  }

  /**
   * The name (or "Name" when absent) is drawn in exactly one cell:
   * upper-cased in the sidebar-bold layout, verbatim and centred in the
   * minimal one, where only a name spelled "Contact Info" coincides with
   * the heading cell.
   */
  lemma NameDrawnOnce(template: string, colorName: string, details: Details, content: string)
    ensures var ops, name := PageOps(template, colorName, details, content), NameOf(details);
      match SelectTemplate(template)
      case SidebarBold =>
        CellTexts(ops) == [Upper(name), "Personal details"] && multiset(CellTexts(ops))[Upper(name)] == 1
      case SidebarMinimal =>
        CellTexts(ops) == [name, "Contact Info"] && ops[3].Cell? && ops[3].align == Center
        && multiset(CellTexts(ops))[name] == if name == "Contact Info" then 2 else 1
  {
    var t, theme, name := SelectTemplate(template), ThemeColor(colorName), NameOf(details);
    var ops, contact := PageOps(template, colorName, details, content), ContactText(t, details);
    if t == SidebarBold {
      assert ops == BoldOps(theme, name, contact, content);
      BoldNameOnce(theme, name, contact, content);
    } else {
      assert ops == MinimalOps(theme, name, contact, content);
      MinimalNameCell(theme, name, contact, content);
    }
  }

  /** The sidebar-bold page draws the upper-cased name in exactly one cell. */
  lemma BoldNameOnce(theme: Rgb, name: string, contact: string, content: string)
    ensures var cells := CellTexts(BoldOps(theme, name, contact, content));
      cells == [Upper(name), "Personal details"] && multiset(cells)[Upper(name)] == 1
  {
    UpperIsNotHeading(name);
    var u := Upper(name);
    assert multiset([u, "Personal details"])[u] == 1;
  }

  /** The minimal page draws the name verbatim in a centred cell, and once more only if it reads "Contact Info". */
  lemma MinimalNameCell(theme: Rgb, name: string, contact: string, content: string)
    ensures var ops := MinimalOps(theme, name, contact, content);
      CellTexts(ops) == [name, "Contact Info"] && ops[3].Cell? && ops[3].align == Center
      && multiset(CellTexts(ops))[name] == if name == "Contact Info" then 2 else 1
  {
  }

  /** Without a "name" entry the name cell reads "NAME" or "Name". */
  lemma AbsentNameFallback(template: string, colorName: string, details: Details, content: string)
    requires "name" !in details
    ensures CellTexts(PageOps(template, colorName, details, content))
         == if SelectTemplate(template) == SidebarBold then ["NAME", "Personal details"] else ["Name", "Contact Info"]
  {
    PageFilters(template, colorName, details, content);
    UpperName();
  }

  /**
   * The two text blocks are the contact block in the layout's fixed
   * format, missing fields printed as "None", and then the body verbatim
   * in black at the layout's position and width.
   */
  lemma TextBlocks(template: string, colorName: string, details: Details, content: string)
    ensures var ops := PageOps(template, colorName, details, content);
      var email, phone, address := FieldText(details, "email"), FieldText(details, "phone"), FieldText(details, "address");
      match SelectTemplate(template)
      case SidebarBold =>
        MultiCellTexts(ops) == ["Email:\n" + email + "\n\nPhone:\n" + phone + "\n\nAddress:\n" + address, content]
        && ops[|ops| - 1] == Op.MultiCell(Some(Point(80, 40)), 115, 5, content, Some(TextFontBold), Black)
      case SidebarMinimal =>
        MultiCellTexts(ops) == [email + "\n" + phone + "\n" + address, content]
        && ops[|ops| - 1] == Op.MultiCell(Some(Point(85, 15)), 110, 5, content, Some(TextFontMinimal), Black)
  {
    PageFilters(template, colorName, details, content);
  }

  /**
   * Colour state carries across calls: the header block and the sidebar
   * of the bold layout are both in the theme colour; the minimal layout's
   * panel is light grey, its band and ellipse and its "Contact Info"
   * heading in the theme colour. The sidebar and the panel reach the
   * bottom of the A4 page.
   */
  lemma ThemeColours(template: string, colorName: string, details: Details, content: string)
    ensures var ops, theme := PageOps(template, colorName, details, content), ThemeColor(colorName);
      match SelectTemplate(template)
      case SidebarBold =>
        Fills(ops) == [theme, theme]
        && ops[2].Rect? && ops[2].y + ops[2].h == PageHeight
      case SidebarMinimal =>
        Fills(ops) == [LightGrey, theme, theme]
        && ops[0].Rect? && ops[0].y == 0 && ops[0].h == PageHeight
        && ops[4] == Op.Cell(Some(Point(10, 50)), 55, 8, "Contact Info", Left, Some(HeadingFontMinimal), theme)
  {
    PageFilters(template, colorName, details, content);
    var t, theme, name := SelectTemplate(template), ThemeColor(colorName), NameOf(details);
    if t == SidebarBold {
      BoldSidebarRect(theme, name, ContactText(t, details), content);
    }
  }

  /** An unknown theme name draws the same page as "Teal". */
  lemma UnknownThemeIsTeal(template: string, colorName: string, details: Details, content: string)
    requires colorName !in Palette
    ensures PageOps(template, colorName, details, content) == PageOps(template, "Teal", details, content)
  {
  }

  /** Any label without "Template 1", whatever else it says, draws the same page as the empty label. */
  lemma UnknownTemplateIsMinimal(template: string, colorName: string, details: Details, content: string)
    requires forall i :: !OccursAt(template, BoldMarker, i)
    ensures PageOps(template, colorName, details, content) == PageOps("", colorName, details, content)
  {
    MenuTemplates();
  }
}
