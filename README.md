# AI cover letter designer: the PDF layout engine, in Dafny

The program is a Streamlit page. The user fills in a form, a language
model drafts a cover letter, the user edits it, and `generate_pdf` draws
a one-page A4 PDF with FPDF in one of two layouts and one of five colour
themes. This project models:

- `generate_pdf` itself (`streamlit_app.py:26-60`):
  - the colour table with its Teal fallback (module `Theme`);
  - the dispatch on the substring `"Template 1"`;
  - the name and contact texts taken from the `details` dict;
  - the fixed sequence of FPDF calls for each layout (module `Layout`).
- The FPDF document as a state machine (module `Fpdf`, class
  `Context`). It holds the current fill, text and draw colours, the
  font, the cursor, the page count, the page-break mode and an
  append-only list of emitted operations (`rect`, `ellipse`, `line`,
  `cell`, `multi_cell`). Each operation records the colour and font in
  force when it was emitted.
- `GeneratePdf` replays the source's calls on a fresh `Context`. It is
  proved to produce `Rendered`: nothing where FPDF raises, otherwise
  `PageOps`, the page each layout is meant to draw, written out
  operation by operation. The proof shows how colours
  carry over between calls: the sidebar rectangle of the bold layout is
  theme-coloured only because of the earlier `set_fill_color`.
- The page script around it (module `Page`):
  - the guard on the generate button;
  - the stored letter text `"Hiring Manager\n" + company + "\n\n" + date + "\n\n" + reply`;
  - the form data stored beside it;
  - the review step that renders the stored data;
  - the download file name.
- `strftime('%B %d, %Y')` (module `Dates`), with a parser. The parser
  proves that the date line can be read back and that nothing else reads
  as a date.

Modelling decisions:

- The current date, the language model's reply and the user's edits
  are parameters.
- `details.get('name', 'Name')` falls back to `"Name"`.
- `details.get(key)` with no default yields Python's `None`, which the
  f-string prints as `"None"`.
- Cursor positions follow FPDF. `set_xy` counts a negative coordinate
  back from the far page edge. `cell(..., ln=1)` moves to the left
  margin of the next line. `ln=0` moves to the right of the cell. After
  `multi_cell` the position depends on line wrapping; the model records
  it as unknown (`None`). In this program every text call comes right
  after a `set_xy`.

"Exactly one cell" and "exactly one text block" are stated as the full
ordered lists of cell texts and block texts. Only these coincidences
give a repeated text:

- a name spelled `"Contact Info"` in the minimal layout;
- a body equal to the contact block.

FPDF's core fonts (helvetica here) encode text as Latin-1. `cell` and
`multi_cell` raise on any character above U+00FF, such as the
typographic apostrophe a language-model reply often contains. Nothing
in the review step catches that exception. `Upper` follows Python's
`upper()` for every Latin-1 character and every character whose capital is
Latin-1. The bold layout's upper-cased name therefore raises exactly
when the source's does. 'ÿ' and 'µ' raise although they are Latin-1.
The Turkish 'ı' does not raise, because it becomes 'I'. The model gives
every text call an `ok` result, stops at the first call that fails, and lets
`GeneratePdf` return `None` in that case. The review step then shows the
error instead of the download button.

This revision of the program has no text sanitizer, no LinkedIn row, no
"Traditional" template and no field validators. The model has none of
them. The download name ends in `_Cover_Letter.pdf`, as the code writes
it. The date is stamped into the letter text by the page script when
the letter is generated, not by the renderer.

## Model

| member | source | states |
|---|---|---|
| `Theme.ThemeColor` | streamlit_app.py:27-31 | every theme name resolves to a palette colour: a palette name to its own triple, any other name to Teal's (52,165,173) |
| `Theme.NamedThemes` | streamlit_app.py:27-30 | the five themes and their exact triples; the palette has exactly these five names |
| `Strings.Contains` | streamlit_app.py:39 | Python's `sub in s` holds exactly when `sub` occurs at some index of `s` |
| `Layout.SelectTemplate` | streamlit_app.py:39-50 | the sidebar-bold layout is chosen exactly when the label contains "Template 1"; every other label gets the minimal layout, with no error case |
| `Layout.MenuTemplates` | streamlit_app.py:79 | the two drop-down labels select sidebar-bold and minimal; the empty label selects minimal |
| `Layout.UnknownTemplateIsMinimal` | streamlit_app.py:39-58 | any label without "Template 1" draws the same page as the empty label |
| `Layout.UnknownThemeIsTeal` | streamlit_app.py:31 | an unknown theme name draws the same page as "Teal" |
| `Layout.NameOf` | streamlit_app.py:37 | `details.get('name', 'Name')`: the stored name when the key is present, "Name" otherwise |
| `Layout.FieldText` | streamlit_app.py:48 | `f"{details.get(key)}"`: the stored field when the key is present, "None" otherwise |
| `Strings.Upper` | streamlit_app.py:42 | `upper()` maps the name character by character, so the result is at least as long and at most three times as long |
| `Strings.UpperConcat` | streamlit_app.py:42 | upper-casing a concatenation upper-cases each part |
| `Strings.UpperHasNoLower` | streamlit_app.py:42 | an upper-cased name holds no character `upper()` would change, and upper-casing twice changes nothing |
| `Strings.UpperName` | streamlit_app.py:42 | "Name" upper-cases to "NAME" |
| `Strings.UpperLetters` | streamlit_app.py:42 | 'é' becomes 'É'; the dotless 'ı' becomes 'I'; 'ÿ' and 'µ' become U+0178 and U+039C; 'ß' becomes "SS" |
| `Layout.Latin1Capital` | streamlit_app.py:42 | a character's capital is Latin-1 exactly when the character is Latin-1 other than 'µ' and 'ÿ', or is 'ı', 'ſ' or one of the ligatures U+FB00-U+FB06 |
| `Layout.UpperEncodable` | streamlit_app.py:42 | the upper-cased name cell can be encoded exactly when every character of the name has a Latin-1 capital |
| `Layout.YDiaeresisRaises` | streamlit_app.py:42 | in the sidebar-bold layout a name holding 'ÿ' makes `generate_pdf` raise, although 'ÿ' itself is Latin-1 |
| `Layout.NameDrawnOnce` | streamlit_app.py:37-54 | the bold layout's cells are [NAME in capitals, "Personal details"], and the name text occurs once; the minimal layout's cells are [name verbatim, "Contact Info"], and the name cell is centred |
| `Layout.BoldNameOnce` | streamlit_app.py:42-45 | the bold page's cells are [NAME in capitals, "Personal details"], and the name text occurs in one of them only |
| `Layout.MinimalNameCell` | streamlit_app.py:54-55 | the minimal page's cells are [name verbatim, "Contact Info"], the name cell is centred, and the name occurs twice only when it reads "Contact Info" |
| `Layout.AbsentNameFallback` | streamlit_app.py:37 | without a "name" entry the name cell reads "NAME" (bold) or "Name" (minimal) |
| `Layout.BoldContactText` | streamlit_app.py:48 | the bold contact block gives back its email, phone and address when email and phone are single lines |
| `Layout.ParseBoldContact` | streamlit_app.py:48 | any text it accepts is exactly `"Email:\n" + e + "\n\nPhone:\n" + p + "\n\nAddress:\n" + a` with single-line e and p |
| `Layout.MinimalContactText` | streamlit_app.py:57 | the minimal contact block gives back its email, phone and address when email and phone are single lines |
| `Layout.ParseMinimalContact` | streamlit_app.py:57 | any text it accepts is exactly `e + "\n" + p + "\n" + a` with single-line e and p |
| `Layout.BoldOps` | streamlit_app.py:40-49 | the bold page has seven operations; its cells are [NAME, "Personal details"], its text blocks [contact, body], both shapes are theme-coloured, and it is printable exactly when the upper-cased name, the contact block and the body are encodable |
| `Layout.MinimalOps` | streamlit_app.py:51-58 | the minimal page has seven operations; its cells are [name, "Contact Info"], its text blocks [contact, body], its shapes light grey then twice the theme colour, and it is printable exactly when the name, the contact block and the body are encodable |
| `Layout.PageOps` | streamlit_app.py:39-58 | the page of the selected layout is printable exactly when its name cell, its contact block and the body are encodable |
| `Layout.PageFilters` | streamlit_app.py:39-58 | the cell texts, text blocks and fill colours of the page `generate_pdf` draws, per selected layout |
| `Layout.TextBlocks` | streamlit_app.py:47-58 | the two text blocks are: the contact block in the layout's format, with missing fields printed as "None"; then the body verbatim, in black, at (80,40) width 115 (bold) or (85,15) width 110 (minimal) |
| `Layout.BoldSidebarRect` | streamlit_app.py:43 | the third shape of the bold page is the theme-coloured sidebar at (10,38), 60 by 259 |
| `Layout.ThemeColours` | streamlit_app.py:40-55 | bold: both filled rectangles are in the theme colour and the sidebar reaches the page bottom; minimal: a full-height light-grey panel, then band and ellipse in the theme colour, and the "Contact Info" heading in the theme colour |
| `Layout.Rendered` | streamlit_app.py:26-60 | `generate_pdf` returns a document exactly when every text on the page is encodable; that document has one page, automatic page breaks off and the layout's operations |
| `Layout.ApostropheRaises` | streamlit_app.py:49 | a body holding a typographic apostrophe (U+2019) makes `generate_pdf` raise, whatever the layout |
| `Layout.GeneratePdf` | streamlit_app.py:26-60 | replaying the calls on a fresh context gives `Rendered`: `None` where a text call raises, otherwise one page, automatic page breaks off, and exactly the operations `PageOps` lists, each with the colour and font the earlier `set_*` calls left in force |
| `Layout.DrawLayout` | streamlit_app.py:39-58 | the branch on the template succeeds exactly when the selected layout's name cell, the contact block and the body are encodable; then it appends that layout's seven operations |
| `Layout.DrawSidebarBold` | streamlit_app.py:40-49 | the "Template 1" calls succeed exactly when the upper-cased name, the contact block and the body are encodable; then they append the seven bold operations and leave the theme fill, black text, the 9-point text font and an unknown cursor |
| `Layout.DrawBoldHeader` | streamlit_app.py:40-42 | the header calls succeed exactly when the upper-cased name is encodable; then they append the theme block and the name cell and leave the theme fill colour |
| `Layout.DrawBoldSidebar` | streamlit_app.py:43-49 | the sidebar calls succeed exactly when the contact block and the body are encodable; then they append the sidebar, the white heading, the rule and both text blocks and leave black text, the 9-point text font and an unknown cursor |
| `Layout.DrawSidebarMinimal` | streamlit_app.py:51-58 | the other branch's calls succeed exactly when the name, the contact block and the body are encodable; then they append the seven minimal operations and leave the theme fill, black text, the 10-point text font and an unknown cursor |
| `Layout.DrawMinimalHeader` | streamlit_app.py:51-54 | the header calls succeed exactly when the name is encodable; then they append the grey panel, the theme band and ellipse and the centred white name cell and leave the theme fill colour |
| `Layout.DrawMinimalContact` | streamlit_app.py:55-58 | the contact calls succeed exactly when the contact block and the body are encodable; then they append the theme-coloured heading and both black text blocks and leave black text, the 10-point text font and an unknown cursor |
| `Fpdf.Context.constructor` | streamlit_app.py:33 | a new document: no page, automatic page breaks on, black colours, no font, cursor at the margins, no operations |
| `Fpdf.Context.AddPage` | streamlit_app.py:34 | one more page; the cursor returns to the top-left margin; colours and font carry over |
| `Fpdf.Context.SetAutoPageBreak` | streamlit_app.py:35 | sets the page-break mode and nothing else |
| `Fpdf.Context.SetFillColor` | streamlit_app.py:40 | sets the fill colour and nothing else |
| `Fpdf.Context.SetTextColor` | streamlit_app.py:42 | sets the text colour and nothing else |
| `Fpdf.Context.SetFont` | streamlit_app.py:41 | sets the font and nothing else |
| `Fpdf.Context.SetXY` | streamlit_app.py:41 | moves the cursor, counting negative coordinates back from the far edge of the A4 page |
| `Fpdf.Context.Rect` | streamlit_app.py:40 | appends one filled rectangle in the current fill colour |
| `Fpdf.Context.Ellipse` | streamlit_app.py:53 | appends one filled ellipse in the current fill colour |
| `Fpdf.Context.Line` | streamlit_app.py:46 | appends one line in the current draw colour |
| `Fpdf.Context.Cell` | streamlit_app.py:42 | succeeds exactly when the text is Latin-1; then it appends one cell at the cursor in the current font and text colour and moves the cursor right or to the next line; otherwise nothing changes |
| `Fpdf.Context.MultiCell` | streamlit_app.py:48 | succeeds exactly when the text is Latin-1; then it appends one text block at the cursor in the current font and text colour, after which the cursor depends on wrapping; otherwise nothing changes |
| `Dates.MonthName` | streamlit_app.py:100 | `%B` is a single-line ASCII name that reads back as its month |
| `Dates.Pad2` | streamlit_app.py:100 | `%d` is two ASCII digits that read back as the day |
| `Dates.Pad4` | streamlit_app.py:100 | `%Y` is four ASCII digits that read back as the year |
| `Dates.FormatDate` | streamlit_app.py:100 | the date line is ASCII, contains no line break and is at least twelve characters long |
| `Dates.ParseFormatDate` | streamlit_app.py:100 | month name, two-digit day and four-digit year lose nothing: the formatted date reads back as the same date |
| `Dates.FormatParseDate` | streamlit_app.py:100 | any text that reads as a date is exactly that date's formatted text |
| `Page.LetterBody` | streamlit_app.py:100 | the stored letter is never empty, and its company, date and reply can be read back when the company is a single line |
| `Page.SplitLetterBody` | streamlit_app.py:100 | any text it accepts is exactly `"Hiring Manager\n" + company + "\n\n" + date line + "\n\n" + reply` for a single-line company and a valid date |
| `Page.LetterBodyEncodes` | streamlit_app.py:100 | the stored letter is encodable exactly when the company and the reply are |
| `Page.FormData` | streamlit_app.py:101 | the stored form data has exactly the six keys, each holding its form field |
| `Page.Generates` | streamlit_app.py:86 | a letter is requested exactly when both the position and the company are non-empty |
| `Page.Submit` | streamlit_app.py:85-104 | without a position or a company, or when the API call fails, the session is unchanged; otherwise the form data holds all six fields and the stored letter is non-empty and, for a single-line company, reads back to the company, date and reply |
| `Page.SubmitKeepsConsistent` | streamlit_app.py:100-101 | submitting keeps the invariant: whenever a letter is stored, its form data has every key the review step reads |
| `Page.InitialConsistent` | streamlit_app.py:20-23 | the initial session satisfies that invariant |
| `Page.Review` | streamlit_app.py:107-124 | nothing is shown exactly when no letter is stored; otherwise a PDF is offered exactly when the stored name and contact texts and the edited letter are encodable, as `Rendered` of the stored template, theme and form data, as application/pdf under the download name; in every other case the uncaught encoding error is shown |
| `Page.GeneratedLetterRenders` | streamlit_app.py:100-116 | an unedited, freshly generated letter renders with the submitted name and contact fields (no "Name"/"None" fallback) and the stored letter as the body |
| `Page.GeneratedLetterEncodes` | streamlit_app.py:100-116 | an unedited, freshly generated letter can be downloaded exactly when the name cell, the contact fields, the company and the reply are encodable |
| `Strings.ReplaceChar` | streamlit_app.py:121 | `replace` for one character keeps the length and replaces exactly the matching positions |
| `Page.DownloadName` | streamlit_app.py:121 | the name with every space turned into '_', followed by "_Cover_Letter.pdf"; the file name contains no space at all |
| `Page.DownloadNameRecoversName` | streamlit_app.py:121 | a name without underscores can be recovered from its file name |

## Left out

- Streamlit: page setup, the form widgets, warnings and error messages, `st.secrets`, the spinner and the download button. `st.session_state` is modelled as an explicit `Session` value that `Submit` returns. The traceback Streamlit prints for the uncaught encoding error is the `EncodingError` value.
- The Groq client and the chat-completion request, including the prompt at line 92. This is network I/O. Its outcome is the `Reply` parameter: the reply text, or the error it raised.
- `datetime.now()` is a parameter. Month names are those of the C locale.
- FPDF's PDF bytes (`bytes(pdf.output())`), font metrics, `multi_cell` line wrapping and the rasterising of shapes. These belong to a library whose source is not part of this model. The result is the abstract `Document`: page count, page-break mode and the operation list.
- FPDF normalising font family and style names. Every call in the program already passes them in normal form.
- Rectangle and ellipse styles other than `'F'`, which the program does not use.
- FPDF's error when drawing before `add_page`. The program always opens the page first.
- FPDF's "No font set" error from `cell` and `multi_cell`. The program always calls `set_font` before drawing text, although the `Op` values allow a missing font.
- `Layout.GeneratePdf`: where a text call raises, the operations already drawn are discarded with the document, so the model states nothing about them.
- `Strings.UpperOf`: keeps every character above U+00FF except 'ı', 'ſ' and the ligatures U+FB00-U+FB06, whereas Python upper-cases many of them (Greek, Cyrillic and others). None of those characters has a Latin-1 capital, so the name cell raises in both the source and the model. Only the text of a call that fails differs, and the model does not record that text.
- `Dates.Valid`: admits only four-digit years (1000 to 9999). Below 1000, the zero-padding of `%Y` differs between platforms, and the system clock does not report such years.
