/**
 * The page script around `generate_pdf`: the guard on the generate
 * button, the letter text stored in the session from the language-model
 * reply, the form data stored beside it, the review step that renders
 * the stored data, and the download file name.
 */
module Page {
  import opened Options
  import opened Strings
  import opened Dates
  import opened Fpdf
  import opened Layout

  /** The form's fields as the user submitted them. */
  datatype Form = Form(
    name: string, email: string, phone: string, address: string,
    position: string, company: string, skills: string,
    template: string, color: string)

  /** The chat-completion call's outcome: the reply's text, or the error it raised. */
  datatype Reply = Completion(text: string) | ApiError(message: string)

  /** `st.session_state["letter_body"]` and `st.session_state["form_data"]`. */
  datatype Session = Session(letterBody: string, formData: Details)

  const InitialSession := Session("", map[])

  /** The keys `form_data` holds once a letter has been generated. */
  const FormKeys: set<string> := {"name", "email", "phone", "address", "tmpl", "clr"}

  /** The stored letter as its fixed pieces and fields, nested to the right. */
  lemma LetterBodyShape(company: string, date: string, completion: string)
    ensures "Hiring Manager\n" + company + "\n\n" + date + "\n\n" + completion
         == "Hiring Manager\n" + (company + "\n" + ("\n" + (date + "\n" + ("\n" + completion))))
  {
    assert "\n\n" == "\n" + "\n";
  }

  datatype Header = Header(company: string, date: Date, completion: string)

  /**
   * Reads a stored letter back into its company, date and reply. Any text
   * it accepts is a recipient block for a single-line company, a valid
   * date's line and a reply.
   */
  function SplitLetterBody(body: string): (r: Option<Header>)
    ensures r.Some? ==> Valid(r.value.date) && NoNewline(r.value.company)
    ensures r.Some? ==>
      body == "Hiring Manager\n" + r.value.company + "\n\n" + FormatDate(r.value.date) + "\n\n" + r.value.completion
  {
    var afterSalutation :- StripPrefix(body, "Hiring Manager\n");
    var company :- SplitAtNewline(afterSalutation);
    var afterCompany :- StripPrefix(company.1, "\n");
    var date :- SplitAtNewline(afterCompany);
    var completion :- StripPrefix(date.1, "\n");
    var today :- ParseDate(date.0);
    FormatParseDate(date.0, today);
    LetterBodyShape(company.0, date.0, completion);
    Some(Header(company.0, today, completion))
  }

  /**
   * The stored letter: the recipient block ("Hiring Manager" and the
   * company on their own lines), a blank line, the date line, a blank
   * line, then the reply verbatim. It is never empty, and a single-line
   * company, the date and the reply can all be read back from it.
   */
  function LetterBody(company: string, today: Date, completion: string): (r: string)
    requires Valid(today)
    ensures r != ""
    ensures NoNewline(company) ==> SplitLetterBody(r) == Some(Header(company, today, completion))
  {
    var date := FormatDate(today);
    var r := "Hiring Manager\n" + company + "\n\n" + date + "\n\n" + completion;
    assert NoNewline(company) ==> SplitLetterBody(r) == Some(Header(company, today, completion)) by {
      if NoNewline(company) {
        var afterDate := "\n" + completion;
        var afterCompany := date + "\n" + afterDate;
        var afterSalutation := company + "\n" + ("\n" + afterCompany);
        LetterBodyShape(company, date, completion);
        StripPrefixJoin("Hiring Manager\n", afterSalutation);
        SplitAtNewlineJoin(company, "\n" + afterCompany);
        StripPrefixJoin("\n", afterCompany);
        SplitAtNewlineJoin(date, afterDate);
        StripPrefixJoin("\n", completion);
        ParseFormatDate(today);
      }
    }
    r
  }

  /** The stored letter can be encoded with the core fonts exactly when the company and the reply can. */
  lemma LetterBodyEncodes(company: string, today: Date, completion: string)
    requires Valid(today)
    ensures Encodable(LetterBody(company, today, completion)) <==> Encodable(company) && Encodable(completion)
  {
    var date := FormatDate(today);
    assert Encodable(date) && Encodable("Hiring Manager\n") && Encodable("\n\n");
    EncodableConcat("Hiring Manager\n", company);
    EncodableConcat("Hiring Manager\n" + company, "\n\n");
    EncodableConcat("Hiring Manager\n" + company + "\n\n", date);
    EncodableConcat("Hiring Manager\n" + company + "\n\n" + date, "\n\n");
    EncodableConcat("Hiring Manager\n" + company + "\n\n" + date + "\n\n", completion);
  }

  /** `form_data` as stored after a successful generation. */
  function FormData(f: Form): (d: Details)
    ensures d.Keys == FormKeys
    ensures d["name"] == f.name && d["email"] == f.email && d["phone"] == f.phone
    ensures d["address"] == f.address && d["tmpl"] == f.template && d["clr"] == f.color
  {
    map["name" := f.name, "email" := f.email, "phone" := f.phone, "address" := f.address,
        "tmpl" := f.template, "clr" := f.color]
  }

  /**
   * The guard `if not u_pos or not u_comp`, negated. A Python string is
   * falsy exactly when it is empty, so a letter is requested exactly when
   * both fields hold at least one character.
   */
  predicate Generates(f: Form): (b: bool)
    ensures b <==> |f.position| > 0 && |f.company| > 0
  {
    f.position != "" && f.company != ""
  }

  /**
   * Pressing the generate button. Without a position or a company only a
   * warning is shown; an API error is shown and stores nothing; otherwise
   * the letter and the form data are stored.
   */
  function Submit(s: Session, f: Form, reply: Reply, today: Date): (r: Session)
    requires Valid(today)
    ensures !Generates(f) || reply.ApiError? ==> r == s
    ensures Generates(f) && reply.Completion? ==>
      r.formData == FormData(f) && r.letterBody != ""
      && (NoNewline(f.company) ==> SplitLetterBody(r.letterBody) == Some(Header(f.company, today, reply.text)))
  {
    if !Generates(f) then s
    else match reply
      case ApiError(_) => s
      case Completion(text) =>
        var body := LetterBody(f.company, today, text);
        Session(body, FormData(f))
  }

  /** Whenever a letter is stored, the form data beside it has every key the review step reads. */
  predicate Consistent(s: Session) {
    s.letterBody != "" ==> FormKeys <= s.formData.Keys
  }

  lemma SubmitKeepsConsistent(s: Session, f: Form, reply: Reply, today: Date)
    requires Valid(today) && Consistent(s)
    ensures Consistent(Submit(s, f, reply, today))
  {
  }

  lemma InitialConsistent()
    ensures Consistent(InitialSession)
  {
  }

  const FileSuffix := "_Cover_Letter.pdf"

  /** `f"{u_name.replace(' ', '_')}_Cover_Letter.pdf"` */
  function DownloadName(name: string): (r: string)
    ensures |r| == |name| + |FileSuffix| && r[|name|..] == FileSuffix
    ensures forall i :: 0 <= i < |name| ==> r[i] == (if name[i] == ' ' then '_' else name[i])
    ensures ' ' !in r
  {
    ReplaceChar(name, ' ', '_') + FileSuffix
  }

  /** A name without underscores can be read back from its file name. */
  lemma DownloadNameRecoversName(name: string)
    requires '_' !in name
    ensures ReplaceChar(DownloadName(name)[..|name|], '_', ' ') == name
  {
    assert DownloadName(name)[..|name|] == ReplaceChar(name, ' ', '_');
    ReplaceCharUndo(name, ' ', '_');
  }

  datatype Download = Download(data: Document, fileName: string, mime: string)

  /**
   * What the review step shows: nothing while no letter is stored, the
   * download button, or the exception `generate_pdf` raised on a text
   * the core fonts cannot encode.
   */
  datatype Shown = NothingShown | DownloadOffered(download: Download) | EncodingError

  /**
   * The review step: once a letter is stored, render the edited text with
   * the stored template, theme and form data, and offer it for download
   * under a name built from the name field currently in the form. Nothing
   * catches the exception `generate_pdf` raises, so then no button appears.
   */
  method Review(s: Session, finalText: string, currentName: string) returns (r: Shown)
    requires Consistent(s)
    ensures r == NothingShown <==> s.letterBody == ""
    ensures s.letterBody != "" ==> var d := s.formData; var t := SelectTemplate(d["tmpl"]);
      (r.DownloadOffered? <==> Encodable(NameText(t, NameOf(d))) && Encodable(ContactText(t, d)) && Encodable(finalText))
    ensures r.DownloadOffered? ==> r.download.mime == "application/pdf" && r.download.fileName == DownloadName(currentName)
    ensures r.DownloadOffered? ==> Some(r.download.data) == Rendered(s.formData["tmpl"], s.formData["clr"], s.formData, finalText)
  {
    if s.letterBody == "" {
      r := NothingShown;
    } else {
      var pdf := GeneratePdf(s.formData["tmpl"], s.formData["clr"], s.formData, finalText);
      match pdf
      case Some(doc) => r := DownloadOffered(Download(doc, DownloadName(currentName), "application/pdf"));
      case None => r := EncodingError;
    }
  }

  /**
   * A freshly generated letter, left unedited, renders with the submitted
   * name and contact fields (none of the "Name"/"None" fallbacks) and the
   * stored letter as the body.
   */
  lemma GeneratedLetterRenders(s: Session, f: Form, text: string, today: Date)
    requires Valid(today) && Generates(f)
    ensures var r := Submit(s, f, Completion(text), today);
      var ops := PageOps(r.formData["tmpl"], r.formData["clr"], r.formData, r.letterBody);
      match SelectTemplate(f.template)
      case SidebarBold =>
        CellTexts(ops) == [Upper(f.name), "Personal details"]
        && MultiCellTexts(ops) == [BoldContactText(f.email, f.phone, f.address), LetterBody(f.company, today, text)]
      case SidebarMinimal =>
        CellTexts(ops) == [f.name, "Contact Info"]
        && MultiCellTexts(ops) == [MinimalContactText(f.email, f.phone, f.address), LetterBody(f.company, today, text)]
  {
    var r := Submit(s, f, Completion(text), today);
    PageFilters(r.formData["tmpl"], r.formData["clr"], r.formData, r.letterBody);
  }

  /**
   * A freshly generated letter, left unedited, can be downloaded exactly
   * when the name cell, the contact fields, the company and the reply can
   * be encoded: the fixed texts and the date line are plain ASCII.
   */
  lemma GeneratedLetterEncodes(s: Session, f: Form, text: string, today: Date)
    requires Valid(today) && Generates(f)
    ensures var r, t := Submit(s, f, Completion(text), today), SelectTemplate(f.template);
      Rendered(r.formData["tmpl"], r.formData["clr"], r.formData, r.letterBody).Some?
      <==> Encodable(NameText(t, f.name)) && Encodable(ContactText(t, FormData(f))) && Encodable(f.company) && Encodable(text)
  {
    LetterBodyEncodes(f.company, today, text);
  }
}
