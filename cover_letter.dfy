/**
 * The cover-letter generation screen (ViewModels/GenerateCoverLetterViewModel.cs):
 * the list of template documents for the chosen template, and the generation
 * routine, which validates the settings and the form, checks that the
 * template holds every placeholder, decides where the letter goes and
 * whether that clashes with an existing file, copies the template there and
 * substitutes the placeholders paragraph by paragraph.
 *
 * `Generate` states the routine's outcome as a function of the settings, the
 * form and the file system; the class's `GenerateCoverLetter` method performs
 * the same steps imperatively and is proved to produce that outcome.
 */
module CoverLetter {
  import opened Wrappers
  import opened Lists
  import opened Models
  import opened Text
  import opened Paths
  import opened Documents
  import opened Disk

  // ---------------------------------------------------------------------------
  // Template documents

  /** Only Word documents and Word templates are offered. */
  predicate IsTemplateDocument(path: string) {
    EndsWith(path, "docx") || EndsWith(path, "dotx")
  }

  /** The files of a template directory that are offered as documents, in listing order. */
  function TemplateDocuments(files: seq<string>): (r: seq<string>)
    ensures forall f :: f in r <==> f in files && IsTemplateDocument(f)
    ensures IsSubsequence(r, files)
    ensures forall f :: multiset(r)[f] == if IsTemplateDocument(f) then multiset(files)[f] else 0
  {
    if files == [] then []
    else
      assert files == [files[0]] + files[1..];
      if IsTemplateDocument(files[0]) then [files[0]] + TemplateDocuments(files[1..])
      else TemplateDocuments(files[1..])
  }

  /** The file name of every path, in order. */
  function FileNames(paths: seq<string>): (r: seq<string>)
    ensures |r| == |paths|
    ensures forall i :: 0 <= i < |paths| ==> r[i] == GetFileName(paths[i])
  {
    seq(|paths|, i requires 0 <= i < |paths| => GetFileName(paths[i]))
  }

  // ---------------------------------------------------------------------------
  // Validation

  /** The generation form. */
  datatype Form = Form(selectedTemplate: string, jobSource: string, companyName: string, jobTitle: string, selectedDocument: string)

  /** Some string property of the settings is blank. */
  predicate AnySettingBlank(settings: AppSettings) {
    exists e :: e in SettingsList(settings) && IsBlank(e.value)
  }

  const SettingsMissing: KeyValueItem := KeyValueItem("Settings", "All settings must be specified before generating a cover letter.")

  /** The error of each form field, in the order the fields are checked. */
  const FieldErrorItems: seq<KeyValueItem> := [
    KeyValueItem("SelectedTemplate", "Template must be specified."),
    KeyValueItem("JobSource", "Job Source must be specified."),
    KeyValueItem("CompanyName", "Company Name must be specified."),
    KeyValueItem("JobTitle", "Job Title must be specified."),
    KeyValueItem("SelectedDocument", "Document must be specified.")]

  /** One error per blank form field, each checked in turn. */
  function FieldErrors(form: Form): seq<KeyValueItem> {
    ErrorIfBlank(form.selectedTemplate, FieldErrorItems[0])
    + ErrorIfBlank(form.jobSource, FieldErrorItems[1])
    + ErrorIfBlank(form.companyName, FieldErrorItems[2])
    + ErrorIfBlank(form.jobTitle, FieldErrorItems[3])
    + ErrorIfBlank(form.selectedDocument, FieldErrorItems[4])
  }

  /** Which of the five fields are blank, in field order. */
  function BlankMask(form: Form): (mask: seq<bool>)
    ensures |mask| == 5
  {
    [IsBlank(form.selectedTemplate), IsBlank(form.jobSource), IsBlank(form.companyName),
     IsBlank(form.jobTitle), IsBlank(form.selectedDocument)]
  }

  /** The positions, from `from` on, where `mask` holds, in increasing order. */
  function Marked(mask: seq<bool>, from: nat): (r: seq<nat>)
    requires from <= |mask|
    ensures forall j :: 0 <= j < |r| ==> from <= r[j] < |mask| && mask[r[j]]
    ensures forall j, k :: 0 <= j < k < |r| ==> r[j] < r[k]
    ensures forall i :: from <= i < |mask| && mask[i] ==> i in r
    decreases |mask| - from
  {
    if from == |mask| then []
    else (if mask[from] then [from] else []) + Marked(mask, from + 1)
  }

  /** The items at the marked positions from `from` on, in order. */
  function Selected(mask: seq<bool>, items: seq<KeyValueItem>, from: nat): seq<KeyValueItem>
    requires |items| == |mask| && from <= |mask|
    decreases |mask| - from
  {
    if from == |mask| then []
    else (if mask[from] then [items[from]] else []) + Selected(mask, items, from + 1)
  }

  lemma {:induction false} SelectedAtMarked(mask: seq<bool>, items: seq<KeyValueItem>, from: nat)
    requires |items| == |mask| && from <= |mask|
    ensures |Selected(mask, items, from)| == |Marked(mask, from)|
    ensures forall j :: 0 <= j < |Marked(mask, from)| ==> Selected(mask, items, from)[j] == items[Marked(mask, from)[j]]
    decreases |mask| - from
  {
    if from < |mask| {
      SelectedAtMarked(mask, items, from + 1);
      var sel, mark := Selected(mask, items, from + 1), Marked(mask, from + 1);
      if mask[from] {
        assert Selected(mask, items, from) == [items[from]] + sel;
        assert Marked(mask, from) == [from] + mark;
      } else {
        assert Selected(mask, items, from) == sel;
        assert Marked(mask, from) == mark;
      }
    }
  }

  lemma FieldErrorsUnfold(form: Form)
    ensures FieldErrors(form) == Selected(BlankMask(form), FieldErrorItems, 0)
  {
    var mask, items := BlankMask(form), FieldErrorItems;
    var a := ErrorIfBlank(form.selectedTemplate, items[0]);
    var b := ErrorIfBlank(form.jobSource, items[1]);
    var c := ErrorIfBlank(form.companyName, items[2]);
    var d := ErrorIfBlank(form.jobTitle, items[3]);
    var f := ErrorIfBlank(form.selectedDocument, items[4]);
    assert Selected(mask, items, 4) == f;
    assert Selected(mask, items, 3) == d + f;
    assert Selected(mask, items, 2) == c + (d + f);
    assert Selected(mask, items, 1) == b + (c + (d + f));
    assert Selected(mask, items, 0) == a + (b + (c + (d + f)));
    assert FieldErrors(form) == a + b + c + d + f;
  }

  /**
   * The field errors are exactly one per blank field, in field order: the
   * j-th error is the error of the j-th blank field.
   */
  lemma FieldErrorsInFieldOrder(form: Form)
    ensures var blank := Marked(BlankMask(form), 0);
      && |FieldErrors(form)| == |blank|
      && (forall j :: 0 <= j < |blank| ==> FieldErrors(form)[j] == FieldErrorItems[blank[j]])
  {
    FieldErrorsUnfold(form);
    SelectedAtMarked(BlankMask(form), FieldErrorItems, 0);
  }

  /** A field's key is among the errors exactly when the field is blank. */
  lemma FieldErrorKeys(form: Form)
    ensures forall i :: 0 <= i < 5 ==> (FieldErrorItems[i].key in Keys(FieldErrors(form)) <==> BlankMask(form)[i])
  {
    FieldErrorsInFieldOrder(form);
    FieldKeysDistinct();
    KeysFollowMarked(BlankMask(form), FieldErrorItems, FieldErrors(form));
  }

  /** Each field has its own key. */
  lemma FieldKeysDistinct()
    ensures forall i, k :: 0 <= i < 5 && 0 <= k < 5 && FieldErrorItems[i].key == FieldErrorItems[k].key ==> i == k
  {
    var n := FieldErrorItems;
    assert |n[0].key| == 16 && |n[1].key| == 9 && |n[2].key| == 11 && |n[3].key| == 8 && |n[4].key| == 16;
    assert n[0].key[8] == 'T' && n[4].key[8] == 'D';
  }

  /** Items that follow the marked positions one by one carry exactly the marked positions' keys. */
  lemma KeysFollowMarked(mask: seq<bool>, items: seq<KeyValueItem>, e: seq<KeyValueItem>)
    requires |items| == |mask|
    requires forall i, k :: 0 <= i < |items| && 0 <= k < |items| && items[i].key == items[k].key ==> i == k
    requires |e| == |Marked(mask, 0)|
    requires forall j :: 0 <= j < |e| ==> e[j] == items[Marked(mask, 0)[j]]
    ensures forall i :: 0 <= i < |mask| ==> (items[i].key in Keys(e) <==> mask[i])
  {
    forall i | 0 <= i < |mask|
      ensures items[i].key in Keys(e) <==> mask[i]
    {
      if items[i].key in Keys(e) {
        KeyMeansMarked(mask, items, e, i);
      }
      if mask[i] {
        MarkedMeansKey(mask, items, e, i);
      }
    }
  }

  lemma KeyMeansMarked(mask: seq<bool>, items: seq<KeyValueItem>, e: seq<KeyValueItem>, i: nat)
    requires |items| == |mask| && i < |mask|
    requires forall i, k :: 0 <= i < |items| && 0 <= k < |items| && items[i].key == items[k].key ==> i == k
    requires |e| == |Marked(mask, 0)|
    requires forall j :: 0 <= j < |e| ==> e[j] == items[Marked(mask, 0)[j]]
    requires items[i].key in Keys(e)
    ensures mask[i]
  {
    var b := Marked(mask, 0);
    var ks := Keys(e);
    var j :| 0 <= j < |ks| && ks[j] == items[i].key;
    var k := b[j];
    assert mask[k];
    assert items[k].key == items[i].key by {
      assert ks[j] == e[j].key && e[j] == items[k];
    }
    assert k == i;
  }

  lemma MarkedMeansKey(mask: seq<bool>, items: seq<KeyValueItem>, e: seq<KeyValueItem>, i: nat)
    requires |items| == |mask| && i < |mask|
    requires |e| == |Marked(mask, 0)|
    requires forall j :: 0 <= j < |e| ==> e[j] == items[Marked(mask, 0)[j]]
    requires mask[i]
    ensures items[i].key in Keys(e)
  {
    var b := Marked(mask, 0);
    var j :| 0 <= j < |b| && b[j] == i;
    assert Keys(e)[j] == items[i].key;
  }

  // ---------------------------------------------------------------------------
  // Placeholders and output paths

  /** The placeholders every template must contain. */
  const RequiredParameters: seq<string> := ["{JOB SOURCE}", "{COMPANY NAME}", "{FIRST NAME}", "{LAST NAME}"]

  /** Every required placeholder occurs in the body's inner text. */
  predicate AllParametersFound(innerText: string) {
    forall i :: 0 <= i < |RequiredParameters| ==> Contains(innerText, RequiredParameters[i])
  }

  /** The values substituted for the placeholders, in dictionary order. */
  function Parameters(settings: AppSettings, form: Form): (m: ParameterMap)
    ensures ValidParameterMap(m)
    ensures |m| == 4 && forall i :: 0 <= i < 4 ==> m[i].key == RequiredParameters[i]
  {
    [Parameter("{JOB SOURCE}", form.jobSource), Parameter("{COMPANY NAME}", form.companyName),
     Parameter("{FIRST NAME}", settings.firstName), Parameter("{LAST NAME}", settings.lastName)]
  }

  function TemplateDocumentPath(settings: AppSettings, form: Form): string {
    Combine(Combine(settings.templatesPath, form.selectedTemplate), form.selectedDocument)
  }

  /** OutputPath/CompanyName/JobTitle. */
  function OutputDirPath(settings: AppSettings, form: Form): string {
    Combine3(settings.outputPath, form.companyName, form.jobTitle)
  }

  function OutputFileName(settings: AppSettings): string {
    settings.firstName + " " + settings.lastName + " Cover Letter.docx"
  }

  function OutputFilePath(settings: AppSettings, form: Form): string {
    Combine(OutputDirPath(settings, form), OutputFileName(settings))
  }

  /** A path segment that `Path.Combine` joins with exactly one separator on either side. */
  predicate PlainSegment(s: string) {
    |s| > 0 && !IsRooted(s) && !EndsInSeparator(s)
  }

  /**
   * With plain company and job-title segments, the letter goes to
   * OutputPath/CompanyName/JobTitle/"First Last Cover Letter.docx", and when
   * the names hold no separator the file name reported in messages is
   * exactly "First Last Cover Letter.docx". (A rooted company name or job
   * title would discard the output directory: `Path.Combine` keeps only the
   * last rooted part.)
   */
  lemma OutputFileLayout(settings: AppSettings, form: Form)
    requires |settings.outputPath| > 0 && !EndsInSeparator(settings.outputPath)
    requires PlainSegment(form.companyName) && PlainSegment(form.jobTitle)
    ensures OutputDirPath(settings, form) == settings.outputPath + "/" + form.companyName + "/" + form.jobTitle
    ensures Separator !in settings.firstName + settings.lastName ==>
      && OutputFilePath(settings, form) == OutputDirPath(settings, form) + "/" + OutputFileName(settings)
      && GetFileName(OutputFilePath(settings, form)) == OutputFileName(settings)
  {
    var out, company, title := settings.outputPath, form.companyName, form.jobTitle;
    Combine3IsNested(out, company, title);
    var oc := out + "/" + company;
    assert Combine(out, company) == oc;
    assert oc[|oc| - 1] == company[|company| - 1];
    var dir := oc + "/" + title;
    assert OutputDirPath(settings, form) == dir;
    assert dir[|dir| - 1] == title[|title| - 1];
    var name := OutputFileName(settings);
    if Separator !in settings.firstName + settings.lastName {
      assert Separator !in name by {
        var tail := " Cover Letter.docx";
        assert name == settings.firstName + " " + settings.lastName + tail;
        assert Separator !in tail;
        forall i | 0 <= i < |name| ensures name[i] != Separator {
          if i < |settings.firstName| {
            assert name[i] == (settings.firstName + settings.lastName)[i];
          } else if i == |settings.firstName| {
          } else if i < |settings.firstName| + 1 + |settings.lastName| {
            assert name[i] == (settings.firstName + settings.lastName)[i - 1];
          } else {
            assert name[i] == tail[i - |settings.firstName| - 1 - |settings.lastName|];
          }
        }
      }
      assert name[0] in name;
      assert OutputFilePath(settings, form) == dir + "/" + name;
      FileNameOfCombine(dir, name);
    }
  }

  // ---------------------------------------------------------------------------
  // The generation routine as a function of its inputs

  const ReadFailure: KeyValueItem := KeyValueItem("DocumentContents", "Failed to read document. Please make sure it is not open in another process.")

  function MissingParameters(): KeyValueItem {
    KeyValueItem("DocumentContents", "Document missing parameters. Required parameters are " + Join(RequiredParameters, ", "))
  }

  function OutputFileExists(dir: string, file: string): KeyValueItem {
    KeyValueItem("OutputFile", "Output file " + GetFileName(file) + " already exists at " + dir + ".")
  }

  function OutputDirExists(dir: string, file: string): KeyValueItem {
    KeyValueItem("OutputDir", "Output directory " + GetFileName(file) + " already exists at " + dir + ".")
  }

  function OutputDirFailed(dir: string): KeyValueItem {
    KeyValueItem("OutputDir", "Failed to create output directory specified at " + dir)
  }

  function SuccessMessage(file: string): string {
    "Generated letter successfuly in " + file
  }

  /** The calls the routine makes on the outside world, in order, whether or not they succeed. */
  datatype Effect =
    | OpenTemplate(path: string)
    | MakeOutputDirectory(path: string)
    | CopyTemplate(source: string, target: string)
    | SaveDocument(path: string)

  /** The errors and warnings it reports, its effects, the file system afterwards and the success message. */
  datatype Generation = Generation(
    errors: seq<KeyValueItem>, warnings: seq<KeyValueItem>, effects: seq<Effect>, fs: FileSystem, message: Option<string>)

  /** Validation first, then the template. */
  function Generate(settings: AppSettings, form: Form, fs: FileSystem): Generation {
    if AnySettingBlank(settings) then Generation([SettingsMissing], [], [], fs, None)
    else if FieldErrors(form) != [] then Generation(FieldErrors(form), [], [], fs, None)
    else ReadTemplate(settings, form, fs)
  }

  /** The template is opened read-only and its inner text checked for the placeholders. */
  function ReadTemplate(settings: AppSettings, form: Form, fs: FileSystem): Generation {
    var doc := TemplateDocumentPath(settings, form);
    match OpenBody(fs, doc)
    case None => Generation([ReadFailure], [], [OpenTemplate(doc)], fs, None)
    case Some(body) =>
      if !AllParametersFound(InnerText(body)) then Generation([MissingParameters()], [], [OpenTemplate(doc)], fs, None)
      else
        var placed := PlaceLetter(settings, form, fs, body);
        placed.(effects := [OpenTemplate(doc)] + placed.effects)
  }

  /**
   * The output file must not exist yet; an existing output directory is
   * only a warning. The directory is created, the template copied there and
   * the copy's paragraphs rewritten. A copy or a save that throws ends in
   * the routine's outer handler, with the read failure reported and what was
   * already done left in place.
   */
  function PlaceLetter(settings: AppSettings, form: Form, fs: FileSystem, body: Body): Generation {
    var doc := TemplateDocumentPath(settings, form);
    var dir := OutputDirPath(settings, form);
    var file := OutputFilePath(settings, form);
    if DirectoryExists(fs, dir) && FileExists(fs, file) then
      Generation([OutputFileExists(dir, file)], [], [], fs, None)
    else
      var warnings := if DirectoryExists(fs, dir) then [OutputDirExists(dir, file)] else [];
      if CreationFails(fs, dir) then
        Generation([OutputDirFailed(dir)], warnings, [MakeOutputDirectory(dir)], fs, None)
      else
        var filled := FillLetter(settings, form, CreateDirectory(fs, dir), body);
        filled.(warnings := warnings, effects := [MakeOutputDirectory(dir)] + filled.effects)
  }

  /** Once the output directory exists: the copy, the rewrite of its paragraphs and the save. */
  function FillLetter(settings: AppSettings, form: Form, fs: FileSystem, body: Body): Generation
    requires DirectoryExists(fs, OutputDirPath(settings, form))
  {
    var doc := TemplateDocumentPath(settings, form);
    var dir := OutputDirPath(settings, form);
    var file := OutputFilePath(settings, form);
    if CopyFails(fs, file) then
      Generation([ReadFailure], [], [CopyTemplate(doc, file)], fs, None)
    else if SaveFails(fs, file) then
      Generation([ReadFailure], [], [CopyTemplate(doc, file), SaveDocument(file)], WriteFile(fs, dir, file, Package(Some(body))), None)
    else
      var letter := Package(Some(RewriteBody(body, Parameters(settings, form))));
      Generation([], [], [CopyTemplate(doc, file), SaveDocument(file)], WriteFile(fs, dir, file, letter), Some(SuccessMessage(file)))
  }

  /** The generation gets past validation: all settings and all form fields are filled in. */
  predicate Validated(settings: AppSettings, form: Form) {
    !AnySettingBlank(settings) && FieldErrors(form) == []
  }

  /** Once validation passes and the template is accepted, the outcome is the placement's, after the open. */
  lemma GenerateReachesPlacement(settings: AppSettings, form: Form, fs: FileSystem, body: Body)
    requires Validated(settings, form)
    requires OpenBody(fs, TemplateDocumentPath(settings, form)) == Some(body)
    requires AllParametersFound(InnerText(body))
    ensures var placed := PlaceLetter(settings, form, fs, body);
      Generate(settings, form, fs) == placed.(effects := [OpenTemplate(TemplateDocumentPath(settings, form))] + placed.effects)
  {
    assert Generate(settings, form, fs) == ReadTemplate(settings, form, fs);
  }

  /** The placement reports only output-path errors and the outer handler's read failure. */
  lemma PlacementErrors(settings: AppSettings, form: Form, fs: FileSystem, body: Body)
    ensures forall e :: e in PlaceLetter(settings, form, fs, body).errors ==>
      e.key == "OutputFile" || e.key == "OutputDir" || e == ReadFailure
  {
  }

  /** The placeholder error never comes from the placement. */
  lemma MissingParametersNotPlaced(settings: AppSettings, form: Form, fs: FileSystem, body: Body)
    ensures MissingParameters() !in PlaceLetter(settings, form, fs, body).errors
  {
    PlacementErrors(settings, form, fs, body);
    var m := MissingParameters();
    assert |m.key| == 16;
    // The two DocumentContents messages differ in length: 76 characters against at least 83.
    var lead := "Document missing parameters. Required parameters are ";
    var tail := RequiredParameters[1..];
    assert m.value == lead + Join(RequiredParameters, ", ");
    assert Join(RequiredParameters, ", ") == RequiredParameters[0] + ", " + Join(tail, ", ");
    assert Join(tail, ", ") == tail[0] + ", " + Join(tail[1..], ", ");
    assert |m.value| >= 83 && |ReadFailure.value| == 76;
  }

  /**
   * Validation comes before anything else: the routine touches nothing
   * exactly when a setting or a form field is blank; a blank setting gives
   * the single settings error, otherwise every form field is checked and
   * each blank one reported.
   */
  lemma ValidationComesFirst(settings: AppSettings, form: Form, fs: FileSystem)
    ensures var o := Generate(settings, form, fs);
      && (o.effects == [] <==> !Validated(settings, form))
      && (AnySettingBlank(settings) ==> o.errors == [SettingsMissing])
      && (!AnySettingBlank(settings) && FieldErrors(form) != [] ==> o.errors == FieldErrors(form))
      && (!Validated(settings, form) ==> o.fs == fs && o.warnings == [] && o.message == None)
  {
    if Validated(settings, form) {
      var o := ReadTemplate(settings, form, fs);
      assert Generate(settings, form, fs) == o;
      assert o.effects != [] by {
        match OpenBody(fs, TemplateDocumentPath(settings, form))
        case None =>
        case Some(body) =>
          if AllParametersFound(InnerText(body)) {
            assert o.effects[0] == OpenTemplate(TemplateDocumentPath(settings, form));
          }
      }
    }
  }

  /**
   * After validation, the template is accepted exactly when its body's text
   * holds all four placeholders; otherwise the single DocumentContents
   * error is reported and nothing but the read-only open has happened.
   */
  lemma PlaceholderCheck(settings: AppSettings, form: Form, fs: FileSystem, body: Body)
    requires Validated(settings, form)
    requires OpenBody(fs, TemplateDocumentPath(settings, form)) == Some(body)
    ensures var o := Generate(settings, form, fs);
      && (o.errors == [MissingParameters()] <==> !AllParametersFound(InnerText(body)))
      && (!AllParametersFound(InnerText(body)) ==>
            o.fs == fs && o.warnings == [] && o.effects == [OpenTemplate(TemplateDocumentPath(settings, form))])
  {
    var o := Generate(settings, form, fs);
    assert o == ReadTemplate(settings, form, fs);
    if AllParametersFound(InnerText(body)) {
      GenerateReachesPlacement(settings, form, fs, body);
      MissingParametersNotPlaced(settings, form, fs, body);
    }
  }

  /**
   * The output-path policy once the template is accepted: an existing output
   * file is the single OutputFile error and nothing is copied; an existing
   * directory alone is exactly one OutputDir warning; a missing directory
   * gives no warning. The letter is then written unless the directory cannot
   * be created, the copy fails or the save fails.
   */
  lemma OutputPolicy(settings: AppSettings, form: Form, fs: FileSystem, body: Body)
    requires Validated(settings, form)
    requires OpenBody(fs, TemplateDocumentPath(settings, form)) == Some(body)
    requires AllParametersFound(InnerText(body))
    ensures var o := Generate(settings, form, fs);
      var dir, file := OutputDirPath(settings, form), OutputFilePath(settings, form);
      && (DirectoryExists(fs, dir) && FileExists(fs, file) ==>
            o.errors == [OutputFileExists(dir, file)] && o.warnings == [] && o.fs == fs
            && CopyTemplate(TemplateDocumentPath(settings, form), file) !in o.effects)
      && (DirectoryExists(fs, dir) && !FileExists(fs, file) ==>
            && o.warnings == [OutputDirExists(dir, file)]
            && (o.errors == [] <==> !CopyFails(fs, file) && !SaveFails(fs, file)))
      && (!DirectoryExists(fs, dir) ==>
            && o.warnings == []
            && (o.errors == [] <==> !CreationFails(fs, dir) && !CopyFails(fs, file) && !SaveFails(fs, file)))
      && (o.errors == [] ==> o.message == Some(SuccessMessage(file)))
  {
    GenerateReachesPlacement(settings, form, fs, body);
    PlacementPolicy(settings, form, fs, body);
  }

  lemma PlacementPolicy(settings: AppSettings, form: Form, fs: FileSystem, body: Body)
    ensures var o := PlaceLetter(settings, form, fs, body);
      var dir, file := OutputDirPath(settings, form), OutputFilePath(settings, form);
      && (DirectoryExists(fs, dir) && FileExists(fs, file) ==>
            o.errors == [OutputFileExists(dir, file)] && o.warnings == [] && o.fs == fs && o.effects == [])
      && (DirectoryExists(fs, dir) && !FileExists(fs, file) ==>
            && o.warnings == [OutputDirExists(dir, file)]
            && (o.errors == [] <==> !CopyFails(fs, file) && !SaveFails(fs, file)))
      && (!DirectoryExists(fs, dir) ==>
            && o.warnings == []
            && (o.errors == [] <==> !CreationFails(fs, dir) && !CopyFails(fs, file) && !SaveFails(fs, file)))
      && (o.errors == [] ==> o.message == Some(SuccessMessage(file)))
  {
    var dir := OutputDirPath(settings, form);
    if !(DirectoryExists(fs, dir) && FileExists(fs, OutputFilePath(settings, form))) && !CreationFails(fs, dir) {
      FillOutcome(settings, form, CreateDirectory(fs, dir), body);
    }
  }

  lemma FillOutcome(settings: AppSettings, form: Form, fs: FileSystem, body: Body)
    requires DirectoryExists(fs, OutputDirPath(settings, form))
    ensures var o, file := FillLetter(settings, form, fs, body), OutputFilePath(settings, form);
      && (o.errors == [] <==> !CopyFails(fs, file) && !SaveFails(fs, file))
      && (o.errors == [] ==> o.message == Some(SuccessMessage(file)))
  {
  }

  /**
   * A valid request with a template holding every placeholder, no file at
   * the output path, a creatable directory and a copy and a save that
   * succeed writes the letter: the
   * directory exists afterwards and the file there is the template with
   * every paragraph rewritten.
   */
  lemma GenerationSucceeds(settings: AppSettings, form: Form, fs: FileSystem, body: Body)
    requires Validated(settings, form)
    requires OpenBody(fs, TemplateDocumentPath(settings, form)) == Some(body)
    requires AllParametersFound(InnerText(body))
    requires !FileExists(fs, OutputFilePath(settings, form))
    requires !CreationFails(fs, OutputDirPath(settings, form))
    requires !CopyFails(fs, OutputFilePath(settings, form)) && !SaveFails(fs, OutputFilePath(settings, form))
    ensures var o := Generate(settings, form, fs);
      var file := OutputFilePath(settings, form);
      && o.errors == []
      && DirectoryExists(o.fs, OutputDirPath(settings, form))
      && FileExists(o.fs, file)
      && o.fs.files[file] == Package(Some(RewriteBody(body, Parameters(settings, form))))
      && o.message == Some(SuccessMessage(file))
  {
    GenerateReachesPlacement(settings, form, fs, body);
  }

  /**
   * What an outcome leaves behind. Without errors the letter has been
   * copied and saved and every other file is as it was. An error before the
   * copy leaves the file system untouched. A copy that throws leaves the
   * created output directory; a save that throws leaves, in addition, the
   * unfilled copy of the template at the output path. Both report the read
   * failure.
   */
  lemma FailureAftermath(settings: AppSettings, form: Form, fs: FileSystem)
    ensures var o := Generate(settings, form, fs);
      var doc, dir, file := TemplateDocumentPath(settings, form), OutputDirPath(settings, form), OutputFilePath(settings, form);
      && (o.errors == [] <==> o.message.Some?)
      && (o.errors == [] ==>
            && SaveDocument(file) in o.effects
            && (forall f :: f != file ==> (FileExists(o.fs, f) <==> FileExists(fs, f)))
            && (forall f :: f != file && FileExists(fs, f) ==> o.fs.files[f] == fs.files[f]))
      && (o.errors != [] && CopyTemplate(doc, file) !in o.effects ==> o.fs == fs)
      && (o.errors != [] && CopyTemplate(doc, file) in o.effects ==>
            && o.errors == [ReadFailure]
            && DirectoryExists(o.fs, dir)
            && FileExists(fs, doc)
            && o.fs.files == (if SaveDocument(file) in o.effects then fs.files[file := fs.files[doc]] else fs.files))
  {
    if Validated(settings, form) {
      var doc := TemplateDocumentPath(settings, form);
      assert Generate(settings, form, fs) == ReadTemplate(settings, form, fs);
      match OpenBody(fs, doc)
      case None =>
      case Some(body) =>
        if AllParametersFound(InnerText(body)) {
          GenerateReachesPlacement(settings, form, fs, body);
          PlacementAftermath(settings, form, fs, body);
        }
    }
  }

  lemma PlacementAftermath(settings: AppSettings, form: Form, fs: FileSystem, body: Body)
    requires OpenBody(fs, TemplateDocumentPath(settings, form)) == Some(body)
    ensures var o := PlaceLetter(settings, form, fs, body);
      var doc, dir, file := TemplateDocumentPath(settings, form), OutputDirPath(settings, form), OutputFilePath(settings, form);
      && (o.errors == [] <==> o.message.Some?)
      && (o.errors == [] ==>
            && SaveDocument(file) in o.effects
            && (forall f :: f != file ==> (FileExists(o.fs, f) <==> FileExists(fs, f)))
            && (forall f :: f != file && FileExists(fs, f) ==> o.fs.files[f] == fs.files[f]))
      && (o.errors != [] && CopyTemplate(doc, file) !in o.effects ==> o.fs == fs)
      && (o.errors != [] && CopyTemplate(doc, file) in o.effects ==>
            && o.errors == [ReadFailure]
            && DirectoryExists(o.fs, dir)
            && FileExists(fs, doc)
            && o.fs.files == (if SaveDocument(file) in o.effects then fs.files[file := fs.files[doc]] else fs.files))
  {
  }

  /**
   * A save that throws blocks the next attempt: the unfilled copy it left at
   * the output path makes the same request fail with the OutputFile error.
   */
  lemma FailedSaveBlocksRetry(settings: AppSettings, form: Form, fs: FileSystem, body: Body)
    requires Validated(settings, form)
    requires OpenBody(fs, TemplateDocumentPath(settings, form)) == Some(body)
    requires AllParametersFound(InnerText(body))
    requires !FileExists(fs, OutputFilePath(settings, form))
    requires !CreationFails(fs, OutputDirPath(settings, form))
    requires !CopyFails(fs, OutputFilePath(settings, form)) && SaveFails(fs, OutputFilePath(settings, form))
    requires TemplateDocumentPath(settings, form) != OutputFilePath(settings, form)
    ensures var o := Generate(settings, form, fs);
      && o.errors == [ReadFailure]
      && Generate(settings, form, o.fs).errors == [OutputFileExists(OutputDirPath(settings, form), OutputFilePath(settings, form))]
  {
    var doc, dir, file := TemplateDocumentPath(settings, form), OutputDirPath(settings, form), OutputFilePath(settings, form);
    var created := CreateDirectory(fs, dir);
    var left := WriteFile(created, dir, file, Package(Some(body)));
    assert FillLetter(settings, form, created, body).fs == left;
    GenerateReachesPlacement(settings, form, fs, body);
    assert Generate(settings, form, fs).fs == left;
    assert left.files[doc] == fs.files[doc] && left.locked == fs.locked;
    assert OpenBody(left, doc) == Some(body);
    assert DirectoryExists(left, dir) && FileExists(left, file);
    GenerateReachesPlacement(settings, form, left, body);
  }

  /**
   * Detection looks at the body's joined text, substitution at each
   * paragraph: a placeholder split over two paragraphs passes the check, yet
   * neither paragraph is rewritten, so the letter keeps the placeholder's
   * two halves.
   */
  lemma SplitPlaceholderSurvives(p1: Paragraph, p2: Paragraph, rest: Body, settings: AppSettings, form: Form)
    requires ParagraphText(p1) == "{JOB SO" && ParagraphText(p2) == "URCE}"
    ensures Contains(InnerText([p1, p2] + rest), "{JOB SOURCE}")
    ensures var rewritten := RewriteBody([p1, p2] + rest, Parameters(settings, form));
      rewritten[0] == p1 && rewritten[1] == p2
  {
    var body := [p1, p2] + rest;
    assert body[1..] == [p2] + rest && body[1..][1..] == rest;
    assert InnerText(body) == "{JOB SO" + ("URCE}" + InnerText(rest));
    assert "{JOB SO" + ("URCE}" + InnerText(rest)) == "{JOB SOURCE}" + InnerText(rest);
    assert StartsWith("{JOB SOURCE}" + InnerText(rest), "{JOB SOURCE}");
    var m := Parameters(settings, form);
    forall i | 0 <= i < |m| ensures !Contains(ParagraphText(p1), m[i].key) && !Contains(ParagraphText(p2), m[i].key) {
      assert |m[i].key| >= 11;
      if Contains(ParagraphText(p1), m[i].key) {
        ContainsShorter(ParagraphText(p1), m[i].key);
      }
      if Contains(ParagraphText(p2), m[i].key) {
        ContainsShorter(ParagraphText(p2), m[i].key);
      }
    }
    RewriteUntouched(p1, m);
    RewriteUntouched(p2, m);
  }

  // ---------------------------------------------------------------------------
  // The view model

  class GenerateCoverLetterViewModel {
    var selectedTemplate: string
    var jobSource: string
    var companyName: string
    var jobTitle: string
    var selectedDocument: string
    var templateDocuments: seq<string>
    var errors: seq<KeyValueItem>
    var warnings: seq<KeyValueItem>
    var generateSuccessfulMessage: string

    function CurrentForm(): Form
      reads this`selectedTemplate, this`jobSource, this`companyName, this`jobTitle, this`selectedDocument
    {
      Form(selectedTemplate, jobSource, companyName, jobTitle, selectedDocument)
    }

    constructor ()
      ensures CurrentForm() == Form("", "", "", "", "")
      ensures templateDocuments == [] && errors == [] && warnings == [] && generateSuccessfulMessage == ""
    {
      selectedTemplate, jobSource, companyName, jobTitle, selectedDocument := "", "", "", "", "";
      templateDocuments, errors, warnings, generateSuccessfulMessage := [], [], [], "";
    }

    /**
     * Lists the template documents of the selected template's directory by
     * file name. A missing directory makes `Directory.GetFiles` throw out of
     * the method (`ok` is false), after both lists were cleared.
     */
    method LoadDocuments(settings: AppSettings, fs: FileSystem) returns (ok: bool)
      modifies this
      ensures errors == []
      ensures var dir := Combine(settings.templatesPath, selectedTemplate);
        && ok == DirectoryExists(fs, dir)
        && templateDocuments == (if ok then FileNames(TemplateDocuments(fs.dirs[dir])) else [])
      ensures CurrentForm() == old(CurrentForm())
      ensures warnings == old(warnings) && generateSuccessfulMessage == old(generateSuccessfulMessage)
    {
      errors := [];
      templateDocuments := [];
      var selectedTemplatePath := Combine(settings.templatesPath, selectedTemplate);
      if selectedTemplatePath !in fs.dirs {
        return false;
      }
      var docs := TemplateDocuments(fs.dirs[selectedTemplatePath]);
      var names := [];
      for i := 0 to |docs|
        invariant names == FileNames(docs[..i])
      {
        names := names + [GetFileName(docs[i])];
      }
      assert docs[..|docs|] == docs;
      templateDocuments := names;
      return true;
    }

    /** Selecting a different template reloads its documents and clears the success message. */
    method SetSelectedTemplate(value: string, settings: AppSettings, fs: FileSystem) returns (ok: bool)
      modifies this
      ensures selectedTemplate == value
      ensures old(selectedTemplate) == value ==>
        && ok && templateDocuments == old(templateDocuments) && errors == old(errors)
        && generateSuccessfulMessage == old(generateSuccessfulMessage)
      ensures old(selectedTemplate) != value ==>
        var dir := Combine(settings.templatesPath, value);
        && errors == []
        && ok == DirectoryExists(fs, dir)
        && templateDocuments == (if ok then FileNames(TemplateDocuments(fs.dirs[dir])) else [])
        && generateSuccessfulMessage == (if ok then "" else old(generateSuccessfulMessage))
      ensures jobSource == old(jobSource) && companyName == old(companyName) && jobTitle == old(jobTitle)
      ensures selectedDocument == old(selectedDocument) && warnings == old(warnings)
    {
      if value == selectedTemplate {
        return true;
      }
      selectedTemplate := value;
      ok := LoadDocuments(settings, fs);
      if ok {
        generateSuccessfulMessage := "";
      }
    }

    /**
     * The generation routine. Errors are cleared first, Warnings are not:
     * new warnings are appended to those of earlier runs. The success
     * message is set only on success and otherwise keeps its old value.
     */
    method GenerateCoverLetter(settings: AppSettings, fs: FileSystem) returns (fs': FileSystem, effects: seq<Effect>)
      modifies this
      ensures var o := Generate(settings, old(CurrentForm()), fs);
        && errors == o.errors
        && warnings == old(warnings) + o.warnings
        && fs' == o.fs
        && effects == o.effects
        && generateSuccessfulMessage == (if o.message.Some? then o.message.value else old(generateSuccessfulMessage))
      ensures CurrentForm() == old(CurrentForm()) && templateDocuments == old(templateDocuments)
    {
      var form := CurrentForm();
      errors := [];
      fs', effects := fs, [];
      if AnySettingBlank(settings) {
        errors := [SettingsMissing];
        return;
      }
      // Each blank form field adds its error, in field order.
      errors := FieldErrors(form);
      if |errors| > 0 {
        return;
      }
      assert Generate(settings, form, fs) == ReadTemplate(settings, form, fs);

      var templateDocPath := TemplateDocumentPath(settings, form);
      effects := [OpenTemplate(templateDocPath)];
      var template := OpenBody(fs, templateDocPath);
      if template.None? {
        errors := [ReadFailure];
        return;
      }
      var body := template.value;
      if !AllParametersFound(InnerText(body)) {
        errors := [MissingParameters()];
        return;
      }
      var placed;
      fs', placed := WriteLetter(settings, fs, body);
      effects := effects + placed;
    }

    /**
     * The rest of the routine once the template is accepted: the collision
     * checks on the output path, the directory, the copy, the paragraph
     * rewrite and the save.
     */
    method WriteLetter(settings: AppSettings, fs: FileSystem, body: Body) returns (fs': FileSystem, effects: seq<Effect>)
      requires errors == []
      requires OpenBody(fs, TemplateDocumentPath(settings, CurrentForm())) == Some(body)
      modifies this
      ensures var o := PlaceLetter(settings, old(CurrentForm()), fs, body);
        && errors == o.errors
        && warnings == old(warnings) + o.warnings
        && fs' == o.fs
        && effects == o.effects
        && generateSuccessfulMessage == (if o.message.Some? then o.message.value else old(generateSuccessfulMessage))
      ensures CurrentForm() == old(CurrentForm()) && templateDocuments == old(templateDocuments)
    {
      var form := CurrentForm();
      fs', effects := fs, [];
      var templateDocPath := TemplateDocumentPath(settings, form);
      var outputDirPath := OutputDirPath(settings, form);
      var outputFilePath := OutputFilePath(settings, form);
      if DirectoryExists(fs, outputDirPath) && FileExists(fs, outputFilePath) {
        errors := [OutputFileExists(outputDirPath, outputFilePath)];
        return;
      } else if DirectoryExists(fs, outputDirPath) {
        warnings := warnings + [OutputDirExists(outputDirPath, outputFilePath)];
      }

      effects := [MakeOutputDirectory(outputDirPath)];
      if CreationFails(fs, outputDirPath) {
        errors := [OutputDirFailed(outputDirPath)];
        return;
      }
      fs' := CreateDirectory(fs, outputDirPath);
      var filled;
      fs', filled := FillCopy(settings, fs', body);
      effects := effects + filled;
    }

    /** The copy, the paragraph rewrite and the save, inside the existing output directory. */
    method FillCopy(settings: AppSettings, fs: FileSystem, body: Body) returns (fs': FileSystem, effects: seq<Effect>)
      requires errors == []
      requires DirectoryExists(fs, OutputDirPath(settings, CurrentForm()))
      modifies this`errors, this`generateSuccessfulMessage
      ensures var o := FillLetter(settings, CurrentForm(), fs, body);
        && errors == o.errors
        && fs' == o.fs
        && effects == o.effects
        && generateSuccessfulMessage == (if o.message.Some? then o.message.value else old(generateSuccessfulMessage))
    {
      var form := CurrentForm();
      var templateDocPath := TemplateDocumentPath(settings, form);
      var outputDirPath := OutputDirPath(settings, form);
      var outputFilePath := OutputFilePath(settings, form);

      // The copy holds the template's package, which is then reopened for writing.
      fs', effects := fs, [CopyTemplate(templateDocPath, outputFilePath)];
      if CopyFails(fs, outputFilePath) {
        errors := [ReadFailure];
        return;
      }
      fs' := WriteFile(fs, outputDirPath, outputFilePath, Package(Some(body)));

      var parameterMap := Parameters(settings, form);
      var rewritten := RewriteDocument(body, parameterMap);
      assert rewritten == RewriteBody(body, parameterMap);
      effects := effects + [SaveDocument(outputFilePath)];
      if SaveFails(fs, outputFilePath) {
        errors := [ReadFailure];
        return;
      }
      WriteFileTwice(fs, outputDirPath, outputFilePath, Package(Some(body)), Package(Some(rewritten)));
      fs' := WriteFile(fs', outputDirPath, outputFilePath, Package(Some(rewritten)));
      generateSuccessfulMessage := SuccessMessage(outputFilePath);
    }
  }
}
