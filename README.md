# Cover-letter generator: a Dafny model of its two view models

The application fills a Word template with a job application's details. Two
screens carry its logic, and this project models both of them.

The **generation screen** (`GenerateCoverLetterViewModel`) does the following:
- It lists the files of the chosen template directory whose names end in `docx` or `dotx` (no dot is required before the suffix).
- When asked to generate, it first checks that all four settings are filled in; a blank setting is the single Settings error and ends the routine. Otherwise it checks the five form fields and reports every blank one.
- It opens the template read-only and requires the four placeholders `{JOB SOURCE}`, `{COMPANY NAME}`, `{FIRST NAME}` and `{LAST NAME}` in the body's joined text.
- It computes `OutputPath/CompanyName/JobTitle/"First Last Cover Letter.docx"`.
- It refuses an existing output file. An existing output directory is only a warning.
- It creates the directory and copies the template there. A copy or a save that throws is reported as the read failure, and what was already done stays on disk.
- It rewrites the copy paragraph by paragraph. In each paragraph, the texts are joined and every placeholder is replaced in dictionary order. A paragraph where something was replaced is collapsed into one run, which carries the first run's formatting.

The **settings screen** (`SettingsViewModel`) validates the four settings in a fixed order and collects every error:
- The templates path must be filled in, absolute, well-formed and existing.
- The output path must be filled in, absolute and well-formed.
- Both names must be filled in.

A missing output directory is a warning. It triggers a confirmation dialog, and the directory is created only on a "yes". Only then are the settings stored and reloaded.

## Structure

| file | module | contents |
|---|---|---|
| common.dfy | `Wrappers`, `Lists` | `Option` (a nullable reference); order-preserving subsequences |
| models.dfy | `Models` | the `KeyValueItem` entries of the Errors/Warnings lists; the four settings `AppSettings`; selecting entries by key |
| text.dfy | `Text` | these .NET string operations, compared ordinally: `IsNullOrWhiteSpace`, `Contains`, `Replace`, `EndsWith`, `Concat`, `Join` |
| paths.dfy | `Paths` | `Path.Combine` (two and three parts), `GetFileName` and `IsPathFullyQualified` on a Unix host |
| documents.dfy | `Documents` | body, paragraphs, runs and formatting; the substitution loop; the in-place paragraph rewrite over an array |
| disk.dfy | `Disk` | the file system as a value, with the failures the program cannot control given as data |
| cover_letter.dfy | `CoverLetter` | the generation routine as the function `Generate`; its properties; the view-model class |
| settings.dfy | `Settings` | the save routine as the function `Save`; its properties; the view-model class |

Each view model is a `class` whose methods update its fields step by step, as the source does:
- `GenerateCoverLetter` and `SaveSettings` are each proved to leave exactly the state that a pure function of the old state and the inputs describes: `Generate` and `Save` respectively.
- The lemmas state the source's promises about those functions.

The file system, the dialog's answer and the settings store are inputs and outputs:
- The OS state is a `FileSystem` value, passed in and returned.
- The dialog's answer is a `confirmed` parameter.
- The settings service's stored record is the `stored` field.
- What the routines do to the outside world is returned as an ordered list of effects.

## Model

| member | source | states |
|---|---|---|
| Text.ContainsIffOccurs | ViewModels/GenerateCoverLetterViewModel.cs:199 | `Contains(s, t)` holds exactly when `t` occurs at some position of `s` |
| Text.ContainsInConcat | ViewModels/GenerateCoverLetterViewModel.cs:197-199 | text found in either part is found in their concatenation |
| Text.ReplaceAbsent | ViewModels/GenerateCoverLetterViewModel.cs:266-268 | replacing a key that does not occur leaves the string unchanged |
| Text.ReplaceBySelf | ViewModels/GenerateCoverLetterViewModel.cs:268 | replacing a key by itself leaves the string unchanged |
| Text.ReplaceChangesLength | ViewModels/GenerateCoverLetterViewModel.cs:266-268 | for a value of a different length, the key occurs exactly when replacing it changes the length |
| Text.ReplaceFirstOccurrence | ViewModels/GenerateCoverLetterViewModel.cs:268 | when no occurrence of the key starts inside the prefix, the prefix is copied, the occurrence that follows it is replaced, and scanning resumes after it |
| Text.ContainsShorter | ViewModels/GenerateCoverLetterViewModel.cs:199 | a string never contains a longer one |
| Paths.Combine3IsNested | ViewModels/GenerateCoverLetterViewModel.cs:211 | the three-part `Path.Combine` equals combining twice |
| Paths.GetFileName | ViewModels/GenerateCoverLetterViewModel.cs:107 | the file name is a suffix of the path and holds no separator |
| Paths.FileNameOfCombine | ViewModels/GenerateCoverLetterViewModel.cs:212-218 | the file name of a directory combined with a plain name is that name |
| Documents.ParagraphTextInInnerText | ViewModels/GenerateCoverLetterViewModel.cs:197 | text found in one paragraph is found in the body's `InnerText` |
| Documents.SubstituteMeaning | ViewModels/GenerateCoverLetterViewModel.cs:262-271 | the substitution loop's text is the chained `Replace` in map order; its flag is set exactly when some key occurs in the original text |
| Documents.NoKeyNoChange | ViewModels/GenerateCoverLetterViewModel.cs:264-271 | if no key occurs, the chained replacement is the identity |
| Documents.SubstituteParameters | ViewModels/GenerateCoverLetterViewModel.cs:261-271 | the inner loop returns the chained replacement, and `replaced` is set exactly when some key occurs in the joined text |
| Documents.RewriteUntouched | ViewModels/GenerateCoverLetterViewModel.cs:261-273 | a paragraph without any key is left exactly as it was: same runs, order and formatting |
| Documents.RewriteCollapsesRuns | ViewModels/GenerateCoverLetterViewModel.cs:273-290 | a paragraph with a key keeps its own formatting and ends with one run. That run's text is the chained replacement. Its formatting is a copy of the first run's, empty if that run had none, and absent if there were no runs |
| Documents.RewriteText | ViewModels/GenerateCoverLetterViewModel.cs:261-290 | whether collapsed or not, a rewritten paragraph reads as the chained replacement of its text |
| Documents.RewriteParagraphs | ViewModels/GenerateCoverLetterViewModel.cs:259-291 | the outer loop over the array of paragraphs rewrites each one in place, in order, as `RewriteParagraph` says |
| Documents.RewriteDocument | ViewModels/GenerateCoverLetterViewModel.cs:257-291 | the opened copy's body, rewritten paragraph by paragraph, has the same length and holds each paragraph's rewrite at its index |
| Documents.GreetingExample | ViewModels/GenerateCoverLetterViewModel.cs:259-290 | "Dear {FIRST NAME} {LAST NAME}," split over two runs and three text elements becomes one run "Dear First Last," with the first run's formatting |
| Documents.ValuesAreRescanned | ViewModels/GenerateCoverLetterViewModel.cs:264-271 | a value inserted for an earlier key is scanned by the later keys: a job source reading "{COMPANY NAME}" ends up as the company name |
| Disk.OpenBody | ViewModels/GenerateCoverLetterViewModel.cs:194-197 | a body is obtained only from an existing, unlocked package holding that body, and every existing, unlocked package yields the body it holds (none if it has no body) |
| Disk.CreateDirectory | ViewModels/GenerateCoverLetterViewModel.cs:234 | the directory exists afterwards, with an empty listing if it is new. Files, every existing directory's listing and every failure oracle are unchanged, and no other directory appears |
| Disk.WriteFile | ViewModels/GenerateCoverLetterViewModel.cs:248 | the file holds the new content and is added at the end of its directory's listing unless listed already. Every other file, every other directory's listing and every failure oracle are unchanged |
| Disk.WriteFileTwice | ViewModels/GenerateCoverLetterViewModel.cs:248-292 | copying the template and then saving the rewritten package equals writing the rewritten package once |
| CoverLetter.TemplateDocuments | ViewModels/GenerateCoverLetterViewModel.cs:98-99 | exactly the files ending in "docx" or "dotx" are kept, in listing order, each as often as it is listed |
| CoverLetter.FieldErrorsInFieldOrder | ViewModels/GenerateCoverLetterViewModel.cs:137-181 | there is one error per blank form field, and the j-th error is the j-th blank field's error, in field order |
| CoverLetter.FieldErrorKeys | ViewModels/GenerateCoverLetterViewModel.cs:137-181 | a field's key is among the errors exactly when that field is blank |
| CoverLetter.Parameters | ViewModels/GenerateCoverLetterViewModel.cs:250-256 | the parameter map is valid and its keys are the four placeholders in dictionary order |
| CoverLetter.OutputFileLayout | ViewModels/GenerateCoverLetterViewModel.cs:211-212 | with plain company and title segments, the directory is output/company/title and the file is directory/"First Last Cover Letter.docx". When the names hold no separator, that name is what `GetFileName` reports |
| CoverLetter.ValidationComesFirst | ViewModels/GenerateCoverLetterViewModel.cs:114-187 | nothing is opened, created, copied or saved exactly when a setting or a form field is blank. A blank setting gives the single Settings error; otherwise every blank field is reported |
| CoverLetter.PlaceholderCheck | ViewModels/GenerateCoverLetterViewModel.cs:194-208 | after validation, the single DocumentContents error appears exactly when a placeholder is missing from the inner text. Then only the read-only open has happened |
| CoverLetter.OutputPolicy | ViewModels/GenerateCoverLetterViewModel.cs:210-296 | an existing file is the single OutputFile error, with no copy. An existing directory alone gives exactly one OutputDir warning, a missing one none. Then there is no error exactly when the directory can be created and the copy and the save succeed, and success sets the message |
| CoverLetter.GenerationSucceeds | ViewModels/GenerateCoverLetterViewModel.cs:231-296 | with everything in order and a copy and a save that succeed, the directory exists and the output file holds the template with every paragraph rewritten; the success message names it |
| CoverLetter.FailureAftermath | ViewModels/GenerateCoverLetterViewModel.cs:192-318 | no error means success and a saved letter with every other file intact. An error before the copy leaves the file system unchanged. A copy that throws leaves the created directory; a save that throws also leaves the unfilled template copy at the output path; both report the read failure |
| CoverLetter.FailedSaveBlocksRetry | ViewModels/GenerateCoverLetterViewModel.cs:213-221 | after a save that throws, repeating the same request fails with the OutputFile error, because the unfilled copy is in the way |
| CoverLetter.SplitPlaceholderSurvives | ViewModels/GenerateCoverLetterViewModel.cs:197-199 | a placeholder split over two paragraphs passes the check, yet neither paragraph is rewritten |
| CoverLetter.GenerateCoverLetterViewModel.constructor | ViewModels/GenerateCoverLetterViewModel.cs:20-54 | all form fields, lists and the message start empty |
| CoverLetter.GenerateCoverLetterViewModel.LoadDocuments | ViewModels/GenerateCoverLetterViewModel.cs:91-109 | Errors and the document list are cleared. A missing directory ends the method; otherwise the list holds the template documents' file names |
| CoverLetter.GenerateCoverLetterViewModel.SetSelectedTemplate | ViewModels/GenerateCoverLetterViewModel.cs:24-35 | setting the same template does nothing. A new one reloads the documents and clears the success message |
| CoverLetter.GenerateCoverLetterViewModel.GenerateCoverLetter | ViewModels/GenerateCoverLetterViewModel.cs:112-319 | Errors, the file system, the effects and the message end as `Generate` says. New warnings are appended to the old ones, and the form is unchanged |
| CoverLetter.GenerateCoverLetterViewModel.WriteLetter | ViewModels/GenerateCoverLetterViewModel.cs:210-296 | the steps after the placeholder check end as `PlaceLetter` says |
| CoverLetter.GenerateCoverLetterViewModel.FillCopy | ViewModels/GenerateCoverLetterViewModel.cs:247-296 | the copy, the paragraph rewrite and the save end as `FillLetter` says, including a copy or a save that throws |
| Settings.TemplatesPathErrors | ViewModels/SettingsViewModel.cs:94-116 | at most one TemplatesPath error, absent exactly when the path is filled in, absolute, well-formed and existing |
| Settings.CheckOutputPath | ViewModels/SettingsViewModel.cs:119-142 | at most one OutputPath error, absent exactly when the path is filled in, absolute and well-formed. A missing directory is the one warning, not an error, and only then is the directory taken as missing |
| Settings.ErrorsPerField | ViewModels/SettingsViewModel.cs:94-162 | no short-circuit: each field's errors among all the errors are exactly those of its own check |
| Settings.ErrorsInFieldOrder | ViewModels/SettingsViewModel.cs:94-162 | the errors' keys follow the order TemplatesPath, OutputPath, FirstName, LastName, each at most once |
| Settings.ValidExactly | ViewModels/SettingsViewModel.cs:94-164 | there is no error exactly when every field passes its own checks |
| Settings.ErrorsStopTheSave | ViewModels/SettingsViewModel.cs:164-167 | any error means no dialog, no directory, no store and no change to the file system |
| Settings.ConfirmationWhenMissing | ViewModels/SettingsViewModel.cs:169-174 | the dialog is shown exactly when the settings are valid and the output directory does not exist, and it comes first |
| Settings.DeclinedDoesNothing | ViewModels/SettingsViewModel.cs:175-178 | a declined dialog creates and stores nothing, and leaves the warning on screen |
| Settings.CreationFailureIsOneError | ViewModels/SettingsViewModel.cs:180-188 | a directory that cannot be created is the single OutputPath error carrying the exception's message, and nothing is stored |
| Settings.SavedExactlyWhenValid | ViewModels/SettingsViewModel.cs:164-210 | the settings are stored exactly when they are valid and the output directory exists or is confirmed and created. Then both directories exist, no file changed, both lists are empty and the store is the last effect |
| Settings.SettingsViewModel.constructor | ViewModels/SettingsViewModel.cs:42-47 | the view model starts from the stored settings, with both lists empty |
| Settings.SettingsViewModel.LoadSettings | ViewModels/SettingsViewModel.cs:49-84 | both lists are cleared, the fields hold the stored settings, and the settings list names them |
| Settings.SettingsViewModel.ValidateTemplatesPath | ViewModels/SettingsViewModel.cs:94-116 | appends exactly `TemplatesPathErrors` |
| Settings.SettingsViewModel.ValidateOutputPath | ViewModels/SettingsViewModel.cs:119-142 | appends exactly the output path's error or warning and returns whether the directory is taken as existing |
| Settings.SettingsViewModel.ValidateName | ViewModels/SettingsViewModel.cs:144-162 | a blank name appends its error |
| Settings.SettingsViewModel.ValidateFields | ViewModels/SettingsViewModel.cs:93-162 | appends the errors and warnings of `Validate`, in field order |
| Settings.SettingsViewModel.SaveSettings | ViewModels/SettingsViewModel.cs:87-211 | the lists, the file system, the effects, the stored settings and the settings list end as `Save` says; the edited fields are unchanged |
| Settings.SettingsViewModel.ConfirmAndStore | ViewModels/SettingsViewModel.cs:169-210 | the steps after validation end as `AfterValidation` says |

## Left out

- OpenXml package I/O (`WordprocessingDocument.Open`, `Descendants`, `CloneNode`, `Save`) is a foreign library. The document is a datatype: a body of paragraphs, each a list of runs of text elements with opaque formatting.
- Nested structures are not modelled. `Descendants<Paragraph>()` also finds paragraphs inside tables; the model's body is a flat list of paragraphs, in document order.
- File-system calls are not modelled as I/O. The file system is a value, and "a locked file", "a path `GetFullPath` rejects" and "a directory that cannot be created" are data in that value.
- Why a copy or a save fails is not modelled. The file system records, as data, the targets to which `File.Copy` throws and the files whose reopening or save throws; both end in the handler at ViewModels/GenerateCoverLetterViewModel.cs:309-318.
- A save that throws is taken to leave the unfilled copy as it was. Whatever the library writes while disposing the half-edited package is not modelled.
- `Body.InnerText` also includes deleted text (`w:delText`) and field codes (`w:instrText`), which `Descendants<Text>()` does not visit. The model has only the text elements, so a placeholder found only in such elements, which passes the check and is never replaced, is not modelled.
- `Directory.CreateDirectory` also creates missing parent directories; the model records only the requested one.
- Path normalization is not modelled (for example `..`, repeated separators, or Windows drive and UNC rules). Paths are Unix paths, where a path is fully qualified exactly when it starts with '/'.
- `EndsWith("docx")` uses the current culture in .NET; the model compares ordinally.
- `null` strings are not modelled. Every string is a value, and `null` behaves as the empty string for every check made here.
- `LoadTemplates` and the `SettingsChanged` event are outside this model. They list the template directories and carry no validation.
- The settings service's JSON persistence (Services/SettingsService.cs) is represented by the view model's `stored` field. The model takes it that storing and then loading gives back what was stored.
- The confirmation dialog (Services/DialogService.cs) is an input boolean.
- Logging (`Console.WriteLine`, `Debug.WriteLine`) and property-change notification are left out.
- Reflection over the settings' properties is replaced by the explicit four-field record `AppSettings`. This covers the settings check at ViewModels/GenerateCoverLetterViewModel.cs:117-122, `LoadSettings` and the copy at ViewModels/SettingsViewModel.cs:192-206.
- Models/AppSettings.cs is not part of this model. Its string properties are taken to be TemplatesPath, OutputPath, FirstName and LastName, in that order.
- CoverLetter.GenerateCoverLetterViewModel.GenerateCoverLetter: the five field checks are sequential `if`s in the source. The model performs them as one assignment of `FieldErrors`, whose per-field meaning is proved separately (`FieldErrorsInFieldOrder`, `FieldErrorKeys`). The steps after the placeholder check are in the helper method `WriteLetter`, and those from the copy on in `FillCopy`.
- Settings.SettingsViewModel.SaveSettings: the validation and the post-validation steps are split into the helper methods `ValidateFields` and `ConfirmAndStore`.

## Notes on the source

In these cases the source behaves in ways a reader of the code might not expect. The model follows the code.

- **Values are re-scanned.** The replacement loop reassigns the paragraph text before the next key is searched. So a value containing a later placeholder is itself replaced (`Documents.ValuesAreRescanned`), and the order of the map matters.
- **The missing-placeholder error lists all four placeholders**, not only the missing ones.
- **A template without a body** makes `innerText.Contains` throw. It therefore ends in the "Failed to read document" error rather than the missing-placeholder error.
- **Generation clears Errors but not Warnings.** An OutputDir warning from an earlier generation stays on screen, and a new one is appended after it.
- **Detection and substitution look at different text.** Detection is on the body's joined text, substitution on each paragraph. A placeholder split across paragraphs passes the check and stays in the letter (`CoverLetter.SplitPlaceholderSurvives`).
- **The OutputDir warning names the output *file*,** in "Output directory {file name} already exists at {dir}.". The success message keeps the spelling "successfuly".
- **A failed copy or save is not undone.** The output directory, and after a failed save the unfilled template copy, stay on disk. The copy then makes every repetition of the request fail with the OutputFile error (`CoverLetter.FailedSaveBlocksRetry`).
- **A successful save clears the missing-directory warning.** The save reloads the settings, and the reload empties both lists.
