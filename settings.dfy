/**
 * The settings screen (ViewModels/SettingsViewModel.cs): the four persisted
 * settings are edited in place, and saving them first validates every field
 * (collecting all errors), treats a missing output directory as a warning,
 * asks for confirmation before creating it, and only then stores the
 * settings and reloads them.
 *
 * `Save` states the outcome of one save as a function of the edited
 * settings, the file system and the user's answer to the confirmation
 * dialog; the class's `SaveSettings` method performs the same steps
 * imperatively and is proved to produce that outcome.
 */
module Settings {
  import opened Wrappers
  import opened Lists
  import opened Models
  import opened Text
  import opened Paths
  import opened Disk

  // ---------------------------------------------------------------------------
  // Messages

  const TemplatesPathBlank: KeyValueItem := KeyValueItem("TemplatesPath", "Template directory must be specified.")
  const TemplatesPathRelative: KeyValueItem := KeyValueItem("TemplatesPath", "Template directory must be an absolute path.")
  const TemplatesPathMissing: KeyValueItem := KeyValueItem("TemplatesPath", "Template directory does not exist.")
  const OutputPathBlank: KeyValueItem := KeyValueItem("OutputPath", "Output directory is not specified.")
  const OutputPathRelative: KeyValueItem := KeyValueItem("OutputPath", "Output directory must be an absolute path.")
  const OutputPathMissing: KeyValueItem := KeyValueItem("OutputPath", "Output directory does not exist and will be created if confirmed.")
  const FirstNameMissing: KeyValueItem := KeyValueItem("FirstName", "First Name must be specified")
  const LastNameMissing: KeyValueItem := KeyValueItem("LastName", "Last Name must be specified")

  /** The error for a path `Path.GetFullPath` rejects, carrying the exception's message. */
  function InvalidPathFormat(key: string, message: string): KeyValueItem {
    KeyValueItem(key, "Invalid path format: " + message)
  }

  /** The error for an output directory whose creation threw, carrying the exception's message. */
  function CreationFailed(message: string): KeyValueItem {
    KeyValueItem("OutputPath", "Failed to create output directory: " + message)
  }

  /** The keys of the four settings, in the order they are validated. */
  const SettingsKeys: seq<string> := ["TemplatesPath", "OutputPath", "FirstName", "LastName"]

  // ---------------------------------------------------------------------------
  // Validation

  /**
   * The templates directory gets at most one error, the first that applies
   * of: blank, not absolute, rejected by `Path.GetFullPath`, missing.
   */
  function TemplatesPathErrors(path: string, fs: FileSystem): (r: seq<KeyValueItem>)
    ensures |r| <= 1
    ensures forall i :: 0 <= i < |r| ==> r[i].key == "TemplatesPath"
    ensures r == [] <==> !IsBlank(path) && IsPathFullyQualified(path) && path !in fs.malformed && DirectoryExists(fs, path)
  {
    if IsBlank(path) then [TemplatesPathBlank]
    else if !IsPathFullyQualified(path) then [TemplatesPathRelative]
    else if path in fs.malformed then [InvalidPathFormat("TemplatesPath", fs.malformed[path])]
    else if !DirectoryExists(fs, path) then [TemplatesPathMissing]
    else []
  }

  /** What the checks have found so far, and whether the output directory is to be taken as existing. */
  datatype Check = Check(errors: seq<KeyValueItem>, warnings: seq<KeyValueItem>, outputPathExists: bool)

  /**
   * The output directory gets at most one error (blank, not absolute,
   * rejected by `Path.GetFullPath`); a well-formed path to a missing
   * directory is a warning instead, and only then is it taken as missing.
   */
  function CheckOutputPath(path: string, fs: FileSystem): (c: Check)
    ensures |c.errors| <= 1
    ensures forall i :: 0 <= i < |c.errors| ==> c.errors[i].key == "OutputPath"
    ensures c.errors == [] <==> !IsBlank(path) && IsPathFullyQualified(path) && path !in fs.malformed
    ensures !c.outputPathExists <==> c.warnings == [OutputPathMissing]
    ensures c.warnings == [] || c.warnings == [OutputPathMissing]
    ensures c.errors != [] ==> c.outputPathExists
    ensures c.errors == [] ==> (c.outputPathExists <==> DirectoryExists(fs, path))
  {
    if IsBlank(path) then Check([OutputPathBlank], [], true)
    else if !IsPathFullyQualified(path) then Check([OutputPathRelative], [], true)
    else if path in fs.malformed then Check([InvalidPathFormat("OutputPath", fs.malformed[path])], [], true)
    else if !DirectoryExists(fs, path) then Check([], [OutputPathMissing], false)
    else Check([], [], true)
  }

  /** All four fields are checked, in order, each adding its own errors. */
  function Validate(s: AppSettings, fs: FileSystem): Check {
    var output := CheckOutputPath(s.outputPath, fs);
    Check(TemplatesPathErrors(s.templatesPath, fs) + output.errors
          + ErrorIfBlank(s.firstName, FirstNameMissing) + ErrorIfBlank(s.lastName, LastNameMissing),
          output.warnings, output.outputPathExists)
  }

  /** Selecting by key distributes over the four groups of errors. */
  lemma WithKeyOfFour(t: seq<KeyValueItem>, o: seq<KeyValueItem>, f: seq<KeyValueItem>, l: seq<KeyValueItem>, key: string)
    ensures WithKey(t + o + f + l, key) == WithKey(t, key) + WithKey(o, key) + WithKey(f, key) + WithKey(l, key)
  {
    WithKeyConcat(t + o + f, l, key);
    WithKeyConcat(t + o, f, key);
    WithKeyConcat(t, o, key);
  }

  /**
   * Four groups of entries, each keyed by its own distinct key: selecting
   * a key gives back exactly its group.
   */
  lemma GroupsByKey(t: seq<KeyValueItem>, o: seq<KeyValueItem>, f: seq<KeyValueItem>, l: seq<KeyValueItem>, keys: seq<string>)
    requires |keys| == 4 && forall i, j :: 0 <= i < j < 4 ==> keys[i] != keys[j]
    requires AllKeyed(t, keys[0]) && AllKeyed(o, keys[1]) && AllKeyed(f, keys[2]) && AllKeyed(l, keys[3])
    ensures WithKey(t + o + f + l, keys[0]) == t && WithKey(t + o + f + l, keys[1]) == o
    ensures WithKey(t + o + f + l, keys[2]) == f && WithKey(t + o + f + l, keys[3]) == l
  {
    var all := t + o + f + l;
    WithKeyOfFour(t, o, f, l, keys[0]);
    WithKeyAll(t, keys[0]);
    WithKeyNone(o, keys[0]);
    WithKeyNone(f, keys[0]);
    WithKeyNone(l, keys[0]);
    assert WithKey(all, keys[0]) == t + [] + [] + [] == t;
    WithKeyOfFour(t, o, f, l, keys[1]);
    WithKeyNone(t, keys[1]);
    WithKeyAll(o, keys[1]);
    WithKeyNone(f, keys[1]);
    WithKeyNone(l, keys[1]);
    assert WithKey(all, keys[1]) == [] + o + [] + [] == o;
    WithKeyOfFour(t, o, f, l, keys[2]);
    WithKeyNone(t, keys[2]);
    WithKeyNone(o, keys[2]);
    WithKeyAll(f, keys[2]);
    WithKeyNone(l, keys[2]);
    assert WithKey(all, keys[2]) == [] + [] + f + [] == f;
    WithKeyOfFour(t, o, f, l, keys[3]);
    WithKeyNone(t, keys[3]);
    WithKeyNone(o, keys[3]);
    WithKeyNone(f, keys[3]);
    WithKeyAll(l, keys[3]);
    assert WithKey(all, keys[3]) == [] + [] + [] + l == l;
  }

  /** The four settings keys differ. */
  lemma SettingsKeysDistinct()
    ensures forall i, j :: 0 <= i < j < 4 ==> SettingsKeys[i] != SettingsKeys[j]
  {
    var k := SettingsKeys;
    assert |k[0]| == 13 && |k[1]| == 10 && |k[2]| == 9 && |k[3]| == 8;
  }

  /**
   * There is no short-circuit: the errors about each field are exactly
   * those its own check produces, whatever the other fields hold.
   */
  lemma ErrorsPerField(s: AppSettings, fs: FileSystem)
    ensures var errors := Validate(s, fs).errors;
      && WithKey(errors, "TemplatesPath") == TemplatesPathErrors(s.templatesPath, fs)
      && WithKey(errors, "OutputPath") == CheckOutputPath(s.outputPath, fs).errors
      && WithKey(errors, "FirstName") == ErrorIfBlank(s.firstName, FirstNameMissing)
      && WithKey(errors, "LastName") == ErrorIfBlank(s.lastName, LastNameMissing)
  {
    var t := TemplatesPathErrors(s.templatesPath, fs);
    var o := CheckOutputPath(s.outputPath, fs).errors;
    var f := ErrorIfBlank(s.firstName, FirstNameMissing);
    var l := ErrorIfBlank(s.lastName, LastNameMissing);
    SettingsKeysDistinct();
    GroupsByKey(t, o, f, l, SettingsKeys);
  }

  /** A group of at most one entry keyed `key` has keys forming a subsequence of `[key]`. */
  lemma KeysOfOne(items: seq<KeyValueItem>, key: string)
    requires |items| <= 1 && AllKeyed(items, key)
    ensures IsSubsequence(Keys(items), [key])
  {
    if items != [] {
      assert Keys(items) == [key];
      assert IsSubsequence(Keys(items)[1..], [key][1..]);
    }
  }

  lemma {:induction false} KeysConcat(a: seq<KeyValueItem>, b: seq<KeyValueItem>)
    ensures Keys(a + b) == Keys(a) + Keys(b)
  {
    assert |Keys(a + b)| == |Keys(a) + Keys(b)|;
    forall i | 0 <= i < |a + b| ensures Keys(a + b)[i] == (Keys(a) + Keys(b))[i] {
      if i < |a| {
        assert (a + b)[i] == a[i];
      } else {
        assert (a + b)[i] == b[i - |a|];
      }
    }
  }

  /** Four groups of at most one entry each, keyed in turn: their keys follow the order of `keys`. */
  lemma GroupsInOrder(t: seq<KeyValueItem>, o: seq<KeyValueItem>, f: seq<KeyValueItem>, l: seq<KeyValueItem>, keys: seq<string>)
    requires |keys| == 4 && |t| <= 1 && |o| <= 1 && |f| <= 1 && |l| <= 1
    requires AllKeyed(t, keys[0]) && AllKeyed(o, keys[1]) && AllKeyed(f, keys[2]) && AllKeyed(l, keys[3])
    ensures IsSubsequence(Keys(t + o + f + l), keys)
  {
    KeysOfOne(t, keys[0]);
    KeysOfOne(o, keys[1]);
    KeysOfOne(f, keys[2]);
    KeysOfOne(l, keys[3]);
    KeysConcat(t, o);
    KeysConcat(t + o, f);
    KeysConcat(t + o + f, l);
    SubsequenceConcat(Keys(t), [keys[0]], Keys(o), [keys[1]]);
    SubsequenceConcat(Keys(t + o), [keys[0], keys[1]], Keys(f), [keys[2]]);
    SubsequenceConcat(Keys(t + o + f), [keys[0], keys[1], keys[2]], Keys(l), [keys[3]]);
    assert keys == [keys[0], keys[1], keys[2]] + [keys[3]];
  }

  /**
   * Each field gets at most one error and the errors follow the field
   * order TemplatesPath, OutputPath, FirstName, LastName.
   */
  lemma ErrorsInFieldOrder(s: AppSettings, fs: FileSystem)
    ensures IsSubsequence(Keys(Validate(s, fs).errors), SettingsKeys)
  {
    var t := TemplatesPathErrors(s.templatesPath, fs);
    var o := CheckOutputPath(s.outputPath, fs).errors;
    var f := ErrorIfBlank(s.firstName, FirstNameMissing);
    var l := ErrorIfBlank(s.lastName, LastNameMissing);
    GroupsInOrder(t, o, f, l, SettingsKeys);
  }

  /** Validation passes exactly when every field passes its own checks. */
  lemma ValidExactly(s: AppSettings, fs: FileSystem)
    ensures Validate(s, fs).errors == [] <==>
      && !IsBlank(s.templatesPath) && IsPathFullyQualified(s.templatesPath)
      && s.templatesPath !in fs.malformed && DirectoryExists(fs, s.templatesPath)
      && !IsBlank(s.outputPath) && IsPathFullyQualified(s.outputPath) && s.outputPath !in fs.malformed
      && !IsBlank(s.firstName) && !IsBlank(s.lastName)
  {
    var t := TemplatesPathErrors(s.templatesPath, fs);
    var o := CheckOutputPath(s.outputPath, fs).errors;
    var f := ErrorIfBlank(s.firstName, FirstNameMissing);
    var l := ErrorIfBlank(s.lastName, LastNameMissing);
    assert |t + o + f + l| == |t| + |o| + |f| + |l|;
  }

  // ---------------------------------------------------------------------------
  // Saving

  /** What saving does outside the view model, in order. */
  datatype Effect =
    | AskConfirmation(title: string, message: string)   // the confirmation dialog
    | CreateOutputDirectory(path: string)               // `Directory.CreateDirectory`
    | StoreSettings(settings: AppSettings)              // `ISettingsService.SaveSettings`

  /** The dialog asking whether a missing output directory is to be created. */
  function AskToCreate(outputPath: string): Effect {
    AskConfirmation("Confirm Output Directory Creation",
                    "Output directory at \"" + outputPath + "\" does not exist. Do you want it to be created?")
  }

  /**
   * The result of one save: the view model's Errors and Warnings afterwards,
   * the effects in order, the file system afterwards and the settings
   * stored, if any.
   */
  datatype SaveOutcome = SaveOutcome(
    errors: seq<KeyValueItem>, warnings: seq<KeyValueItem>, effects: seq<Effect>, fs: FileSystem, saved: Option<AppSettings>)

  /** Storing the settings and reloading them, which clears both lists. */
  function Stored(s: AppSettings, fs: FileSystem, effects: seq<Effect>): SaveOutcome {
    SaveOutcome([], [], effects + [StoreSettings(s)], fs, Some(s))
  }

  /** One save of the settings `s`; `confirmed` is the answer the dialog would give. */
  function Save(s: AppSettings, fs: FileSystem, confirmed: bool): SaveOutcome {
    var v := Validate(s, fs);
    if v.errors != [] then SaveOutcome(v.errors, v.warnings, [], fs, None)
    else AfterValidation(s, fs, confirmed, v)
  }

  /** The rest of a save once validation `v` found no error: the dialog, the directory and the store. */
  function AfterValidation(s: AppSettings, fs: FileSystem, confirmed: bool, v: Check): SaveOutcome {
    if v.outputPathExists then Stored(s, fs, [])
    else if !confirmed then SaveOutcome([], v.warnings, [AskToCreate(s.outputPath)], fs, None)
    else if CreationFails(fs, s.outputPath) then
      SaveOutcome([CreationFailed(fs.uncreatable[s.outputPath])], v.warnings,
                  [AskToCreate(s.outputPath), CreateOutputDirectory(s.outputPath)], fs, None)
    else Stored(s, CreateDirectory(fs, s.outputPath), [AskToCreate(s.outputPath), CreateOutputDirectory(s.outputPath)])
  }

  /** Any error stops the save before the dialog, the directory and the store. */
  lemma ErrorsStopTheSave(s: AppSettings, fs: FileSystem, confirmed: bool)
    requires Validate(s, fs).errors != []
    ensures var o := Save(s, fs, confirmed);
      && o.errors == Validate(s, fs).errors && o.warnings == Validate(s, fs).warnings
      && o.effects == [] && o.fs == fs && o.saved == None
  {
  }

  /**
   * The dialog is shown exactly when the settings are valid and the output
   * directory does not exist; then it is the first effect.
   */
  lemma ConfirmationWhenMissing(s: AppSettings, fs: FileSystem, confirmed: bool)
    ensures var o := Save(s, fs, confirmed);
      (AskToCreate(s.outputPath) in o.effects) <==> Validate(s, fs).errors == [] && !DirectoryExists(fs, s.outputPath)
    ensures var o := Save(s, fs, confirmed);
      AskToCreate(s.outputPath) in o.effects ==> o.effects[0] == AskToCreate(s.outputPath)
  {
    var v := Validate(s, fs);
    if v.errors == [] && v.outputPathExists {
      assert Save(s, fs, confirmed).effects == [StoreSettings(s)];
    }
  }

  /**
   * A declined dialog leaves nothing done: no directory, no store, and the
   * missing-directory warning is what remains on screen.
   */
  lemma DeclinedDoesNothing(s: AppSettings, fs: FileSystem)
    requires Validate(s, fs).errors == [] && !DirectoryExists(fs, s.outputPath)
    ensures var o := Save(s, fs, false);
      && o.effects == [AskToCreate(s.outputPath)] && o.fs == fs && o.saved == None
      && o.errors == [] && o.warnings == [OutputPathMissing]
  {
  }

  /** A directory that cannot be created is the single OutputPath error, and nothing is stored. */
  lemma CreationFailureIsOneError(s: AppSettings, fs: FileSystem)
    requires Validate(s, fs).errors == [] && CreationFails(fs, s.outputPath)
    ensures var o := Save(s, fs, true);
      && o.errors == [CreationFailed(fs.uncreatable[s.outputPath])] && o.fs == fs && o.saved == None
      && StoreSettings(s) !in o.effects
  {
  }

  /**
   * The settings are stored exactly when they are valid and the output
   * directory exists or is confirmed and created; then both directories
   * exist, no file changed, both lists are empty and storing is the last effect.
   */
  lemma SavedExactlyWhenValid(s: AppSettings, fs: FileSystem, confirmed: bool)
    ensures var o := Save(s, fs, confirmed);
      o.saved.Some? <==>
        Validate(s, fs).errors == [] && (DirectoryExists(fs, s.outputPath) || (confirmed && !CreationFails(fs, s.outputPath)))
    ensures var o := Save(s, fs, confirmed);
      o.saved.Some? ==>
        && o.saved == Some(s) && o.errors == [] && o.warnings == []
        && DirectoryExists(o.fs, s.templatesPath) && DirectoryExists(o.fs, s.outputPath)
        && o.fs.files == fs.files
        && o.effects[|o.effects| - 1] == StoreSettings(s)
  {
  }

  // ---------------------------------------------------------------------------
  // The view model

  class SettingsViewModel {
    var templatesPath: string
    var outputPath: string
    var firstName: string
    var lastName: string
    var errors: seq<KeyValueItem>
    var warnings: seq<KeyValueItem>
    var settingsList: seq<KeyValueItem>
    /** The settings the settings service holds. */
    var stored: AppSettings

    /** The settings as edited on screen. */
    function Current(): AppSettings
      reads this`templatesPath, this`outputPath, this`firstName, this`lastName
    {
      AppSettings(templatesPath, outputPath, firstName, lastName)
    }

    /** The view model starts from the stored settings. */
    constructor (stored: AppSettings)
      ensures this.stored == stored && Current() == stored
      ensures errors == [] && warnings == [] && settingsList == SettingsList(stored)
    {
      this.stored := stored;
      templatesPath, outputPath, firstName, lastName := "", "", "", "";
      errors, warnings, settingsList := [], [], [];
      new;
      LoadSettings();
    }

    /**
     * Clears both lists, copies the stored settings into the fields and
     * lists them as name/value pairs.
     */
    method LoadSettings()
      modifies this
      ensures stored == old(stored) && Current() == stored
      ensures errors == [] && warnings == [] && settingsList == SettingsList(stored)
    {
      errors, warnings, settingsList := [], [], [];
      var settings := stored;
      templatesPath, outputPath, firstName, lastName := settings.templatesPath, settings.outputPath, settings.firstName, settings.lastName;
      var properties := SettingsList(settings);
      var list := [];
      for i := 0 to |properties|
        invariant list == properties[..i]
      {
        list := list + [properties[i]];
      }
      assert properties[..|properties|] == properties;
      settingsList := list;
    }

    /** The TemplatesPath checks, appending at most one error. */
    method ValidateTemplatesPath(templatesPath: string, fs: FileSystem)
      modifies this`errors
      ensures errors == old(errors) + TemplatesPathErrors(templatesPath, fs)
    {
      if IsBlank(templatesPath) {
        errors := errors + [TemplatesPathBlank];
      } else if !IsPathFullyQualified(templatesPath) {
        errors := errors + [TemplatesPathRelative];
      } else if templatesPath in fs.malformed {
        errors := errors + [InvalidPathFormat("TemplatesPath", fs.malformed[templatesPath])];
      } else if !DirectoryExists(fs, templatesPath) {
        errors := errors + [TemplatesPathMissing];
      }
    }

    /** The OutputPath checks, appending at most one error or one warning. */
    method ValidateOutputPath(outputPath: string, fs: FileSystem) returns (outputPathExists: bool)
      modifies this`errors, this`warnings
      ensures var c := CheckOutputPath(outputPath, fs);
        && errors == old(errors) + c.errors && warnings == old(warnings) + c.warnings
        && outputPathExists == c.outputPathExists
    {
      outputPathExists := true;
      if IsBlank(outputPath) {
        errors := errors + [OutputPathBlank];
      } else if !IsPathFullyQualified(outputPath) {
        errors := errors + [OutputPathRelative];
      } else if outputPath in fs.malformed {
        errors := errors + [InvalidPathFormat("OutputPath", fs.malformed[outputPath])];
      } else if !DirectoryExists(fs, outputPath) {
        outputPathExists := false;
        warnings := warnings + [OutputPathMissing];
      }
    }

    /** Every field is checked in turn; the errors and warnings found are appended. */
    method ValidateFields(fs: FileSystem) returns (outputPathExists: bool)
      modifies this`errors, this`warnings
      ensures var v := Validate(Current(), fs);
        && errors == old(errors) + v.errors && warnings == old(warnings) + v.warnings
        && outputPathExists == v.outputPathExists
    {
      var s := Current();
      ValidateTemplatesPath(s.templatesPath, fs);
      outputPathExists := ValidateOutputPath(s.outputPath, fs);
      ValidateName(s.firstName, FirstNameMissing);
      ValidateName(s.lastName, LastNameMissing);
    }

    /** A name check: a blank name appends its error. */
    method ValidateName(name: string, error: KeyValueItem)
      modifies this`errors
      ensures errors == old(errors) + ErrorIfBlank(name, error)
    {
      if IsBlank(name) {
        errors := errors + [error];
      }
    }

    /**
     * Saves the edited settings. Both lists are cleared first, so what they
     * hold afterwards depends only on this save; `confirmed` is the user's
     * answer to the dialog, consulted only when the dialog is shown.
     */
    method SaveSettings(fs: FileSystem, confirmed: bool) returns (fs': FileSystem, effects: seq<Effect>)
      modifies this
      ensures var o := Save(old(Current()), fs, confirmed);
        && errors == o.errors && warnings == o.warnings
        && fs' == o.fs && effects == o.effects
        && stored == (if o.saved.Some? then o.saved.value else old(stored))
        && settingsList == (if o.saved.Some? then SettingsList(o.saved.value) else old(settingsList))
      ensures Current() == old(Current())
    {
      var s := Current();
      errors := [];
      warnings := [];
      fs', effects := fs, [];
      ghost var v := Validate(s, fs);
      var outputPathExists := ValidateFields(fs);
      assert errors == v.errors && warnings == v.warnings;
      if |errors| > 0 {
        return;
      }
      assert Save(s, fs, confirmed) == AfterValidation(s, fs, confirmed, v);
      fs', effects := ConfirmAndStore(fs, confirmed, outputPathExists, v);
    }

    /**
     * The part of a save after validation found no error: the dialog when
     * the output directory is missing, its creation, then the store and the
     * reload.
     */
    method ConfirmAndStore(fs: FileSystem, confirmed: bool, outputPathExists: bool, ghost v: Check)
      returns (fs': FileSystem, effects: seq<Effect>)
      requires errors == [] && warnings == v.warnings && outputPathExists == v.outputPathExists
      modifies this
      ensures var o := AfterValidation(old(Current()), fs, confirmed, v);
        && errors == o.errors && warnings == o.warnings
        && fs' == o.fs && effects == o.effects
        && stored == (if o.saved.Some? then o.saved.value else old(stored))
        && settingsList == (if o.saved.Some? then SettingsList(o.saved.value) else old(settingsList))
      ensures Current() == old(Current())
    {
      var s := Current();
      fs', effects := fs, [];
      if !outputPathExists {
        effects := [AskToCreate(s.outputPath)];
        if !confirmed {
          return;
        }
        effects := effects + [CreateOutputDirectory(s.outputPath)];
        if CreationFails(fs, s.outputPath) {
          errors := errors + [CreationFailed(fs.uncreatable[s.outputPath])];
          return;
        }
        fs' := CreateDirectory(fs, s.outputPath);
      }

      var newSettings := AppSettings(templatesPath, outputPath, firstName, lastName);
      stored := newSettings;
      effects := effects + [StoreSettings(newSettings)];
      LoadSettings();
    }
  }
}
