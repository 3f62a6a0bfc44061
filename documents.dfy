/**
 * The part of a word-processing document the generator touches: the body's
 * paragraphs in reading order, each a list of runs, each run a formatting
 * descriptor and its text elements. Formatting is carried, never inspected.
 * This module also holds the per-paragraph rewrite: substitute the parameter
 * values into the paragraph's joined text and, if anything was replaced,
 * collapse its runs into one run formatted like the first.
 */
module Documents {
  import opened Wrappers
  import opened Text

  /** The children of a `<w:rPr>` element, opaque. */
  datatype RunProperties = RunProperties(children: seq<string>)

  /** A freshly created `RunProperties` element has no children. */
  const EmptyRunProperties: RunProperties := RunProperties([])

  /** The children of a `<w:pPr>` element, opaque. */
  datatype ParagraphProperties = ParagraphProperties(children: seq<string>)

  /** A run: its optional formatting element and its text elements, in order. */
  datatype Run = Run(properties: Option<RunProperties>, texts: seq<string>)

  /** A paragraph: its optional paragraph formatting and its runs, in document order. */
  datatype Paragraph = Paragraph(properties: Option<ParagraphProperties>, runs: seq<Run>)

  /** Every paragraph of the document body, in reading order. */
  type Body = seq<Paragraph>

  function RunText(r: Run): string {
    Concat(r.texts)
  }

  function RunsText(runs: seq<Run>): string {
    if runs == [] then "" else RunText(runs[0]) + RunsText(runs[1..])
  }

  /** The concatenation of every text element of the paragraph. */
  function ParagraphText(p: Paragraph): string {
    RunsText(p.runs)
  }

  /** The body's `InnerText`: all paragraph texts joined with nothing in between. */
  function InnerText(body: Body): string {
    if body == [] then "" else ParagraphText(body[0]) + InnerText(body[1..])
  }

  /** Text that occurs in one paragraph occurs in the body's inner text. */
  lemma {:induction false} ParagraphTextInInnerText(body: Body, i: int, t: string)
    requires 0 <= i < |body| && Contains(ParagraphText(body[i]), t)
    ensures Contains(InnerText(body), t)
  {
    if i == 0 {
      ContainsInConcat(ParagraphText(body[0]), InnerText(body[1..]), t);
    } else {
      ParagraphTextInInnerText(body[1..], i - 1, t);
      ContainsInConcat(ParagraphText(body[0]), InnerText(body[1..]), t);
    }
  }

  /** One placeholder and the value that replaces it. */
  datatype Parameter = Parameter(key: string, value: string)

  /** The parameters in dictionary order. */
  type ParameterMap = seq<Parameter>

  /** A dictionary's keys are distinct, and `string.Replace` needs them non-empty. */
  predicate ValidParameterMap(m: ParameterMap) {
    && (forall i :: 0 <= i < |m| ==> |m[i].key| > 0)
    && (forall i, j :: 0 <= i < j < |m| ==> m[i].key != m[j].key)
  }

  /** Some key of the map occurs in `text`. */
  predicate AnyKeyIn(text: string, m: ParameterMap) {
    exists i :: 0 <= i < |m| && Contains(text, m[i].key)
  }

  /** `Replace(...Replace(text, k1, v1)..., kn, vn)`: every key replaced in turn, in map order. */
  function ApplyParameters(text: string, m: ParameterMap): string
    requires ValidParameterMap(m)
  {
    if m == [] then text
    else Replace(ApplyParameters(text, m[..|m| - 1]), m[|m| - 1].key, m[|m| - 1].value)
  }

  /** The state of the substitution loop: the text so far and whether anything was replaced. */
  datatype Substitution = Substitution(text: string, replaced: bool)

  /**
   * The substitution loop as the source runs it, over the map in order: a
   * key is looked for in the text produced by the earlier keys, and only when
   * it is found is it replaced and the flag set.
   */
  function Substitute(text: string, m: ParameterMap): Substitution
    requires ValidParameterMap(m)
  {
    if m == [] then Substitution(text, false)
    else
      var s := Substitute(text, m[..|m| - 1]);
      var p := m[|m| - 1];
      if Contains(s.text, p.key) then Substitution(Replace(s.text, p.key, p.value), true) else s
  }

  lemma PrefixValid(m: ParameterMap, n: nat)
    requires ValidParameterMap(m) && n <= |m|
    ensures ValidParameterMap(m[..n])
  {
  }

  /**
   * The loop's guard changes nothing: its text is the chained replacement,
   * and it sets the flag exactly when some key occurs in the ORIGINAL text
   * (a key that only appears through an earlier value is replaced too, but
   * then an earlier key already occurred).
   */
  lemma {:induction false} SubstituteMeaning(text: string, m: ParameterMap)
    requires ValidParameterMap(m)
    ensures Substitute(text, m).text == ApplyParameters(text, m)
    ensures Substitute(text, m).replaced <==> AnyKeyIn(text, m)
  {
    if m != [] {
      var init := m[..|m| - 1];
      PrefixValid(m, |m| - 1);
      SubstituteMeaning(text, init);
      var s := Substitute(text, init);
      var p := m[|m| - 1];
      if !Contains(s.text, p.key) {
        ReplaceAbsent(s.text, p.key, p.value);
      }
      if !s.replaced {
        NoKeyNoChange(text, init);
        assert s.text == text;
      }
      if AnyKeyIn(text, m) {
        var i :| 0 <= i < |m| && Contains(text, m[i].key);
        if i < |m| - 1 {
          assert init[i] == m[i];
        }
      }
      if AnyKeyIn(text, init) {
        var i :| 0 <= i < |init| && Contains(text, init[i].key);
        assert m[i] == init[i];
      }
    }
  }

  /** Without any key in the text, the chained replacement is the identity. */
  lemma {:induction false} NoKeyNoChange(text: string, m: ParameterMap)
    requires ValidParameterMap(m) && !AnyKeyIn(text, m)
    ensures ApplyParameters(text, m) == text
  {
    if m != [] {
      var init := m[..|m| - 1];
      PrefixValid(m, |m| - 1);
      assert !AnyKeyIn(text, init) by {
        forall i | 0 <= i < |init| ensures !Contains(text, init[i].key) {
          assert init[i] == m[i];
        }
      }
      NoKeyNoChange(text, init);
      ReplaceAbsent(text, m[|m| - 1].key, m[|m| - 1].value);
    }
  }

  /**
   * The inner loop of the paragraph rewrite: for each parameter in map order,
   * if its key occurs in the text so far, replace every occurrence and note
   * that something was replaced.
   */
  method SubstituteParameters(fullText: string, m: ParameterMap) returns (text: string, replaced: bool)
    requires ValidParameterMap(m)
    ensures text == ApplyParameters(fullText, m)
    ensures replaced <==> AnyKeyIn(fullText, m)
  {
    text, replaced := fullText, false;
    for i := 0 to |m|
      invariant ValidParameterMap(m[..i])
      invariant Substitution(text, replaced) == Substitute(fullText, m[..i])
    {
      assert m[..i + 1][..i] == m[..i];
      PrefixValid(m, i + 1);
      if Contains(text, m[i].key) {
        text := Replace(text, m[i].key, m[i].value);
        replaced := true;
      }
    }
    assert m[..|m|] == m;
    SubstituteMeaning(fullText, m);
  }

  /** The formatting of the run that replaces a paragraph's runs: a copy of the first run's, or none without a first run. */
  function NewRunProperties(runs: seq<Run>): Option<RunProperties> {
    if runs == [] then None else Some(runs[0].properties.GetOr(EmptyRunProperties))
  }

  /** A paragraph after the rewrite, from the loop's flag and text. */
  function RewriteParagraph(p: Paragraph, m: ParameterMap): Paragraph
    requires ValidParameterMap(m)
  {
    var s := Substitute(ParagraphText(p), m);
    if s.replaced then p.(runs := [Run(NewRunProperties(p.runs), [s.text])]) else p
  }

  /** A paragraph in which no key occurs is left exactly as it was: same runs, same order, same formatting. */
  lemma RewriteUntouched(p: Paragraph, m: ParameterMap)
    requires ValidParameterMap(m) && !AnyKeyIn(ParagraphText(p), m)
    ensures RewriteParagraph(p, m) == p
  {
    SubstituteMeaning(ParagraphText(p), m);
  }

  /**
   * A paragraph in which some key occurs ends up with exactly one run, whose
   * text is the chained replacement of the paragraph's text and whose
   * formatting is that of the first original run (an empty formatting element
   * if that run had none, no formatting element if there was no run); the
   * paragraph's own formatting is kept.
   */
  lemma RewriteCollapsesRuns(p: Paragraph, m: ParameterMap)
    requires ValidParameterMap(m) && AnyKeyIn(ParagraphText(p), m)
    ensures var r := RewriteParagraph(p, m);
      && r.properties == p.properties
      && |r.runs| == 1
      && r.runs[0].texts == [ApplyParameters(ParagraphText(p), m)]
      && r.runs[0].properties == (if p.runs == [] then None else Some(p.runs[0].properties.GetOr(EmptyRunProperties)))
  {
    SubstituteMeaning(ParagraphText(p), m);
  }

  /** Whether or not it is collapsed, the rewritten paragraph reads as the chained replacement of the original. */
  lemma RewriteText(p: Paragraph, m: ParameterMap)
    requires ValidParameterMap(m)
    ensures ParagraphText(RewriteParagraph(p, m)) == ApplyParameters(ParagraphText(p), m)
  {
    SubstituteMeaning(ParagraphText(p), m);
    var r := RewriteParagraph(p, m);
    if AnyKeyIn(ParagraphText(p), m) {
      assert RunsText(r.runs[1..]) == "";
      assert Concat(r.runs[0].texts[1..]) == "";
    } else {
      NoKeyNoChange(ParagraphText(p), m);
    }
  }

  /** The body after every paragraph is rewritten, in place and in order. */
  function RewriteBody(body: Body, m: ParameterMap): (r: Body)
    requires ValidParameterMap(m)
    ensures |r| == |body|
    ensures forall i :: 0 <= i < |body| ==> r[i] == RewriteParagraph(body[i], m)
  {
    seq(|body|, i requires 0 <= i < |body| => RewriteParagraph(body[i], m))
  }

  /**
   * The outer loop: each paragraph of the body, in document order, has its
   * texts joined and substituted; where something was replaced, all of its
   * runs are removed and one new run is appended.
   */
  method RewriteParagraphs(body: array<Paragraph>, m: ParameterMap)
    requires ValidParameterMap(m)
    modifies body
    ensures body[..] == RewriteBody(old(body[..]), m)
  {
    for i := 0 to body.Length
      invariant forall j :: 0 <= j < i ==> body[j] == RewriteParagraph(old(body[j]), m)
      invariant forall j :: i <= j < body.Length ==> body[j] == old(body[j])
    {
      var paragraph := body[i];
      var fullText := ParagraphText(paragraph);
      var text, replaced := SubstituteParameters(fullText, m);
      SubstituteMeaning(fullText, m);
      if replaced {
        var newRun: Run;
        if |paragraph.runs| > 0 {
          var firstRun := paragraph.runs[0];
          newRun := Run(Some(firstRun.properties.GetOr(EmptyRunProperties)), []);
        } else {
          newRun := Run(None, []);
        }
        newRun := newRun.(texts := newRun.texts + [text]);
        assert newRun == Run(NewRunProperties(paragraph.runs), [text]);
        body[i] := paragraph.(runs := [newRun]);
      }
      assert body[i] == RewriteParagraph(old(body[i]), m);
    }
  }

  /** The paragraphs of an opened document, held in an array while they are rewritten in place. */
  method RewriteDocument(body: Body, m: ParameterMap) returns (rewritten: Body)
    requires ValidParameterMap(m)
    ensures |rewritten| == |body|
    ensures forall i :: 0 <= i < |body| ==> rewritten[i] == RewriteParagraph(body[i], m)
  {
    var paragraphs := new Paragraph[|body|](i requires 0 <= i < |body| => body[i]);
    assert paragraphs[..] == body;
    RewriteParagraphs(paragraphs, m);
    rewritten := paragraphs[..];
  }

  lemma ApplyTwo(text: string, a: Parameter, b: Parameter)
    requires |a.key| > 0 && |b.key| > 0 && a.key != b.key
    ensures ValidParameterMap([a, b])
    ensures ApplyParameters(text, [a, b]) == Replace(Replace(text, a.key, a.value), b.key, b.value)
  {
    var m := [a, b];
    assert m[..1] == [a];
    assert [a][..0] == [];
    assert ApplyParameters(text, [a]) == Replace(text, a.key, a.value);
  }

  /** The last name's placeholder does not contain the first name's. */
  lemma FirstNameNotInLastName()
    ensures !Contains("{LAST NAME},", "{FIRST NAME}")
  {
    var r := "{LAST NAME},";
    var key := "{FIRST NAME}";
    assert !StartsWith(r, key) by { assert r[1] != key[1]; }
    var u := "LAST NAME},";
    assert r[1..] == u;
    assert Lacks(u, '{');
    AbsentUnlessAtFront(r, key);
  }

  /** The last name's placeholder survives the replacement of the first name's. */
  lemma LastNameSurvives(first: string)
    ensures Replace(" {LAST NAME},", "{FIRST NAME}", first) == " {LAST NAME},"
  {
    var whole, key := " {LAST NAME},", "{FIRST NAME}";
    assert !StartsWith(whole, key) by { assert whole[0] != key[0]; }
    assert whole[1..] == "{LAST NAME},";
    FirstNameNotInLastName();
    ReplaceAbsent(whole, key, first);
  }

  lemma GreetingFirstName(first: string)
    ensures Replace("Dear {FIRST NAME} {LAST NAME},", "{FIRST NAME}", first) == "Dear " + first + " {LAST NAME},"
  {
    assert "Dear {FIRST NAME} {LAST NAME}," == "Dear " + "{FIRST NAME}" + " {LAST NAME},";
    ReplaceAfterLacking("Dear ", "{FIRST NAME}", " {LAST NAME},", first);
    LastNameSurvives(first);
  }

  lemma GreetingLastName(first: string, last: string)
    requires Lacks(first, '{')
    ensures Replace("Dear " + first + " {LAST NAME},", "{LAST NAME}", last) == "Dear " + first + " " + last + ","
  {
    var t := "Dear " + first + " ";
    assert Lacks(t, '{');
    assert "Dear " + first + " {LAST NAME}," == t + "{LAST NAME}" + ",";
    ReplaceAfterLacking(t, "{LAST NAME}", ",", last);
    ReplaceLacking(",", "{LAST NAME}", last);
  }

  /** The paragraph of the greeting example reads the whole greeting. */
  lemma GreetingText(pp: Option<ParagraphProperties>, bold: Option<RunProperties>)
    ensures ParagraphText(Paragraph(pp, [Run(bold, ["Dear {FIRST ", "NAME} "]), Run(None, ["{LAST NAME},"])]))
      == "Dear {FIRST NAME} {LAST NAME},"
  {
    var runs := [Run(bold, ["Dear {FIRST ", "NAME} "]), Run(None, ["{LAST NAME},"])];
    assert RunText(runs[0]) == "Dear {FIRST " + "NAME} ";
    assert runs[1..] == [Run(None, ["{LAST NAME},"])];
    assert RunsText(runs[1..]) == "{LAST NAME},";
  }

  /** Both names are substituted into the greeting. */
  lemma GreetingApplied(first: string, last: string)
    requires Lacks(first, '{')
    ensures var m := [Parameter("{FIRST NAME}", first), Parameter("{LAST NAME}", last)];
      && ValidParameterMap(m)
      && AnyKeyIn("Dear {FIRST NAME} {LAST NAME},", m)
      && ApplyParameters("Dear {FIRST NAME} {LAST NAME},", m) == "Dear " + first + " " + last + ","
  {
    var text := "Dear {FIRST NAME} {LAST NAME},";
    var m := [Parameter("{FIRST NAME}", first), Parameter("{LAST NAME}", last)];
    assert text == "Dear " + "{FIRST NAME}" + " {LAST NAME},";
    assert text[5..17] == "{FIRST NAME}";
    OccursContains(text, "{FIRST NAME}", 5);
    assert Contains(text, m[0].key);
    ApplyTwo(text, m[0], m[1]);
    GreetingFirstName(first);
    GreetingLastName(first, last);
  }

  /**
   * "Dear {FIRST NAME} {LAST NAME}," spread over two runs, the first token
   * itself split between two text elements, becomes one run reading
   * "Dear Ada Lovelace," (for any first name without a brace), formatted like
   * the first run.
   */
  lemma GreetingExample(pp: Option<ParagraphProperties>, bold: Option<RunProperties>, first: string, last: string)
    requires Lacks(first, '{')
    ensures var p := Paragraph(pp, [Run(bold, ["Dear {FIRST ", "NAME} "]), Run(None, ["{LAST NAME},"])]);
      var m := [Parameter("{FIRST NAME}", first), Parameter("{LAST NAME}", last)];
      ValidParameterMap(m) &&
      RewriteParagraph(p, m) == Paragraph(pp, [Run(Some(bold.GetOr(EmptyRunProperties)), ["Dear " + first + " " + last + ","])])
  {
    var p := Paragraph(pp, [Run(bold, ["Dear {FIRST ", "NAME} "]), Run(None, ["{LAST NAME},"])]);
    var m := [Parameter("{FIRST NAME}", first), Parameter("{LAST NAME}", last)];
    GreetingText(pp, bold);
    GreetingApplied(first, last);
    RewriteCollapsesRuns(p, m);
  }

  /**
   * A value is scanned again by the keys after it: a job source that reads
   * "{COMPANY NAME}" ends up as the company name, not as that literal text.
   */
  lemma ValuesAreRescanned(company: string)
    ensures var m := [Parameter("{JOB SOURCE}", "{COMPANY NAME}"), Parameter("{COMPANY NAME}", company)];
      ValidParameterMap(m) && ApplyParameters("{JOB SOURCE}", m) == company
  {
    var js, cn := "{JOB SOURCE}", "{COMPANY NAME}";
    ApplyTwo(js, Parameter(js, cn), Parameter(cn, company));
    ReplaceAtKey(js, "", cn);
    assert js + "" == js && cn + "" == cn;
    ReplaceAtKey(cn, "", company);
    assert company + "" == company;
  }
}
