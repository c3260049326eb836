/** `generatePrompt` of `src/utils/promptGenerator.ts`: a fixed instruction text followed by
    `JSON.stringify(variables)`. The two monolithic servers inline the same text with a deeper
    indentation of its second and third lines. The text is built from constants only, one per
    line group, so that each piece can be named in the lemmas below. */
module PromptGenerator {
  import opened Wrappers
  import opened JsonValues
  import opened Types
  import opened Foreign

  /** The first three lines of the text, each without the indentation that the templates below
      put in front of the second and the third, and the line that leads into the list. */
  const FirstLine: string :=
    "You have been given an image with digital electronics questions or circuit problems to solve.\n"
  const SecondLine: string :=
    "Based on the problem in the image, return only the appropriate JSON object in plain text (do not use backticks or the word 'json').\n"
  const ThirdLine: string :=
    "Understand the text and numbers from image properly, also if it is a K-Map then make proper coordinates and then give correct answer\n"
  const Lead: string := "The types of questions may include:\n\n"

  const ModularIntro: string := FirstLine + "    " + SecondLine + "    " + ThirdLine + Lead
  const MonolithIntro: string := FirstLine + "        " + SecondLine + "        " + ThirdLine + Lead

  /** Each section is a heading line, the announcement `Return format: {"type": "<tag>"` and the
      rest of the example object with the blank line after it. */
  const Heading1: string := "1. Logic Gate Expressions:\n"
  const Format1: string := FormatLine("logic_expression")
  const Rest1: string := ", \"expr\": \"original expression\", \"result\": \"simplified expression\"}\n\n"

  const Heading2: string := "2. Code Conversions (BCD, Excess-3, etc.):\n"
  const Format2: string := FormatLine("code_conversion")
  const Rest2: string :=
    ", \"input_type\": \"BCD\", \"output_type\": \"Excess-3\", \"input\": \"input value\", \"result\": \"converted value\"}\n\n"

  const Heading3: string := "3. K-maps:\n"
  const Format3: string := FormatLine("kmap")
  const Rest3: string :=
    ", \"variables\": [\"A\", \"B\", \"C\"], \"minimized_sop\": \"simplified SOP\", \"minimized_pos\": \"simplified POS\", \"expression_type\": \"SOP\"}\n\n"

  const Heading4: string := "4. Binary Arithmetic:\n"
  const Format4: string := FormatLine("binary_arithmetic")
  const Rest4: string :=
    ", \"operation\": \"addition\", \"operand1\": \"1010\", \"operand2\": \"0101\", \"result\": \"1111\"}\n\n"

  const Heading5: string := "5. Boolean Algebra:\n"
  const Format5: string := FormatLine("boolean_simplification")
  const Rest5: string := ", \"original\": \"original expression\", \"result\": \"simplified expression\"}\n\n"

  const Sections: string :=
    (Heading1 + Format1 + Rest1) + ((Heading2 + Format2 + Rest2) + ((Heading3 + Format3 + Rest3)
    + ((Heading4 + Format4 + Rest4) + (Heading5 + Format5 + Rest5))))

  const Outro: string :=
    "Analyze the problem in the image and return ONLY the appropriate JSON object.\n"
    + "Make sure do not use backticks and json names, give only return values as json like object,\n\n"
    + "now based on the question type,\n"
    + "Use proper escape characters for special symbols. Use 'exclamation mark' for showing 'not' or 'complement'\n"
    + "If any variables are provided, use their values: "

  /** The text of `generatePrompt` (second and third lines indented by four spaces) and of the
      inline prompts of `src/index.ts` and `index.js` (indented by eight). */
  const ModularTemplate: string := ModularIntro + Sections + Outro
  const MonolithTemplate: string := MonolithIntro + Sections + Outro

  /** A template followed by the serialised variables. */
  function Fill(template: string, platform: Platform, variables: Option<Json>): string {
    template + platform.stringify(VariablesOrDefault(variables))
  }

  /** `generatePrompt(variables = {})`: the modular text followed by the serialised variables,
      `{}` when there are none. */
  function GeneratePrompt(platform: Platform, variables: Option<Json>): (p: string)
    ensures p == ModularTemplate + platform.stringify(VariablesOrDefault(variables))
  {
    Fill(ModularTemplate, platform, variables)
  }

  lemma ConcatParts(t: string, s: string)
    ensures |t + s| == |t| + |s| && (t + s)[..|t|] == t && (t + s)[|t|..] == s
  {
  }

  /** A filled template is the template followed by the serialised variables, and nothing else. */
  lemma FillIsTemplateThenVariables(template: string, platform: Platform, variables: Option<Json>)
    ensures var p := Fill(template, platform, variables);
      var s := platform.stringify(VariablesOrDefault(variables));
      && |p| == |template| + |s|
      && p[..|template|] == template
      && p[|template|..] == s
  {
    ConcatParts(template, platform.stringify(VariablesOrDefault(variables)));
  }

  /** The fixed part does not depend on the variables: two prompts filled from one template are
      equal exactly when the serialisations of their variables are. */
  lemma FillEqualIffSerialisationsEqual(template: string, platform: Platform, v1: Option<Json>, v2: Option<Json>)
    ensures Fill(template, platform, v1) == Fill(template, platform, v2)
            <==> platform.stringify(VariablesOrDefault(v1)) == platform.stringify(VariablesOrDefault(v2))
  {
    FillIsTemplateThenVariables(template, platform, v1);
    FillIsTemplateThenVariables(template, platform, v2);
  }

  /** Called without variables, a filled template ends in `{}` (what JSON.stringify gives for an
      empty object, ECMA-262 section 25.5.2). */
  lemma DefaultFillEndsInEmptyObject(template: string, platform: Platform)
    requires platform.stringify(JObject([])) == "{}"
    ensures var p := Fill(template, platform, None); |p| == |template| + 2 && p[|template|..] == "{}"
  {
    FillIsTemplateThenVariables(template, platform, None);
  }

  /** `sub` occurs in `s` starting at index `i`. */
  predicate OccursAt(s: string, sub: string, i: nat) {
    i + |sub| <= |s| && forall j :: 0 <= j < |sub| ==> s[i + j] == sub[j]
  }

  lemma OccursInLeft(a: string, b: string, sub: string, i: nat)
    requires OccursAt(a, sub, i)
    ensures OccursAt(a + b, sub, i)
  {
  }

  lemma OccursInRight(a: string, b: string, sub: string, i: nat)
    requires OccursAt(b, sub, i)
    ensures OccursAt(a + b, sub, |a| + i)
  {
    forall j | 0 <= j < |sub| ensures (a + b)[|a| + i + j] == sub[j] {
      assert (a + b)[|a| + (i + j)] == b[i + j];
    }
  }

  /** The announcement of a format: `Return format: {"type": "<tag>"`. */
  function FormatLine(tag: string): string {
    "Return format: {\"type\": \"" + tag + "\""
  }

  /** The five announcements, in the order of the template. */
  function Formats(): seq<string> {
    [Format1, Format2, Format3, Format4, Format5]
  }

  /** The five variants a model may answer with besides a raw response, in the order the
      template announces them. */
  function AnnouncedTags(): (tags: seq<string>)
    ensures |tags| == 5
    ensures forall i :: 0 <= i < 5 ==> tags[i] != Tag(RawResponse(""))
  {
    [Tag(LogicExpression("", "")), Tag(CodeConversion("", "", "", "")), Tag(Kmap([], "", "", "")),
     Tag(BinaryArithmetic("", "", "", "")), Tag(BooleanSimplification("", ""))]
  }

  lemma FormatsAnnounceTags()
    ensures AnnouncedTags() == ["logic_expression", "code_conversion", "kmap", "binary_arithmetic", "boolean_simplification"]
    ensures forall i :: 0 <= i < 5 ==> Formats()[i] == FormatLine(AnnouncedTags()[i])
  {
    var t := AnnouncedTags();
    assert Formats() == [FormatLine(t[0]), FormatLine(t[1]), FormatLine(t[2]), FormatLine(t[3]), FormatLine(t[4])];
  }

  /** A section announces its format right after its heading. */
  lemma AnnouncedAfterHeading(h: string, f: string, r: string)
    ensures OccursAt(h + f + r, f, |h|)
  {
    assert OccursAt(f, f, 0);
    OccursInRight(h, f, f, 0);
    OccursInLeft(h + f, r, f, |h|);
  }

  predicate Increasing(ps: seq<nat>) {
    forall i, j :: 0 <= i < j < |ps| ==> ps[i] < ps[j]
  }

  /** `subs[i]` occurs in `t` at `ps[i]`, each after the one before. */
  predicate AnnouncedAt(t: string, subs: seq<string>, ps: seq<nat>) {
    && |ps| == |subs| && Increasing(ps)
    && forall i :: 0 <= i < |ps| ==> OccursAt(t, subs[i], ps[i])
  }

  /** `subs` occur in `t` one after another, each starting after the one before. */
  ghost predicate InOrder(t: string, subs: seq<string>) {
    exists ps :: AnnouncedAt(t, subs, ps)
  }

  /** Every position moved on by `d`. */
  function Shift(ps: seq<nat>, d: nat): (qs: seq<nat>)
    ensures |qs| == |ps| && forall i :: 0 <= i < |ps| ==> qs[i] == d + ps[i]
  {
    if ps == [] then [] else [d + ps[0]] + Shift(ps[1..], d)
  }

  /** An occurrence in a text that starts before the text's end goes in front of the ordered
      occurrences in what follows the text. */
  lemma AnnouncedCons(x: string, rest: string, sub: string, p: nat, subs: seq<string>, ps: seq<nat>)
    requires OccursAt(x, sub, p) && p < |x|
    requires AnnouncedAt(rest, subs, ps)
    ensures AnnouncedAt(x + rest, [sub] + subs, [p] + Shift(ps, |x|))
  {
    var qs := [p] + Shift(ps, |x|);
    var all := [sub] + subs;
    assert OccursAt(x + rest, all[0], qs[0]) by { OccursInLeft(x, rest, sub, p); }
    forall i | 1 <= i < |qs| ensures OccursAt(x + rest, all[i], qs[i]) {
      OccursInRight(x, rest, subs[i - 1], ps[i - 1]);
    }
    assert Increasing(qs);
  }

  /** A section announces its format before the section ends. */
  lemma SectionAnnounces(h: string, f: string, r: string)
    requires f != []
    ensures OccursAt(h + f + r, f, |h|) && |h| < |h + f + r|
  {
    AnnouncedAfterHeading(h, f, r);
  }

  /** A section in front of text with ordered occurrences announces its format first. */
  lemma SectionInFront(h: string, f: string, r: string, rest: string, subs: seq<string>)
    requires f != [] && InOrder(rest, subs)
    ensures InOrder(h + f + r + rest, [f] + subs)
  {
    var ps :| AnnouncedAt(rest, subs, ps);
    SectionAnnounces(h, f, r);
    AnnouncedCons(h + f + r, rest, f, |h|, subs, ps);
  }

  /** Five sections laid end to end announce their formats in order. */
  lemma FiveAnnouncedInOrder(h: seq<string>, f: seq<string>, r: seq<string>, t: string)
    requires |h| == 5 && |f| == 5 && |r| == 5
    requires forall i :: 0 <= i < 5 ==> f[i] != []
    requires t == (h[0] + f[0] + r[0]) + ((h[1] + f[1] + r[1]) + ((h[2] + f[2] + r[2])
                  + ((h[3] + f[3] + r[3]) + (h[4] + f[4] + r[4]))))
    ensures InOrder(t, f)
  {
    var s4 := h[4] + f[4] + r[4];
    var t3 := h[3] + f[3] + r[3] + s4;
    var t2 := h[2] + f[2] + r[2] + t3;
    var t1 := h[1] + f[1] + r[1] + t2;
    assert InOrder(s4, [f[4]]) by {
      SectionAnnounces(h[4], f[4], r[4]);
      assert AnnouncedAt(s4, [f[4]], [|h[4]|]);
    }
    assert InOrder(t3, [f[3], f[4]]) by {
      SectionInFront(h[3], f[3], r[3], s4, [f[4]]);
      assert [f[3]] + [f[4]] == [f[3], f[4]];
    }
    assert InOrder(t2, [f[2], f[3], f[4]]) by {
      SectionInFront(h[2], f[2], r[2], t3, [f[3], f[4]]);
      assert [f[2]] + [f[3], f[4]] == [f[2], f[3], f[4]];
    }
    assert InOrder(t1, [f[1], f[2], f[3], f[4]]) by {
      SectionInFront(h[1], f[1], r[1], t2, [f[2], f[3], f[4]]);
      assert [f[1]] + [f[2], f[3], f[4]] == [f[1], f[2], f[3], f[4]];
    }
    SectionInFront(h[0], f[0], r[0], t1, [f[1], f[2], f[3], f[4]]);
    assert [f[0]] + [f[1], f[2], f[3], f[4]] == f;
  }

  /** Text in front of ordered occurrences moves them on by its length. */
  lemma AnnouncedBehind(x: string, m: string, subs: seq<string>, ps: seq<nat>)
    requires AnnouncedAt(m, subs, ps)
    ensures AnnouncedAt(x + m, subs, Shift(ps, |x|))
  {
    ShiftedOccurrences(x, m, subs, ps);
    ShiftIncreasing(ps, |x|);
  }

  lemma ShiftedOccurrences(x: string, m: string, subs: seq<string>, ps: seq<nat>)
    requires |ps| == |subs| && forall i :: 0 <= i < |ps| ==> OccursAt(m, subs[i], ps[i])
    ensures forall i :: 0 <= i < |ps| ==> OccursAt(x + m, subs[i], Shift(ps, |x|)[i])
  {
    forall i | 0 <= i < |ps| ensures OccursAt(x + m, subs[i], Shift(ps, |x|)[i]) {
      OccursInRight(x, m, subs[i], ps[i]);
    }
  }

  lemma ShiftIncreasing(ps: seq<nat>, d: nat)
    requires Increasing(ps)
    ensures Increasing(Shift(ps, d))
  {
  }

  /** Text after ordered occurrences leaves them where they are. */
  lemma AnnouncedAhead(m: string, y: string, subs: seq<string>, ps: seq<nat>)
    requires AnnouncedAt(m, subs, ps)
    ensures AnnouncedAt(m + y, subs, ps)
  {
    forall i | 0 <= i < |ps| ensures OccursAt(m + y, subs[i], ps[i]) {
      OccursInLeft(m, y, subs[i], ps[i]);
    }
  }

  /** Text around ordered occurrences keeps them in order. */
  lemma InOrderEnclosed(intro: string, m: string, outro: string, subs: seq<string>)
    requires InOrder(m, subs)
    ensures InOrder(intro + m + outro, subs)
  {
    var ps :| AnnouncedAt(m, subs, ps);
    AnnouncedBehind(intro, m, subs, ps);
    AnnouncedAhead(intro + m, outro, subs, Shift(ps, |intro|));
  }

  /** The sections announce the five formats `Formats()`, in declaration order of the variants
      (see `FormatsAnnounceTags`), and so do the modular template and the inline ones. */
  lemma TemplatesAnnounceInOrder()
    ensures InOrder(Sections, Formats())
    ensures InOrder(ModularTemplate, Formats())
    ensures InOrder(MonolithTemplate, Formats())
  {
    var h := [Heading1, Heading2, Heading3, Heading4, Heading5];
    var r := [Rest1, Rest2, Rest3, Rest4, Rest5];
    FiveAnnouncedInOrder(h, Formats(), r, Sections);
    InOrderEnclosed(ModularIntro, Sections, Outro, Formats());
    InOrderEnclosed(MonolithIntro, Sections, Outro, Formats());
  }
}
