/**
  The four-step wizard over the session state: research (1), content
  parameters (2), outline choice (3) and drafting (4). Each user action is
  a method on `Session`, whose fields are the six session keys; the
  provider and the language model are represented by the outcomes their
  calls produced.
 */
module Wizard {
  import opened Wrappers
  import opened Text
  import opened Structures
  import opened Competitors

  /** The choices of the tone selector. */
  const ToneOptions: seq<string> := ["profesional", "casual", "tecnico", "educativo"]
  /** The choices of the word-count selector. */
  const WordCountOptions: seq<nat> := [800, 1500, 2500, 3500]

  /** The content parameters of step 2. */
  datatype Inputs = Inputs(relatedKeywords: string, title: string, tone: string, wordCount: nat)

  const DefaultInputs := Inputs("", "", "profesional", 1500)

  /** What the drafting call produced: the markdown text, or the error it raised. */
  datatype GenerationOutcome = Generated(markdown: string) | GenerationFailed(message: string)

  class Session {
    /** The provider credentials. The source re-reads them from the
        configuration on every run; the model fixes them for the session. */
    const login: string
    const password: string

    var step: nat
    var keyword: string
    var competitorData: Option<Analysis>
    var inputs: Inputs
    var selectedStructure: Option<StructureOption>
    var finalMd: string

    /** What every reachable session satisfies: the step is 1 to 4, the
        selectors hold one of their choices, the stored keyword is stripped,
        analysis data exists exactly from step 2 on (with a non-empty keyword
        and at most three competitors), a non-blank title from step 3 on, and
        an outline of the current keyword exactly in step 4. */
    ghost predicate Valid()
      reads this
    {
      && 1 <= step <= 4
      && inputs.tone in ToneOptions
      && inputs.wordCount in WordCountOptions
      && IsStripped(keyword)
      && (competitorData.Some? <==> step >= 2)
      && (step >= 2 ==> keyword != "" && |competitorData.value.competitors| <= MaxCompetitors)
      && (step >= 3 ==> Trim(inputs.title) != "")
      && (selectedStructure.Some? <==> step == 4)
      && (step == 4 ==> selectedStructure.value in StructureOptions(keyword))
    }

    /** The state the session-key defaults give. */
    ghost predicate IsInitial()
      reads this
    {
      && step == 1
      && keyword == ""
      && competitorData == None
      && inputs == DefaultInputs
      && selectedStructure == None
      && finalMd == ""
    }

    /** A fresh session: every key takes its default. */
    constructor (login: string, password: string)
      ensures this.login == login && this.password == password
      ensures IsInitial() && Valid()
    {
      this.login := login;
      this.password := password;
      step := 1;
      keyword := "";
      competitorData := None;
      inputs := DefaultInputs;
      selectedStructure := None;
      finalMd := "";
    }

    /** Step 1, "analyze competitors" with `kwInput` in the keyword box. The
        button is disabled while the stripped keyword is empty. Otherwise the
        stripped keyword is stored before the analysis runs; on success the
        result is stored and the wizard moves to step 2, and when the
        analysis raises the step and the stored data stay as they were. */
    method Analyze(kwInput: string, fetch: FetchOutcome)
      requires Valid() && step == 1
      modifies this
      ensures Valid()
      ensures Trim(kwInput) == "" ==> unchanged(this)
      ensures Trim(kwInput) != "" ==> keyword == Trim(kwInput)
      ensures Trim(kwInput) != "" && AnalysisResult(login, password, Trim(kwInput), fetch).Success? ==>
        step == 2 && competitorData == Some(AnalysisResult(login, password, Trim(kwInput), fetch).value)
      ensures AnalysisResult(login, password, Trim(kwInput), fetch).Failure? ==>
        step == 1 && competitorData == old(competitorData)
      ensures inputs == old(inputs) && selectedStructure == old(selectedStructure)
      ensures finalMd == old(finalMd)
    {
      var kw := Trim(kwInput);
      if kw == "" {
        return;
      }
      keyword := kw;
      var result := AnalyzeCompetitors(login, password, kw, fetch);
      AnalysisBounded(login, password, kw, fetch);
      if result.Success? {
        competitorData := Some(result.value);
        step := 2;
      }
    }

    /** Step 2, submitting the parameters form. The fields are stored as
        entered; the wizard moves to step 3 only when the stripped title is
        non-empty. */
    method SubmitInputs(relatedKeywords: string, title: string, tone: string, wordCount: nat)
      requires Valid() && step == 2
      requires tone in ToneOptions && wordCount in WordCountOptions
      modifies this
      ensures Valid()
      ensures inputs == Inputs(relatedKeywords, title, tone, wordCount)
      ensures step == if Trim(title) != "" then 3 else 2
      ensures keyword == old(keyword) && competitorData == old(competitorData)
      ensures selectedStructure == old(selectedStructure) && finalMd == old(finalMd)
    {
      inputs := Inputs(relatedKeywords, title, tone, wordCount);
      if Trim(title) != "" {
        step := 3;
      }
    }

    /** Step 3, "generate content" with outline `sel` chosen on the radio
        (whose choices are the ids 1 to 3): the chosen outline is stored, the
        draft is cleared and the wizard moves to step 4. */
    method ChooseStructure(sel: nat)
      requires Valid() && step == 3
      requires 1 <= sel <= 3
      modifies this
      ensures Valid()
      ensures selectedStructure == Some(StructureOptions(keyword)[sel - 1])
      ensures selectedStructure.value.id == sel
      ensures step == 4 && finalMd == ""
      ensures keyword == old(keyword) && competitorData == old(competitorData)
      ensures inputs == old(inputs)
    {
      var options := StructureOptions(keyword);
      var chosen := FirstWithId(options, sel);
      ChosenOption(keyword, sel);
      selectedStructure := chosen;
      step := 4;
      finalMd := "";
    }

    /** Step 4 rendering while no draft is stored: the drafting result is
        stored on success, and nothing changes when the call raises or a
        draft already exists. */
    method Draft(outcome: GenerationOutcome)
      requires Valid() && step == 4
      modifies this
      ensures Valid()
      ensures finalMd ==
        if old(finalMd) == "" && outcome.Generated? then outcome.markdown else old(finalMd)
      ensures step == old(step) && keyword == old(keyword)
      ensures competitorData == old(competitorData) && inputs == old(inputs)
      ensures selectedStructure == old(selectedStructure)
    {
      if finalMd == "" {
        match outcome
        case Generated(markdown) =>
          finalMd := markdown;
        case GenerationFailed(_) =>
      }
    }

    /** Step 4, "generate again": only the draft is cleared. */
    method Regenerate()
      requires Valid() && step == 4
      modifies this
      ensures Valid()
      ensures finalMd == ""
      ensures step == old(step) && keyword == old(keyword)
      ensures competitorData == old(competitorData) && inputs == old(inputs)
      ensures selectedStructure == old(selectedStructure)
    {
      finalMd := "";
    }

    /** Step 4, "start a new project": every session key is deleted, and the
        next run re-creates each one with its default. */
    method NewProject()
      requires Valid() && step == 4
      modifies this
      ensures Valid() && IsInitial()
    {
      step := 1;
      keyword := "";
      competitorData := None;
      inputs := DefaultInputs;
      selectedStructure := None;
      finalMd := "";
    }
  }
}
