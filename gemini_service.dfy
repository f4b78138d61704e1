/** The query service: exam detection from the query and category name, the choice of the
    input-dependent prompt lines, and the rule that every failure of the external generation
    call degrades to an empty question list. The generation call itself is a parameter. */
module GeminiService {
  import opened Types
  import opened Text

  const RpscArchive: string := "RPSC Rajasthan Assistant Professor (History), RPSC Lecturer, and Rajasthan SET exams."
  const UpscArchive: string := "UPSC History Optional Preliminary (Pre-2008) papers."
  const GeneralArchive: string := "UPSC Optional (Pre-2008), UPPSC Mains (Pre-2017), UGC NET, and RPSC/MPPSC Assistant Professor exams."
  const RpscFocus: string := "RPSC / Rajasthan Assistant Professor"
  const UpscFocus: string := "UPSC History Optional PRE-2008"
  const DefaultFocus: string := "Academic History"
  const DefaultDetail: string := "Miscellaneous History Questions"
  const DefaultEra: string := "All Eras"
  const RpscDifficulty: string := "Hard (Assistant Prof Level)"
  const DefaultDifficulty: string := "Mixed"
  const DefaultType: string := "Mixed types"

  /** The request targets UPSC: "upsc" in the query or the category name, ignoring ASCII case. */
  predicate IsUPSC(query: string, category: string): (b: bool)
    ensures b <==> ContainsIgnoringCase(query, "upsc") || ContainsIgnoringCase(category, "upsc")
  {
    LowerContainsIgnoresCase(query, "upsc");
    LowerContainsIgnoresCase(category, "upsc");
    Contains(Lower(query), "upsc") || Contains(Lower(category), "upsc")
  }

  /** The request targets RPSC: "rpsc" or "rajasthan" in the query, or "raj-ap" or "rajasthan"
      in the category name, ignoring ASCII case. "rpsc" in the category name alone does not count. */
  predicate IsRPSC(query: string, category: string): (b: bool)
    ensures b <==> || ContainsIgnoringCase(query, "rpsc")
                   || ContainsIgnoringCase(query, "rajasthan")
                   || ContainsIgnoringCase(category, "raj-ap")
                   || ContainsIgnoringCase(category, "rajasthan")
  {
    LowerContainsIgnoresCase(query, "rpsc");
    LowerContainsIgnoresCase(query, "rajasthan");
    LowerContainsIgnoresCase(category, "raj-ap");
    LowerContainsIgnoresCase(category, "rajasthan");
    || Contains(Lower(query), "rpsc")
    || Contains(Lower(query), "rajasthan")
    || Contains(Lower(category), "raj-ap")
    || Contains(Lower(category), "rajasthan")
  }

  /** The six input-dependent lines of the prompt. */
  datatype PromptLines = PromptLines(
    archive: string,
    detail: string,
    focus: string,
    era: string,
    difficulty: string,
    questionType: string)

  /** Fills the prompt lines from the request; an empty string stands for an absent value. */
  function BuildPrompt(query: string, era: string, category: string, difficulty: string, questionType: string): (p: PromptLines)
    // RPSC takes precedence over UPSC in both the archive and the focus line
    ensures IsRPSC(query, category) ==> p.archive == RpscArchive && p.focus == RpscFocus
    ensures !IsRPSC(query, category) && IsUPSC(query, category) ==> p.archive == UpscArchive && p.focus == UpscFocus
    ensures !IsRPSC(query, category) && !IsUPSC(query, category) ==>
              p.archive == GeneralArchive && p.focus == (if category != "" then category else DefaultFocus)
    // given values are embedded verbatim, absent ones replaced by fixed defaults
    ensures p.detail == (if query != "" then query else DefaultDetail)
    ensures p.era == (if era != "" then era else DefaultEra)
    ensures p.questionType == (if questionType != "" then questionType else DefaultType)
    ensures difficulty != "" ==> p.difficulty == difficulty
    ensures difficulty == "" ==> p.difficulty == (if IsRPSC(query, category) then RpscDifficulty else DefaultDifficulty)
    // no line of the prompt is ever left blank
    ensures p.archive != "" && p.detail != "" && p.focus != "" && p.era != "" && p.difficulty != "" && p.questionType != ""
  {
    var rpsc := IsRPSC(query, category);
    var upsc := IsUPSC(query, category);
    PromptLines(
      if rpsc then RpscArchive else if upsc then UpscArchive else GeneralArchive,
      if query != "" then query else DefaultDetail,
      if rpsc then RpscFocus else if upsc then UpscFocus else if category != "" then category else DefaultFocus,
      if era != "" then era else DefaultEra,
      if difficulty != "" then difficulty else if rpsc then RpscDifficulty else DefaultDifficulty,
      if questionType != "" then questionType else DefaultType)
  }

  /** The prompt text sent to the generation service, as its sequence of parts (the fixed
      instruction paragraphs are abbreviated to the header line). */
  function PromptParts(p: PromptLines): seq<string>
  {
    [ "Provide 5 History MCQ questions strictly from the following archives:\n", p.archive,
      "\nCurrent Request Detail: ", p.detail,
      "\nTarget Exam Focus: ", p.focus,
      "\nEra Filter: ", p.era,
      "\nTarget Difficulty: ", p.difficulty,
      "\nSpecific Type Requested: ", p.questionType ]
  }

  function PromptText(p: PromptLines): string
  {
    Join(PromptParts(p))
  }

  /** Every prompt line appears verbatim in the prompt text. */
  lemma PromptTextEmbedsLines(p: PromptLines)
    ensures Contains(PromptText(p), p.archive)
    ensures Contains(PromptText(p), p.detail)
    ensures Contains(PromptText(p), p.focus)
    ensures Contains(PromptText(p), p.era)
    ensures Contains(PromptText(p), p.difficulty)
    ensures Contains(PromptText(p), p.questionType)
  {
    var parts := PromptParts(p);
    JoinContainsPart(parts, 1);
    JoinContainsPart(parts, 3);
    JoinContainsPart(parts, 5);
    JoinContainsPart(parts, 7);
    JoinContainsPart(parts, 9);
    JoinContainsPart(parts, 11);
  }

  /** A non-empty query, era, difficulty or question type reaches the generation service verbatim. */
  lemma RequestValuesReachPrompt(query: string, era: string, category: string, difficulty: string, questionType: string)
    ensures var text := PromptText(BuildPrompt(query, era, category, difficulty, questionType));
      && (query != "" ==> Contains(text, query))
      && (era != "" ==> Contains(text, era))
      && (difficulty != "" ==> Contains(text, difficulty))
      && (questionType != "" ==> Contains(text, questionType))
  {
    PromptTextEmbedsLines(BuildPrompt(query, era, category, difficulty, questionType));
  }

  /** Exam detection ignores ASCII case in both the query and the category name. */
  lemma DetectionIgnoresCase(query: string, category: string)
    ensures IsUPSC(Lower(query), Lower(category)) == IsUPSC(query, category)
    ensures IsRPSC(Lower(query), Lower(category)) == IsRPSC(query, category)
  {
    LowerIdempotent(query);
    LowerIdempotent(category);
  }

  /** The service receives the category's display name, not its id; the UPSC category is detected
      through its name, whatever the query. */
  lemma UpscCategoryDetected(query: string, category: string)
    requires category == CategoryName("upsc-optional")
    ensures IsUPSC(query, category)
  {
    CategoryNameLookup("upsc-optional");
    assert ExamCategories[1].id == "upsc-optional";
    LowerStartsWith(category, "upsc");
  }

  /** The RPSC category is not detected through its name: the name contains neither "raj-ap" nor
      "rajasthan", so selecting that category with a query that names neither RPSC nor Rajasthan
      yields a non-RPSC prompt. */
  lemma RpscCategoryNotDetected(query: string, category: string)
    requires category == CategoryName("raj-ap")
    requires !Contains(Lower(query), "rpsc") && !Contains(Lower(query), "rajasthan")
    ensures !IsRPSC(query, category)
  {
    CategoryNameLookup("raj-ap");
    assert ExamCategories[5].id == "raj-ap";
    RpscNameHasNoJ(category);
    NoJNoRajasthan(category);
  }

  lemma RpscNameHasNoJ(category: string)
    requires category == "RPSC Assistant Professor"
    ensures 'j' !in Lower(category)
  {
    LowerKeepsLetterAbsent(category, 'j');
  }

  /** Both category keywords of the RPSC test contain a 'j'. */
  lemma NoJNoRajasthan(category: string)
    requires 'j' !in Lower(category)
    ensures !Contains(Lower(category), "raj-ap") && !Contains(Lower(category), "rajasthan")
  {
    MissingCharNotContained(Lower(category), "raj-ap", 'j');
    MissingCharNotContained(Lower(category), "rajasthan", 'j');
  }

  /** How the service ended: the call threw, or it answered with a text and what parsing that text
      gives (None when the parser throws). */
  datatype GenerationOutcome = Threw | Responded(text: string, parsed: Option<seq<Question>>)

  /** The service's answer to its caller: the parsed questions, or [] when the call threw, the text
      was empty or did not parse. Nothing is ever propagated as a failure. */
  function FetchResult(o: GenerationOutcome): (r: seq<Question>)
    ensures r == [] || (o.Responded? && o.text != "" && o.parsed == Some(r))
    ensures o.Responded? && o.text != "" && o.parsed.Some? ==> r == o.parsed.value
  {
    match o
    case Threw => []
    case Responded(text, parsed) =>
      if text == "" then []
      else match parsed
        case None => []
        case Some(qs) => qs
  }

  /** The five arguments of one service call; "" stands for an absent optional argument. */
  datatype QueryArgs = QueryArgs(query: string, era: string, category: string, difficulty: string, questionType: string)

  /** The prompt the service sends for one call. */
  function QueryPrompt(args: QueryArgs): string
  {
    PromptText(BuildPrompt(args.query, args.era, args.category, args.difficulty, args.questionType))
  }

  /** One best-effort request: build the prompt, hand it to `generate`, degrade every failure to []. */
  function FetchQuestionsByQuery(args: QueryArgs, generate: string -> GenerationOutcome): (r: seq<Question>)
    ensures var o := generate(QueryPrompt(args));
      r == [] || (o.Responded? && o.text != "" && o.parsed == Some(r))
    ensures var o := generate(QueryPrompt(args));
      o.Responded? && o.text != "" && o.parsed.Some? ==> r == o.parsed.value
  {
    FetchResult(generate(QueryPrompt(args)))
  }

  /** What one call returns: [] or exactly the parsed answer to a prompt that carries every given
      query, era, difficulty and question type verbatim. */
  lemma ServiceAnswer(args: QueryArgs, generate: string -> GenerationOutcome)
    ensures var prompt := QueryPrompt(args);
      var r := FetchQuestionsByQuery(args, generate);
      && (r == [] || (generate(prompt).Responded? && generate(prompt).parsed == Some(r)))
      && (args.query != "" ==> Contains(prompt, args.query))
      && (args.era != "" ==> Contains(prompt, args.era))
      && (args.difficulty != "" ==> Contains(prompt, args.difficulty))
      && (args.questionType != "" ==> Contains(prompt, args.questionType))
  {
    RequestValuesReachPrompt(args.query, args.era, args.category, args.difficulty, args.questionType);
  }
}
