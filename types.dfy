/** Domain model of the quiz application: question records, the enumerations they use,
    and the static table of exam categories. */
module Types {

  datatype Option<+T> = None | Some(value: T)

  /** The kind of competitive exam a category belongs to. */
  datatype ExamType = Net | Set | AssistantProfessor | Pgt | Civils

  /** The five historical periods a question is tagged with. */
  datatype HistoryEra = Ancient | Medieval | Modern | World | Historiography

  datatype DifficultyLevel = Easy | Medium | Hard
  {
    function Name(): string
    {
      match this
      case Easy => "Easy"
      case Medium => "Medium"
      case Hard => "Hard"
    }
  }

  /** The four option labels of a multiple-choice question. */
  datatype OptionKey = A | B | C | D

  datatype Options = Options(a: string, b: string, c: string, d: string)

  /** A question record as received from the generation service; never modified afterwards. */
  datatype Question = Question(
    id: string,
    questionText: string,
    options: Options,
    correctOption: OptionKey,
    explanation: string,
    examName: string,
    year: string,
    topic: HistoryEra,
    difficulty: DifficultyLevel)

  datatype ExamCategory = ExamCategory(id: string, name: string, kind: ExamType, icon: string)

  /** The fixed table of exam categories, in display order. */
  const ExamCategories: seq<ExamCategory> := [
    ExamCategory("ugc-net", "UGC NET History", Net, "🎓"),
    ExamCategory("upsc-optional", "UPSC History Optional (Pre-2008)", Civils, "🏛️"),
    ExamCategory("uppsc-mains", "UPPSC Mains MCQ (Pre-2017)", AssistantProfessor, "📜"),
    ExamCategory("up-ap", "UPHESC Assistant Professor", AssistantProfessor, "🏛️"),
    ExamCategory("mp-ap", "MPPSC Assistant Professor", AssistantProfessor, "📚"),
    ExamCategory("raj-ap", "RPSC Assistant Professor", AssistantProfessor, "⚔️"),
    ExamCategory("mh-set", "MH SET History", Set, "📖"),
    ExamCategory("various-psc", "Other State PSCs (BPSC, JPSC, etc.)", AssistantProfessor, "🗺️")
  ]

  /** The name of the first category in `cats` whose id is `id`, or "" when there is none. */
  function FirstName(cats: seq<ExamCategory>, id: string): string
  {
    if cats == [] then ""
    else if cats[0].id == id then cats[0].name
    else FirstName(cats[1..], id)
  }

  /** The lookup finds the first entry with the id, and gives "" when no entry has it. */
  lemma {:induction false} FirstNameFinds(cats: seq<ExamCategory>, id: string)
    ensures (forall i :: 0 <= i < |cats| ==> cats[i].id != id) ==> FirstName(cats, id) == ""
    ensures forall i :: 0 <= i < |cats| && cats[i].id == id && (forall j :: 0 <= j < i ==> cats[j].id != id)
              ==> FirstName(cats, id) == cats[i].name
  {
    if cats != [] && cats[0].id != id {
      FirstNameFinds(cats[1..], id);
      forall i | 0 < i < |cats| && cats[i].id == id && (forall j :: 0 <= j < i ==> cats[j].id != id)
        ensures FirstName(cats, id) == cats[i].name
      {
        assert cats[1..][i - 1] == cats[i];
        forall j | 0 <= j < i - 1 ensures cats[1..][j].id != id {
          assert cats[1..][j] == cats[j + 1];
        }
      }
    }
  }

  /** The display name sent to the generation service for a selected category id. */
  function CategoryName(id: string): string
  {
    FirstName(ExamCategories, id)
  }

  /** No two entries of the table share an id. */
  lemma TableIdsDistinct()
    ensures forall i, j :: 0 <= j < i < |ExamCategories| ==> ExamCategories[j].id != ExamCategories[i].id
  {
  }

  /** Every id in the table names its own entry, and an id outside the table resolves to "". */
  lemma CategoryNameLookup(id: string)
    ensures forall i :: 0 <= i < |ExamCategories| && ExamCategories[i].id == id ==> CategoryName(id) == ExamCategories[i].name
    ensures CategoryName(id) != "" <==> exists i :: 0 <= i < |ExamCategories| && ExamCategories[i].id == id
  {
    var cats := ExamCategories;
    FirstNameFinds(cats, id);
    TableIdsDistinct();
    if CategoryName(id) != "" && forall i :: 0 <= i < |cats| ==> cats[i].id != id {
      assert false;
    }
  }
}
