/** The screen as an object: the five state fields are updated in place by
    the handlers, each proved to leave the state its pure transition in
    ClassInfoScreen describes and to keep the reachable-state invariant. */
module ClassInfoController {
  import opened JsString
  import opened SchoolName
  import opened ClassInfoScreen

  class ClassInfoForm {
    var keyword: string
    var schoolNames: seq<string>
    var showSuggestions: bool
    var selectedGrade: string
    var classNumber: string

    /** The fields as a state record. */
    function State(): FormState
      reads this
    {
      FormState(keyword, schoolNames, showSuggestions, selectedGrade, classNumber)
    }

    ghost predicate Valid()
      reads this
    {
      Invariant(State())
    }

    /** Mounting the screen: the fields take their initial values, then the
        route-parameter effect runs once. */
    constructor (routeSchoolName: Option<string>)
      ensures Valid()
      ensures State() == Mount(routeSchoolName)
    {
      keyword := "";
      schoolNames := [];
      showSuggestions := false;
      selectedGrade := DefaultGrade;
      classNumber := DefaultClassNumber;
      new;
      if routeSchoolName.Some? && routeSchoolName.value != "" {
        keyword := StripSuffix(routeSchoolName.value);
      }
    }

    /** `handleSearch(text)`; `queries` lists the remote searches it sent. */
    method HandleSearch(text: string, search: string -> Option<seq<string>>) returns (queries: seq<string>)
      requires Valid()
      modifies this
      ensures Valid()
      ensures State() == Search(old(State()), text, search).state
      ensures queries == Search(old(State()), text, search).queries
    {
      keyword := text;
      if Trim(text) == "" {
        schoolNames := [];
        showSuggestions := false;
        queries := [];
        return;
      }
      queries := [text];
      var result := search(text);
      if result.Some? {
        schoolNames := result.value;
        showSuggestions := true;
      } else {
        schoolNames := [];
        showSuggestions := false;
      }
    }

    /** `handleSelectSchool(school)`. */
    method HandleSelectSchool(school: string)
      requires Valid()
      modifies this
      ensures Valid()
      ensures State() == SelectSchool(old(State()), school)
    {
      keyword := StripSuffix(school);
      showSuggestions := false;
    }

    /** `handleNextStep()`: reads the fields and changes none of them. */
    method HandleNextStep() returns (outcome: NextStepOutcome)
      ensures outcome == NextStep(State())
    {
      if keyword == "" || selectedGrade == "" || classNumber == "" {
        outcome := Alert(AlertTitle, AlertMessage);
        return;
      }
      outcome := Submit(ClassInfoPayload(WithSuffix(keyword), selectedGrade, classNumber));
    }

    /** The grade picker delivering one of its items. */
    method SetSelectedGrade(grade: string)
      requires Valid() && grade in GradeItems
      modifies this
      ensures Valid()
      ensures State() == SelectGrade(old(State()), grade)
    {
      selectedGrade := grade;
    }

    /** The class-number field delivering its new text. */
    method SetClassNumber(text: string)
      requires Valid()
      modifies this
      ensures Valid()
      ensures State() == ChangeClassNumber(old(State()), text)
    {
      classNumber := text;
    }
  }
}
