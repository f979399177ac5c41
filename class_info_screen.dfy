/** The class-information form: its five state fields, the mount-time
    pre-fill from the route parameter, and the three event handlers
    (search-as-you-type, picking a suggestion, confirming), written as pure
    transitions on a state record. The remote school search is a function
    parameter; confirming yields either the validation alert or the payload
    handed to the submission call. */
module ClassInfoScreen {
  import opened JsString
  import opened SchoolName

  datatype Option<T> = None | Some(value: T)

  /** The local state of the screen. */
  datatype FormState = FormState(
    keyword: string,            // the school name typed or chosen, without the suffix
    schoolNames: seq<string>,   // the last suggestion list
    showSuggestions: bool,      // whether the suggestion list is rendered
    selectedGrade: string,      // the grade picker's value
    classNumber: string)        // the class-number field's text

  /** What the search handler did: the state it leaves and the queries it
      sent to the remote search, in order. */
  datatype SearchOutcome = SearchOutcome(state: FormState, queries: seq<string>)

  /** The body of the class-information submission. */
  datatype ClassInfoPayload = ClassInfoPayload(schoolName: string, grade: string, classNumber: string)

  /** What confirming does: show the validation alert, or submit a payload. */
  datatype NextStepOutcome =
    | Alert(title: string, message: string)
    | Submit(payload: ClassInfoPayload)

  /** The grade picker's six items, "1" to "6". */
  const GradeItems: seq<string> := ["1", "2", "3", "4", "5", "6"]
  const DefaultGrade: string := "3"
  const DefaultClassNumber: string := "1"

  /** "Registration failed" / "Please enter the school name, grade and class." */
  const AlertTitle: string := "등록 실패"
  const AlertMessage: string := "학교명, 학년, 반을 모두 입력해주세요."

  /** What holds of every state the screen can reach: suggestions are shown
      only for a keyword that is not blank, and the grade is a picker item. */
  predicate Invariant(st: FormState) {
    (st.showSuggestions ==> !IsBlank(st.keyword)) && st.selectedGrade in GradeItems
  }

  /** JavaScript truthiness of an optional route parameter: absent and "" are falsy. */
  predicate IsTruthy(param: Option<string>) {
    param.Some? && param.value != ""
  }

  /** The state fields' initial values. */
  function Initial(): (r: FormState)
    ensures r.keyword == "" && r.schoolNames == [] && !r.showSuggestions
    ensures r.selectedGrade == "3" && r.selectedGrade in GradeItems && r.classNumber == "1"
    ensures Invariant(r)
  {
    FormState("", [], false, DefaultGrade, DefaultClassNumber)
  }

  /** The effect run on mount: a truthy route school name pre-fills the
      keyword, with one trailing suffix removed. */
  function Prefill(st: FormState, routeSchoolName: Option<string>): (r: FormState)
    ensures IsTruthy(routeSchoolName) ==>
              if EndsWith(routeSchoolName.value, Suffix) then r.keyword + Suffix == routeSchoolName.value
              else r.keyword == routeSchoolName.value
    ensures !IsTruthy(routeSchoolName) ==> r == st
    ensures r == st.(keyword := r.keyword)
  {
    if IsTruthy(routeSchoolName) then st.(keyword := StripSuffix(routeSchoolName.value)) else st
  }

  /** The state right after the screen mounts with the given route parameter. */
  function Mount(routeSchoolName: Option<string>): (r: FormState)
    ensures r.schoolNames == [] && !r.showSuggestions
    ensures r.selectedGrade == "3" && r.classNumber == "1"
    ensures !IsTruthy(routeSchoolName) ==> r.keyword == ""
    ensures IsTruthy(routeSchoolName) ==> r.keyword == StripSuffix(routeSchoolName.value)
    ensures Invariant(r)
  {
    Prefill(Initial(), routeSchoolName)
  }

  /** `handleSearch(text)`: the keyword becomes `text` as typed. A blank text
      clears and hides the suggestions without a search; otherwise exactly one
      search is sent, with the untrimmed text, and any result it returns (an
      empty list included) is stored and shown, while no result clears and
      hides the list. */
  function Search(st: FormState, text: string, search: string -> Option<seq<string>>): (r: SearchOutcome)
    ensures r.state.keyword == text
    ensures r.state.selectedGrade == st.selectedGrade && r.state.classNumber == st.classNumber
    ensures IsBlank(text) ==> r.queries == [] && r.state.schoolNames == [] && !r.state.showSuggestions
    ensures !IsBlank(text) ==> r.queries == [text]
    ensures !IsBlank(text) ==> (r.state.showSuggestions <==> search(text).Some?)
    ensures !IsBlank(text) && search(text).Some? ==> r.state.schoolNames == search(text).value
    ensures !IsBlank(text) && search(text).None? ==> r.state.schoolNames == []
    ensures Invariant(st) ==> Invariant(r.state)
  {
    var typed := st.(keyword := text);
    if Trim(text) == "" then
      SearchOutcome(typed.(schoolNames := [], showSuggestions := false), [])
    else
      match search(text)
      case Some(names) => SearchOutcome(typed.(schoolNames := names, showSuggestions := true), [text])
      case None => SearchOutcome(typed.(schoolNames := [], showSuggestions := false), [text])
  }

  /** `handleSelectSchool(school)`: the keyword becomes the chosen name without
      its trailing suffix and the list is hidden; the list's contents, the grade
      and the class number stay. */
  function SelectSchool(st: FormState, school: string): (r: FormState)
    ensures EndsWith(school, Suffix) ==> r.keyword + Suffix == school
    ensures !EndsWith(school, Suffix) ==> r.keyword == school
    ensures !r.showSuggestions
    ensures r.schoolNames == st.schoolNames
    ensures r.selectedGrade == st.selectedGrade && r.classNumber == st.classNumber
    ensures Invariant(st) ==> Invariant(r)
  {
    st.(keyword := StripSuffix(school), showSuggestions := false)
  }

  /** `handleNextStep()`: an empty keyword, grade or class number raises the
      alert and submits nothing (only emptiness is checked, so a keyword of
      spaces passes); otherwise the payload carries the keyword with the suffix
      put back, the grade and the class number. */
  function NextStep(st: FormState): (r: NextStepOutcome)
    ensures r.Alert? <==> st.keyword == "" || st.selectedGrade == "" || st.classNumber == ""
    ensures r.Alert? ==> r.title == AlertTitle && r.message == AlertMessage
    ensures r.Submit? ==> EndsWith(r.payload.schoolName, Suffix)
                          && StripSuffix(r.payload.schoolName) == st.keyword
    ensures r.Submit? ==> r.payload.grade == st.selectedGrade && r.payload.classNumber == st.classNumber
  {
    if st.keyword == "" || st.selectedGrade == "" || st.classNumber == "" then
      Alert(AlertTitle, AlertMessage)
    else
      Submit(ClassInfoPayload(WithSuffix(st.keyword), st.selectedGrade, st.classNumber))
  }

  /** The picker's setter: the grade becomes the chosen item. */
  function SelectGrade(st: FormState, grade: string): (r: FormState)
    requires grade in GradeItems
    ensures r.selectedGrade == grade
    ensures r == st.(selectedGrade := r.selectedGrade)
    ensures Invariant(st) ==> Invariant(r)
  {
    st.(selectedGrade := grade)
  }

  /** The class-number field's setter: the class number becomes the text as typed. */
  function ChangeClassNumber(st: FormState, text: string): (r: FormState)
    ensures r.classNumber == text
    ensures r == st.(classNumber := r.classNumber)
    ensures Invariant(st) ==> Invariant(r)
  {
    st.(classNumber := text)
  }

  // ----- Properties relating several steps -----

  /** On a reachable state the grade is always a picker item, so confirming
      raises the alert exactly when the keyword or the class number is empty. */
  lemma ReachableAlertCauses(st: FormState)
    requires Invariant(st)
    ensures NextStep(st).Alert? <==> st.keyword == "" || st.classNumber == ""
  {
  }

  /** Searching for "" twice leaves the same state as searching once. */
  lemma EmptySearchIdempotent(st: FormState, search: string -> Option<seq<string>>)
    ensures Search(Search(st, "", search).state, "", search) == Search(st, "", search)
  {
  }

  /** A blank search forgets history: from any two states with the same grade
      and class number, and whatever the remote search would answer, it leaves
      the same state and sends nothing. */
  lemma BlankSearchForgetsHistory(st1: FormState, st2: FormState, text: string,
                                  search1: string -> Option<seq<string>>,
                                  search2: string -> Option<seq<string>>)
    requires IsBlank(text)
    requires st1.selectedGrade == st2.selectedGrade && st1.classNumber == st2.classNumber
    ensures Search(st1, text, search1) == Search(st2, text, search2)
    ensures Search(st1, text, search1).queries == []
  {
  }

  /** The search handler depends on the remote search only through its answer
      for the typed text: two searches that agree on it lead to the same outcome. */
  lemma SearchConsultsOnlyTypedText(st: FormState, text: string,
                                    search1: string -> Option<seq<string>>,
                                    search2: string -> Option<seq<string>>)
    requires search1(text) == search2(text)
    ensures Search(st, text, search1) == Search(st, text, search2)
  {
  }

  /** JavaScript treats an empty array as truthy: a non-blank search answered
      with [] shows an empty suggestion list. */
  lemma EmptyResultStillShown(st: FormState, text: string, search: string -> Option<seq<string>>)
    requires !IsBlank(text) && search(text) == Some([])
    ensures Search(st, text, search).state.showSuggestions
    ensures Search(st, text, search).state.schoolNames == []
  {
  }

  /** The search and the confirm step disagree on whitespace: a keyword of
      spaces clears the suggestions when typed, yet is accepted and submitted. */
  lemma WhitespaceKeywordIsSubmitted(st: FormState, text: string, search: string -> Option<seq<string>>)
    requires text != "" && IsBlank(text)
    requires st.selectedGrade != "" && st.classNumber != ""
    ensures Search(st, text, search).queries == []
    ensures NextStep(Search(st, text, search).state)
              == Submit(ClassInfoPayload(text + Suffix, st.selectedGrade, st.classNumber))
  {
  }

  /** Choosing a suggestion that ends with the suffix and confirming submits
      exactly the suggested name, unless the name is the bare suffix, which
      leaves an empty keyword and raises the alert. */
  lemma SelectThenSubmit(st: FormState, school: string)
    requires EndsWith(school, Suffix)
    requires st.selectedGrade != "" && st.classNumber != ""
    ensures school != Suffix ==>
              NextStep(SelectSchool(st, school))
                == Submit(ClassInfoPayload(school, st.selectedGrade, st.classNumber))
    ensures school == Suffix ==> NextStep(SelectSchool(st, school)) == Alert(AlertTitle, AlertMessage)
  {
  }

  /** A suggestion without the suffix is submitted with the suffix added. */
  lemma SelectUnsuffixedThenSubmit(st: FormState, school: string)
    requires !EndsWith(school, Suffix) && school != ""
    requires st.selectedGrade != "" && st.classNumber != ""
    ensures NextStep(SelectSchool(st, school))
              == Submit(ClassInfoPayload(school + Suffix, st.selectedGrade, st.classNumber))
  {
  }

  /** Mounting with a route school name and confirming at once submits that
      name with the default grade and class number, unless the name is empty
      once stripped. */
  lemma MountThenSubmit(name: string)
    requires EndsWith(name, Suffix) && name != Suffix
    ensures NextStep(Mount(Some(name))) == Submit(ClassInfoPayload(name, "3", "1"))
  {
  }

  /** Confirming on a freshly mounted screen without a route name raises the alert. */
  lemma FreshScreenAlerts()
    ensures NextStep(Mount(None)) == Alert(AlertTitle, AlertMessage)
  {
  }

  /** Typing "서울", getting two suggestions and choosing the second: the list
      is shown with both names, then hidden, and the keyword is "서울중앙". */
  lemma SuggestionScenario(search: string -> Option<seq<string>>)
    requires search("서울") == Some(["서울초등학교", "서울중앙초등학교"])
    ensures var typed := Search(Mount(None), "서울", search);
            typed.queries == ["서울"]
            && typed.state.showSuggestions
            && typed.state.schoolNames == ["서울초등학교", "서울중앙초등학교"]
            && SelectSchool(typed.state, "서울중앙초등학교").keyword == "서울중앙"
            && !SelectSchool(typed.state, "서울중앙초등학교").showSuggestions
  {
    assert !IsJsWhitespace("서울"[0]);
    var chosen: string := "서울중앙초등학교";
    assert chosen == "서울중앙" + Suffix;
    StripAfterAppend("서울중앙");
  }

  /** Confirming with keyword "중앙", grade "5" and class "2" submits
      "중앙초등학교", "5", "2". */
  lemma SubmitScenario()
    ensures NextStep(FormState("중앙", [], false, "5", "2"))
              == Submit(ClassInfoPayload("중앙초등학교", "5", "2"))
  {
  }
}
