# Class-information form of the classroom-registration app

A model of the "our class information" screen of a React Native front end
for teachers (`screens/OurClassInfoScreen.js`). The screen lets a teacher
search for an elementary school by name, pick one of the suggestions, set
a grade (1 to 6) and a class number, and confirm. Its logic is a small state
machine over five fields (`keyword`, `schoolNames`, `showSuggestions`,
`selectedGrade`, `classNumber`) driven by:

- a mount-time effect that pre-fills the keyword from a `schoolName` route
  parameter, with a trailing `초등학교` ("elementary school") removed;
- `handleSearch`, the search-as-you-type handler;
- `handleSelectSchool`, which takes a suggestion;
- `handleNextStep`, which validates the three fields and builds the payload
  `{schoolName: keyword + "초등학교", grade, classNumber}`.

Files:

- `js_string.dfy` (module `JsString`): JavaScript's `trim` and the exact set
  of characters it strips (ECMAScript WhiteSpace and LineTerminator).
- `school_name.dfy` (module `SchoolName`): the suffix, its end-anchored
  removal (`replace(/초등학교$/, '')`) and its re-appending, with the
  round-trip lemmas.
- `class_info_screen.dfy` (module `ClassInfoScreen`): the state as a record,
  each handler as a pure transition, the invariant every reachable state
  keeps, and lemmas relating several steps.
- `class_info_controller.dfy` (module `ClassInfoController`): the screen as a
  class whose handlers update its fields in place, each proved to produce
  exactly the state of its pure transition and to keep the invariant.

The remote school search is a parameter `search: string -> Option<seq<string>>`
(`None` is a falsy answer such as `null`); the search handler also reports the
queries it sent (`[]` or `[text]`), so "no call" and "exactly one call with the
untrimmed text" are part of its contract. The submission call is represented
by its payload: confirming returns `Alert(title, message)` or
`Submit(payload)`.

Behaviour the model keeps from the code:

- An empty array is truthy in JavaScript, so a search answered with `[]`
  shows an (empty) suggestion list; only a falsy answer hides it.
- Selecting a suggestion hides the list but keeps its contents.
- Confirming checks only emptiness (`!keyword`), so a keyword of spaces is
  submitted, while the search handler treats the same text as blank.
- Stripping removes one trailing suffix only: `초등학교초등학교` becomes
  `초등학교`, and choosing the bare suggestion `초등학교` leaves an empty
  keyword.

## Model

| member | source | states |
|---|---|---|
| JsString.TrimStart | screens/OurClassInfoScreen.js:37 | The result is a suffix of the input, the dropped prefix is all whitespace, and the result does not start with whitespace. |
| JsString.TrimEnd | screens/OurClassInfoScreen.js:37 | The result is a prefix of the input, the dropped tail is all whitespace, and the result does not end with whitespace. |
| JsString.Trim | screens/OurClassInfoScreen.js:37 | `text.trim()` is a contiguous slice of the text with no whitespace at either end, and everything before and after that slice is whitespace. |
| JsString.TrimEmptyIffBlank | screens/OurClassInfoScreen.js:37 | `text.trim() === ''` holds exactly when every character of the text is JavaScript whitespace (both directions). |
| SchoolName.StripSuffix | screens/OurClassInfoScreen.js:55 | Removing `/초등학교$/`: a name ending with the suffix is the result plus the suffix; any other name comes back unchanged. |
| SchoolName.WithSuffix | screens/OurClassInfoScreen.js:68 | The submitted name ends with the suffix and starts with the stored keyword. |
| SchoolName.StripAfterAppend | screens/OurClassInfoScreen.js:55-68 | Stripping the suffix from keyword + suffix gives the keyword back, even when the keyword itself ends with the suffix. |
| SchoolName.StripChangesIffSuffixed | screens/OurClassInfoScreen.js:55 | Stripping changes a name if and only if the name ends with the suffix. |
| ClassInfoScreen.Initial | screens/OurClassInfoScreen.js:13-27 | Initial state: empty keyword, no suggestions, list hidden, grade "3" (one of the six picker items), class "1"; it satisfies the invariant. |
| ClassInfoScreen.Prefill | screens/OurClassInfoScreen.js:29-33 | A truthy route name becomes the keyword with one trailing suffix removed (unchanged if it has none); an absent or empty name changes nothing; no other field changes. |
| ClassInfoScreen.Mount | screens/OurClassInfoScreen.js:13-33 | The state after mounting: defaults, with the keyword pre-filled from a truthy route name; it satisfies the invariant. |
| ClassInfoScreen.Search | screens/OurClassInfoScreen.js:35-52 | The keyword becomes the untrimmed text; blank text clears and hides suggestions and sends no search; other text sends exactly one search with the text, stores and shows any answer (an empty list included) and clears and hides on no answer; grade and class stay; the invariant is kept. |
| ClassInfoScreen.SelectSchool | screens/OurClassInfoScreen.js:54-59 | The keyword becomes the suggestion with one trailing suffix removed, the list is hidden, its contents, grade and class stay, and the invariant is kept. |
| ClassInfoScreen.NextStep | screens/OurClassInfoScreen.js:61-74 | The alert (with the source's title and message) is raised exactly when keyword, grade or class is empty; otherwise the payload's school name is the keyword with the suffix appended, with the grade and class unchanged. |
| ClassInfoScreen.SelectGrade | screens/OurClassInfoScreen.js:129-139 | The picker sets the grade to one of its items and nothing else; the invariant is kept. |
| ClassInfoScreen.ChangeClassNumber | screens/OurClassInfoScreen.js:143-148 | The class-number field sets the class number to its text and nothing else; the invariant is kept. |
| ClassInfoScreen.ReachableAlertCauses | screens/OurClassInfoScreen.js:61-65 | On any state satisfying the invariant the grade is a picker item, so the alert is raised exactly when the keyword or the class number is empty. |
| ClassInfoScreen.EmptySearchIdempotent | screens/OurClassInfoScreen.js:35-42 | Searching for "" twice leaves the same state as once. |
| ClassInfoScreen.BlankSearchForgetsHistory | screens/OurClassInfoScreen.js:35-42 | A blank search gives the same state from any history and whatever the remote search would answer, and sends nothing. |
| ClassInfoScreen.SearchConsultsOnlyTypedText | screens/OurClassInfoScreen.js:44-51 | The handler depends on the remote search only through its answer for the typed text. |
| ClassInfoScreen.EmptyResultStillShown | screens/OurClassInfoScreen.js:45-47 | A non-blank search answered with an empty list shows an empty suggestion list. |
| ClassInfoScreen.WhitespaceKeywordIsSubmitted | screens/OurClassInfoScreen.js:35-71 | Typing a non-empty all-whitespace text sends no search, yet confirming then submits that text plus the suffix. |
| ClassInfoScreen.SelectThenSubmit | screens/OurClassInfoScreen.js:54-71 | Choosing a suggestion that ends with the suffix and confirming submits exactly that name; the bare suffix leaves an empty keyword and raises the alert. |
| ClassInfoScreen.SelectUnsuffixedThenSubmit | screens/OurClassInfoScreen.js:54-71 | Choosing a non-empty suggestion without the suffix and confirming submits it with the suffix added. |
| ClassInfoScreen.MountThenSubmit | screens/OurClassInfoScreen.js:29-71 | Mounting with a suffixed route name (other than the bare suffix) and confirming submits that name with grade "3" and class "1". |
| ClassInfoScreen.FreshScreenAlerts | screens/OurClassInfoScreen.js:13-65 | Confirming on a screen mounted without a route name raises the alert. |
| ClassInfoScreen.SuggestionScenario | screens/OurClassInfoScreen.js:35-59 | Typing "서울" with two suggestions shows both; choosing "서울중앙초등학교" sets the keyword to "서울중앙" and hides the list. |
| ClassInfoScreen.SubmitScenario | screens/OurClassInfoScreen.js:61-71 | Keyword "중앙", grade "5", class "2" submit "중앙초등학교", "5", "2". |
| ClassInfoController.ClassInfoForm.constructor | screens/OurClassInfoScreen.js:13-33 | Mounting sets the fields to the mounted state and establishes the invariant. |
| ClassInfoController.ClassInfoForm.HandleSearch | screens/OurClassInfoScreen.js:35-52 | Updating the fields in place yields the state and the query list of the pure search transition; the invariant is kept. |
| ClassInfoController.ClassInfoForm.HandleSelectSchool | screens/OurClassInfoScreen.js:54-59 | Updating the fields in place yields the state of the pure selection; the invariant is kept. |
| ClassInfoController.ClassInfoForm.HandleNextStep | screens/OurClassInfoScreen.js:61-74 | Returns the alert or the payload of the pure confirm step and modifies no field. |
| ClassInfoController.ClassInfoForm.SetSelectedGrade | screens/OurClassInfoScreen.js:134 | The picker's setter changes only the grade, to one of its items; the invariant is kept. |
| ClassInfoController.ClassInfoForm.SetClassNumber | screens/OurClassInfoScreen.js:147 | The class-number field's setter changes only the class number; the invariant is kept. |

## Left out

- The rendering (JSX) and the style sheet: layout only.
- With a truthy route school name the screen shows the name as read-only text and renders no search box (screens/OurClassInfoScreen.js:88-107), so `handleSearch` cannot fire on such a screen; the model does not restrict ClassInfoForm.HandleSearch to screens mounted without one.
- `Keyboard.dismiss()` in `handleSelectSchool` and the display of the alert: platform UI effects; the alert is returned as an `Alert(title, message)` value.
- `getSearchSchools` and `postSubmitClassInfo`: HTTP calls defined in files that are not part of this model. The search is a function parameter, the submission is its payload; the navigation handle passed along with it and any failure or rejection of either call are not modelled.
- Overlapping searches: each `handleSearch` is treated as atomic, so an older answer arriving after a newer one and overwriting its suggestions is not modelled.
- The pre-fill effect is run once, at mount; its re-run when the route parameter changes later is not modelled (the screen never changes its own parameters).
- The grade picker's internals, its open/close flag and its item-list setter: third-party widget. ClassInfoController.ClassInfoForm.SetSelectedGrade assumes the picker only delivers one of its six items.
- Strings are sequences of Unicode scalar values, whereas JavaScript strings are UTF-16 code units; the suffix and the whitespace set are all in the Basic Multilingual Plane, so stripping and trimming behave the same.
- `App.js`: navigation wiring only.
