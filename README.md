# AI Portfolio Builder, modelled in Dafny

The AI Portfolio Builder is a React wizard. It collects a portfolio in five
steps: basic information, skills, work experience, projects and design
choices. It then asks a text-generation model for a single self-contained
`index.html`, cleans up the answer and shows the result page. That page can
preview the HTML, copy it, download it as a zip, or go back to the first
step.

This project models the wizard's logic, with rendering, browser APIs and the
network taken away, and proves what that logic promises:

- `optional.dfy`: the `Option` type. It stands for TypeScript's `null`,
  `undefined` and optional properties.
- `text.dfy`: the JavaScript string operations the code relies on:
  - `trim`, `trimStart` and `trimEnd`, over the ECMAScript white-space and
    line-terminator characters;
  - `startsWith` and `endsWith`;
  - `Array.prototype.join`;
  - `replace(/\s+/g, ...)`.
- `lists.dfy`: `filter`, `map` and the filter-by-position used to remove a
  skill.
- `types.dfy`: the portfolio record (`types.ts`). It has closed enumerations
  for theme, colour scheme and layout, and reads a record section by key.
- `form_steps.dfy`: the `FormStep` enumeration and the upper bound of
  `nextStep`.
- `step_indicator.dfy`: the progress bar (`components/StepIndicator.tsx`).
- `portfolio_preview.dfy`: the result page (`components/PortfolioPreview.tsx`):
  which view is shown, its buttons, the download file name, and the guards
  of copy and download.
- `generation.dfy`: the generation client (`services/geminiService.ts`):
  - the data-dependent fragments of the prompt;
  - the clean-up of the answer, as a method that reassigns its local copy step
    by step, proved against a specification function;
  - the one error every failure becomes.
- `wizard.dfy`: the page itself (`App.tsx`):
  - its five state cells as a class whose methods update them in place;
  - the same transitions as functions on a state value;
  - the screen rendered for a state and the events the screen offers;
  - an invariant that every offered event keeps, including events that
    arrive while a generation is pending.
- `skills_form.dfy`, `experience_form.dfy`, `projects_form.dfy`,
  `basic_info_form.dfy`, `design_form.dfy`: the section editors. Each is a
  set of pure replacement edits, plus the skill text box, which is a class
  with its own state.

The step values are BASIC_INFO = 1 through COMPLETE = 6. The file that
declares them, `constants.ts`, is not part of this model. The values follow
from two places: the order of the step table in `StepIndicator.tsx` and the
lower bound 1 of `prevStep`.

Four behaviours of the code are worth knowing; the model follows the code
as written:

- `nextStep` clamps at `Object.keys(FormStep).length / 2`. For a numeric
  enumeration that is the member count, 6, so the clamp is at COMPLETE, not
  at DESIGN. Through the page this cannot be seen, because DESIGN offers
  Generate instead of Next.
- Reset ("Try Again" and "Start Over") only moves to the first step. The
  form data, the generated HTML and the error are all kept.
- A failed generation is never shown: see "## Findings".
- Experience and project ids are caller-supplied and nothing makes them
  unique. Removal and change act on every entry that carries the id.

## Model

| member | source | states |
|---|---|---|
| Types.Read | types.ts:38-44 | reading a record at a key yields a value tagged with that same key |
| Types.SectionsDetermineData | types.ts:38-44 | a portfolio record is exactly its five sections: two records that agree on basicInfo, skills, experience, projects and design are equal |
| Types.EnumerationsComplete | types.ts:32-36 | the theme, colour-scheme and layout lists each contain every member of their enumeration, and none twice |
| Types.ThemeFromName | types.ts:33 | a string names a theme exactly when it is "light" or "dark"; the name of the parsed theme is the string, and no other theme has that name |
| Types.ColorSchemeFromName | types.ts:34 | a string names a colour scheme exactly when it is one of blue, green, purple, orange, cyan; parsing inverts naming |
| Types.LayoutFromName | types.ts:35 | a string names a layout exactly when it is "one-page" or "multi-page"; parsing inverts naming |
| ProjectsForm.Get | types.ts:24-30 | every project field other than the two links is always present |
| ExperienceForm.FieldsDetermineEntry | types.ts:15-22 | an experience entry is exactly its six required fields |
| ProjectsForm.FieldsDetermineProject | types.ts:24-30 | a project is exactly its five fields |
| FormSteps.MembersNumberedInOrder | App.tsx:45 | the step members are numbered 1, 2, ... in order; half the key count of the enumeration object is 6, COMPLETE; the steps are exactly the member values |
| StepIndicator.StepsInOrder | components/StepIndicator.tsx:10-16 | the bar lists BASIC_INFO through DESIGN, once each and in order, and never COMPLETE |
| StepIndicator.ClickTarget | components/StepIndicator.tsx:25 | a click on an item reports an editing step, never COMPLETE, and it is the number the item shows as "Step {index + 1}" |
| StepIndicator.HighlightedPrefix | components/StepIndicator.tsx:28 | if an item is highlighted, so is every item before it |
| StepIndicator.HighlightedCount | components/StepIndicator.tsx:28-34 | the number of highlighted items is the current step, capped between 0 and 5 |
| PortfolioPreview.SelectView | components/PortfolioPreview.tsx:41-62 | the failure view is shown exactly when the error is non-empty, whatever the HTML; the waiting view exactly when neither error nor HTML is non-empty; otherwise the ready view, with the HTML |
| PortfolioPreview.ResetButtons | components/PortfolioPreview.tsx:41-103 | "Try Again" and "Start Over" are the buttons that call `onReset`; every view except the waiting view offers one of them |
| PortfolioPreview.DownloadName | components/PortfolioPreview.tsx:26 | the archive name ends in "_portfolio.zip" and contains no white space; a name without white space is kept as it is |
| PortfolioPreview.DownloadNameJoinsWords | components/PortfolioPreview.tsx:26 | a white-space run of any length between two words of the name becomes exactly one underscore |
| PortfolioPreview.HandleDownloadZip | components/PortfolioPreview.tsx:19-31 | an archive is produced exactly when the HTML is non-empty; it holds the HTML as index.html and is named after the user |
| PortfolioPreview.HandleCopy | components/PortfolioPreview.tsx:33-39 | text reaches the clipboard exactly when the HTML is non-empty, and it is that HTML |
| PortfolioPreview.ActionsNeedReadyView | components/PortfolioPreview.tsx:19-62 | without an error, copy and download act exactly when the ready view is the one shown |
| Text.Trim | services/geminiService.ts:83 | the trimmed text neither begins nor ends with white space |
| Text.TrimIsSlice | services/geminiService.ts:83 | the trimmed text is the contiguous piece of the input that starts where the leading white space ends |
| Text.TrimRemovesOnlySpace | services/geminiService.ts:83 | everything trim removes, before and after, is white space; the text trims to nothing exactly when it is all white space |
| Text.TrimIdentity | services/geminiService.ts:83 | trimming leaves a text unchanged exactly when it neither begins nor ends with white space |
| Text.JoinLength | services/geminiService.ts:41-43 | a join is as long as its items plus one separator between each two neighbours |
| Text.JoinPrefix | services/geminiService.ts:41-43 | the join of a list begins with the join of each of its non-empty prefixes, so the items appear in order |
| Text.ReplaceSpaceRuns | components/PortfolioPreview.tsx:26 | replacing white-space runs by a non-space character leaves no white space and never lengthens the text |
| Text.ReplaceSpaceFree | components/PortfolioPreview.tsx:26 | a text without white space is left unchanged |
| Text.ReplaceRunBetweenWords | components/PortfolioPreview.tsx:26 | a word, a white-space run and the rest become the word, one replacement character and the replaced rest |
| Lists.Filter | components/forms/ExperienceForm.tsx:18 | an element is kept exactly when it was in the list and passes the test |
| Lists.FilterAppend | components/forms/ExperienceForm.tsx:18 | filtering a concatenation filters each part and keeps them in order |
| Lists.FilterLength | components/forms/ExperienceForm.tsx:18 | a filter keeps exactly as many elements as pass it |
| Lists.Map | components/forms/ExperienceForm.tsx:22 | one result per element, each the function of the element at the same position |
| Lists.DropIndex | components/forms/SkillsForm.tsx:72 | a position of the list is removed and the rest keep their order; any other index leaves the list as it is |
| Generation.PictureDataUri | services/geminiService.ts:22 | the image source is the JPEG base64 data-URI prefix followed by exactly the stored payload |
| Generation.PictureNote | services/geminiService.ts:38 | the picture line says "Yes, included in data URI." exactly when a picture is stored, and "No picture provided." exactly when none is |
| Generation.LinkText | services/geminiService.ts:57-58 | a present, non-empty link is printed as it is; a missing or empty one as "N/A" |
| Generation.SkillList | services/geminiService.ts:41-43 | a category prints as its skills joined by ", ": empty for no skills; otherwise starting with the first skill and as long as the skills plus the separators |
| Generation.PromptBlocksFollowLists | services/geminiService.ts:46-59 | one experience block and one project block per entry, in list order; an experience block carries the company, the role, the dates as "start - end" and the description; a project block carries the title, the description and both links, with "N/A" for a missing or empty one |
| Generation.CreatePrompt | services/geminiService.ts:13-63 | the design choices can be read back from the prompt; name, title and bio appear as entered; the picture travels whole behind the JPEG data-URI prefix; the picture note says "included" exactly when a picture is stored; one block per experience entry and per project |
| Generation.PromptNamesDesign | services/geminiService.ts:26-28 | portfolios with different design choices get different prompts |
| Generation.Cleaned | services/geminiService.ts:75-83 | the cleaned answer neither begins nor ends with white space and is no longer than the text between the fences |
| Generation.CleanedCases | services/geminiService.ts:75-83 | a leading "```html" loses exactly its seven characters, once; a trailing "```", looked for after that strip, loses exactly its three, once; without fences the answer is only trimmed |
| Generation.CleanedIsPiece | services/geminiService.ts:75-83 | the cleaned answer neither begins nor ends with white space and is a contiguous piece of the answer between the fences |
| Generation.CleanedFencedDocument | services/geminiService.ts:75-83 | an answer made of a fence, white space, a trimmed document, white space and a closing fence cleans to exactly the document |
| Generation.CleanedBareDocument | services/geminiService.ts:75-83 | an answer that is already a bare trimmed document comes back unchanged |
| Generation.TrimPadded | services/geminiService.ts:83 | trimming white space around a trimmed text gives back that text |
| Generation.CleanResponse | services/geminiService.ts:75-83 | the step-by-step clean-up of the local copy computes the cleaned answer |
| Generation.GeneratePortfolio | services/geminiService.ts:65-88 | a call settles with the cleaned text exactly when the service answers with a text; any failure, or an answer without text, settles with an Error carrying the one fixed message |
| Wizard.CaughtMessage | App.tsx:58 | the catch stores an Error's message, and "An unknown error occurred." for anything else thrown |
| Wizard.WithSection | App.tsx:41-43 | after `updateFormData`, the named section reads back as given and the other four sections are unchanged |
| Wizard.WithSectionLaws | App.tsx:41-43 | writing back a section as read changes nothing; a second write to a section replaces the first |
| Wizard.NextStep | App.tsx:45 | one step on, unless that would pass COMPLETE, where it stays at COMPLETE |
| Wizard.PrevStep | App.tsx:46 | one step back, unless that would go below BASIC_INFO, where it stays at BASIC_INFO |
| Wizard.StepMoves | App.tsx:45-46 | next and previous stay among the steps; away from the ends they move by one and undo each other; next stands still at COMPLETE and previous at BASIC_INFO |
| Wizard.Begin | App.tsx:50-52 | loading starts with the previous error and result cleared, the step and data kept, and on the Design form the button turns into a disabled "Generating..." |
| Wizard.Settle | App.tsx:49-62 | success stores the HTML and moves to COMPLETE; failure stores the caught message and, as written, keeps the step; loading ends either way and the form data is untouched |
| Wizard.Reset | App.tsx:77 | the first form is shown; the form data, result, error and loading flag are kept |
| Wizard.ScreenOf | App.tsx:76-88 | the form of the current step is shown exactly when the step is not COMPLETE; otherwise the result page, with the view selected by the stored HTML and error |
| Wizard.NavButtons | App.tsx:101-125 | Back is disabled exactly at BASIC_INFO; DESIGN offers Generate, disabled while loading, and every other step offers Next |
| Wizard.Enabled | App.tsx:98-125 | Next is offered only on editing steps before DESIGN, Back only after BASIC_INFO, Generate only on DESIGN when not loading, reset only on a result page showing a failure or a result; at COMPLETE only reset and a pending settlement can happen |
| Wizard.Apply | App.tsx:41-62 | only edits change the form data, only Generate and a settlement touch loading, result and error, and edits never move the step |
| Wizard.InitialInv | App.tsx:16-39 | the initial state satisfies the invariant |
| Wizard.EventKeepsInv | App.tsx:41-125 | every event the page offers keeps the step a member of the enumeration; no error or result while loading; at COMPLETE nothing loading, with a result and no error as written |
| Wizard.RunKeepsInv | App.tsx:41-125 | any sequence of offered events keeps the invariant |
| Wizard.CompleteNeedsSuccess | App.tsx:54-56 | without a settled generation the page never reaches COMPLETE |
| Wizard.FailureViewNeverShown | App.tsx:57-77 | as written, no sequence of offered events shows the "Generation Failed" view |
| Wizard.FailureLeavesDesignForm | App.tsx:57-60 | as written, a failed generation from the Design form stores the message and leaves the Design form on screen |
| Wizard.ReportedFailureIsShown | components/PortfolioPreview.tsx:41-51 | when failures move to the result page, the page shows the failure view with the message and offers only "Try Again" |
| Wizard.TryAgainKeepsAnswers | App.tsx:77 | reset from the result page shows the first form with the form data kept |
| Wizard.EmptyResultStrands | components/PortfolioPreview.tsx:53-60 | a generation whose cleaned answer is empty reaches COMPLETE with the waiting view, which has no buttons, and then no event is offered at all |
| Wizard.SuccessShowsResult | App.tsx:54-56 | a non-empty generated page is shown in the ready view and is what copy puts on the clipboard |
| Wizard.App.constructor | App.tsx:16-39 | the page starts at BASIC_INFO with empty texts and lists, a dark blue one-page design, not loading, no result and no error |
| Wizard.App.UpdateFormData | App.tsx:41-43 | only the form data changes, to the record with the section replaced |
| Wizard.App.Next | App.tsx:45 | only the step changes, to the clamped next step |
| Wizard.App.Prev | App.tsx:46 | only the step changes, to the clamped previous step |
| Wizard.App.GoToStep | App.tsx:47 | only the step changes, to exactly the target |
| Wizard.App.OnReset | App.tsx:77 | only the step changes, to BASIC_INFO |
| Wizard.App.HandleGenerate | App.tsx:49-62 | the outcome is the one `generatePortfolio` promises; the new state is the cleared state settled with that outcome |
| SkillsForm.WithCategory | components/forms/SkillsForm.tsx:62-74 | the named category takes the new list; the other two are unchanged; writing back the list as read changes nothing |
| SkillsForm.AddSkill | components/forms/SkillsForm.tsx:62-67 | the skill is appended at the end of its category, the skills before it are untouched, and the other categories are unchanged |
| SkillsForm.RemoveSkill | components/forms/SkillsForm.tsx:69-74 | position `index` of the category is dropped, the rest keep their order, the other categories are unchanged; an index that is not a position changes nothing |
| SkillsForm.RemoveUndoesAdd | components/forms/SkillsForm.tsx:62-74 | removing the skill just added gives back the skills as they were |
| SkillsForm.RemoveTakesOneSkill | components/forms/SkillsForm.tsx:72 | a removal takes out exactly one occurrence of the removed skill and nothing else |
| SkillsForm.Submitted | components/forms/SkillsForm.tsx:22-24 | nothing is handed on exactly when the input is all white space; otherwise the trimmed input, which is non-empty and trimmed |
| SkillsForm.SubmittedIsStable | components/forms/SkillsForm.tsx:23-24 | submitting what was handed on hands it on unchanged |
| SkillsForm.SkillInput.constructor | components/forms/SkillsForm.tsx:20 | the text box starts empty |
| SkillsForm.SkillInput.SetNewSkill | components/forms/SkillsForm.tsx:36 | the text box holds what was typed |
| SkillsForm.SkillInput.HandleAdd | components/forms/SkillsForm.tsx:22-27 | the trimmed input is handed on when non-empty, and only then is the box cleared; otherwise nothing is handed on and the box is kept |
| ExperienceForm.SetField | components/forms/ExperienceForm.tsx:22 | the named field takes the value and every other field is unchanged |
| ExperienceForm.BlankEntry | components/forms/ExperienceForm.tsx:14 | a new entry has the given id and every other field empty |
| ExperienceForm.AddExperience | components/forms/ExperienceForm.tsx:13-15 | one blank entry with the given id is appended, and the entries before it are untouched |
| ExperienceForm.RemoveExperience | components/forms/ExperienceForm.tsx:17-19 | an entry is kept exactly when its id differs; with an absent id the list is unchanged |
| ExperienceForm.RemoveInOrder | components/forms/ExperienceForm.tsx:18 | removal keeps each non-matching entry, drops each matching one, and keeps the survivors in their original order |
| ExperienceForm.RemoveUndoesAdd | components/forms/ExperienceForm.tsx:13-19 | removing a freshly added id that no other entry carries gives back the list |
| ExperienceForm.ChangeExperience | components/forms/ExperienceForm.tsx:21-23 | the length and order are kept; entries without the id are unchanged; entries with it take the value in the named field, with every other field unchanged; an absent id changes nothing |
| ExperienceForm.ChangeOverrides | components/forms/ExperienceForm.tsx:22 | a second change of the same field of the same entries overrides the first |
| ProjectsForm.SetField | components/forms/ProjectsForm.tsx:22 | the named field takes the value and every other field is unchanged |
| ProjectsForm.BlankProject | components/forms/ProjectsForm.tsx:14 | a new project has the given id, an empty title and description, and both links present and empty |
| ProjectsForm.AddProject | components/forms/ProjectsForm.tsx:13-15 | one blank project with the given id is appended, and the projects before it are untouched |
| ProjectsForm.RemoveProject | components/forms/ProjectsForm.tsx:17-19 | a project is kept exactly when its id differs; with an absent id the list is unchanged |
| ProjectsForm.RemoveInOrder | components/forms/ProjectsForm.tsx:18 | removal keeps each non-matching project, drops each matching one, and keeps the survivors in their original order |
| ProjectsForm.RemoveUndoesAdd | components/forms/ProjectsForm.tsx:13-19 | removing a freshly added id that no other project carries gives back the list |
| ProjectsForm.ChangeProject | components/forms/ProjectsForm.tsx:21-23 | the length and order are kept; projects without the id are unchanged; projects with it take the value in the named field, with every other field unchanged; an absent id changes nothing |
| ProjectsForm.ChangeOverrides | components/forms/ProjectsForm.tsx:22 | a second change of the same field of the same projects overrides the first |
| BasicInfoForm.SetField | components/forms/BasicInfoForm.tsx:36 | the named field takes the value and every other field is unchanged |
| BasicInfoForm.OnTextChange | components/forms/BasicInfoForm.tsx:46-49 | typing in name, title or bio changes that field only; the picture is kept |
| BasicInfoForm.IndexOf | components/forms/BasicInfoForm.tsx:35 | the first position of the character, or -1 when it does not occur |
| BasicInfoForm.Payload | components/forms/BasicInfoForm.tsx:35 | the payload contains no comma, starts right after the first comma, and ends at the next comma or at the end |
| BasicInfoForm.PayloadAfterHeader | components/forms/BasicInfoForm.tsx:34-35 | a comma-free header, a comma and a comma-free payload give back that payload |
| BasicInfoForm.PayloadOfPictureDataUri | components/forms/BasicInfoForm.tsx:35 | a comma-free payload put behind the JPEG data-URI prefix is recovered exactly |
| BasicInfoForm.HandleFileChange | components/forms/BasicInfoForm.tsx:28-40 | an update is emitted exactly when a file is selected; it sets the picture to the payload and keeps every other field |
| BasicInfoForm.UploadExample | components/forms/BasicInfoForm.tsx:34-36 | uploading "data:image/jpeg;base64,XYZ" stores "XYZ" |
| DesignForm.OptionsAreDomains | components/forms/DesignForm.tsx:52-81 | each group's option values are the names of its enumeration's members, in order; a string is an option exactly when it names a member |
| DesignForm.OptionsDistinct | components/forms/DesignForm.tsx:52-81 | no group offers a value twice |
| DesignForm.OneChecked | components/forms/DesignForm.tsx:28 | among distinct options, one is checked when the selection is among them, and none otherwise |
| DesignForm.ExactlyOneChecked | components/forms/DesignForm.tsx:28 | for any design, exactly one option of each group is checked |
| DesignForm.OnThemeChange | components/forms/DesignForm.tsx:52 | the picked theme is stored; colour scheme and layout are kept |
| DesignForm.OnColorSchemeChange | components/forms/DesignForm.tsx:63 | the picked colour scheme is stored; theme and layout are kept |
| DesignForm.OnLayoutChange | components/forms/DesignForm.tsx:77 | the picked layout is stored; theme and colour scheme are kept |
| DesignForm.PickingCheckedOptionIsNoChange | components/forms/DesignForm.tsx:28-29 | picking the option already checked changes nothing |

## Left out

- The API-key check, the Gemini SDK call with its model name `gemini-2.5-flash`, and `console.error` (services/geminiService.ts:4-10, 69-72, 85) are not modelled. They are environment and network I/O. The service is a parameter: a function from the prompt's fragments to its answer, or to a failure.
- The fixed instruction text of the prompt is not modelled. Only the fragments that depend on the portfolio are.
- The `FileReader` read is not modelled. The data URL the reader produces is a parameter of `HandleFileChange`. Also left out: the `fileName` state, read failures, and the reader callback closing over the record as it was when the file was picked.
- BasicInfoForm.Payload: requires a comma in the data URL. `readAsDataURL` always produces one. Without one, the code would store `undefined`, and that case is not modelled.
- JSZip, `Blob`, the temporary download link, the clipboard write, and the `copied` flag with its two-second timer are not modelled. `HandleDownloadZip` and `HandleCopy` return what would be archived or copied.
- Ids from `Date.now()` are caller-supplied. Nothing assumes they are unique.
- JSX, CSS and the iframe sandbox are not modelled. Neither are the highlight colours (only whether an item is highlighted), the option labels and colour swatches of the design form, or the placeholder text of the skill boxes.
- The Enter key of a skill box calls the same `handleAdd` as its button and is not modelled separately.
- White space is the fixed list of ECMAScript white-space and line-terminator characters, with the space separators of Unicode 15. Strings are sequences of code points, not UTF-16 code units. Every character in that list is a single UTF-16 code unit, and the fences are ASCII. So every cut the code makes, whether at a fence or at white space, removes the same characters as the model.
- Each handler's state updates are applied together, as React batches them. The event machine in `wizard.dfy` lets any offered event arrive between the start and the settlement of a generation.
- Wizard.App.HandleGenerate: runs the generation to completion. Events arriving while it is pending are covered by the event machine (`Wizard.Apply`, `Wizard.RunKeepsInv`), not by the class.
- Wizard.ScreenOf: maps a step outside 1..6, which `renderFormStep` would render as nothing, to a form screen. The invariant rules such steps out.
- DesignForm.OnThemeChange, DesignForm.OnColorSchemeChange, DesignForm.OnLayoutChange: require the value to be one of the group's options, because a radio group only emits those.
- ProjectsForm.SetField, ProjectsForm.ChangeProject: require a value for every field except the two links, as the field types demand.

## Findings

| source | as written | input that shows it | evidently intended | confidence | as-written member | corrected member |
|---|---|---|---|---|---|---|
| App.tsx:57-60 | A failed generation stores the message and stays on the current step. The message goes only to the result page, which renders only at COMPLETE, and at COMPLETE the error is always cleared. So "Generation Failed" is never shown, and the user is left on the Design form with no message. | From the start: click "Design" in the step bar, click "Generate Portfolio", and the service fails. The stored error is the fixed failure message, and the screen is the Design form. | A failure moves to the result page, which shows "Generation Failed", the message and "Try Again" | not executed; high: the result page's failure view and its "Try Again" button exist only for this case | Wizard.FailureLeavesDesignForm | Wizard.ReportedFailureIsShown |

The corrected behaviour is `Wizard.Settle` with policy `Reported`. The class
method `Wizard.App.HandleGenerate` and the event machine take the policy as a
parameter, so they model both the code as written and the corrected
behaviour. `Wizard.FailureViewNeverShown` states the as-written
behaviour over every sequence of events.
