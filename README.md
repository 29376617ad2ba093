# Portfolio builder wizard — a Dafny model of its form-state editing

The portfolio builder is a five-step wizard (Profile, About, Skills, Projects,
Preview) that edits one in-memory `PortfolioData` record. This project models
the parts of it that compute something:

- **Skills step** (`Skills.SkillsStep`): the "Add Skill" input and the add/remove
  handlers. Adding trims the input, refuses blank or duplicate labels and
  appends; removing filters out every copy of a label.
- **Projects step** (`Projects.ProjectsStep`): the project form (`currentProject`,
  `showForm`, `newTech`), the id-keyed upsert behind "Add/Update Project",
  removal by id, reset, edit, and the tech-stack editor inside the form, which
  follows the same trim-and-deduplicate rule as skills (`Labels`).
- **Builder page** (`Wizard.Builder`): the current step, Next and Back that
  saturate at the two ends, the Save-versus-Next button, the Back button's
  disabled state and the progress indicator.
- **Accent-theme store** (`Theme.ThemeProvider`): the initial parse of the
  stored value into `orange | blue`, the effect that writes the theme to local
  storage and to the root element's `data-theme` attribute, and the
  `useTheme` accessor that fails outside a provider.

Modules: `Wrappers` (Option, Result), `Text` (JavaScript `trim`), `Labels`
(the shared list rule), `Portfolio` (the record types and the empty record),
`Wizard`, `Skills`, `Projects`, `Theme`. The step components never own the
record: they hand a new one to `updateData`, which is the builder's state
setter, so their methods take the `Builder` object and may modify only its
`portfolioData` field. Local storage and the root element's attributes are
plain `map<string, string>` fields; the clock reading used as a new project's
id is a parameter.

`src/contexts/ThemeContext.tsx` stores only the accent theme; there is no
light/dark mode in it.

## Model

| member | source | states |
|---|---|---|
| Text.Trim | src/components/builder/SkillsStep.tsx:19 | the trimmed input has no whitespace at either end |
| Text.TrimSplits | src/components/builder/SkillsStep.tsx:19 | the input is the trimmed input with only whitespace before and after it |
| Text.TrimBlank | src/components/builder/SkillsStep.tsx:19 | the trimmed input is empty exactly when the input is blank, which is when `addSkill` refuses it |
| Text.TrimOfPadded | src/components/builder/SkillsStep.tsx:19 | trimming is determined by what it keeps: whitespace + text without edge whitespace + whitespace trims to that text |
| Text.TrimIdempotent | src/components/builder/SkillsStep.tsx:19 | trimming an already trimmed input changes nothing |
| Labels.AddLabel | src/components/builder/SkillsStep.tsx:18-26 | the list grows by exactly one iff the trimmed input is non-blank and not already present (exact match); earlier labels keep their positions; the trimmed input is present afterwards; nothing else is added; a list without duplicates keeps none |
| Labels.RemoveLabel | src/components/builder/SkillsStep.tsx:28-33 | every copy of the label is gone and every other label keeps its number of occurrences |
| Labels.RemoveLabelAppend | src/components/builder/SkillsStep.tsx:31 | removal works piecewise on a concatenation, so the remaining labels keep their relative order |
| Labels.RemoveAbsentLabel | src/components/builder/SkillsStep.tsx:31 | removing a label that is not in the list is the identity |
| Labels.RemoveLabelIdempotent | src/components/builder/SkillsStep.tsx:31 | removing a label twice equals removing it once |
| Labels.RemoveLabelKeepsDistinct | src/components/builder/SkillsStep.tsx:31 | a list without duplicates has none after a removal |
| Labels.RemoveUndoesAdd | src/components/builder/SkillsStep.tsx:18-33 | after an accepted add, removing the trimmed input gives back the original list |
| Skills.SkillsStep.constructor | src/components/builder/SkillsStep.tsx:16 | the skill input starts empty |
| Skills.SkillsStep.SetNewSkill | src/components/builder/SkillsStep.tsx:51 | typing replaces the input text |
| Skills.SkillsStep.AddSkill | src/components/builder/SkillsStep.tsx:18-26 | the record's skills become `AddLabel` of the old skills and input, profile/about/projects unchanged; the input is cleared exactly when the add is accepted and otherwise kept |
| Skills.SkillsStep.RemoveSkill | src/components/builder/SkillsStep.tsx:28-33 | the record's skills become `RemoveLabel` of the old skills; every other field and the input unchanged |
| Projects.ReplaceById | src/components/builder/ProjectsStep.tsx:46-48 | same length; every entry with the id is replaced by the new project, every other entry stays at its position |
| Projects.RemoveById | src/components/builder/ProjectsStep.tsx:79-84 | every project with the id is gone; every other project keeps its number of occurrences |
| Projects.Upsert | src/components/builder/ProjectsStep.tsx:36-56 | an id-less form is appended under the fresh id with the prefix unchanged; a form with an id replaces exactly the matching entries in place; with no match the list is unchanged |
| Projects.UpsertIds | src/components/builder/ProjectsStep.tsx:39-55 | an update keeps the id list; an insert appends the fresh id to it |
| Projects.UpsertKeepsIdsDistinct | src/components/builder/ProjectsStep.tsx:39-55 | unique project ids stay unique, under the stated precondition that a fresh id is not already in use |
| Projects.ResubmitUnchanged | src/components/builder/ProjectsStep.tsx:42-49 | with unique ids, submitting a project loaded unchanged from the list leaves the list as it was |
| Projects.RemoveByIdAppend | src/components/builder/ProjectsStep.tsx:82 | removal by id works piecewise, so the remaining projects keep their order |
| Projects.RemoveByIdIds | src/components/builder/ProjectsStep.tsx:82 | the ids after `removeProject(id)` are the old ids with `id` filtered out |
| Projects.ProjectsStep.constructor | src/components/builder/ProjectsStep.tsx:17-33 | the form starts hidden, with all fields empty, both links empty and no tech, and an empty tech input |
| Projects.ProjectsStep.OpenForm | src/components/builder/ProjectsStep.tsx:114 | the "Add Project" button shows the form |
| Projects.ProjectsStep.SetTitle | src/components/builder/ProjectsStep.tsx:128-130 | typing a title changes only the form's title |
| Projects.ProjectsStep.SetDescription | src/components/builder/ProjectsStep.tsx:141-143 | typing a description changes only the form's description |
| Projects.ProjectsStep.SetGithub | src/components/builder/ProjectsStep.tsx:190-195 | typing changes only the form's GitHub link |
| Projects.ProjectsStep.SetLive | src/components/builder/ProjectsStep.tsx:205-210 | typing changes only the form's live link |
| Projects.ProjectsStep.SetImage | src/components/builder/ProjectsStep.tsx:220-222 | typing changes only the form's image |
| Projects.ProjectsStep.SetNewTech | src/components/builder/ProjectsStep.tsx:153 | typing replaces the tech input text |
| Projects.ProjectsStep.ResetForm | src/components/builder/ProjectsStep.tsx:62-72 | the form is cleared to all-empty fields with an empty tech stack and hidden; the tech input is untouched |
| Projects.ProjectsStep.AddProject | src/components/builder/ProjectsStep.tsx:35-60 | with non-empty title and description (no trimming) the record's projects become the upsert of the form and the form is reset and hidden; otherwise neither the record nor the form changes |
| Projects.ProjectsStep.EditProject | src/components/builder/ProjectsStep.tsx:74-77 | the project is loaded into the form and the form is shown; the record is untouched |
| Projects.ProjectsStep.RemoveProject | src/components/builder/ProjectsStep.tsx:79-84 | the record's projects become `RemoveById` of the old list; every other field and the form unchanged |
| Projects.ProjectsStep.AddTech | src/components/builder/ProjectsStep.tsx:86-94 | the form's tech stack becomes `AddLabel` of the old stack and input, other form fields unchanged; the tech input is cleared exactly when accepted |
| Projects.ProjectsStep.RemoveTech | src/components/builder/ProjectsStep.tsx:96-101 | the form's tech stack becomes `RemoveLabel` of the old stack; no other form field changes |
| Wizard.Next | src/pages/Builder.tsx:51-55 | Next advances by exactly one unless the step is already the last (then it stays), and keeps a valid step valid |
| Wizard.Back | src/pages/Builder.tsx:57-61 | Back goes back by exactly one unless the step is already the first (then it stays), and keeps a valid step valid |
| Wizard.RunStaysValid | src/pages/Builder.tsx:41-61 | under any sequence of Next and Back clicks the step stays within the five steps |
| Wizard.NextClicksSaturate | src/pages/Builder.tsx:51-55 | k Next clicks from the first step reach step min(k, 4) |
| Wizard.NextBackRoundTrip | src/pages/Builder.tsx:51-61 | from a step before the last, Next then Back returns to it; from a step after the first, Back then Next does |
| Wizard.PrimaryAction | src/pages/Builder.tsx:145-153 | Save is offered exactly on the last step, Next everywhere else |
| Wizard.ButtonsMatchNavigation | src/pages/Builder.tsx:137-153 | on a valid step, Next is offered exactly where it moves the wizard, and Back is disabled (`BackDisabled`, step 0, line 140) exactly where it would not move it |
| Wizard.Progress | src/pages/Builder.tsx:99-117 | one marker per step numbered from 1; circle i is reached iff i <= step; a connector follows every circle but the last and is filled iff i < step |
| Wizard.ProgressShowsStep | src/pages/Builder.tsx:102-107 | on a valid step exactly step + 1 circles are reached |
| Wizard.Builder.constructor | src/pages/Builder.tsx:33-39 | the wizard opens on step 0 with the empty record: empty texts, no skills, no projects |
| Wizard.Builder.CurrentPane | src/pages/Builder.tsx:41-49 | the pane on screen identifies the current step (each pane belongs to exactly one step), and it is the preview exactly on the last step |
| Wizard.StepsPanesDistinct | src/pages/Builder.tsx:41-47 | the steps table lists each pane once |
| Wizard.Builder.HandleNext | src/pages/Builder.tsx:51-55 | the step becomes `Next` of the old step and stays valid; the record is untouched |
| Wizard.Builder.HandleBack | src/pages/Builder.tsx:57-61 | the step becomes `Back` of the old step and stays valid; the record is untouched |
| Wizard.Builder.UpdateData | src/pages/Builder.tsx:129-132 | the record is replaced by the one a step hands over; the step is untouched |
| Theme.Parse | src/contexts/ThemeContext.tsx:13-16 | the initial theme is Blue iff the stored value is exactly "blue"; anything else, absent included, is Orange |
| Theme.Persist | src/contexts/ThemeContext.tsx:25 | after the write, `accent-theme` holds the theme's name and every other key is kept |
| Theme.Reflect | src/contexts/ThemeContext.tsx:19-24 | `data-theme` is "blue" for Blue and absent for Orange; every other root attribute is kept |
| Theme.ParseName | src/contexts/ThemeContext.tsx:13-25 | each theme parses back from the name it is stored as |
| Theme.LoadPersist | src/contexts/ThemeContext.tsx:13-25 | a theme written to storage is the theme the next start reads |
| Theme.ThemeProvider.constructor | src/contexts/ThemeContext.tsx:12-26 | mounting parses the stored theme, then the effect writes it back (replacing an unrecognised value) and reflects it on the root |
| Theme.ThemeProvider.ApplyTheme | src/contexts/ThemeContext.tsx:18-26 | the effect sets or removes `data-theme` and stores the theme, leaving storage and attributes in sync with it |
| Theme.ThemeProvider.SetTheme | src/contexts/ThemeContext.tsx:12-26 | the theme becomes t; storage and the root attribute end in sync with t and nothing else in them changes |
| Theme.Reload | src/contexts/ThemeContext.tsx:13-25 | setting theme t and then starting afresh from the same storage yields t |
| Theme.UseTheme | src/contexts/ThemeContext.tsx:35-41 | the accessor returns the provider in scope and fails with the documented error exactly when there is none |

## Left out

- React mechanics (rendering, hook scheduling, stale closures between renders), routing and toasts: each handler is modelled as one atomic state change.
- `handleSave` (src/pages/Builder.tsx:63-73): it only shows a notification and navigates; there is no persistence to model.
- The profile and about steps, the preview step, the templates and the other pages: layout or plain field setters outside this model.
- `Date.now().toString()`: the new project id is the `freshId` parameter, required non-empty as every clock string is; the code does not make ids unique, so uniqueness appears only as a precondition of `Projects.UpsertKeepsIdsDistinct` and `Projects.ResubmitUnchanged`.
- The browser's real local storage and DOM: both are maps held by the provider; the model does not capture other writers of the same key.
- Strings are sequences of Unicode scalar values rather than UTF-16 code units; every character `trim` strips lies in the Basic Multilingual Plane, so trimming agrees.
- Step-local state across navigation: the page renders only the current step's component, so every Next or Back click unmounts the step being left and discards its `newSkill`, `showForm`, `currentProject` and `newTech`; the model's `SkillsStep` and `ProjectsStep` objects are not tied to `currentStep` and keep that state.
