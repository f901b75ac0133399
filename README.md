# Résumé-optimization dashboard and session store, modelled in Dafny

This project models the two stateful parts of an AI résumé-tailoring web app.

- **The optimization workflow** of the dashboard component. A user uploads a résumé and gives a job target (a title and a company, or a description). They start an optimization, which finishes after a timer. They can reset the result, change five tuning parameters, four of which have a slider (Dashboard.js:400-473), and pick a preview template.
- **The session store**. It keeps the signed-in user record and mirrors it into the browser's key-value storage under the key `"user"`.

## Layout

- `wrappers.dfy`, module `Wrappers`: `Option`, a value that may be absent. It stands for a JavaScript value that is `null` (no résumé, no user), for a key missing from an object (a profile without match score or improvements), and for "no timer pending".
- `resumes.dfy`, module `Resumes`:
  - the résumé record (`Resume`, `Profile`, `Experience`, `Education`);
  - the fixed profile that intake attaches to every upload (`FixtureProfile`, with the source's literal values);
  - the simulated engine `Optimize`, which copies a résumé and overrides some fields.
- `tuning.dfy`, module `Tuning`: the five tuning parameters, four of which have a slider (Dashboard.js:400-473), as a `Parameters` record. `With` is the single-key update `{...parameters, [p]: v}`.
- `dashboard.dfy`, module `Dashboard`: class `Workflow`.
  - Its fields are the component's ten `useState` variables, plus `pending`.
  - `pending` is the scheduled completion timer, carrying the résumé its callback captured.
  - Each method is one event handler. Its `modifies` clause names exactly the fields that handler sets, so every other field is provably unchanged.
  - `Valid()` is the invariant every handler keeps: `showParameters` holds iff an optimized résumé exists; an optimized résumé or a pending run implies a résumé; `isProcessing` holds iff a timer is pending.
  - `Phase()` reads the four workflow phases (Empty, ResumeLoaded, Optimizing, Optimized) off the state.
- `auth.dfy`, module `Auth`:
  - user records as maps from field name to `Value`;
  - the pure record builders and the `{...currentUser, ...userData}` merge;
  - class `AuthProvider`. Its fields are `currentUser`, `loading` and `storage`; storage is the browser's key-value store, modelled as a map from key to record.
  - `AuthProvider.Valid()` says: before the first load nobody is signed in; after it, `currentUser` is exactly what storage holds under `"user"`.
- `scenarios.dfy`, module `Scenarios`: client methods that drive the two classes through typical runs. They are proved from the method contracts alone. One of them (`UploadDuringOptimize`) shows that a résumé uploaded while a run is pending does not reach that run's result.

## Model

| member | source | states |
|---|---|---|
| `Resumes.Uploaded` | src/components/Dashboard/Dashboard.js:34-80 | an uploaded résumé keeps the file name and the decoded text; its profile is a complete intake profile (non-empty summary and skills) without match score or improvements |
| `Resumes.Optimize` | src/components/Dashboard/Dashboard.js:104-119 | the optimized copy keeps the file name, the text, the person's name, contact fields, title, experience and education; summary and skills are replaced by the fixed rewritten ones; it adds match score 85 (within 0..100) and the four improvement notes |
| `Resumes.OptimizeDependsOnlyOnIdentity` | src/components/Dashboard/Dashboard.js:104-119 | the engine's result depends only on the fields it carries over; none of the old summary, skills, score or notes influence it, and neither does any job target or parameter |
| `Resumes.OptimizeIdempotent` | src/components/Dashboard/Dashboard.js:104-119 | optimizing an optimized résumé again yields the same résumé |
| `Tuning.Parameters.With` | src/components/Dashboard/Dashboard.js:136-139 | the updated record has `v` at key `p` and every other key's old value |
| `Tuning.InitialParametersValues` | src/components/Dashboard/Dashboard.js:21-27 | initially keywordEmphasis is 7, the other four parameters are 5, and all lie in 1..10 |
| `Tuning.WithIdempotent` | src/components/Dashboard/Dashboard.js:136-139 | setting the same key to the same value twice equals setting it once |
| `Tuning.WithCurrentValue` | src/components/Dashboard/Dashboard.js:136-139 | setting a key to its current value leaves the record unchanged |
| `Tuning.WithCommutes` | src/components/Dashboard/Dashboard.js:136-139 | updates of two different keys commute: the parameters are independent |
| `Tuning.WithPreservesRange` | src/components/Dashboard/Dashboard.js:400-405 | a value a 1..10 range input can produce keeps every parameter within 1..10 |
| `Dashboard.Workflow.constructor` | src/components/Dashboard/Dashboard.js:12-27 | initial state: no résumé, no result, no pending run, empty job fields, not processing, modal closed, parameters hidden, template `"modern"`, default parameters; the invariant holds |
| `Dashboard.Workflow.Preview` | src/components/Dashboard/Dashboard.js:231-253 | nothing is previewed exactly when there is neither résumé nor result; the result is previewed in the selected template; the raw résumé always in `"simple"` |
| `Dashboard.Workflow.UploadResume` | src/components/Dashboard/Dashboard.js:29-83 | only `resume` changes: it becomes the uploaded résumé with the fixed profile; result, job fields and everything else stay; Empty becomes ResumeLoaded, any other phase is kept |
| `Dashboard.Workflow.UploadJobDescription` | src/components/Dashboard/Dashboard.js:85-91 | only `jobDescription` changes, to the decoded text; the textarea at line 305 makes the same change |
| `Dashboard.Workflow.EditJobTitle` | src/components/Dashboard/Dashboard.js:282 | only `jobTitle` changes |
| `Dashboard.Workflow.EditJobCompany` | src/components/Dashboard/Dashboard.js:294 | only `jobCompany` changes |
| `Dashboard.Workflow.StartOptimize` | src/components/Dashboard/Dashboard.js:93-102 | accepted iff a résumé exists and the description is non-empty or both title and company are; a rejection changes nothing; acceptance sets `isProcessing` and schedules completion on the current résumé and changes nothing else; never entered while processing, because the button is disabled then (line 363) |
| `Dashboard.Workflow.CompleteOptimize` | src/components/Dashboard/Dashboard.js:102-122 | the result becomes the optimized copy of the résumé captured at start; `isProcessing` turns false, `showParameters` true; résumé, job fields, template and parameters stay; phase becomes Optimized |
| `Dashboard.Workflow.ResetOptimization` | src/components/Dashboard/Dashboard.js:125-128 | the result is cleared and the parameter panel hidden; résumé, job fields, template and parameters stay; Optimized becomes ResumeLoaded |
| `Dashboard.Workflow.ChangeParameter` | src/components/Dashboard/Dashboard.js:135-143 | only `parameters` changes, at key `p` alone; the result is not recomputed; in-range values keep all parameters in range |
| `Dashboard.Workflow.OpenTemplateModal` | src/components/Dashboard/Dashboard.js:194 | only the modal flag changes, to open |
| `Dashboard.Workflow.SelectTemplate` | src/components/Dashboard/Dashboard.js:531-534 | only the template (set to the choice) and the modal flag (closed) change; the result is untouched; an optimized preview switches to the new template and a raw preview does not change |
| `Dashboard.Workflow.CloseTemplateModal` | src/components/Dashboard/Dashboard.js:535 | only the modal flag changes, to closed |
| `Auth.EmailPrefix` | src/context/AuthContext.js:26 | the result has no '@', is a prefix of the email, and is followed by '@' unless it is the whole email |
| `Auth.EmailPrefixUnique` | src/context/AuthContext.js:26 | these three properties determine the derived name uniquely |
| `Auth.EmailPrefixOfAddress` | src/context/AuthContext.js:26 | the name derived from `local@domain` is `local` when `local` has no '@' |
| `Auth.EmailPrefixWithoutAt` | src/context/AuthContext.js:26 | an email with no '@' is its own name |
| `Auth.NewUser` | src/context/AuthContext.js:23-30 | the mock record has exactly the six fields id `"user123"`, the email, the name, credits 5, subscription `"Free"`, expiresAt null |
| `Auth.LoginUser` | src/context/AuthContext.js:23-30 | login's record has the six user fields: id `"user123"`, the given email, the email prefix as name, credits 5, subscription `"Free"`, expiresAt null |
| `Auth.SignupUser` | src/context/AuthContext.js:40-47 | signup's record is login's record, except that a non-empty given name replaces the derived one |
| `Auth.Merge` | src/context/AuthContext.js:62 | the merged record has the fields of both; fields of the update take its values; every other field keeps the current record's value; a null current record contributes nothing |
| `Auth.MergeIdempotent` | src/context/AuthContext.js:62 | merging the same update into the result again changes nothing |
| `Auth.MergeNothing` | src/context/AuthContext.js:62 | an empty update keeps the current record |
| `Auth.MergeTwice` | src/context/AuthContext.js:62 | two successive merges equal one merge of the second update over the first |
| `Auth.AuthProvider.constructor` | src/context/AuthContext.js:8-9 | on mount nobody is signed in and loading is true; storage is whatever the browser holds |
| `Auth.AuthProvider.LoadFromStorage` | src/context/AuthContext.js:12-18 | a stored user becomes current, otherwise the current user stays null; loading ends in both cases; storage is untouched |
| `Auth.AuthProvider.Login` | src/context/AuthContext.js:21-35 | returns login's record; it becomes current and is stored under `"user"`; other storage keys untouched |
| `Auth.AuthProvider.Signup` | src/context/AuthContext.js:38-52 | returns signup's record; it becomes current and is stored under `"user"`; other storage keys untouched |
| `Auth.AuthProvider.Logout` | src/context/AuthContext.js:55-58 | the current user becomes null and the `"user"` key is removed; other keys untouched |
| `Auth.AuthProvider.UpdateUser` | src/context/AuthContext.js:61-65 | the merge of the update into the current record becomes current and is stored under `"user"` |

## Notes on the model

- Re-uploading a résumé does not clear the optimization result. The handler sets only `resume` (Dashboard.js:34).
- The completion callback uses the résumé captured when the optimization was accepted. A résumé uploaded while a run is pending is therefore not the one optimized, and the model keeps this behaviour (`pending`). The source has no request token and no cancellation.
- The job target, the parameters and `currentUser` do not influence the engine's result in the source. `Optimize` therefore takes only the résumé.

## Left out

- Rendering, styling and animation: the markup, `AnimatePresence` and `motion.div`. They are presentation only. The one rendering decision kept is which profile and template the résumé pane previews (`Preview`).
- `FileReader` decoding. An upload method receives the file name and the decoded text. When a read fails, the handler still runs but its `onload` callback (Dashboard.js:33, 87) never fires, so nothing changes.
- Timer latency: the 3-second `setTimeout` is two steps, `StartOptimize` and `CompleteOptimize`. A completion can happen only while a timer is pending.
- `alert` calls and the download handler. The download handler is a stub with no state effect.
- `localStorage` and JSON serialization. Storage is a map from key to record, and it holds the record itself rather than its JSON text. Record values are strings, integers, booleans and null; nested objects and `undefined` fields are not modelled.
- React context plumbing (`createContext`, `useAuth`, the provider's `value` object) and the routing and marketing components.
- Date formatting of `expiresAt` and the fixed "85% Keyword Match" text on the parameter panel.
- The template gallery and the résumé renderer are not part of this model. Templates are plain strings.
- Dashboard.Workflow.StartOptimize: requires that no run is pending. The handler itself does not check this, but its only caller is the optimize button, which is disabled while `isProcessing` is true (Dashboard.js:363).
- Auth.AuthProvider.Login, Signup, Logout and UpdateUser require that loading is over. The provider renders its children, the only callers, only then (AuthContext.js:78).
- Dashboard.Workflow.ChangeParameter: accepts only the five parameter keys as `p` and any integer as `v`. In the source any key string can be passed. The sliders pass only these keys, and `parseInt` of a range input with bounds 1..10 gives an integer. `skillsEmphasis` has no slider in the source.
- Auth.AuthProvider.UpdateUser: reads the current user as the last completed update left it. Each method call stands for one event handled after a re-render. In the source, `setCurrentUser` takes effect only at the next render, so `login` followed by `updateUser` inside one event handler merges into the earlier, stale `currentUser` (AuthContext.js:62, 64); that interleaving is not modelled. The same holds for the other provider methods.
- Auth.AuthProvider.Valid: the mirror between `currentUser` and storage assumes the provider is the only writer of storage. A write from another tab (a logout there, say) is not modelled.
- Auth.SignupUser: models the name as a string, with the empty string standing for every falsy name (`undefined`, `null`, `""`).
- The on-screen conditions of the reset, template and upload controls (Dashboard.js:184-215, 231-246), of the job-details form with its title input (Dashboard.js:279-285), company input (291-297), description textarea (303-309) and job-description upload (339-349), of the optimize button (Dashboard.js:360-377) and of the sliders (Dashboard.js:400-473). The handlers are modelled without them, because they do not affect what each handler does. The job-details form with the optimize button, and the sliders, sit in the two panes chosen by `showParameters` (Dashboard.js:261). The model therefore also lets `EditJobTitle`, `EditJobCompany` and `UploadJobDescription` run while Optimized (clearing all three job fields while a result is shown, say), lets `StartOptimize` run from Optimized, reaching `isProcessing && showParameters`, a state the source cannot reach, and it lets `ChangeParameter` run whether or not the slider panel is shown.
