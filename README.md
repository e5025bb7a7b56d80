# Editor store model

A Dafny model of the Vuex store of the online code editor (`src/store/index.js`).
The store holds one session record. That record has these parts:

- a table of source texts per language name, next to the sample programs;
- the current language, with its editor mode and its default download file name;
- the editor preferences: theme, font, font size and the two panel flags;
- the custom input and the program output;
- the identity of the saved document: its id, its title, and the SHA-256 digest of the code last saved or loaded.

The model covers the following parts of the store.

- **The state and its invariant** (`state.dfy`, module `State`). The `Session` record is the initial state. The invariant `Valid` says four things:
  - the language is a registry name;
  - the editor mode is the one the registry gives that name;
  - the code table has an entry for every registry name;
  - so do the samples.
- **The mutations.**
  - `handlers.dfy` (module `Handlers`) has one pure function per mutation handler.
  - `mutations.dfy` (module `Mutations`) models `commit(type, payload)` as the dispatcher `Apply` of a `Commit` value, and a sequence of commits as `ApplyAll`.
  - Every property of the mutations is stated over `Apply`. This includes what a commit does to the persisted part of the state.
- **The class `Store.Store`** (`store.dfy`). It holds the root state as fields updated in place, plus one method per mutation with `modifies this`. Each method is proved against its handler and keeps `Valid`.
  - The actions are methods that call the mutation methods in the order the source commits.
  - Each action is proved against a specification function in `Actions`.
- **The language registry** (`registry.dfy`, module `Registry`):
  - the editor-mode table and the file-extension table of `changeLanguage`;
  - the execution-code `switch` of `runCode`, whose default is `'c'`.
- **The persistence reducer** (`persistence.dfy`, module `Persistence`). It models JavaScript objects with ordered own keys and implements the filter and spread-reduce.
- **The text handling of `runJs`** (`js_text.dfy`, module `JsText`):
  - `Array.prototype.join('\n')`, with `split` as its inverse;
  - a backtracking matcher for `/^Error.*$/` with ECMAScript's meaning of `^`, `.`, `*` and `$` when no flag is set;
  - a characterisation of what the pattern accepts.
- **The decision logic of the actions** (`actions.dfy`, module `Actions`): `loadDataFromServer`, `saveDataToServer`, `runJs` and `runCode`.
  - The network replies and the worker's reply are inputs. `None` means the request failed or the worker never answers.
  - What an action sends out is part of its result.
- **The library calls** (`third_party.dfy`): SHA-256, base64 encode and decode, and `JSON.stringify`. They are arbitrary fixed function values, so every proof holds for any deterministic implementation. The base64 functions are partial: `None` means the library throws.

`resetCode` in the source reads the imported `samples` module. The state's `sampleCodes` is that same object, and no mutation writes it, so the model reads `sampleCodes`. `Mutations.ResetCodeRestoresSample` shows the value is still the original sample.

## Model

| member | source | states |
|---|---|---|
| Registry.Mode | src/store/index.js:58-68 | every registry name has an editor mode taken from the mode table |
| Registry.Extension | src/store/index.js:69-79 | every registry name has a file extension from the extension table, and every extension starts with a dot |
| Registry.DownloadNamesAgree | src/store/index.js:82 | two registry names get the same default file name (`Registry.DownloadName`) exactly when they share an extension |
| Registry.ExecutionCode | src/store/index.js:211-237 | the switch gives `'jsv'` exactly for "JavaScript"; it falls back to `'c'` exactly for names without a case arm, which includes "C" and unknown names |
| Registry.SwitchArmsAreRegistryNames | src/store/index.js:212-236 | the switch has an arm for every registry name except "C", and for nothing else |
| Registry.RegistryTablesShareKeys | src/store/index.js:58-79 | the mode table and the extension table have the same keys |
| Registry.ModeDoesNotDetermineExecutionCode | src/store/index.js:211-237 | two registry names can share mode and extension yet get different execution codes ("Python" → `py2`, "Python 3" → `py3`) |
| Registry.JavaScriptVariantsSplit | src/store/index.js:219-233 | "JavaScript" and "Node.js" share mode and extension, but only "JavaScript" runs in the browser; "Node.js" posts as `js` |
| JsText.SplitJoin | src/store/index.js:152 | joining lines with `\n` loses nothing when no line contains `\n`: splitting gives the lines back |
| JsText.JoinSplit | src/store/index.js:152 | splitting any text on `\n` and joining again gives the text back |
| JsText.ErrorPatternMeaning | src/store/index.js:154 | the test `JsText.MatchesErrorPattern` of `/^Error.*$/` with no flag matches exactly the texts that start with "Error" and have no line terminator after it |
| JsText.JoinedErrorLine | src/store/index.js:152-154 | the worker output joined by `JsText.Join` is an error line iff the worker sent exactly one line and that line is an error line |
| Persistence.Filter | src/store/index.js:140 | a key survives the filter iff it is one of the object's keys and is whitelisted; distinct keys stay distinct |
| Persistence.Spread | src/store/index.js:141 | `{[key]: value, ...acc}` keeps the object well formed: distinct own keys that match its properties |
| Persistence.FoldCopies | src/store/index.js:141 | each reduce step copies the key's value from the state, so the result holds exactly the accumulator's keys plus the folded ones, with the state's values |
| Persistence.ReducerProjects | src/store/index.js:136-142 | the reducer `Persistence.Reducer`, the fold `Persistence.Fold` over the filtered keys, returns a well-formed object whose keys are exactly the whitelisted keys of the state, each with the state's value |
| State.InitialIsValid | src/store/index.js:25-45 | the initial state satisfies the invariant, its file name is the default one for "C++", and `code` equals the samples |
| Mutations.Apply | src/store/index.js:50-132 | each commit runs its handler `Handlers.<name>`, one per mutation; no mutation writes the samples or the module states, only the current language's code entry can change, no code entry disappears, and the invariant is kept |
| Mutations.ApplyAll | src/store/index.js:50-132 | any sequence of commits keeps the invariant and leaves the samples as they were |
| Mutations.ChangeLanguageSetsThreeFields | src/store/index.js:57-83 | `changeLanguage(v)` sets the language to `v`, the mode from the mode table and the file name to `download` + extension, and changes no other field |
| Mutations.SwitchToPythonScenario | src/store/index.js:57-83 | from the initial state, choosing "Python" gives mode `python`, file name `download.py` and unchanged code |
| Mutations.CodeMutationsAgree | src/store/index.js:84-92 | `updateCode`, `setCode` and `uploadCode` give the same state; each writes the current language's entry and nothing else |
| Mutations.TogglesAreInvolutions | src/store/index.js:51-56 | each toggle negates its flag and changes no other field, and applying it twice gives back the original state |
| Mutations.ResetEditorIdempotent | src/store/index.js:114-118 | `resetEditor` sets theme, font and size to `'vs-dark'`, `'Ubuntu Mono'` and `16`, changes nothing else, and a second reset changes nothing |
| Mutations.SetCheckDataDefault | src/store/index.js:111-113 | a commit without payload stores the digest of the empty string |
| Mutations.ResetCodeRestoresSample | src/store/index.js:119-122 | after any commits, `resetCode` restores the original sample of the current language and sets `codeId` to null; other languages and other fields are unchanged |
| Mutations.PersistedProjection | src/store/index.js:136-142 | local storage receives exactly `user`, `showInOutBox`, `showSettings`, `font` and `fontSize`, with their values in the state |
| Mutations.PreferenceSnapshot | src/store/index.js:137 | the persisted map written out entry by entry equals the whitelist projection |
| Mutations.PersistedOnlyByPreferences | src/store/index.js:136-142 | only the toggles, the font setters and `resetEditor` change what is persisted |
| Actions.LoadRequest | src/store/index.js:172-176 | a GET of `/code/{id}` is sent exactly when the route is `saved` |
| Actions.LoadFromServer | src/store/index.js:171-186 | a load keeps the invariant |
| Actions.LoadGuard | src/store/index.js:173-175 | on any route other than `saved`, nothing is requested and nothing is committed |
| Actions.LoadInstallsDocument | src/store/index.js:178-184 | a successful load sets the id, the language, the mode, the code under the document's language, the input, the document's file name, the digest of the loaded code and the title, and nothing else |
| Actions.LoadJavaScenario | src/store/index.js:176-184 | loading a Java document leaves id, language, code and digest as the document gives them |
| Actions.SaveResultOf | src/store/index.js:187-201 | the save resolves at once with the current id iff the stored digest equals the digest of the current code; otherwise it posts the body `Actions.SaveBodyOf`: the current language and its code, the custom input, the file name and the title, and the id exactly when the state has one that is not empty |
| Actions.AfterSave | src/store/index.js:202-207 | a save keeps the invariant |
| Actions.LoadThenSaveSendsNothing | src/store/index.js:171-193 | a save right after a load sends nothing, returns the loaded id and leaves the state alone |
| Actions.SaveTwiceWritesOnce | src/store/index.js:187-207 | a successful POST records the returned id and the digest of the returned code and changes nothing else; when that code is the code sent, the next save sends nothing |
| Actions.FirstSettlementWins | src/store/index.js:154-159 | the first settlement wins: once settled by `Actions.Settle`, a promise ignores any later resolve or reject |
| Actions.ClassifyWorkerOutput | src/store/index.js:154-166 | the `runJs` promise rejects with `complie_error` iff the output is an error line, and resolves otherwise |
| Actions.WorkerRejectsOnlySingleErrorLine | src/store/index.js:151-158 | an in-browser run (`Actions.JsOutcomeOf`) rejects iff the worker answered with one line that is an error line |
| Actions.RemoteOutput | src/store/index.js:253-254 | a compile error commits the decoded `error`; otherwise the first test case's output is decoded, and there is nothing to commit when there is no test case |
| Actions.RunCodeRoutes | src/store/index.js:210-254 | in `Actions.RunCodeResult`, exactly "JavaScript" runs in the browser; every other language posts the base64 code and input under its execution code, which is never `jsv`, and the output to commit is `Actions.RemoteOutput` of the reply, or nothing when the request failed |
| Actions.RubyScenario | src/store/index.js:234-251 | "Ruby" posts under `ruby` with the encoded code and input |
| Store.Store.constructor | src/store/index.js:24-45 | the store starts in the initial state, with `code` a copy of the samples, and satisfies the invariant |
| Store.Store.ToggleInOutBox | src/store/index.js:51-53 | negates `showInOutBox` in place and keeps the invariant |
| Store.Store.ToogleSettings | src/store/index.js:54-56 | negates `showSettings` in place and keeps the invariant |
| Store.Store.ChangeLanguage | src/store/index.js:57-83 | writes language, mode and default file name in place and keeps the invariant |
| Store.Store.UpdateCode | src/store/index.js:84-86 | overwrites the current language's code entry and keeps the invariant |
| Store.Store.SetCode | src/store/index.js:87-89 | overwrites the current language's code entry and keeps the invariant |
| Store.Store.UploadCode | src/store/index.js:90-92 | overwrites the current language's code entry and keeps the invariant |
| Store.Store.UpdateOutput | src/store/index.js:93-95 | sets the output |
| Store.Store.FileNameChange | src/store/index.js:96-98 | sets the file name |
| Store.Store.ChangeCustomInput | src/store/index.js:99-101 | sets the custom input |
| Store.Store.ChangeTheme | src/store/index.js:102-104 | sets the theme |
| Store.Store.ChangeFont | src/store/index.js:105-107 | sets the font |
| Store.Store.ChangeFontSize | src/store/index.js:108-110 | sets the font size |
| Store.Store.SetCheckData | src/store/index.js:111-113 | stores the digest of the payload, or of `''` when there is none |
| Store.Store.ResetEditor | src/store/index.js:114-118 | restores the default theme, font and size |
| Store.Store.ResetCode | src/store/index.js:119-122 | restores the current language's sample and clears `codeId` |
| Store.Store.SetIsChanged | src/store/index.js:123-125 | sets `isChanged` |
| Store.Store.SetCodeId | src/store/index.js:126-128 | sets `codeId` |
| Store.Store.SetCodeTitle | src/store/index.js:129-131 | sets the title |
| Store.Store.LoadDataFromServer | src/store/index.js:171-186 | returns the request the route guard allows and commits the reply's fields in source order, ending in `Actions.LoadFromServer` |
| Store.Store.SaveDataToServer | src/store/index.js:187-209 | settles as `Actions.SaveResultOf` says and leaves the state as `Actions.AfterSave` says |
| Store.Store.RunJs | src/store/index.js:146-169 | posts the code and the JSON input, commits the joined reply, and rejects before resolving exactly as `Actions.ClassifyWorkerOutput` says |
| Store.Store.RunCode | src/store/index.js:210-257 | routes by execution code as `Actions.RunCodeResult` says and commits the decoded output, if any (`Actions.AfterRun`) |

## Left out

- HTTP (`httpGet`/`httpPost`, axios): the replies are inputs of the actions, and only the fields the actions read are modelled.
- The Web Worker and Promise plumbing: only the worker's reply lines and the order of reject and resolve are modelled. A worker that never answers leaves the promise pending.
- SHA-256, base64 and `JSON.stringify` internals: they are uninterpreted function values. Base64 encode is partial because the library throws above U+00FF.
- `VuexPersistence`, `window.localStorage`, `Vue.use` and the plugin wiring: only the reducer's projection is modelled.
- The `user` and `firebase` modules: they are not part of this model, and their states are opaque values.
- `state.route`: it is injected by the router, so it is a parameter of `loadDataFromServer`.
- The sample-source module is not part of this model. The store is built from any samples that cover every registry name.
- Store.Store.ChangeLanguage: requires a registry name. The source would store `undefined` and `'downloadundefined'` for any other name.
- Store.Store.LoadDataFromServer: requires the document's language to be a registry name, for the same reason.
- Store.Store.ResetEditor: sets the three fields through the setter methods instead of three direct assignments. The resulting state is the same.
- Overlapping calls of the async actions (the last response wins): the model runs each action to completion.
- `console.log` in the reducer, and the unused `autoSave` and `autoSaveIntervalId` fields.
- The setter payloads are narrowed to their usual types: `fontSize` is an `int`, and the text setters take strings. `changeFontSize` and the others store whatever value they are given, and the reducer persists it unchanged.
- `codeId` is modelled as an optional string. The server's id is taken to be a string, so `0` as a falsy id is not modelled.
- `e.data` from the worker and `data.error` from the server are taken to be strings. `base64.decode(undefined)` and a `null` line in the join are not modelled.
- A `/run/run` reply with no test case would throw on `testcases[0]`. In the model it commits nothing.
