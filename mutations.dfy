/**
 * `commit(type, payload)`: the function `Apply` dispatches a `Commit` (the
 * mutation's name with its payload) to its handler. The properties of the
 * mutations are stated here over `Apply`, and so is what each commit does to
 * the persisted part of the state.
 */
module Mutations {
  import opened Wrappers
  import opened Registry
  import opened Persistence
  import opened State
  import H = Handlers

  /** A `commit(type, payload)` call: the mutation's name and its payload. */
  datatype Commit =
    | ToggleInOutBox
    | ToogleSettings
    | ChangeLanguage(language: string)
    | UpdateCode(code: string)
    | SetCode(code: string)
    | UploadCode(code: string)
    | UpdateOutput(output: string)
    | FileNameChange(fileName: string)
    | ChangeCustomInput(customInput: string)
    | ChangeTheme(theme: string)
    | ChangeFont(font: string)
    | ChangeFontSize(fontSize: int)
    | SetCheckData(payload: Option<string>)  // `None`: committed without a payload, so `val` defaults to ''
    | ResetEditor
    | ResetCode
    | SetIsChanged(isChanged: bool)
    | SetCodeId(codeId: Option<string>)
    | SetCodeTitle(codeTitle: string)

  /** `changeLanguage` is only modelled for registry names. */
  predicate WellFormedCommit(c: Commit) {
    c.ChangeLanguage? ==> IsLanguage(c.language)
  }

  /** What a commit needs of the state: `resetCode` reads the sample of the current language. */
  predicate Admissible(s: Session, c: Commit) {
    WellFormedCommit(c) && (c.ResetCode? ==> s.language in s.sampleCodes)
  }

  /**
   * A commit runs its handler. No mutation touches the samples or the module
   * states; only the current language's entry of `code` can change; and the
   * invariant is kept.
   */
  function Apply(s: Session, c: Commit, sha256Hex: string -> string): (r: Session)
    requires Admissible(s, c)
    ensures r.sampleCodes == s.sampleCodes && r.user == s.user && r.firebase == s.firebase
    ensures s.code.Keys <= r.code.Keys
    ensures forall name :: name in s.code && name != s.language ==> r.code[name] == s.code[name]
    ensures Valid(s) ==> Valid(r)
  {
    match c
    case ToggleInOutBox => H.ToggleInOutBox(s)
    case ToogleSettings => H.ToogleSettings(s)
    case ChangeLanguage(name) => H.ChangeLanguage(s, name)
    case UpdateCode(text) => H.UpdateCode(s, text)
    case SetCode(text) => H.SetCode(s, text)
    case UploadCode(text) => H.UploadCode(s, text)
    case UpdateOutput(text) => H.UpdateOutput(s, text)
    case FileNameChange(name) => H.FileNameChange(s, name)
    case ChangeCustomInput(text) => H.ChangeCustomInput(s, text)
    case ChangeTheme(theme) => H.ChangeTheme(s, theme)
    case ChangeFont(font) => H.ChangeFont(s, font)
    case ChangeFontSize(size) => H.ChangeFontSize(s, size)
    case SetCheckData(payload) => H.SetCheckData(s, payload, sha256Hex)
    case ResetEditor => H.ResetEditor(s)
    case ResetCode => H.ResetCode(s)
    case SetIsChanged(flag) => H.SetIsChanged(s, flag)
    case SetCodeId(id) => H.SetCodeId(s, id)
    case SetCodeTitle(title) => H.SetCodeTitle(s, title)
  }

  /** A sequence of commits, in order. The samples survive any sequence and so does the invariant. */
  function ApplyAll(s: Session, commits: seq<Commit>, sha256Hex: string -> string): (r: Session)
    requires Valid(s)
    requires forall c :: c in commits ==> WellFormedCommit(c)
    ensures Valid(r)
    ensures r.sampleCodes == s.sampleCodes
    decreases |commits|
  {
    if commits == [] then s
    else ApplyAll(Apply(s, commits[0], sha256Hex), commits[1..], sha256Hex)
  }

  /**
   * `changeLanguage(v)` sets the language, the editor mode and the default
   * file name from the registry, and nothing else: not the code, the custom
   * input, the document identity or the preferences.
   */
  lemma ChangeLanguageSetsThreeFields(s: Session, name: string, sha256Hex: string -> string)
    requires IsLanguage(name)
    ensures var r := Apply(s, ChangeLanguage(name), sha256Hex);
            && r.language == name
            && r.languageMode == ModeTable[name]
            && r.fileName == "download" + ExtensionTable[name]
            && r.(language := s.language, languageMode := s.languageMode, fileName := s.fileName) == s
  {
  }

  /** From the initial state, switching to "Python" gives mode "python" and file name "download.py". */
  lemma SwitchToPythonScenario(samples: map<string, string>, user: JsValue, firebase: JsValue, sha256Hex: string -> string)
    ensures var r := Apply(Initial(samples, user, firebase), ChangeLanguage("Python"), sha256Hex);
            r.languageMode == "python" && r.fileName == "download.py" && r.code == samples
  {
  }

  /**
   * `updateCode`, `setCode` and `uploadCode` are the same transition: each
   * overwrites the current language's entry of `code` and nothing else.
   */
  lemma CodeMutationsAgree(s: Session, text: string, sha256Hex: string -> string)
    ensures Apply(s, UpdateCode(text), sha256Hex) == Apply(s, SetCode(text), sha256Hex)
    ensures Apply(s, SetCode(text), sha256Hex) == Apply(s, UploadCode(text), sha256Hex)
    ensures var r := Apply(s, SetCode(text), sha256Hex);
            r.code[s.language] == text && r.(code := s.code) == s
  {
  }

  /** Each toggle negates one flag and changes nothing else, so toggling twice restores the state. */
  lemma TogglesAreInvolutions(s: Session, sha256Hex: string -> string)
    ensures Apply(s, ToggleInOutBox, sha256Hex).(showInOutBox := s.showInOutBox) == s
    ensures Apply(s, ToogleSettings, sha256Hex).(showSettings := s.showSettings) == s
    ensures Apply(Apply(s, ToggleInOutBox, sha256Hex), ToggleInOutBox, sha256Hex) == s
    ensures Apply(Apply(s, ToogleSettings, sha256Hex), ToogleSettings, sha256Hex) == s
    ensures Apply(s, ToggleInOutBox, sha256Hex).showInOutBox != s.showInOutBox
    ensures Apply(s, ToogleSettings, sha256Hex).showSettings != s.showSettings
  {
  }

  /** `resetEditor` brings back the initial theme, font and size, and doing it again changes nothing. */
  lemma ResetEditorIdempotent(s: Session, sha256Hex: string -> string)
    ensures Apply(s, ResetEditor, sha256Hex) == s.(theme := DefaultTheme, font := DefaultFont, fontSize := DefaultFontSize)
    ensures DefaultTheme == "vs-dark" && DefaultFont == "Ubuntu Mono" && DefaultFontSize == 16
    ensures var r := Apply(s, ResetEditor, sha256Hex); Apply(r, ResetEditor, sha256Hex) == r
  {
  }

  /** Committing without a payload digests the empty string. */
  lemma SetCheckDataDefault(s: Session, sha256Hex: string -> string)
    ensures Apply(s, SetCheckData(None), sha256Hex) == Apply(s, SetCheckData(Some("")), sha256Hex)
    ensures Apply(s, SetCheckData(None), sha256Hex).checkData == sha256Hex("")
  {
  }

  /**
   * Whatever was committed before, `resetCode` puts the ORIGINAL sample of the
   * current language back, because `code` started as a copy of the samples and
   * no mutation writes the samples; it also detaches the document identity.
   * Other languages' entries and every other field stay as they were.
   */
  lemma {:induction false} ResetCodeRestoresSample(s: Session, edits: seq<Commit>, sha256Hex: string -> string)
    requires Valid(s)
    requires forall c :: c in edits ==> WellFormedCommit(c)
    ensures var t := ApplyAll(s, edits, sha256Hex);
            var r := Apply(t, ResetCode, sha256Hex);
            && r.code[t.language] == s.sampleCodes[t.language]
            && r.codeId == None
            && (forall name :: name in t.code && name != t.language ==> r.code[name] == t.code[name])
            && r.(code := t.code, codeId := t.codeId) == t
  {
  }

  /** The property names of the root state object. */
  datatype StateKey =
    | Code | SampleCodes | Language | LanguageMode | Theme | Font | FontSize
    | ShowInOutBox | ShowSettings | CustomInput | CustomInputBuf | Output | FileName
    | IsChanged | CheckData | CodeId | CodeTitle | User | Firebase

  /** The keys in declaration order, as `Object.keys(state)` lists them (the modules come last). */
  const StateKeys: seq<StateKey> := [
    Code, SampleCodes, Language, LanguageMode, Theme, Font, FontSize,
    ShowInOutBox, ShowSettings, CustomInput, CustomInputBuf, Output, FileName,
    IsChanged, CheckData, CodeId, CodeTitle, User, Firebase]

  /** The reducer's whitelist `included`: the user state, the two panel flags, the font and the font size, in that order. */
  const PersistedKeys: seq<StateKey> := [User, ShowInOutBox, ShowSettings, Font, FontSize]

  /** The value of the root state's property `key`. */
  function FieldValue(s: Session, key: StateKey): JsValue {
    match key
    case Code => JsStringMap(s.code)
    case SampleCodes => JsStringMap(s.sampleCodes)
    case Language => JsString(s.language)
    case LanguageMode => JsString(s.languageMode)
    case Theme => JsString(s.theme)
    case Font => JsString(s.font)
    case FontSize => JsNumber(s.fontSize)
    case ShowInOutBox => JsBool(s.showInOutBox)
    case ShowSettings => JsBool(s.showSettings)
    case CustomInput => JsString(s.customInput)
    case CustomInputBuf => JsString(s.customInputBuf)
    case Output => JsString(s.output)
    case FileName => JsString(s.fileName)
    case IsChanged => JsBool(s.isChanged)
    case CheckData => JsString(s.checkData)
    case CodeId => (match s.codeId case None => JsNull case Some(id) => JsString(id))
    case CodeTitle => JsString(s.codeTitle)
    case User => s.user
    case Firebase => s.firebase
  }

  /** The state as the plain object the persistence reducer receives. */
  function StateObject(s: Session): JsObject<StateKey, JsValue> {
    JsObject(StateKeys, map key | key in StateKeys :: FieldValue(s, key))
  }

  /** What is written to local storage after a commit. */
  function Persisted(s: Session): map<StateKey, JsValue> {
    Reducer(StateObject(s), PersistedKeys).props
  }

  /** Local storage receives the whitelisted properties, each with its value in the state, and nothing else. */
  lemma PersistedProjection(s: Session)
    ensures Persisted(s) == map k | k in PersistedKeys :: FieldValue(s, k)
    ensures Persisted(s) == PreferenceSnapshot(s)
  {
    var obj := StateObject(s);
    forall k | k in PersistedKeys
      ensures k in obj.props
    {
      KeyListed(k);
    }
    ReducerProjects(obj, PersistedKeys);
  }

  /** Every property of the state is listed by `Object.keys`. */
  lemma KeyListed(k: StateKey)
    ensures k in StateKeys
  {
  }

  /** The persisted entries spelled out: the user state, the two panel flags, the font and the font size. */
  function PreferenceSnapshot(s: Session): (m: map<StateKey, JsValue>)
    ensures m == map k | k in PersistedKeys :: FieldValue(s, k)
  {
    var m := map[
      User := s.user,
      ShowInOutBox := JsBool(s.showInOutBox),
      ShowSettings := JsBool(s.showSettings),
      Font := JsString(s.font),
      FontSize := JsNumber(s.fontSize)];
    assert forall k :: k in m <==> k in PersistedKeys;
    m
  }

  /**
   * Only the toggles, the font setters and `resetEditor` change what is
   * persisted: the code, the language, the theme and the document fields do
   * not survive a reload.
   */
  lemma PersistedOnlyByPreferences(s: Session, c: Commit, sha256Hex: string -> string)
    requires Admissible(s, c)
    requires !(c.ToggleInOutBox? || c.ToogleSettings? || c.ChangeFont? || c.ChangeFontSize? || c.ResetEditor?)
    ensures Persisted(Apply(s, c, sha256Hex)) == Persisted(s)
  {
    PersistedProjection(s);
    PersistedProjection(Apply(s, c, sha256Hex));
  }
}
