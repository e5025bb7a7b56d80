/**
 * The root state of the store: the record `new Vuex.Store({state: ...})`
 * starts from, and the invariant every mutation keeps.
 */
module State {
  import opened Wrappers
  import opened Registry
  import opened Persistence

  /** The root state of the store (the unused `autoSave` fields are not modelled). */
  datatype Session = Session(
    code: map<string, string>,         // source text per language name
    sampleCodes: map<string, string>,  // the sample programs, shared with `resetCode`
    language: string,
    languageMode: string,
    theme: string,
    font: string,
    fontSize: int,
    showInOutBox: bool,
    showSettings: bool,
    customInput: string,
    customInputBuf: string,
    output: string,
    fileName: string,
    isChanged: bool,
    checkData: string,                 // digest of the code last saved or loaded
    codeId: Option<string>,            // `null` until a document is saved or loaded
    codeTitle: string,
    user: JsValue,                     // state of the `user` module
    firebase: JsValue)                 // state of the `firebase` module

  const DefaultTheme: string := "vs-dark"
  const DefaultFont: string := "Ubuntu Mono"
  const DefaultFontSize: int := 16

  /** The state the store is created with; `samples` is the sample-source module. */
  function Initial(samples: map<string, string>, user: JsValue, firebase: JsValue): Session {
    Session(
      code := samples, sampleCodes := samples,
      language := "C++", languageMode := "cpp",
      theme := DefaultTheme, font := DefaultFont, fontSize := DefaultFontSize,
      showInOutBox := false, showSettings := false,
      customInput := "", customInputBuf := "", output := "",
      fileName := "download.cpp", isChanged := false,
      checkData := "", codeId := None, codeTitle := "",
      user := user, firebase := firebase)
  }

  /**
   * The invariant every mutation keeps: the language is a registry name, the
   * editor mode is the one the registry gives it, and both the code table and
   * the samples hold an entry for every registry name.
   */
  predicate Valid(s: Session) {
    && IsLanguage(s.language)
    && s.languageMode == Mode(s.language)
    && ModeTable.Keys <= s.code.Keys
    && ModeTable.Keys <= s.sampleCodes.Keys
  }

  /** The invariant only constrains the language, the editor mode, the code table and the samples. */
  lemma ValidOnlyDependsOnLanguageAndCode(s: Session, t: Session)
    requires Valid(s)
    requires t.language == s.language && t.languageMode == s.languageMode
    requires t.code == s.code && t.sampleCodes == s.sampleCodes
    ensures Valid(t)
  {
  }

  /** The initial state satisfies the invariant when the samples cover the registry. */
  lemma InitialIsValid(samples: map<string, string>, user: JsValue, firebase: JsValue)
    requires ModeTable.Keys <= samples.Keys
    ensures var s := Initial(samples, user, firebase);
            Valid(s) && s.fileName == DownloadName(s.language) && s.code == s.sampleCodes
  {
  }
}
