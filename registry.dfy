/**
 * The language registry: the two object tables inside the `changeLanguage`
 * mutation (editor mode and file extension) and the `switch` of the `runCode`
 * action that picks the code the remote execution service expects.
 */
module Registry {

  /** Editor mode per language name (`languageMode` in `changeLanguage`). */
  const ModeTable: map<string, string> := map[
    "C" := "c",
    "C++" := "cpp",
    "C#" := "csharp",
    "Java" := "java",
    "Python" := "python",
    "Python 3" := "python",
    "JavaScript" := "javascript",
    "Node.js" := "javascript",
    "Ruby" := "ruby"]

  /** File extension per language name (`extension` in `changeLanguage`). */
  const ExtensionTable: map<string, string> := map[
    "C" := ".c",
    "C++" := ".cpp",
    "C#" := ".cs",
    "Java" := ".java",
    "Python" := ".py",
    "Python 3" := ".py",
    "JavaScript" := ".js",
    "Node.js" := ".js",
    "Ruby" := ".rb"]

  /** The `case` arms of the `switch (state.language)` in `runCode`. */
  const ExecutionTable: map<string, string> := map[
    "C++" := "cpp",
    "C#" := "csharp",
    "JavaScript" := "jsv",
    "Java" := "java",
    "Python" := "py2",
    "Python 3" := "py3",
    "Node.js" := "js",
    "Ruby" := "ruby"]

  /** The value `lang` starts with before the switch. */
  const DefaultExecutionCode: string := "c"

  /** The one execution code that is run in the browser rather than remotely. */
  const InBrowserCode: string := "jsv"

  /** A name the registry knows; `changeLanguage` is only meaningful for these. */
  predicate IsLanguage(name: string) {
    name in ModeTable
  }

  function Mode(name: string): (mode: string)
    requires IsLanguage(name)
    ensures mode in ModeTable.Values
  {
    ModeTable[name]
  }

  /** Every registered language has an extension, and every extension starts with a dot. */
  function Extension(name: string): (ext: string)
    requires IsLanguage(name)
    ensures name in ExtensionTable && ext == ExtensionTable[name]
    ensures |ext| >= 2 && ext[0] == '.'
  {
    ExtensionTable[name]
  }

  /** The default download name `download${extension[name]}`. */
  function DownloadName(name: string): (fileName: string)
    requires IsLanguage(name)
    ensures |fileName| > 8 && fileName[..8] == "download" && fileName[8..] == Extension(name)
  {
    "download" + Extension(name)
  }

  /**
   * Two languages get the same default file name exactly when they share an
   * extension: the name carries nothing of the language but its extension.
   */
  lemma DownloadNamesAgree(a: string, b: string)
    requires IsLanguage(a) && IsLanguage(b)
    ensures DownloadName(a) == DownloadName(b) <==> Extension(a) == Extension(b)
  {
    if DownloadName(a) == DownloadName(b) {
      assert DownloadName(a)[8..] == DownloadName(b)[8..];
    }
  }

  /**
   * The `runCode` switch: a total function of the language name. Exactly
   * "JavaScript" goes to the browser, and exactly the names without a case
   * arm (including "C" and every unknown name) fall back to "c".
   */
  function ExecutionCode(language: string): (lang: string)
    ensures lang == InBrowserCode <==> language == "JavaScript"
    ensures lang == DefaultExecutionCode <==> language !in ExecutionTable
  {
    if language in ExecutionTable then ExecutionTable[language] else DefaultExecutionCode
  }

  /** The switch has an arm for every registered language except "C", and for nothing else. */
  lemma SwitchArmsAreRegistryNames(name: string)
    ensures name in ExecutionTable <==> IsLanguage(name) && name != "C"
  {
  }

  /** Both tables of `changeLanguage` have the same keys. */
  lemma RegistryTablesShareKeys()
    ensures ModeTable.Keys == ExtensionTable.Keys
  {
  }

  /**
   * The registry and the switch are two sources of truth: two languages can
   * share an editor mode and a file extension yet run under different
   * execution codes, so the execution code is not a function of either.
   */
  lemma ModeDoesNotDetermineExecutionCode()
    ensures exists a, b :: IsLanguage(a) && IsLanguage(b) && Mode(a) == Mode(b) && Extension(a) == Extension(b)
                           && ExecutionCode(a) != ExecutionCode(b)
  {
    var a, b := "Python", "Python 3";
    assert IsLanguage(a) && IsLanguage(b) && Mode(a) == Mode(b) && Extension(a) == Extension(b);
    assert ExecutionCode(a) == "py2" && ExecutionCode(b) == "py3";
  }

  /** "JavaScript" and "Node.js" share mode and extension but only one of them runs in the browser. */
  lemma JavaScriptVariantsSplit()
    ensures Mode("JavaScript") == Mode("Node.js") && Extension("JavaScript") == Extension("Node.js")
    ensures ExecutionCode("JavaScript") == InBrowserCode && ExecutionCode("Node.js") == "js"
  {
  }
}
