/**
 * The Vuex store object: the root state as fields updated in place, one method
 * per mutation handler, and the actions as methods that call the handlers in
 * the order the source commits them. Every method is proved against the pure
 * handlers of `Handlers` and the action specifications of `Actions`.
 */
module Store {
  import opened Wrappers
  import opened ThirdParty
  import opened Registry
  import opened JsText
  import opened Persistence
  import opened State
  import H = Handlers
  import opened Actions

  class Store {
    /** The library functions the store calls (digest, base64, JSON). */
    const lib: Libraries

    var code: map<string, string>
    var sampleCodes: map<string, string>
    var language: string
    var languageMode: string
    var theme: string
    var font: string
    var fontSize: int
    var showInOutBox: bool
    var showSettings: bool
    var customInput: string
    var customInputBuf: string
    var output: string
    var fileName: string
    var isChanged: bool
    var checkData: string
    var codeId: Option<string>
    var codeTitle: string
    var user: JsValue
    var firebase: JsValue

    /** The state record the fields hold. */
    function View(): Session
      reads this
    {
      Session(code, sampleCodes, language, languageMode, theme, font, fontSize,
                showInOutBox, showSettings, customInput, customInputBuf, output, fileName,
                isChanged, checkData, codeId, codeTitle, user, firebase)
    }

    predicate Valid()
      reads this
    {
      State.Valid(View())
    }

    /** `new Vuex.Store({state: ...})`, with `code` a copy of the samples. */
    constructor (lib: Libraries, samples: map<string, string>, user: JsValue, firebase: JsValue)
      requires ModeTable.Keys <= samples.Keys
      ensures this.lib == lib
      ensures View() == Initial(samples, user, firebase)
      ensures Valid()
    {
      this.lib := lib;
      code := samples;
      sampleCodes := samples;
      language := "C++";
      languageMode := "cpp";
      theme := DefaultTheme;
      font := DefaultFont;
      fontSize := DefaultFontSize;
      showInOutBox := false;
      showSettings := false;
      customInput := "";
      customInputBuf := "";
      output := "";
      fileName := "download.cpp";
      isChanged := false;
      checkData := "";
      codeId := None;
      codeTitle := "";
      this.user := user;
      this.firebase := firebase;
    }

    method ToggleInOutBox()
      requires Valid()
      modifies this
      ensures Valid()
      ensures View() == H.ToggleInOutBox(old(View()))
    {
      ghost var before := View();
      showInOutBox := !showInOutBox;
      ValidOnlyDependsOnLanguageAndCode(before, View());
    }

    method ToogleSettings()
      requires Valid()
      modifies this
      ensures Valid()
      ensures View() == H.ToogleSettings(old(View()))
    {
      ghost var before := View();
      showSettings := !showSettings;
      ValidOnlyDependsOnLanguageAndCode(before, View());
    }

    method ChangeLanguage(val: string)
      requires Valid() && IsLanguage(val)
      modifies this
      ensures Valid()
      ensures View() == H.ChangeLanguage(old(View()), val)
    {
      language := val;
      languageMode := ModeTable[language];
      fileName := "download" + ExtensionTable[language];
    }

    method UpdateCode(val: string)
      requires Valid()
      modifies this
      ensures Valid()
      ensures View() == H.UpdateCode(old(View()), val)
    {
      code := code[language := val];
    }

    method SetCode(val: string)
      requires Valid()
      modifies this
      ensures Valid()
      ensures View() == H.SetCode(old(View()), val)
    {
      code := code[language := val];
    }

    method UploadCode(val: string)
      requires Valid()
      modifies this
      ensures Valid()
      ensures View() == H.UploadCode(old(View()), val)
    {
      code := code[language := val];
    }

    method UpdateOutput(val: string)
      requires Valid()
      modifies this
      ensures Valid()
      ensures View() == H.UpdateOutput(old(View()), val)
    {
      ghost var before := View();
      output := val;
      ValidOnlyDependsOnLanguageAndCode(before, View());
    }

    method FileNameChange(val: string)
      requires Valid()
      modifies this
      ensures Valid()
      ensures View() == H.FileNameChange(old(View()), val)
    {
      ghost var before := View();
      fileName := val;
      ValidOnlyDependsOnLanguageAndCode(before, View());
    }

    method ChangeCustomInput(val: string)
      requires Valid()
      modifies this
      ensures Valid()
      ensures View() == H.ChangeCustomInput(old(View()), val)
    {
      ghost var before := View();
      customInput := val;
      ValidOnlyDependsOnLanguageAndCode(before, View());
    }

    method ChangeTheme(val: string)
      requires Valid()
      modifies this
      ensures Valid()
      ensures View() == H.ChangeTheme(old(View()), val)
    {
      ghost var before := View();
      theme := val;
      ValidOnlyDependsOnLanguageAndCode(before, View());
    }

    method ChangeFont(val: string)
      requires Valid()
      modifies this
      ensures Valid()
      ensures View() == H.ChangeFont(old(View()), val)
    {
      ghost var before := View();
      font := val;
      ValidOnlyDependsOnLanguageAndCode(before, View());
    }

    method ChangeFontSize(val: int)
      requires Valid()
      modifies this
      ensures Valid()
      ensures View() == H.ChangeFontSize(old(View()), val)
    {
      ghost var before := View();
      fontSize := val;
      ValidOnlyDependsOnLanguageAndCode(before, View());
    }

    /** `setCheckData(state, val = '')`: `None` is a commit without a payload. */
    method SetCheckData(val: Option<string>)
      requires Valid()
      modifies this
      ensures Valid()
      ensures View() == H.SetCheckData(old(View()), val, lib.sha256Hex)
    {
      var text := if val.Some? then val.value else "";
      ghost var before := View();
      checkData := lib.sha256Hex(text);
      ValidOnlyDependsOnLanguageAndCode(before, View());
    }

    /** The three assignments of `resetEditor`, each done as its own setter does it. */
    method ResetEditor()
      requires Valid()
      modifies this
      ensures Valid()
      ensures View() == H.ResetEditor(old(View()))
    {
      ChangeTheme(DefaultTheme);
      ChangeFont(DefaultFont);
      ChangeFontSize(DefaultFontSize);
    }

    method ResetCode()
      requires Valid()
      modifies this
      ensures Valid()
      ensures View() == H.ResetCode(old(View()))
    {
      code := code[language := sampleCodes[language]];
      codeId := None;
    }

    method SetIsChanged(val: bool)
      requires Valid()
      modifies this
      ensures Valid()
      ensures View() == H.SetIsChanged(old(View()), val)
    {
      ghost var before := View();
      isChanged := val;
      ValidOnlyDependsOnLanguageAndCode(before, View());
    }

    method SetCodeId(val: Option<string>)
      requires Valid()
      modifies this
      ensures Valid()
      ensures View() == H.SetCodeId(old(View()), val)
    {
      ghost var before := View();
      codeId := val;
      ValidOnlyDependsOnLanguageAndCode(before, View());
    }

    method SetCodeTitle(val: string)
      requires Valid()
      modifies this
      ensures Valid()
      ensures View() == H.SetCodeTitle(old(View()), val)
    {
      ghost var before := View();
      codeTitle := val;
      ValidOnlyDependsOnLanguageAndCode(before, View());
    }

    /**
     * `loadDataFromServer`: `reply` is what the GET would return (`None` when
     * it fails); the result is the path requested, if any.
     */
    method LoadDataFromServer(route: Route, reply: Option<Document>) returns (request: Option<string>)
      requires Valid()
      requires reply.Some? ==> IsLanguage(reply.value.language)
      modifies this
      ensures Valid()
      ensures request == LoadRequest(route)
      ensures View() == LoadFromServer(old(View()), route, reply, lib.sha256Hex)
    {
      var pasteId := route.id;
      if route.name != "saved" {
        return None;
      }
      request := Some("/code/" + pasteId);
      if reply.None? {
        return;
      }
      var data := reply.value;
      SetCodeId(Some(data.id));
      ChangeLanguage(data.language);
      SetCode(data.code);
      ChangeCustomInput(data.customInput);
      FileNameChange(data.fileName);
      SetCheckData(Some(data.code));
      SetCodeTitle(data.title);
    }

    /**
     * `saveDataToServer`: `reply` is what the POST would return (`None` when
     * it fails); it is only consulted when the digest has changed.
     */
    method SaveDataToServer(reply: Option<SaveReply>) returns (result: SaveResult)
      requires Valid()
      modifies this
      ensures Valid()
      ensures result == SaveResultOf(old(View()), reply, lib.sha256Hex)
      ensures View() == AfterSave(old(View()), reply, lib.sha256Hex)
    {
      if checkData == lib.sha256Hex(code[language]) {
        return AlreadySaved(codeId);
      }
      result := Posted(SaveBodyOf(View()), reply);
      if reply.Some? {
        var data := reply.value;
        SetCodeId(Some(data.id));
        SetCheckData(Some(data.code));
      }
    }

    /**
     * `runJs`: posts the code and the JSON-encoded input to a worker and waits
     * for one reply (`None`: it never comes). The joined reply is committed as
     * the output, then the promise is rejected if it matches the error pattern
     * and resolved otherwise.
     */
    method RunJs(code: string, input: string, workerReply: Option<seq<string>>) returns (message: WorkerMessage, outcome: JsOutcome)
      requires Valid()
      modifies this
      ensures Valid()
      ensures message == WorkerMessage(code, lib.jsonStringify(input))
      ensures outcome == JsOutcomeOf(workerReply)
      ensures workerReply.None? ==> View() == old(View())
      ensures workerReply.Some? ==> View() == H.UpdateOutput(old(View()), Join(workerReply.value))
    {
      message := WorkerMessage(code, lib.jsonStringify(input));
      outcome := Pending;
      if workerReply.None? {
        return;
      }
      var output := Join(workerReply.value);
      UpdateOutput(output);
      if MatchesErrorPattern(output) {
        outcome := Settle(outcome, Rejected("complie_error"));
      }
      outcome := Settle(outcome, Resolved("success", ["success"]));
    }

    /**
     * `runCode`: in the browser for the one in-browser execution code,
     * otherwise a POST of the base64-encoded code and input whose reply
     * (`None`: the request failed) is decoded and committed as the output.
     */
    method RunCode(workerReply: Option<seq<string>>, reply: Option<RunReply>) returns (result: RunResult)
      requires Valid()
      modifies this
      ensures Valid()
      ensures result == RunCodeResult(old(View()), lib, workerReply, reply)
      ensures View() == AfterRun(old(View()), result.Committed(workerReply))
    {
      var lang := ExecutionCode(language);
      if lang == InBrowserCode {
        var message, outcome := RunJs(code[language], customInput, workerReply);
        return InBrowser(message, outcome);
      }
      var source := lib.base64Encode(code[language]);
      if source.None? {
        return EncodeFailed;
      }
      var input := lib.base64Encode(customInput);
      if input.None? {
        return EncodeFailed;
      }
      var output: Option<string> := None;
      if reply.Some? {
        output := RemoteOutput(reply.value, lib.base64Decode);
        if output.Some? {
          UpdateOutput(output.value);
        }
      }
      result := Remote(RunRequest(lang, source.value, [input.value]), reply, output);
    }
  }
}
