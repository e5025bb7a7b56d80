/**
 * The decision logic of the store's `actions`, as functions of the state and of
 * the replies the network or the worker would give. Each action is the
 * sequence of commits it performs; what it sends out is part of its result.
 */
module Actions {
  import opened Wrappers
  import opened ThirdParty
  import opened Registry
  import opened JsText
  import opened State
  import H = Handlers

  /** The part of `state.route` the actions read. */
  datatype Route = Route(name: string, id: string)

  /** The body of a `GET /code/{id}` reply. */
  datatype Document = Document(id: string, language: string, code: string, customInput: string, fileName: string, title: string)

  /** The `POST /code` body; `id` is left out when the state has none. */
  datatype SaveBody = SaveBody(id: Option<string>, language: string, code: string, customInput: string, fileName: string, title: string)

  /** The body of a `POST /code` reply. */
  datatype SaveReply = SaveReply(id: string, code: string)

  /** How `saveDataToServer` settles. */
  datatype SaveResult =
    | AlreadySaved(id: Option<string>)                  // digest unchanged: resolved at once, nothing sent
    | Posted(body: SaveBody, reply: Option<SaveReply>)   // sent; `None` when the request failed

  /** The request `loadDataFromServer` sends, if any. */
  function LoadRequest(route: Route): (path: Option<string>)
    ensures path.Some? <==> route.name == "saved"
  {
    if route.name != "saved" then None else Some("/code/" + route.id)
  }

  /**
   * `loadDataFromServer`: nothing unless the route is the saved-document view
   * and the GET succeeds; then the reply's fields are committed in this order.
   */
  function LoadFromServer(s: Session, route: Route, reply: Option<Document>, sha256Hex: string -> string): (r: Session)
    requires reply.Some? ==> IsLanguage(reply.value.language)
    ensures Valid(s) ==> Valid(r)
  {
    if route.name != "saved" || reply.None? then s
    else
      var doc := reply.value;
      var s1 := H.SetCodeId(s, Some(doc.id));
      var s2 := H.ChangeLanguage(s1, doc.language);
      var s3 := H.SetCode(s2, doc.code);
      var s4 := H.ChangeCustomInput(s3, doc.customInput);
      var s5 := H.FileNameChange(s4, doc.fileName);
      var s6 := H.SetCheckData(s5, Some(doc.code), sha256Hex);
      H.SetCodeTitle(s6, doc.title)
  }

  /** The digest the save compares against `checkData`. */
  function CurrentDigest(s: Session, sha256Hex: string -> string): string
    requires s.language in s.code
  {
    sha256Hex(s.code[s.language])
  }

  /** A missing or empty id is falsy, so `undefined` is sent instead and the id is left out. */
  function IdToSend(codeId: Option<string>): (id: Option<string>)
    ensures id.Some? <==> codeId.Some? && codeId.value != ""
    ensures id.Some? ==> id == codeId
  {
    if codeId.Some? && codeId.value != "" then codeId else None
  }

  function SaveBodyOf(s: Session): SaveBody
    requires s.language in s.code
  {
    SaveBody(IdToSend(s.codeId), s.language, s.code[s.language], s.customInput, s.fileName, s.codeTitle)
  }

  /** What `saveDataToServer` sends and how it settles. */
  function SaveResultOf(s: Session, reply: Option<SaveReply>, sha256Hex: string -> string): (r: SaveResult)
    requires s.language in s.code
    ensures r.AlreadySaved? <==> s.checkData == CurrentDigest(s, sha256Hex)
    ensures r.AlreadySaved? ==> r.id == s.codeId
    ensures r.Posted? ==> r.body.code == s.code[s.language] && r.body.language == s.language && r.reply == reply
    ensures r.Posted? ==> && (r.body.id.Some? <==> s.codeId.Some? && s.codeId.value != "")
                          && (r.body.id.Some? ==> r.body.id == s.codeId)
                          && r.body.customInput == s.customInput
                          && r.body.fileName == s.fileName
                          && r.body.title == s.codeTitle
  {
    if s.checkData == CurrentDigest(s, sha256Hex) then AlreadySaved(s.codeId)
    else Posted(SaveBodyOf(s), reply)
  }

  /** The state after `saveDataToServer`: a successful POST records the returned id and the digest of the returned code. */
  function AfterSave(s: Session, reply: Option<SaveReply>, sha256Hex: string -> string): (r: Session)
    requires s.language in s.code
    ensures Valid(s) ==> Valid(r)
  {
    if s.checkData == CurrentDigest(s, sha256Hex) || reply.None? then s
    else H.SetCheckData(H.SetCodeId(s, Some(reply.value.id)), Some(reply.value.code), sha256Hex)
  }

  /** A load on any other route commits nothing. */
  lemma LoadGuard(s: Session, route: Route, reply: Option<Document>, sha256Hex: string -> string)
    requires route.name != "saved"
    requires reply.Some? ==> IsLanguage(reply.value.language)
    ensures LoadFromServer(s, route, reply, sha256Hex) == s
    ensures LoadRequest(route) == None
  {
  }

  /**
   * A successful load installs the document. Because the language is changed
   * before the code is set, the code lands under the document's language, and
   * the digest is that of the loaded code. The file name is the document's,
   * not the default one `changeLanguage` wrote first.
   */
  lemma LoadInstallsDocument(s: Session, route: Route, doc: Document, sha256Hex: string -> string)
    requires Valid(s) && route.name == "saved" && IsLanguage(doc.language)
    ensures Valid(LoadFromServer(s, route, Some(doc), sha256Hex))
    ensures LoadFromServer(s, route, Some(doc), sha256Hex)
         == s.(codeId := Some(doc.id), language := doc.language, languageMode := Mode(doc.language),
               code := s.code[doc.language := doc.code], customInput := doc.customInput,
               fileName := doc.fileName, checkData := sha256Hex(doc.code), codeTitle := doc.title)
  {
  }

  /** The loaded document `{id: 7, language: 'Java', code: 'class X{}', ...}` ends up in the state. */
  lemma LoadJavaScenario(s: Session, sha256Hex: string -> string)
    requires Valid(s)
    ensures var doc := Document("7", "Java", "class X{}", "", "Main.java", "T");
            var r := LoadFromServer(s, Route("saved", "7"), Some(doc), sha256Hex);
            r.codeId == Some("7") && r.language == "Java" && r.code["Java"] == "class X{}"
            && r.checkData == sha256Hex("class X{}")
  {
    LoadInstallsDocument(s, Route("saved", "7"), Document("7", "Java", "class X{}", "", "Main.java", "T"), sha256Hex);
  }

  /**
   * Saving right after a load sends nothing: the stored digest is that of the
   * code under the current language, so the save resolves at once with the
   * loaded id and leaves the state alone, whatever the server would have said.
   */
  lemma LoadThenSaveSendsNothing(s: Session, route: Route, doc: Document, reply: Option<SaveReply>, sha256Hex: string -> string)
    requires Valid(s) && route.name == "saved" && IsLanguage(doc.language)
    ensures var loaded := LoadFromServer(s, route, Some(doc), sha256Hex);
            && SaveResultOf(loaded, reply, sha256Hex) == AlreadySaved(Some(doc.id))
            && AfterSave(loaded, reply, sha256Hex) == loaded
  {
    LoadInstallsDocument(s, route, doc, sha256Hex);
  }

  /**
   * A successful save records the returned id and the digest of the returned
   * code, and changes nothing else. When the server hands back the code it was
   * sent, a second save with no edit in between sends nothing: at most one write.
   */
  lemma SaveTwiceWritesOnce(s: Session, first: SaveReply, second: Option<SaveReply>, sha256Hex: string -> string)
    requires s.language in s.code
    requires s.checkData != CurrentDigest(s, sha256Hex)
    ensures var saved := AfterSave(s, Some(first), sha256Hex);
            && SaveResultOf(s, Some(first), sha256Hex).Posted?
            && saved.codeId == Some(first.id)
            && saved.checkData == sha256Hex(first.code)
            && saved.(codeId := s.codeId, checkData := s.checkData) == s
            && (first.code == s.code[s.language] ==> SaveResultOf(saved, second, sha256Hex) == AlreadySaved(Some(first.id)))
  {
  }

  // ---- runJs and runCode ----

  /** The message posted to the worker: the code and the input as a JSON string. */
  datatype WorkerMessage = WorkerMessage(code: string, input: string)

  /** How the `runJs` promise settles. */
  datatype JsOutcome =
    | Pending                                            // the worker never replies
    | Rejected(result: string)
    | Resolved(result: string, testcaseResults: seq<string>)

  /** The `POST /run/run` body. */
  datatype RunRequest = RunRequest(lang: string, source: string, input: seq<string>)

  /** The part of a `/run/run` reply the action reads: `result`, `error` and each `data.testcases[i].output`. */
  datatype RunReply = RunReply(result: string, error: string, testcaseOutputs: seq<string>)

  /** What `runCode` does. */
  datatype RunResult =
    | InBrowser(message: WorkerMessage, outcome: JsOutcome)
    | EncodeFailed                                        // `base64.encode` threw before anything was sent
    | Remote(request: RunRequest, reply: Option<RunReply>, output: Option<string>)
  {
    /** The text committed with `updateOutput`, if any. */
    function Committed(workerReply: Option<seq<string>>): Option<string> {
      match this
      case InBrowser(_, _) => if workerReply.Some? then Some(Join(workerReply.value)) else None
      case EncodeFailed => None
      case Remote(_, _, output) => output
    }
  }

  /** A promise settles once: resolving or rejecting a settled promise has no effect. */
  function Settle(promise: JsOutcome, next: JsOutcome): (settled: JsOutcome)
    ensures promise.Pending? ==> settled == next
    ensures !promise.Pending? ==> settled == promise
  {
    if promise.Pending? then next else promise
  }

  /** The first settlement wins: once a promise is settled, any later resolve or reject is ignored. */
  lemma FirstSettlementWins(promise: JsOutcome, first: JsOutcome, later: JsOutcome)
    requires !first.Pending?
    ensures !Settle(promise, first).Pending?
    ensures Settle(Settle(promise, first), later) == Settle(promise, first)
  {
  }

  /**
   * The classification of the worker's joined output: `reject` when the
   * pattern matches, then `resolve`, which is too late once rejected.
   */
  function ClassifyWorkerOutput(output: string): (outcome: JsOutcome)
    ensures outcome.Rejected? <==> IsErrorLine(output)
    ensures outcome.Rejected? ==> outcome.result == "complie_error"
    ensures outcome.Resolved? <==> !IsErrorLine(output)
  {
    ErrorPatternMeaning(output);
    var afterMatch := if MatchesErrorPattern(output) then Rejected("complie_error") else Pending;
    Settle(afterMatch, Resolved("success", ["success"]))
  }

  function JsOutcomeOf(workerReply: Option<seq<string>>): JsOutcome {
    match workerReply
    case None => Pending
    case Some(lines) => ClassifyWorkerOutput(Join(lines))
  }

  /** A run in the browser fails exactly when the worker answered with one line that is an error line. */
  lemma WorkerRejectsOnlySingleErrorLine(lines: seq<string>)
    ensures JsOutcomeOf(Some(lines)).Rejected? <==> |lines| == 1 && IsErrorLine(lines[0])
  {
    JoinedErrorLine(lines);
  }

  /** The output text a `/run/run` reply yields: `error` for a compile error, else the first test case's output, decoded. */
  function RemoteOutput(reply: RunReply, base64Decode: string -> Option<string>): (output: Option<string>)
    ensures reply.result == "compile_error" ==> output == base64Decode(reply.error)
    ensures reply.result != "compile_error" && reply.testcaseOutputs == [] ==> output == None
    ensures reply.result != "compile_error" && reply.testcaseOutputs != [] ==> output == base64Decode(reply.testcaseOutputs[0])
  {
    if reply.result == "compile_error" then base64Decode(reply.error)
    else if |reply.testcaseOutputs| > 0 then base64Decode(reply.testcaseOutputs[0])
    else None
  }

  /** What `runCode` does, given the worker's and the server's replies (only one of which is consulted). */
  function RunCodeResult(s: Session, lib: Libraries, workerReply: Option<seq<string>>, reply: Option<RunReply>): RunResult
    requires s.language in s.code
  {
    var lang := ExecutionCode(s.language);
    var code := s.code[s.language];
    if lang == InBrowserCode then
      InBrowser(WorkerMessage(code, lib.jsonStringify(s.customInput)), JsOutcomeOf(workerReply))
    else
      match (lib.base64Encode(code), lib.base64Encode(s.customInput))
      case (Some(source), Some(input)) =>
        var output := if reply.Some? then RemoteOutput(reply.value, lib.base64Decode) else None;
        Remote(RunRequest(lang, source, [input]), reply, output)
      case _ => EncodeFailed
  }

  /** The state after `runCode`: `updateOutput` is committed when there is something to commit. */
  function AfterRun(s: Session, committed: Option<string>): Session {
    if committed.Some? then H.UpdateOutput(s, committed.value) else s
  }

  /**
   * Routing: exactly "JavaScript" runs in the browser; every other language,
   * "C" and unknown names included, posts the base64-encoded code and input
   * under the switch's execution code, which is never the in-browser one.
   */
  lemma RunCodeRoutes(s: Session, lib: Libraries, workerReply: Option<seq<string>>, reply: Option<RunReply>)
    requires s.language in s.code
    ensures var r := RunCodeResult(s, lib, workerReply, reply);
            && (r.InBrowser? <==> s.language == "JavaScript")
            && (r.InBrowser? ==> r.message.code == s.code[s.language])
            && (r.Remote? ==>
                  && r.request.lang == ExecutionCode(s.language)
                  && r.request.lang != InBrowserCode
                  && lib.base64Encode(s.code[s.language]) == Some(r.request.source)
                  && lib.base64Encode(s.customInput).Some?
                  && r.request.input == [lib.base64Encode(s.customInput).value]
                  && r.reply == reply
                  && (reply.Some? ==> r.output == RemoteOutput(reply.value, lib.base64Decode))
                  && (reply.None? ==> r.output == None))
            && (s.language != "JavaScript" && lib.base64Encode(s.code[s.language]).Some? && lib.base64Encode(s.customInput).Some? <==> r.Remote?)
  {
  }

  /** "Ruby" posts under execution code "ruby". */
  lemma RubyScenario(s: Session, lib: Libraries, reply: Option<RunReply>)
    requires s.language == "Ruby" && s.code == map["Ruby" := "puts 1"] && s.customInput == ""
    requires lib.base64Encode("puts 1") == Some("cHV0cyAx") && lib.base64Encode("") == Some("")
    ensures RunCodeResult(s, lib, None, reply).Remote?
    ensures RunCodeResult(s, lib, None, reply).request == RunRequest("ruby", "cHV0cyAx", [""])
  {
  }
}
