/**
 * The store's `mutations`, one function per handler: each is a deterministic
 * transition of the state record. `Mutations.Apply` dispatches a commit to
 * them and the class in `Store` performs them in place.
 */
module Handlers {
  import opened Wrappers
  import opened Registry
  import opened State

  function ToggleInOutBox(s: Session): Session {
    s.(showInOutBox := !s.showInOutBox)
  }

  function ToogleSettings(s: Session): Session {
    s.(showSettings := !s.showSettings)
  }

  /** The language, the editor mode from the registry and the default file name `download` + extension. */
  function ChangeLanguage(s: Session, name: string): Session
    requires IsLanguage(name)
  {
    s.(language := name, languageMode := Mode(name), fileName := DownloadName(name))
  }

  /** `updateCode`, `setCode` and `uploadCode` share this body: the current language's entry is overwritten. */
  function UpdateCode(s: Session, text: string): Session {
    s.(code := s.code[s.language := text])
  }

  function SetCode(s: Session, text: string): Session {
    s.(code := s.code[s.language := text])
  }

  function UploadCode(s: Session, text: string): Session {
    s.(code := s.code[s.language := text])
  }

  function UpdateOutput(s: Session, text: string): Session {
    s.(output := text)
  }

  function FileNameChange(s: Session, name: string): Session {
    s.(fileName := name)
  }

  function ChangeCustomInput(s: Session, text: string): Session {
    s.(customInput := text)
  }

  function ChangeTheme(s: Session, theme: string): Session {
    s.(theme := theme)
  }

  function ChangeFont(s: Session, font: string): Session {
    s.(font := font)
  }

  function ChangeFontSize(s: Session, size: int): Session {
    s.(fontSize := size)
  }

  /** `setCheckData(state, val = '')`: `None` is a commit without a payload. */
  function SetCheckData(s: Session, payload: Option<string>, sha256Hex: string -> string): Session {
    var val := match payload case None => "" case Some(text) => text;
    s.(checkData := sha256Hex(val))
  }

  function ResetEditor(s: Session): Session {
    s.(theme := DefaultTheme, font := DefaultFont, fontSize := DefaultFontSize)
  }

  /** The current language's entry goes back to its sample and the document identity is dropped. */
  function ResetCode(s: Session): Session
    requires s.language in s.sampleCodes
  {
    s.(code := s.code[s.language := s.sampleCodes[s.language]], codeId := None)
  }

  function SetIsChanged(s: Session, flag: bool): Session {
    s.(isChanged := flag)
  }

  function SetCodeId(s: Session, id: Option<string>): Session {
    s.(codeId := id)
  }

  function SetCodeTitle(s: Session, title: string): Session {
    s.(codeTitle := title)
  }
}
