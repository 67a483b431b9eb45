/** The contact form (`ContactFormModal`): an error report or a suggestion, with an
    optional sender email and, on the error tab only, an optional image attachment of
    at most 5 MB. Reading the file (`FileReader`) and the POST are inputs. */
module ContactForm {
  import opened Common
  import opened Text

  /** The largest attachment accepted, in bytes. */
  const MaxFileBytes: nat := 5 * 1024 * 1024

  /** The file a user picked: its name and size in bytes. */
  datatype SelectedFile = SelectedFile(name: string, size: nat)

  /** The outcome of `readAsDataURL`: the data URL, or the reader's error. */
  datatype FileRead = Loaded(dataUrl: string) | ReadFailed

  /** A JSON value of the request body that can be a string, `null`, or `undefined`
      (which leaves the key out). */
  datatype JsonText = Null | Undefined | Text(s: string)

  /** The body of `POST /contact`. */
  datatype Payload = Payload(
    kind: string, message: string, senderEmail: JsonText, platform: string,
    attachmentBase64: JsonText, attachmentName: JsonText)

  datatype ContactState = ContactState(
    activeTab: string, message: string, senderEmail: string, file: Option<SelectedFile>,
    loading: bool, sent: bool, error: string)

  const FileTooLarge: string := "La imagen no puede superar los 5 MB."
  const MessageRequired: string := "Por favor escrib\U{00ED} tu mensaje."
  const SendFailed: string := "Error al enviar el mensaje. Intent\U{00E1} de nuevo."

  /** The form on first render. */
  function InitialContact(defaultTab: string): ContactState
  {
    ContactState(defaultTab, "", "", None, false, false, "")
  }

  /** An attachment can only be chosen on the error tab, where the file input is. */
  ghost predicate Valid(s: ContactState)
  {
    s.file.Some? ==> s.activeTab == "error"
  }

  /** `reset` (also what closing does): everything back to the start except `loading`,
      which it does not touch. */
  function Reset(s: ContactState, defaultTab: string): (r: ContactState)
    ensures r == InitialContact(defaultTab).(loading := s.loading)
  {
    ContactState(defaultTab, "", "", None, s.loading, false, "")
  }

  /** `handleTabChange`: the new tab, no attachment and no error; message and email are
      kept. */
  function TabChanged(s: ContactState, tab: string): (r: ContactState)
    ensures r.activeTab == tab && r.file.None? && r.error == ""
    ensures r.message == s.message && r.senderEmail == s.senderEmail
    ensures r.loading == s.loading && r.sent == s.sent
  {
    s.(activeTab := tab, file := None, error := "")
  }

  /** `handleFileChange`: picking nothing changes nothing; a file over the limit sets
      the error and keeps the previous file; any other file replaces it and clears the
      error. */
  function FileChanged(s: ContactState, selected: Option<SelectedFile>): (r: ContactState)
    ensures selected.None? ==> r == s
    ensures selected.Some? && selected.value.size > MaxFileBytes ==> r == s.(error := FileTooLarge)
    ensures selected.Some? && selected.value.size <= MaxFileBytes ==> r == s.(file := selected, error := "")
    ensures r.file.Some? ==> r.file.value.size <= MaxFileBytes || r.file == s.file
  {
    if selected.None? then s
    else if selected.value.size > MaxFileBytes then s.(error := FileTooLarge)
    else s.(file := selected, error := "")
  }

  /** `ev.target.result.split(',')[1]`: the text between the first and the second comma
      of the data URL, or `undefined` when it has no comma. */
  function AfterFirstComma(dataUrl: string): (t: JsonText)
    ensures t.Undefined? <==> ',' !in dataUrl
    ensures t.Text? ==> ',' !in t.s
  {
    var parts := Split(dataUrl, ',');
    SplitHasSecondPiece(dataUrl, ',');
    if |parts| < 2 then Undefined else Text(parts[1])
  }

  /** For the data URL of an image, `data:<type>;base64,<data>`, what is sent is exactly
      the base64 data. */
  lemma DataUrlPayload(mimeType: string, data: string)
    requires ',' !in mimeType && ',' !in data
    ensures AfterFirstComma("data:" + mimeType + ";base64," + data) == Text(data)
  {
    var head := "data:" + mimeType + ";base64";
    assert ',' !in head by {
      assert forall i :: 0 <= i < |head| ==> head[i] == ("data:" + mimeType + ";base64")[i];
      assert forall i :: 5 <= i < 5 + |mimeType| ==> head[i] == mimeType[i - 5];
    }
    assert "data:" + mimeType + ";base64," + data == head + [','] + data;
    SplitAfterFirst(head, ',', data);
  }

  /** The request body for a form and, when there is a file, what the reader produced. */
  function PayloadOf(s: ContactState, dataUrl: Option<string>): (p: Payload)
    requires s.file.Some? <==> dataUrl.Some?
    ensures p.kind == s.activeTab && p.message == Trim(s.message) && p.platform == "nina-web"
    ensures p.senderEmail == (if IsBlank(s.senderEmail) then Null else Text(Trim(s.senderEmail)))
    ensures s.file.None? ==> p.attachmentBase64 == Null && p.attachmentName == Null
    ensures s.file.Some? ==>
      p.attachmentBase64 == AfterFirstComma(dataUrl.value) && p.attachmentName == Text(s.file.value.name)
  {
    Payload(
      s.activeTab, Trim(s.message),
      if IsBlank(s.senderEmail) then Null else Text(Trim(s.senderEmail)),
      "nina-web",
      if s.file.Some? then AfterFirstComma(dataUrl.value) else Null,
      if s.file.Some? then Text(s.file.value.name) else Null)
  }

  /** `handleSubmit`, once the file read and the POST have settled: the new state and the
      body that was posted, if any. A blank message only sets the error. Otherwise the
      form is sent unless the file could not be read, `sent` becomes true only when the
      backend accepted it, any failure sets the error, and loading is over. */
  function Submitted(s: ContactState, read: FileRead, reply: ApiResult<()>): (r: (ContactState, Option<Payload>))
    ensures IsBlank(s.message) ==> r == (s.(error := MessageRequired), None)
    ensures !IsBlank(s.message) ==> !r.0.loading
    ensures !IsBlank(s.message) && s.file.Some? && read.ReadFailed? ==>
      r == (s.(loading := false, error := SendFailed), None)
    ensures r.1.Some? ==> r.1.value == PayloadOf(s, if s.file.Some? then Some(read.dataUrl) else None)
    ensures r.1.Some? <==> !IsBlank(s.message) && (s.file.None? || read.Loaded?)
    ensures r.1.Some? && reply.Ok? ==> r.0 == s.(loading := false, sent := true, error := "")
    ensures r.1.Some? && reply.Failed? ==> r.0 == s.(loading := false, error := SendFailed)
    // the fields the user typed, the tab and the file are never changed by a submit
    ensures r.0.activeTab == s.activeTab && r.0.message == s.message
    ensures r.0.senderEmail == s.senderEmail && r.0.file == s.file
  {
    if IsBlank(s.message) then (s.(error := MessageRequired), None)
    else if s.file.Some? && read.ReadFailed? then (s.(loading := false, error := SendFailed), None)
    else
      var p := PayloadOf(s, if s.file.Some? then Some(read.dataUrl) else None);
      if reply.Ok? then (s.(loading := false, sent := true, error := ""), Some(p))
      else (s.(loading := false, error := SendFailed), Some(p))
  }

  /** Every operation keeps the attachment on the error tab. */
  lemma AttachmentOnlyOnErrorTab(s: ContactState, defaultTab: string, tab: string,
                                 selected: Option<SelectedFile>, read: FileRead, reply: ApiResult<()>)
    requires Valid(s)
    ensures Valid(InitialContact(defaultTab)) && Valid(Reset(s, defaultTab))
    ensures Valid(TabChanged(s, tab))
    ensures s.activeTab == "error" ==> Valid(FileChanged(s, selected))
    ensures Valid(Submitted(s, read, reply).0)
  {
  }

  class ContactFormModal {
    const defaultTab: string
    var activeTab: string
    var message: string
    var senderEmail: string
    var file: Option<SelectedFile>
    var loading: bool
    var sent: bool
    var error: string

    function State(): ContactState
      reads this
    {
      ContactState(activeTab, message, senderEmail, file, loading, sent, error)
    }

    constructor (defaultTab: string)
      ensures this.defaultTab == defaultTab && State() == InitialContact(defaultTab)
    {
      this.defaultTab := defaultTab;
      activeTab, message, senderEmail, file := defaultTab, "", "", None;
      loading, sent, error := false, false, "";
    }

    method HandleReset()
      modifies this
      ensures State() == Reset(old(State()), defaultTab)
    {
      message := "";
      senderEmail := "";
      file := None;
      error := "";
      sent := false;
      activeTab := defaultTab;
    }

    /** The message and email inputs' `onChange`. */
    method SetMessage(m: string)
      modifies this
      ensures State() == old(State()).(message := m)
    {
      message := m;
    }

    method SetSenderEmail(e: string)
      modifies this
      ensures State() == old(State()).(senderEmail := e)
    {
      senderEmail := e;
    }

    method HandleTabChange(tab: string)
      modifies this
      ensures State() == TabChanged(old(State()), tab)
    {
      activeTab := tab;
      file := None;
      error := "";
    }

    /** The file input's `onChange`; the input is only on the error tab. */
    method HandleFileChange(selected: Option<SelectedFile>)
      requires activeTab == "error"
      modifies this
      ensures State() == FileChanged(old(State()), selected)
    {
      if selected.None? {
        return;
      }
      if selected.value.size > MaxFileBytes {
        error := FileTooLarge;
        return;
      }
      file := selected;
      error := "";
    }

    /** The attachment's remove button. */
    method RemoveFile()
      modifies this
      ensures State() == old(State()).(file := None)
    {
      file := None;
    }

    /** `handleSubmit`; returns the body it posted, if any. */
    method HandleSubmit(read: FileRead, reply: ApiResult<()>) returns (posted: Option<Payload>)
      modifies this
      ensures State() == Submitted(old(State()), read, reply).0
      ensures posted == Submitted(old(State()), read, reply).1
    {
      var s0 := State();
      if IsBlank(message) {
        error := MessageRequired;
        return None;
      }
      if file.Some? && read.ReadFailed? {
        loading, error := false, SendFailed;
        return None;
      }
      var dataUrl: Option<string> := if file.Some? then Some(read.dataUrl) else None;
      posted := Some(PayloadOf(s0, dataUrl));
      if reply.Ok? {
        loading, sent, error := false, true, "";
      } else {
        loading, error := false, SendFailed;
      }
    }
  }
}
