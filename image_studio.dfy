/** The image studio page: upload guard, the request it sends to the image
    function, and what it keeps of the answer. Reading the file, the
    function call and the toasts are outside the model; the file and the
    call's result are inputs. */
module ImageStudio {
  import opened Text
  import ImageGateway

  /** Uploads larger than 5 MiB are refused. */
  const MaxUploadBytes: nat := 5 * 1024 * 1024

  datatype Action = Edit | Generate

  function ActionName(a: Action): string
  {
    match a
    case Edit => "edit"
    case Generate => "generate"
  }

  /** `activeTab === "edit" ? "edit" : "generate"`. */
  function ActionFor(tab: string): (a: Action)
    ensures a == Edit <==> tab == "edit"
  {
    if tab == "edit" then Edit else Generate
  }

  /** A chosen file: its size in bytes and its contents as a data URL. */
  datatype File = File(size: nat, dataUrl: string)

  /** The body sent to the image function. */
  datatype Payload = Payload(action: Action, prompt: string, imageUrl: Option<string>)

  /** The function call: an error, or the reply's `imageUrl` (absent or
      empty when no image came back). */
  datatype Invocation = Failed(message: string) | Returned(imageUrl: Option<string>)

  class StudioPage {
    var activeTab: string
    var uploadedImage: Option<string>
    var generatedImage: Option<string>
    var customPrompt: string
    var isProcessing: bool

    constructor ()
      ensures activeTab == "edit" && uploadedImage == None && generatedImage == None
      ensures customPrompt == "" && !isProcessing
    {
      activeTab, uploadedImage, generatedImage := "edit", None, None;
      customPrompt, isProcessing := "", false;
    }

    /** `handleFileUpload`: no file or a file over 5 MiB changes nothing; an
        accepted file becomes the uploaded image and clears the last
        generated one. */
    method Upload(file: Option<File>) returns (refused: bool)
      modifies this`uploadedImage, this`generatedImage
      ensures refused <==> file.Some? && file.value.size > MaxUploadBytes
      ensures file.None? || refused ==> uploadedImage == old(uploadedImage) && generatedImage == old(generatedImage)
      ensures file.Some? && !refused ==> uploadedImage == Some(file.value.dataUrl) && generatedImage == None
    {
      refused := false;
      if file.Some? {
        if file.value.size > MaxUploadBytes {
          refused := true;
          return;
        }
        uploadedImage := Some(file.value.dataUrl);
        generatedImage := None;
      }
    }

    /** `processImage`: the payload carries the uploaded image only for an
        edit with an upload; a reply with an image replaces the generated
        one, anything else leaves it; processing is over afterwards. */
    method ProcessImage(prompt: string, action: Action, call: Invocation) returns (payload: Payload)
      modifies this`generatedImage, this`isProcessing
      ensures payload.action == action && payload.prompt == prompt
      ensures payload.imageUrl == (if action == Edit && ImageGateway.Truthy(uploadedImage) then uploadedImage else None)
      ensures generatedImage == (if call.Returned? && ImageGateway.Truthy(call.imageUrl) then call.imageUrl else old(generatedImage))
      ensures !isProcessing
    {
      isProcessing := true;
      payload := Payload(action, prompt, None);
      if action == Edit && ImageGateway.Truthy(uploadedImage) {
        payload := payload.(imageUrl := uploadedImage);
      }
      if call.Returned? && ImageGateway.Truthy(call.imageUrl) {
        generatedImage := call.imageUrl;
      }
      isProcessing := false;
    }

    /** `handlePresetClick`: refused in the edit tab while nothing is
        uploaded; otherwise the preset is processed with the tab's action. */
    method PresetClick(prompt: string, call: Invocation) returns (sent: Option<Payload>)
      modifies this`generatedImage, this`isProcessing
      ensures activeTab == "edit" && !ImageGateway.Truthy(uploadedImage) ==>
        sent == None && generatedImage == old(generatedImage) && isProcessing == old(isProcessing)
      ensures sent.Some? <==> !(activeTab == "edit" && !ImageGateway.Truthy(uploadedImage))
      ensures sent.Some? ==> sent.value.action == ActionFor(activeTab) && sent.value.prompt == prompt
      ensures sent.Some? ==> ImageGateway.BuildMessages(BodyOf(sent.value)).Some?
    {
      if activeTab == "edit" && !ImageGateway.Truthy(uploadedImage) {
        return None;
      }
      var payload := ProcessImage(prompt, ActionFor(activeTab), call);
      sent := Some(payload);
    }

    /** `handleCustomPrompt`: a blank prompt is refused first, then an edit
        without an upload; otherwise the typed prompt is processed. */
    method CustomPrompt(call: Invocation) returns (sent: Option<Payload>)
      modifies this`generatedImage, this`isProcessing
      ensures Blank(customPrompt) || (activeTab == "edit" && !ImageGateway.Truthy(uploadedImage)) ==>
        sent == None && generatedImage == old(generatedImage) && isProcessing == old(isProcessing)
      ensures sent.Some? <==> !Blank(customPrompt) && !(activeTab == "edit" && !ImageGateway.Truthy(uploadedImage))
      ensures sent.Some? ==> sent.value.action == ActionFor(activeTab) && sent.value.prompt == customPrompt
      ensures sent.Some? ==> ImageGateway.BuildMessages(BodyOf(sent.value)).Some?
    {
      if Blank(customPrompt) {
        return None;
      }
      if activeTab == "edit" && !ImageGateway.Truthy(uploadedImage) {
        return None;
      }
      var payload := ProcessImage(customPrompt, ActionFor(activeTab), call);
      sent := Some(payload);
    }

    /** The Edit / Generate tab switch. */
    method SelectTab(tab: string)
      modifies this`activeTab
      ensures activeTab == tab
    {
      activeTab := tab;
    }

    /** `resetStudio`. */
    method Reset()
      modifies this`uploadedImage, this`generatedImage, this`customPrompt
      ensures uploadedImage == None && generatedImage == None && customPrompt == ""
    {
      uploadedImage, generatedImage, customPrompt := None, None, "";
    }
  }

  /** The payload as the image function reads it. */
  function BodyOf(p: Payload): (b: ImageGateway.ImageBody)
    ensures b.action == Some(ActionName(p.action)) && b.prompt == Some(p.prompt) && b.imageUrl == p.imageUrl
  {
    ImageGateway.ImageBody(Some(ActionName(p.action)), Some(p.prompt), p.imageUrl)
  }

  /** The page never sends what the image function would reject as an
      invalid action: a "generate" payload is always accepted, and an "edit"
      payload is accepted exactly when it carries a non-empty image. */
  lemma PayloadsAccepted(p: Payload)
    ensures p.action == Generate ==> ImageGateway.BuildMessages(BodyOf(p)).Some?
    ensures p.action == Edit ==> (ImageGateway.BuildMessages(BodyOf(p)).Some? <==> ImageGateway.Truthy(p.imageUrl))
  {
  }
}
