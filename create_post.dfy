/** The new-post form (src/components/organisms/CreatePost/CreatePost.js): the image, caption,
    location and camera state that the handlers change, and the pure validation and payload
    of a submit. Camera access, the file reader and the canvas are outside the model; their
    results arrive as parameters. */
module CreatePost {
  import opened Common
  import opened Text

  /** The object handed to `onSubmit`. */
  datatype PostData = PostData(image: string, caption: string, location: Option<string>)

  /** `!image || !caption.trim()`: the submit guard. */
  predicate Rejected(image: Option<string>, caption: string) {
    !Truthy(image) || Trim(caption) == []
  }

  /** `isFormValid`. */
  predicate FormValid(image: Option<string>, caption: string) {
    Truthy(image) && Trim(caption) != []
  }

  /** `handleSubmit`'s payload: none when rejected; otherwise the same image, the trimmed
      caption, and the trimmed location or null when it trims to nothing. */
  function Payload(image: Option<string>, caption: string, location: string): (r: Option<PostData>)
    ensures r.None? <==> (!Truthy(image) || AllSpace(caption))
    ensures r.Some? ==> r.value.image == image.value && r.value.caption == Trim(caption) && r.value.caption != []
    ensures r.Some? ==> (r.value.location.None? <==> AllSpace(location))
    ensures r.Some? && r.value.location.Some? ==> r.value.location.value == Trim(location)
  {
    if Rejected(image, caption) then None
    else Some(PostData(image.value, Trim(caption), if Trim(location) == [] then None else Some(Trim(location))))
  }

  /** The form is valid exactly when a submit is not rejected, so the enabled button always
      produces a payload. */
  lemma FormValidIffAccepted(image: Option<string>, caption: string, location: string)
    ensures FormValid(image, caption) <==> Payload(image, caption, location).Some?
  {
  }

  /** A media stream handle (what `getUserMedia` resolves to). */
  type Stream = nat

  class Form {
    const loading: bool
    var image: Option<string>
    var caption: string
    var location: string
    var showCamera: bool
    /** `streamRef.current`. */
    var stream: Option<Stream>
    /** `fileInputRef.current?.value`: absent while the input is not mounted. */
    var fileInput: Option<string>

    constructor (loading: bool)
      ensures this.loading == loading
      ensures image == None && caption == "" && location == "" && !showCamera && stream == None
      ensures fileInput == Some("")
    {
      this.loading := loading;
      image := None;
      caption := "";
      location := "";
      showCamera := false;
      stream := None;
      fileInput := Some("");
    }

    method EditCaption(text: string)
      modifies this
      ensures caption == text
      ensures image == old(image) && location == old(location) && showCamera == old(showCamera)
      ensures stream == old(stream) && fileInput == old(fileInput)
    {
      caption := text;
    }

    method EditLocation(text: string)
      modifies this
      ensures location == text
      ensures image == old(image) && caption == old(caption) && showCamera == old(showCamera)
      ensures stream == old(stream) && fileInput == old(fileInput)
    {
      location := text;
    }

    /** The file reader's `onload`: the read data URL becomes the image. */
    method ImageRead(dataUrl: string)
      modifies this
      ensures image == Some(dataUrl)
      ensures caption == old(caption) && location == old(location) && showCamera == old(showCamera)
      ensures stream == old(stream) && fileInput == old(fileInput)
    {
      image := Some(dataUrl);
    }

    /** `handleCameraClick`: shows the camera when the browser has `getUserMedia`; otherwise
        only an alert. Returns whether the camera was shown. */
    method HandleCameraClick(supported: bool) returns (cameraShown: bool)
      modifies this
      ensures cameraShown == supported
      ensures showCamera == (old(showCamera) || supported)
      ensures image == old(image) && caption == old(caption) && location == old(location)
      ensures stream == old(stream) && fileInput == old(fileInput)
    {
      cameraShown := supported;
      if supported {
        showCamera := true;
      }
    }

    /** `getUserMedia` resolved: the stream is kept for later release. */
    method StreamGranted(s: Stream)
      modifies this
      ensures stream == Some(s)
      ensures image == old(image) && caption == old(caption) && location == old(location)
      ensures showCamera == old(showCamera) && fileInput == old(fileInput)
    {
      stream := Some(s);
    }

    /** `capturePhoto`: when the video and canvas are mounted, the frame becomes the image,
        the camera is hidden and the stream is released (returned as `stopped`). */
    method CapturePhoto(mounted: bool, frame: string) returns (stopped: Option<Stream>)
      modifies this
      ensures mounted ==> image == Some(frame) && !showCamera && stream == None && stopped == old(stream)
      ensures !mounted ==> image == old(image) && showCamera == old(showCamera)
      ensures !mounted ==> stream == old(stream) && stopped == None
      ensures caption == old(caption) && location == old(location) && fileInput == old(fileInput)
    {
      stopped := None;
      if mounted {
        image := Some(frame);
        showCamera := false;
        stopped := stream;
        stream := None;
      }
    }

    /** `closeCamera`: hides the camera and releases the stream; the image is untouched. */
    method CloseCamera() returns (stopped: Option<Stream>)
      modifies this
      ensures !showCamera && stream == None && stopped == old(stream)
      ensures image == old(image) && caption == old(caption) && location == old(location)
      ensures fileInput == old(fileInput)
    {
      showCamera := false;
      stopped := stream;
      stream := None;
    }

    /** `removeImage`: no image, and the file input (when mounted) is cleared. */
    method RemoveImage()
      modifies this
      ensures image == None
      ensures fileInput == (if old(fileInput).Some? then Some("") else None)
      ensures caption == old(caption) && location == old(location)
      ensures showCamera == old(showCamera) && stream == old(stream)
    {
      image := None;
      if fileInput.Some? {
        fileInput := Some("");
      }
    }

    /** `isFormValid`. */
    function IsFormValid(): bool
      reads this
    {
      FormValid(image, caption)
    }

    /** The share button is disabled when the form is invalid or a submit is in flight. */
    function ShareDisabled(): (disabled: bool)
      reads this
      ensures disabled <==> loading || !Truthy(image) || AllSpace(caption)
    {
      !IsFormValid() || loading
    }

    /** `handleSubmit`: what `onSubmit` receives, or nothing (and an alert) when rejected. */
    method HandleSubmit() returns (sent: Option<PostData>)
      ensures sent.None? <==> (!Truthy(image) || AllSpace(caption))
      ensures sent.Some? ==> sent.value.image == image.value && sent.value.caption == Trim(caption)
      ensures sent.Some? ==> (sent.value.location.None? <==> AllSpace(location))
      ensures sent.Some? && sent.value.location.Some? ==> sent.value.location.value == Trim(location)
    {
      sent := Payload(image, caption, location);
    }
  }
}
