/** The citizen media screen: picking a photo and submitting it with a
    description. */
module CitizenMedia {
  import opened Wrappers
  import opened Strings
  import opened Payloads

  datatype MediaItem = MediaItem(uri: string, kind: string, name: string)

  /** The picker's asset: its uri and its own file name, if any. */
  datatype Asset = Asset(uri: string, fileName: Option<string>)

  datatype Source = Library | Camera

  /** A picked asset is always typed as an image; its name falls back to
      "media.jpg" from the library and "photo.jpg" from the camera. */
  function ItemOf(a: Asset, source: Source): (m: MediaItem)
    ensures m.uri == a.uri && m.kind == "image"
    ensures Truthy(a.fileName) ==> m.name == a.fileName.value
    ensures !Truthy(a.fileName) ==> m.name == (if source == Library then "media.jpg" else "photo.jpg")
  {
    MediaItem(a.uri, "image", OrElse(a.fileName, if source == Library then "media.jpg" else "photo.jpg"))
  }

  /** The multipart upload. */
  datatype Upload = Upload(uri: string, mimeType: string, name: string, description: string)

  datatype Outcome = Status(code: int) | Thrown(serverMessage: Option<string>)

  /** `error?.response?.data?.message || 'Failed to upload media'` */
  function ErrorMessage(serverMessage: Option<string>): (r: string)
    ensures r != []
    ensures Truthy(serverMessage) ==> r == serverMessage.value
  {
    OrElse(serverMessage, "Failed to upload media")
  }

  class MediaScreen {
    var selectedMedia: Option<MediaItem>
    var description: string
    var loading: bool
    var submitted: bool

    constructor ()
      ensures selectedMedia.None? && description == [] && !loading && !submitted
    {
      selectedMedia := None;
      description := [];
      loading := false;
      submitted := false;
    }

    /** `pickImage` and `takePhoto`: a cancelled picker changes nothing. */
    method Pick(source: Source, asset: Option<Asset>)
      modifies this`selectedMedia
      ensures asset.Some? ==> selectedMedia == Some(ItemOf(asset.value, source))
      ensures asset.None? ==> selectedMedia == old(selectedMedia)
    {
      if asset.Some? {
        selectedMedia := Some(ItemOf(asset.value, source));
      }
    }

    /** `submitMedia`: refused without media, then for a blank description,
        with no request. Otherwise the item is uploaded as a JPEG; only a
        200 or 201 marks it submitted, and loading is off afterwards. */
    method SubmitMedia(outcome: Outcome) returns (sent: Option<Upload>, error: Option<string>)
      modifies this`loading, this`submitted
      ensures selectedMedia.None? || Blank(description) ==>
        sent.None? && error.None? && loading == old(loading) && submitted == old(submitted)
      ensures selectedMedia.Some? && !Blank(description) ==>
        && sent == Some(Upload(selectedMedia.value.uri, "image/jpeg", selectedMedia.value.name, description))
        && !loading
        && submitted == (old(submitted) || (outcome.Status? && (outcome.code == 200 || outcome.code == 201)))
        && (outcome.Thrown? <==> error.Some?)
        && (outcome.Thrown? ==> error == Some(ErrorMessage(outcome.serverMessage)))
    {
      sent := None;
      error := None;
      if selectedMedia.None? {
        return;
      }
      if Blank(description) {
        return;
      }
      loading := true;
      sent := Some(Upload(selectedMedia.value.uri, "image/jpeg", selectedMedia.value.name, description));
      match outcome {
        case Status(code) =>
          if code == 200 || code == 201 {
            submitted := true;
          }
        case Thrown(serverMessage) =>
          error := Some(ErrorMessage(serverMessage));
      }
      loading := false;
    }

    /** Two seconds after a submission the screen resets. */
    method SubmittedTimeout()
      modifies this`submitted, this`selectedMedia, this`description
      ensures !submitted && selectedMedia.None? && description == []
    {
      submitted := false;
      selectedMedia := None;
      description := [];
    }
  }

  /** Whatever was picked, the upload declares a JPEG image. */
  method UploadIsAlwaysJpeg(a: Asset, source: Source, text: string)
    requires !Blank(text)
  {
    var s := new MediaScreen();
    s.Pick(source, Some(a));
    s.description := text;
    var sent, error := s.SubmitMedia(Status(201));
    assert sent.Some? && sent.value.mimeType == "image/jpeg" && s.submitted;
  }
}
