/** The concerned-citizen screen: uploading a photo or video with a caption,
    and sharing the current location with a reason. */
module CitizenReport {
  import opened Wrappers
  import opened Strings
  import opened Payloads

  /** A picked asset: its uri and the picker's type. */
  datatype Media = Media(uri: string, kind: Option<string>)

  /** The multipart upload: the file part and the two text fields. */
  datatype Upload = Upload(uri: string, fileName: string, mimeType: string, caption: string, mediaType: string)

  /** How a request ended: an HTTP status, or an error thrown with the
      server's message and the error's own message. */
  datatype Outcome = Status(code: int) | Thrown(serverMessage: Option<string>, message: Option<string>)

  /** `uri.split('/').pop() || 'media.jpg'` */
  function FileName(uri: string): (r: string)
    ensures r != [] && forall i :: 0 <= i < |r| ==> r[i] != '/'
  {
    var last := LastSegment(uri, '/');
    if last != [] then last else "media.jpg"
  }

  /** The file name is the part of the uri after its last '/', or
      "media.jpg" when the uri ends with '/'. */
  lemma FileNameSpec(dir: string, name: string)
    requires '/' !in name
    ensures name != [] ==> FileName(dir + "/" + name) == name
    ensures FileName(dir + "/") == "media.jpg"
  {
    LastSegmentAfterSeparator(dir, '/', name);
    LastSegmentAfterSeparator(dir, '/', []);
    assert dir + "/" + [] == dir + "/";
  }

  function MimeType(kind: Option<string>): string {
    if kind == Some("video") then "video/mp4" else "image/jpeg"
  }

  function MediaTypeField(kind: Option<string>): string {
    if kind == Some("video") then "video" else "photo"
  }

  /** The declared MIME type and the `mediaType` field always agree: video
      for a video asset, a JPEG photo for anything else. */
  lemma MimeAgreesWithMediaType(kind: Option<string>)
    ensures MimeType(kind) == "video/mp4" <==> kind == Some("video")
    ensures MediaTypeField(kind) == "video" <==> MimeType(kind) == "video/mp4"
    ensures MediaTypeField(kind) == "photo" <==> MimeType(kind) == "image/jpeg"
  {
  }

  function UploadOf(m: Media, caption: string): (u: Upload)
    ensures u.uri == m.uri && u.caption == caption
    ensures u.fileName == FileName(m.uri)
    ensures u.mimeType == MimeType(m.kind) && u.mediaType == MediaTypeField(m.kind)
  {
    Upload(m.uri, FileName(m.uri), MimeType(m.kind), caption, MediaTypeField(m.kind))
  }

  /** `err.response?.data?.message || err.message || 'Failed to upload media'` */
  function UploadErrorMessage(serverMessage: Option<string>, message: Option<string>): (r: string)
    ensures Truthy(serverMessage) ==> r == serverMessage.value
    ensures !Truthy(serverMessage) && Truthy(message) ==> r == message.value
    ensures !Truthy(serverMessage) && !Truthy(message) ==> r == "Failed to upload media"
  {
    OrElse(serverMessage, OrElse(message, "Failed to upload media"))
  }

  predicate Accepted(o: Outcome) {
    o.Status? && (o.code == 200 || o.code == 201)
  }

  /** The location report posted for the admins. */
  datatype LocationReport = LocationReport(latitude: real, longitude: real, reason: string)

  /** The report sent after a saved position: the trimmed reason, and only
      when both coordinates are non-zero. */
  function ReportOf(lat: real, lng: real, reason: string): (r: Option<LocationReport>)
    ensures r.Some? <==> lat != 0.0 && lng != 0.0
    ensures r.Some? ==> r.value.latitude == lat && r.value.longitude == lng && r.value.reason == Trim(reason)
  {
    if lat != 0.0 && lng != 0.0 then Some(LocationReport(lat, lng, Trim(reason))) else None
  }

  class ReportScreen {
    var selectedMedia: Option<Media>
    var caption: string
    var uploading: bool
    var uploadProgress: int
    var reason: string
    var loadingLocation: bool
    var sharingLocation: bool
    var sharingSuccess: bool
    var location: Option<(real, real)>

    constructor ()
      ensures selectedMedia.None? && caption == [] && !uploading && uploadProgress == 0
      ensures reason == [] && !loadingLocation && !sharingLocation && !sharingSuccess && location.None?
    {
      selectedMedia := None;
      caption := [];
      uploading := false;
      uploadProgress := 0;
      reason := [];
      loadingLocation := false;
      sharingLocation := false;
      sharingSuccess := false;
      location := None;
    }

    /** A picked or shot asset replaces the selection and clears the caption;
        a cancelled picker changes nothing. */
    method Pick(picked: Option<Media>)
      modifies this`selectedMedia, this`caption
      ensures picked.Some? ==> selectedMedia == picked && caption == []
      ensures picked.None? ==> selectedMedia == old(selectedMedia) && caption == old(caption)
    {
      if picked.Some? {
        selectedMedia := picked;
        caption := [];
      }
    }

    /** `uploadMedia`: refused without media or token, then refused for a
        blank caption, in both cases with no request. Otherwise the upload is
        sent; a 200 or 201 clears the media, the caption and the progress.
        `uploading` is off afterwards in every case. */
    method UploadMedia(token: Option<string>, outcome: Outcome) returns (sent: Option<Upload>, error: Option<string>)
      modifies this`selectedMedia, this`caption, this`uploading, this`uploadProgress
      ensures old(selectedMedia).None? || !Truthy(token) || Blank(old(caption)) ==>
        && sent.None? && error.None?
        && selectedMedia == old(selectedMedia) && caption == old(caption)
        && uploading == old(uploading) && uploadProgress == old(uploadProgress)
      ensures old(selectedMedia).Some? && Truthy(token) && !Blank(old(caption)) ==>
        && sent == Some(UploadOf(old(selectedMedia).value, old(caption)))
        && !uploading
        && (Accepted(outcome) ==> selectedMedia.None? && caption == [] && uploadProgress == 0 && error.None?)
        && (outcome.Status? && !Accepted(outcome) ==>
              selectedMedia == old(selectedMedia) && caption == old(caption) && error.None?)
        && (outcome.Thrown? ==>
              selectedMedia == old(selectedMedia) && caption == old(caption) &&
              error == Some(UploadErrorMessage(outcome.serverMessage, outcome.message)))
    {
      sent := None;
      error := None;
      if selectedMedia.None? || !Truthy(token) {
        return;
      }
      if Blank(caption) {
        return;
      }
      uploading := true;
      uploadProgress := 0;
      sent := Some(UploadOf(selectedMedia.value, caption));
      if outcome.Thrown? {
        error := Some(UploadErrorMessage(outcome.serverMessage, outcome.message));
      } else if Accepted(outcome) {
        selectedMedia := None;
        caption := [];
        uploadProgress := 0;
      }
      uploading := false;
    }

    /** `shareLocation`: refused without a token, then for a blank reason.
        Otherwise, with permission, the position is saved; when the save
        succeeds the report carries the trimmed reason (when both
        coordinates are non-zero), the success banner shows and the reason
        is cleared. Both busy flags are off afterwards. */
    method ShareLocation(token: Option<string>, permissionGranted: bool, lat: real, lng: real, saveOk: bool)
      returns (report: Option<LocationReport>)
      modifies this`loadingLocation, this`sharingLocation, this`location, this`sharingSuccess, this`reason
      ensures !Truthy(token) || Blank(old(reason)) ==>
        && report.None? && reason == old(reason) && location == old(location) && sharingSuccess == old(sharingSuccess)
        && loadingLocation == old(loadingLocation) && sharingLocation == old(sharingLocation)
      ensures Truthy(token) && !Blank(old(reason)) ==> !loadingLocation && !sharingLocation
      ensures Truthy(token) && !Blank(old(reason)) && !(permissionGranted && saveOk) ==>
        report.None? && reason == old(reason) && location == old(location) && sharingSuccess == old(sharingSuccess)
      ensures Truthy(token) && !Blank(old(reason)) && permissionGranted && saveOk ==>
        && location == Some((lat, lng)) && sharingSuccess && reason == []
        && report == ReportOf(lat, lng, old(reason))
    {
      report := None;
      if !Truthy(token) {
        return;
      }
      if Blank(reason) {
        return;
      }
      loadingLocation := true;
      if permissionGranted {
        sharingLocation := true;
        if saveOk {
          location := Some((lat, lng));
          report := ReportOf(lat, lng, reason);
          sharingSuccess := true;
          reason := [];
        }
      }
      loadingLocation := false;
      sharingLocation := false;
    }

    /** Five seconds after a share the success banner hides. */
    method SuccessTimeout()
      modifies this`sharingSuccess
      ensures !sharingSuccess
    {
      sharingSuccess := false;
    }
  }

  /** The reported reason is the typed one without the white space at its
      two ends: never empty, never starting or ending with white space, and
      only blank text cut on either side. A blank reason is refused before
      any request. */
  lemma ReportedReasonIsTrimmed(reason: string)
    requires !Blank(reason)
    ensures var t := Trim(reason); t != [] && !IsSpace(t[0]) && !IsSpace(t[|t| - 1])
    ensures exists i, j ::
      0 <= i <= j <= |reason| && Trim(reason) == reason[i..j] && Blank(reason[..i]) && Blank(reason[j..])
  {
    TrimCutsOnlyEnds(reason);
  }
}
