/**
 * The profile picture upload (src/pages/Profile.tsx): the chosen file is
 * checked for an image MIME type and then for size before it is read as a
 * data URL for the preview. The `FileReader` result is a parameter.
 */
module Profile {
  import opened Wrappers
  import opened Sequences

  datatype SelectedFile = SelectedFile(mimeType: string, size: int)

  datatype Outcome = NoFile | NotAnImage | TooLarge | Accepted

  /** 5 MiB, in bytes. */
  const MaxImageSize := 5 * 1024 * 1024

  const ImagePrefix := "image/"

  /** `handleFileChange`'s checks, in their order: presence, type, then size. */
  function CheckFile(file: Option<SelectedFile>): (o: Outcome)
    ensures o == NoFile <==> file.None?
    ensures o == NotAnImage <==> file.Some? && !StartsWith(file.value.mimeType, ImagePrefix)
    ensures o == TooLarge <==> file.Some? && StartsWith(file.value.mimeType, ImagePrefix) && file.value.size > MaxImageSize
    ensures o == Accepted <==> file.Some? && StartsWith(file.value.mimeType, ImagePrefix) && file.value.size <= MaxImageSize
  {
    match file
    case None => NoFile
    case Some(f) =>
      if !StartsWith(f.mimeType, ImagePrefix) then NotAnImage
      else if f.size > MaxImageSize then TooLarge
      else Accepted
  }

  /** Exactly 5 MiB passes, one byte more does not, and an oversized non-image is reported as the wrong type. */
  lemma CheckFileBoundaries()
    ensures CheckFile(Some(SelectedFile("image/png", 5242880))) == Accepted
    ensures CheckFile(Some(SelectedFile("image/png", 5242881))) == TooLarge
    ensures CheckFile(Some(SelectedFile("video/mp4", 5242881))) == NotAnImage
    ensures CheckFile(Some(SelectedFile("image", 1))) == NotAnImage
  {
    assert "image/png"[..6] == ImagePrefix;
    assert "video/mp4"[..6] != ImagePrefix by { assert "video/mp4"[0] != ImagePrefix[0]; }
  }

  /** The alert shown for a rejected file. */
  function AlertFor(o: Outcome): (r: Option<string>)
    ensures r.Some? <==> o.NotAnImage? || o.TooLarge?
  {
    match o
    case NotAnImage => Some("Please upload an image file")
    case TooLarge => Some("File size should be less than 5MB")
    case _ => None
  }

  class ProfilePage {
    var profileImage: Option<string>
    var alerts: seq<string>

    constructor ()
      ensures profileImage == None && alerts == []
    {
      profileImage := None;
      alerts := [];
    }

    /** A rejected file raises its alert and keeps the old picture; an accepted one becomes the preview. */
    method HandleFileChange(file: Option<SelectedFile>, dataUrl: string)
      modifies this
      ensures profileImage == if CheckFile(file) == Accepted then Some(dataUrl) else old(profileImage)
      ensures alerts == old(alerts) + (match AlertFor(CheckFile(file)) case Some(a) => [a] case None => [])
    {
      if file.Some? {
        var f := file.value;
        if !StartsWith(f.mimeType, ImagePrefix) {
          alerts := alerts + ["Please upload an image file"];
          return;
        }
        if f.size > 5 * 1024 * 1024 {
          alerts := alerts + ["File size should be less than 5MB"];
          return;
        }
        profileImage := Some(dataUrl);
      }
    }
  }
}
