/**
 * The new-post dialog, CreatePostModal.jsx: picking a file sets the media type
 * from its MIME type, and submitting uploads the file and creates a post, a reel
 * for a video.
 */
module CreatePost {
  import opened Optional
  import opened Text
  import opened Entities

  /** Lines 22-26: `image/` and `video/` decide the type; any other MIME type keeps the previous one. */
  function KindAfterFileChange(previous: MediaKind, mime: string): (k: MediaKind)
    ensures StartsWith(mime, "image/") ==> k == Image
    ensures !StartsWith(mime, "image/") && StartsWith(mime, "video/") ==> k == Video
    ensures !StartsWith(mime, "image/") && !StartsWith(mime, "video/") ==> k == previous
  {
    if StartsWith(mime, "image/") then Image
    else if StartsWith(mime, "video/") then Video
    else previous
  }

  /** Line 53: a video is published as a reel, anything else as a post. */
  function PostTypeFor(kind: MediaKind): (t: string)
    ensures t == "reel" <==> kind == Video
    ensures kind == Image ==> t == "post"
  {
    if kind == Video then "reel" else "post"
  }

  /** A `video/` file picked last is always published as a reel, whatever was picked before. */
  lemma VideoFileMakesReel(previous: MediaKind, mime: string)
    requires StartsWith(mime, "video/")
    ensures PostTypeFor(KindAfterFileChange(previous, mime)) == "reel"
  {
    assert mime[0] == 'v';
  }

  class CreatePostModal {
    var caption: string
    var media: Option<MediaFile>
    var mediaPreview: Option<string>
    var mediaType: MediaKind
    var loading: bool

    constructor ()
      ensures caption == "" && media.None? && mediaPreview.None? && mediaType == Image && !loading
    {
      caption := "";
      media := None;
      mediaPreview := None;
      mediaType := Image;
      loading := false;
    }

    method SetCaption(text: string)
      modifies this`caption
      ensures caption == text
    {
      caption := text;
    }

    /** handleFileChange: no file changes nothing; a file is kept and may change the type. */
    method HandleFileChange(file: Option<MediaFile>)
      modifies this`media, this`mediaType
      ensures file.None? ==> media == old(media) && mediaType == old(mediaType)
      ensures file.Some? ==> media == file && mediaType == KindAfterFileChange(old(mediaType), file.value.mime)
    {
      if file.None? {
        return;
      }
      media := file;
      if StartsWith(file.value.mime, "image/") {
        mediaType := Image;
      } else if StartsWith(file.value.mime, "video/") {
        mediaType := Video;
      }
    }

    /** The file reader finished: its data URL becomes the preview. */
    method PreviewLoaded(dataUrl: string)
      modifies this`mediaPreview
      ensures mediaPreview == Some(dataUrl)
    {
      mediaPreview := Some(dataUrl);
    }

    /** The remove button on the preview. */
    method RemovePreview()
      modifies this`media, this`mediaPreview
      ensures media.None? && mediaPreview.None?
    {
      media := None;
      mediaPreview := None;
    }

    /**
     * handleSubmit: without media nothing is uploaded. Otherwise the upload's URL
     * is posted with the caption and the type; a created post clears the caption,
     * media and preview (the media type stays) and the dialog closes.
     */
    method HandleSubmit(upload: Reply<string>, create: Reply<()>) returns (request: Option<PostRequest>, closed: bool)
      modifies this`caption, this`media, this`mediaPreview, this`loading
      ensures old(media).None? ==> request.None? && !closed && unchanged(this)
      ensures old(media).Some? ==> !loading
      ensures request.Some? <==> old(media).Some? && upload.Ok?
      ensures request.Some? ==> request.value == PostRequest(old(caption), [upload.data], PostTypeFor(mediaType))
      ensures closed <==> request.Some? && create.Ok?
      ensures closed ==> caption == "" && media.None? && mediaPreview.None?
      ensures !closed ==> caption == old(caption) && media == old(media) && mediaPreview == old(mediaPreview)
      ensures mediaType == old(mediaType)
    {
      request, closed := None, false;
      if media.None? {
        return;
      }
      loading := true;
      if upload.Ok? {
        request := Some(PostRequest(caption, [upload.data], PostTypeFor(mediaType)));
        if create.Ok? {
          caption := "";
          media := None;
          mediaPreview := None;
          closed := true;
        }
      }
      loading := false;
    }
  }
}
