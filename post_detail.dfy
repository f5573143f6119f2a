/** The decisions inside `PostDetailView.body` (PostDetailView.swift): whether the primary
    file is played as video, which attachments are shown as images, and the media URLs. */
module PostDetail {
  import opened Wrappers
  import opened Records

  /** The host that media paths are relative to. */
  const MediaHost: string := "https://coomer.su"

  /** Swift's `hasSuffix`: a case-sensitive comparison of the last characters. Swift
      compares grapheme clusters and the model compares Unicode scalars; they differ only
      when a scalar before the suffix combines with its first character (a combining mark
      on the "." or a prepended scalar before it), which the model does not capture. */
  predicate HasSuffix(s: string, suffix: string) {
    |suffix| <= |s| && s[|s| - |suffix|..] == suffix
  }

  /** A string has a suffix exactly when it is some string followed by that suffix. */
  lemma HasSuffixIffAppended(s: string, suffix: string)
    ensures HasSuffix(s, suffix) <==> exists p :: s == p + suffix
  {
    if HasSuffix(s, suffix) {
      assert s == s[..|s| - |suffix|] + suffix;
    }
    forall p | s == p + suffix
      ensures HasSuffix(s, suffix)
    {
      assert s[|p|..] == suffix;
    }
  }

  /** The optional chain `name?.hasSuffix(suffix)`: nil when `name` is nil. */
  function OptionalHasSuffix(name: Option<string>, suffix: string): (r: Option<bool>)
    ensures r.Some? <==> name.Some?
    ensures r.Some? ==> (r.value <==> HasSuffix(name.value, suffix))
  {
    match name
    case None => None
    case Some(n) => Some(HasSuffix(n, suffix))
  }

  /** The video condition compares the optional result of the ".mp4" suffix test with nil
      rather than testing it, so any named file is played, whatever its extension. */
  function ShowsVideo(post: Post): (r: bool)
    ensures r <==> post.file.Some? && post.file.value.name.Some?
  {
    match post.file
    case None => false
    case Some(f) => OptionalHasSuffix(f.name, ".mp4") != None
  }

  /** A still image such as "photo.jpg" is handed to the video player. */
  lemma AnyNamedFileIsVideo(post: Post, name: string)
    requires post.file.Some? && post.file.value.name == Some(name)
    ensures ShowsVideo(post)
    ensures OptionalHasSuffix(post.file.value.name, ".mp4") == Some(HasSuffix(name, ".mp4"))
  {
  }

  /** The media host followed by a path that is a plain (non-optional) string. */
  function MediaURL(path: string): (url: string)
    ensures |url| == |MediaHost| + |path|
    ensures url[..|MediaHost|] == MediaHost && url[|MediaHost|..] == path
  {
    MediaHost + path
  }

  /** An attachment is an image when its name ends in ".jpg" or ".png", case-sensitively. */
  predicate IsImageName(name: string) {
    HasSuffix(name, ".jpg") || HasSuffix(name, ".png")
  }

  /** An image name is some text followed by ".jpg" or by ".png". */
  lemma IsImageNameIffExtension(name: string)
    ensures IsImageName(name) <==> (exists p :: name == p + ".jpg") || (exists p :: name == p + ".png")
  {
    HasSuffixIffAppended(name, ".jpg");
    HasSuffixIffAppended(name, ".png");
  }

  lemma ImageSuffixIsCaseSensitive()
    ensures IsImageName("a.jpg") && IsImageName("a.png")
    ensures !IsImageName("a.JPG") && !IsImageName("a.jpeg") && !IsImageName("a.gif")
  {
    assert "a.JPG"[1..] != ".jpg" by { assert "a.JPG"[1..][1] != ".jpg"[1]; }
    assert "a.jpeg"[2..][0] == 'j';
  }

  /** The attachments the `ForEach` shows as images, in their original order. */
  function SelectImages(atts: seq<Attachment>): (r: seq<Attachment>)
    ensures |r| <= |atts|
    ensures forall a | a in r :: a in atts && IsImageName(a.name)
    ensures forall a | a in atts && IsImageName(a.name) :: a in r
  {
    if atts == [] then []
    else if IsImageName(atts[0].name) then [atts[0]] + SelectImages(atts[1..])
    else SelectImages(atts[1..])
  }

  /** Selection distributes over concatenation: relative order is kept. */
  lemma {:induction false} SelectImagesConcat(a: seq<Attachment>, b: seq<Attachment>)
    ensures SelectImages(a + b) == SelectImages(a) + SelectImages(b)
    decreases |a|
  {
    if a != [] {
      assert (a + b)[1..] == a[1..] + b;
      SelectImagesConcat(a[1..], b);
    } else {
      assert a + b == b;
    }
  }

  /** Every attachment is kept exactly when every attachment is an image. */
  lemma {:induction false} SelectImagesKeepsAll(atts: seq<Attachment>)
    ensures SelectImages(atts) == atts <==> forall i | 0 <= i < |atts| :: IsImageName(atts[i].name)
    decreases |atts|
  {
    if atts != [] {
      SelectImagesKeepsAll(atts[1..]);
      if !IsImageName(atts[0].name) {
        assert |SelectImages(atts)| < |atts|;
      }
    }
  }

  /** The image URLs: none for a nil attachment list. */
  function ImageURLs(attachments: Option<seq<Attachment>>): (r: seq<string>)
    ensures attachments.None? ==> r == []
    ensures attachments.Some? ==> |r| == |SelectImages(attachments.value)|
    ensures attachments.Some? ==> forall i | 0 <= i < |r| ::
      r[i] == MediaURL(SelectImages(attachments.value)[i].path)
  {
    match attachments
    case None => []
    case Some(atts) =>
      var images := SelectImages(atts);
      seq(|images|, i requires 0 <= i < |images| => MediaURL(images[i].path))
  }

  /** What the detail screen shows. */
  datatype DetailContent = DetailContent(
    title: string,
    text: Option<string>,
    videoURL: Option<string>,
    imageURLs: seq<string>)

  /** `PostDetailView.body`. The title is force-unwrapped, and so is the path of a file the
      video condition accepts: both are required of the caller. */
  function DetailView(post: Post): (d: DetailContent)
    requires post.title.Some?
    requires ShowsVideo(post) ==> post.file.value.path.Some?
    ensures d.title == post.title.value
    ensures d.text == post.content
    ensures d.videoURL.Some? <==> post.file.Some? && post.file.value.name.Some?
    ensures d.videoURL.Some? ==> d.videoURL.value == MediaURL(post.file.value.path.value)
    ensures d.imageURLs == ImageURLs(post.attachments)
  {
    DetailContent(
      post.title.value,
      post.content,
      if ShowsVideo(post) then Some(MediaURL(post.file.value.path.value)) else None,
      ImageURLs(post.attachments))
  }
}
