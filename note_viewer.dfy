/**
 * The note viewer's two pure helpers: rewriting a YouTube watch or short link
 * into an embed link, and choosing the attachment icon from a MIME type. The
 * notes list (AllNotes) carries an identical copy of the embed rewriter and
 * uses this one.
 */
module NoteViewer {
  import opened Wrappers
  import opened JsStrings

  /** What the WHATWG URL parser yields that the rewriter reads; `v` is `searchParams.get("v")`. */
  datatype ParsedUrl = ParsedUrl(hostname: string, pathname: string, v: Option<string>)

  /** The URL parser, given as a parameter: `None` when `new URL(s)` throws. */
  type UrlParser = string -> Option<ParsedUrl>

  const EmbedPrefix: string := "https://www.youtube.com/embed"

  predicate HasWatchId(u: ParsedUrl) {
    Includes(u.hostname, "youtube.com") && u.v.Some? && u.v.value != ""
  }

  /** `getEmbedUrl(url)`. */
  function EmbedUrl(url: string, parse: UrlParser): (r: string)
    ensures parse(url).None? ==> r == url
    ensures r != url ==> StartsWith(r, EmbedPrefix)
  {
    match parse(url)
    case None => url
    case Some(u) =>
      if HasWatchId(u) then EmbedPrefix + "/" + u.v.value
      else if u.hostname == "youtu.be" then EmbedPrefix + u.pathname
      else url
  }

  /** A youtube.com host (by substring, so m.youtube.com too) with a non-empty `v` embeds that id. */
  lemma WatchLinkEmbeds(url: string, parse: UrlParser)
    requires parse(url).Some? && HasWatchId(parse(url).value)
    ensures EmbedUrl(url, parse) == "https://www.youtube.com/embed/" + parse(url).value.v.value
  {
  }

  lemma MobileHostQualifies(u: ParsedUrl)
    requires u.hostname == "m.youtube.com" && u.v == Some("abc")
    ensures HasWatchId(u)
  {
    IncludesAt("m.youtube.com", "youtube.com", 2);
  }

  /** youtu.be short links keep their path after the embed prefix. */
  lemma ShortLinkEmbeds(url: string, parse: UrlParser)
    requires parse(url).Some? && parse(url).value.hostname == "youtu.be"
    ensures EmbedUrl(url, parse) == "https://www.youtube.com/embed" + parse(url).value.pathname
  {
  }

  /** An empty or missing `v` and any other host leave the link unchanged. */
  lemma OtherLinksUnchanged(url: string, parse: UrlParser)
    requires parse(url).Some?
    requires !HasWatchId(parse(url).value) && parse(url).value.hostname != "youtu.be"
    ensures EmbedUrl(url, parse) == url
  {
  }

  lemma EmptyWatchIdFallsThrough(url: string, parse: UrlParser)
    requires parse(url) == Some(ParsedUrl("www.youtube.com", "/watch", Some("")))
    ensures EmbedUrl(url, parse) == url
  {
  }

  datatype Icon = Img | Vid | Doc

  /** `(mime || "").split("/")[0]`. */
  function MimeKind(mime: Option<string>): (r: string)
    ensures '/' !in r
    ensures mime.None? ==> r == ""
    ensures mime.Some? ==> StartsWith(mime.value, r)
  {
    Split(if mime.Some? then mime.value else "", '/')[0]
  }

  /** `FileIcon`: IMG for image/…, VID for video/…, DOC for everything else. */
  function FileIcon(mime: Option<string>): (r: Icon)
    ensures mime.None? ==> r == Doc
    ensures r == Img ==> mime.Some? && StartsWith(mime.value, "image")
    ensures r == Vid ==> mime.Some? && StartsWith(mime.value, "video")
  {
    var kind := MimeKind(mime);
    if kind == "image" then Img else if kind == "video" then Vid else Doc
  }

  /** The text before the first '/' is `kind` exactly when the MIME type is `kind` or starts with `kind/`. */
  lemma MimeKindIs(m: string, kind: string)
    requires '/' !in kind
    ensures Split(m, '/')[0] == kind <==> m == kind || StartsWith(m, kind + "/")
  {
    var r := Split(m, '/');
    if r[0] == kind && |r| > 1 {
      assert m[..|kind| + 1] == kind + "/";
    }
    if StartsWith(m, kind + "/") {
      FirstPieceOfPrefixed(m, kind, '/');
    }
  }

  /** A string that starts with `kind` and then the separator splits with `kind` first. */
  lemma {:induction false} FirstPieceOfPrefixed(m: string, kind: string, sep: char)
    requires sep !in kind
    requires StartsWith(m, kind + [sep])
    ensures Split(m, sep)[0] == kind
  {
    if |kind| > 0 {
      assert m[0] == kind[0];
      assert StartsWith(m[1..], kind[1..] + [sep]) by {
        assert m[1..][..|kind|] == m[..|kind| + 1][1..];
      }
      FirstPieceOfPrefixed(m[1..], kind[1..], sep);
      assert kind == [kind[0]] + kind[1..];
    } else {
      assert m[0] == sep;
    }
  }

  lemma FileIconClassifies(mime: Option<string>)
    ensures FileIcon(mime) == Img <==> mime.Some? && (mime.value == "image" || StartsWith(mime.value, "image/"))
    ensures FileIcon(mime) == Vid <==> mime.Some? && (mime.value == "video" || StartsWith(mime.value, "video/"))
    ensures mime.None? ==> FileIcon(mime) == Doc
  {
    var m := if mime.Some? then mime.value else "";
    MimeKindIs(m, "image");
    MimeKindIs(m, "video");
    if mime.None? {
      assert Split("", '/') == [""];
    }
  }
}
