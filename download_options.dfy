/**
 * The download buttons under the note editor: the markdown file and the PDF are
 * saved under a name derived from the component's `filename` property by
 * replacing every UTF-16 code unit outside [A-Za-z0-9-_ ] with "_".
 */
module DownloadOptions {
  import opened Wrappers

  /** The default `filename` property when the caller passes none. */
  const DefaultBaseName: string := "note"

  /** The characters the replace leaves alone: ASCII letters (either case), digits, '-', '_' and space. */
  predicate Allowed(c: char) {
    ('a' <= c <= 'z') || ('A' <= c <= 'Z') || ('0' <= c <= '9') || c == '-' || c == '_' || c == ' '
  }

  predicate AllAllowed(s: string) {
    forall i :: 0 <= i < |s| ==> Allowed(s[i])
  }

  /** Characters above U+FFFF take two UTF-16 code units (a surrogate pair). */
  function Utf16Units(c: char): nat {
    if c as int >= 0x10000 then 2 else 1
  }

  /** The length JavaScript reports for a string. */
  function Utf16Length(s: string): nat {
    if |s| == 0 then 0 else Utf16Units(s[0]) + Utf16Length(s[1..])
  }

  /**
   * `filename.replace(/[^a-z0-9-_ ]/gi, "_")`. The regular expression works on
   * code units, so a character outside the Basic Multilingual Plane turns into
   * two underscores.
   */
  function Sanitize(name: string): (r: string)
    ensures |r| == Utf16Length(name)
    ensures AllAllowed(r)
  {
    if |name| == 0 then ""
    else
      var head := if Allowed(name[0]) then [name[0]] else if name[0] as int >= 0x10000 then "__" else "_";
      head + Sanitize(name[1..])
  }

  /** In the Basic Multilingual Plane, allowed characters stay where they are and every other one becomes '_'. */
  lemma {:induction false} SanitizeAt(name: string, i: nat)
    requires forall k :: 0 <= k < |name| ==> name[k] as int < 0x10000
    requires i < |name|
    ensures |Sanitize(name)| == |name|
    ensures Sanitize(name)[i] == if Allowed(name[i]) then name[i] else '_'
  {
    BmpLength(name);
    if i > 0 {
      SanitizeAt(name[1..], i - 1);
    }
  }

  lemma {:induction false} BmpLength(s: string)
    requires forall k :: 0 <= k < |s| ==> s[k] as int < 0x10000
    ensures Utf16Length(s) == |s|
  {
    if |s| > 0 {
      BmpLength(s[1..]);
    }
  }

  /** A name made only of allowed characters is left as it is. */
  lemma {:induction false} SanitizeFixesAllowed(name: string)
    requires AllAllowed(name)
    ensures Sanitize(name) == name
  {
    if |name| > 0 {
      SanitizeFixesAllowed(name[1..]);
      assert name == [name[0]] + name[1..];
    }
  }

  lemma SanitizeIdempotent(name: string)
    ensures Sanitize(Sanitize(name)) == Sanitize(name)
  {
    SanitizeFixesAllowed(Sanitize(name));
  }

  /** The `download` attribute of the markdown link. */
  function MarkdownFileName(filename: Option<string>): (r: string)
    ensures |r| >= 3 && r[|r| - 3..] == ".md"
    ensures AllAllowed(r[..|r| - 3])
  {
    Sanitize(if filename.Some? then filename.value else DefaultBaseName) + ".md"
  }

  /** The name handed to the PDF writer. */
  function PdfFileName(filename: Option<string>): (r: string)
    ensures |r| >= 4 && r[|r| - 4..] == ".pdf"
    ensures AllAllowed(r[..|r| - 4])
  {
    Sanitize(if filename.Some? then filename.value else DefaultBaseName) + ".pdf"
  }

  /** Both downloads share one stem; without a `filename` property they are note.md and note.pdf. */
  lemma SameStem(filename: Option<string>)
    ensures MarkdownFileName(filename)[..|MarkdownFileName(filename)| - 3]
         == PdfFileName(filename)[..|PdfFileName(filename)| - 4]
    ensures MarkdownFileName(None) == "note.md" && PdfFileName(None) == "note.pdf"
  {
    SanitizeFixesAllowed(DefaultBaseName);
  }
}
