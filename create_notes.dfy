/**
 * The browser-side markdown note editor. Notes live in local storage: an index
 * of note metadata under one key and each note's markdown under a key derived
 * from its id. The editor keeps the loaded index, the active note, the text
 * being edited and the tag box in memory; each user action updates them.
 *
 * Local storage is modelled by two fields: `store` maps a note id to the
 * markdown kept under `create_note_v1_<id>` (as the JSON text
 * `{"content":...}`), and `savedIndex` is what `create_notes_index_v1` holds.
 * Random ids and clock readings are parameters.
 */
module CreateNotes {
  import opened Wrappers
  import opened JsStrings
  import opened Lists

  const IndexKey: string := "create_notes_index_v1"
  const NoteKeyPrefix: string := "create_note_v1_"

  /** The storage key of a note. */
  function NoteKey(id: string): (k: string)
    ensures StartsWith(k, NoteKeyPrefix) && k[|NoteKeyPrefix|..] == id
  {
    NoteKeyPrefix + id
  }

  /** The index key is never a note key, and distinct ids have distinct keys. */
  lemma StorageKeysDistinct(id: string, other: string)
    ensures NoteKey(id) != IndexKey
    ensures NoteKey(id) == NoteKey(other) ==> id == other
  {
    assert NoteKey(id)[11] == '_' && IndexKey[11] == 's';
    if NoteKey(id) == NoteKey(other) {
      assert id == NoteKey(id)[|NoteKeyPrefix|..];
    }
  }

  /** The JSON text stored for a note's markdown. */
  function StoredText(markdown: string): (t: string)
    ensures StartsWith(t, "{\"content\":") && t[|t| - 1] == '}'
  {
    "{\"content\":" + JsonQuote(markdown) + "}"
  }

  const FreshContent: string := "# Untitled\n\n"
  const WelcomeText: string := "# Welcome\n\nStart writing markdown..."
  const TitleLimit: nat := 60

  // ---------------------------------------------------------------------------
  // extractTitle
  // ---------------------------------------------------------------------------

  /** Drop the '\r' of a "\r\n" line break. */
  function DropCR(s: string): string {
    if |s| > 0 && s[|s| - 1] == '\r' then s[..|s| - 1] else s
  }

  /** `md.split(/\r?\n/)`: split at '\n', and a '\r' right before a '\n' belongs to the break. */
  function Lines(md: string): (r: seq<string>)
    ensures |r| >= 1
  {
    var pieces := Split(md, '\n');
    seq(|pieces|, i requires 0 <= i < |pieces| => if i < |pieces| - 1 then DropCR(pieces[i]) else pieces[i])
  }

  /** The lines of a note, each trimmed. */
  function TrimmedLines(md: string): (r: seq<string>)
    ensures |r| >= 1 && forall i :: 0 <= i < |r| ==> IsTrimmed(r[i])
  {
    var ls := Lines(md);
    seq(|ls|, i requires 0 <= i < |ls| => Trim(ls[i]))
  }

  predicate IsHeading(line: string) {
    StartsWith(line, "# ")
  }

  /** `s.slice(0, n)`. */
  function Take(s: string, n: nat): (r: string)
    ensures |r| <= n && |r| <= |s|
    ensures |s| > 0 && n > 0 ==> |r| > 0
    ensures r == s[..|r|]
  {
    if |s| <= n then s else s[..n]
  }

  /** Index of the first heading line, if any. */
  function FirstHeading(lines: seq<string>): (r: Option<nat>)
    ensures r.Some? ==> r.value < |lines| && IsHeading(lines[r.value])
    ensures r.Some? ==> forall k :: 0 <= k < r.value ==> !IsHeading(lines[k])
    ensures r.None? ==> forall k :: 0 <= k < |lines| ==> !IsHeading(lines[k])
  {
    if |lines| == 0 then None
    else if IsHeading(lines[0]) then Some(0)
    else match FirstHeading(lines[1..])
      case None => None
      case Some(k) => Some(k + 1)
  }

  /** `lines.find((l) => l.length > 0)`. */
  function FirstNonEmpty(lines: seq<string>): (r: Option<string>)
    ensures r.Some? ==> r.value != ""
    ensures r.Some? ==> exists k :: 0 <= k < |lines| && lines[k] == r.value && forall j :: 0 <= j < k ==> lines[j] == ""
    ensures r.None? ==> forall k :: 0 <= k < |lines| ==> lines[k] == ""
  {
    if |lines| == 0 then None
    else if lines[0] != "" then Some(lines[0])
    else
      var rest := FirstNonEmpty(lines[1..]);
      if rest.Some? then
        var k :| 0 <= k < |lines[1..]| && lines[1..][k] == rest.value && forall j :: 0 <= j < k ==> lines[1..][j] == "";
        assert lines[k + 1] == rest.value;
        rest
      else rest
  }

  /** The title chosen from a note's trimmed lines. */
  function TitleOfLines(lines: seq<string>): string {
    match FirstHeading(lines)
    case Some(k) => Take(lines[k][2..], TitleLimit)
    case None => Take(if FirstNonEmpty(lines).Some? then FirstNonEmpty(lines).value else "Untitled note", TitleLimit)
  }

  /** The title a note's markdown gets. */
  function TitleOf(md: string): (t: string)
    ensures 1 <= |t| <= TitleLimit
  {
    var lines := TrimmedLines(md);
    TitleBounds(lines);
    TitleOfLines(lines)
  }

  /** A trimmed heading line has text after its "# ". */
  lemma TrimmedHeadingHasText(line: string)
    requires IsTrimmed(line) && IsHeading(line)
    ensures |line| > 2
  {
    assert line[1] == "# "[1];
  }

  /** A title is never empty and never longer than 60 characters. */
  lemma TitleBounds(lines: seq<string>)
    requires forall i :: 0 <= i < |lines| ==> IsTrimmed(lines[i])
    ensures 1 <= |TitleOfLines(lines)| <= TitleLimit
  {
    var h := FirstHeading(lines);
    if h.Some? {
      TrimmedHeadingHasText(lines[h.value]);
    }
  }

  /** The first heading line wins, even over non-empty lines before it: its "# " is removed once. */
  lemma HeadingWins(lines: seq<string>, k: nat)
    requires k < |lines| && IsHeading(lines[k])
    requires forall j :: 0 <= j < k ==> !IsHeading(lines[j])
    ensures TitleOfLines(lines) == Take(lines[k][2..], TitleLimit)
  {
    var h := FirstHeading(lines);
    assert IsHeading(lines[k]);
  }

  /** Without a heading the first non-empty line is the title, and with no text at all "Untitled note". */
  lemma NoHeadingFallback(lines: seq<string>)
    requires forall j :: 0 <= j < |lines| ==> !IsHeading(lines[j])
    ensures FirstNonEmpty(lines).Some? ==> TitleOfLines(lines) == Take(FirstNonEmpty(lines).value, TitleLimit)
    ensures FirstNonEmpty(lines).None? ==> TitleOfLines(lines) == "Untitled note"
  {
  }

  /** The scan of `extractTitle` over the trimmed lines: the first heading returns at once. */
  method ScanTitle(lines: seq<string>) returns (title: string)
    requires forall i :: 0 <= i < |lines| ==> IsTrimmed(lines[i])
    ensures title == TitleOfLines(lines)
    ensures 1 <= |title| <= TitleLimit
  {
    TitleBounds(lines);
    for i := 0 to |lines|
      invariant forall k :: 0 <= k < i ==> !IsHeading(lines[k])
    {
      if IsHeading(lines[i]) {
        HeadingWins(lines, i);
        return Take(lines[i][2..], TitleLimit);
      }
    }
    NoHeadingFallback(lines);
    var first := FirstNonEmpty(lines);
    title := Take(if first.Some? then first.value else "Untitled note", TitleLimit);
  }

  /** `extractTitle`: split the markdown into trimmed lines and scan them. */
  method ExtractTitle(md: string) returns (title: string)
    ensures title == TitleOf(md)
    ensures 1 <= |title| <= TitleLimit
  {
    var lines := TrimmedLines(md);
    title := ScanTitle(lines);
  }

  /** A trimmed heading on the first line gives the title, whatever follows. */
  lemma FirstLineHeading(h: string, rest: string)
    requires '\n' !in h && IsTrimmed(h) && IsHeading(h)
    ensures TitleOf(h + "\n" + rest) == Take(h[2..], TitleLimit)
  {
    SplitPrefix(h, rest, '\n');
    var md := h + "\n" + rest;
    assert md == h + ['\n'] + rest;
    assert Lines(md)[0] == DropCR(h);
    TrimOfTrimmed(h);
    HeadingWins(TrimmedLines(md), 0);
  }

  /** A fresh note's content is titled "Untitled". */
  lemma FreshContentTitle()
    ensures TitleOf(FreshContent) == "Untitled"
  {
    var h := "# Untitled";
    assert FreshContent == h + "\n" + "\n";
    assert h[0] == '#' && h[|h| - 1] == 'd' && h[..2] == "# ";
    assert IsTrimmed(h) && IsHeading(h);
    FirstLineHeading(h, "\n");
    assert h[2..] == "Untitled";
  }

  /** `extractTitle` applied to a fresh note's content. */
  method FreshNoteTitle() returns (title: string)
    ensures title == "Untitled"
  {
    title := ExtractTitle(FreshContent);
    FreshContentTitle();
  }

  // ---------------------------------------------------------------------------
  // Note metadata and the list operations
  // ---------------------------------------------------------------------------

  datatype NoteMeta = NoteMeta(id: string, title: string, tags: seq<string>, createdAt: int, updatedAt: int)

  function MetaId(n: NoteMeta): string {
    n.id
  }

  /** `notes.find((n) => n.id === id)`. */
  function FindMeta(notes: seq<NoteMeta>, id: string): (r: Option<NoteMeta>)
    ensures r.Some? ==> r.value.id == id
    ensures r.Some? ==> exists k :: 0 <= k < |notes| && notes[k] == r.value && forall j :: 0 <= j < k ==> notes[j].id != id
    ensures r.None? ==> forall n :: n in notes ==> n.id != id
  {
    if notes == [] then None
    else if notes[0].id == id then Some(notes[0])
    else
      var rest := FindMeta(notes[1..], id);
      if rest.Some? then
        var k :| 0 <= k < |notes[1..]| && notes[1..][k] == rest.value && forall j :: 0 <= j < k ==> notes[1..][j].id != id;
        assert notes[k + 1] == rest.value;
        rest
      else rest
  }

  /** The autosave's `prev.map(...)`: every note with the active id gets the new title and time. */
  function Retitle(notes: seq<NoteMeta>, id: string, title: string, now: int): (r: seq<NoteMeta>)
    ensures |r| == |notes|
    ensures forall i :: 0 <= i < |notes| && notes[i].id != id ==> r[i] == notes[i]
    ensures forall i :: 0 <= i < |notes| && notes[i].id == id ==>
              r[i] == notes[i].(title := title, updatedAt := now)
  {
    seq(|notes|, i requires 0 <= i < |notes| =>
      if notes[i].id == id then notes[i].(title := title, updatedAt := now) else notes[i])
  }

  /** `saveTagsForActive`'s `notes.map(...)`: every note with the active id gets the new tags. */
  function Retag(notes: seq<NoteMeta>, id: string, tags: seq<string>): (r: seq<NoteMeta>)
    ensures |r| == |notes|
    ensures forall i :: 0 <= i < |notes| && notes[i].id != id ==> r[i] == notes[i]
    ensures forall i :: 0 <= i < |notes| && notes[i].id == id ==> r[i] == notes[i].(tags := tags)
  {
    seq(|notes|, i requires 0 <= i < |notes| => if notes[i].id == id then notes[i].(tags := tags) else notes[i])
  }

  // ---------------------------------------------------------------------------
  // Tags
  // ---------------------------------------------------------------------------

  /** A tag as saved: non-empty, trimmed, without a comma. */
  predicate CleanTag(t: string) {
    t != "" && IsTrimmed(t) && ',' !in t
  }

  /** `.map((t) => t.trim())`. */
  function TrimAll(xs: seq<string>): seq<string> {
    seq(|xs|, i requires 0 <= i < |xs| => Trim(xs[i]))
  }

  /** `.filter(Boolean)` on strings: the empty ones are dropped, the rest keep their order. */
  function NonEmptyOnly(xs: seq<string>): seq<string> {
    if xs == [] then []
    else (if xs[0] != "" then [xs[0]] else []) + NonEmptyOnly(xs[1..])
  }

  /** Filtering keeps exactly the non-empty strings. */
  lemma {:induction false} NonEmptyOnlyMembers(xs: seq<string>)
    ensures forall t :: t in NonEmptyOnly(xs) <==> t in xs && t != ""
  {
    if xs != [] {
      NonEmptyOnlyMembers(xs[1..]);
      HeadTail(xs);
    }
  }

  /** `tagInput.split(",").map((t) => t.trim()).filter(Boolean)`. */
  function ParseTags(input: string): seq<string> {
    NonEmptyOnly(TrimAll(Split(input, ',')))
  }

  /** Input without a comma is a single tag: the trimmed input, or no tag at all when that is empty. */
  lemma ParseTagsSingle(input: string)
    requires ',' !in input
    ensures ParseTags(input) == if Trim(input) == "" then [] else [Trim(input)]
  {
    SplitNoSep(input, ',');
    assert TrimAll(Split(input, ',')) == [Trim(input)];
    assert NonEmptyOnly([Trim(input)]) == (if Trim(input) != "" then [Trim(input)] else []) + NonEmptyOnly([]);
  }

  /** Every parsed tag is non-empty, trimmed and free of commas. */
  lemma ParseTagsClean(input: string)
    ensures forall i :: 0 <= i < |ParseTags(input)| ==> CleanTag(ParseTags(input)[i])
  {
    var pieces := Split(input, ',');
    var trimmed := TrimAll(pieces);
    forall t | t in trimmed ensures IsTrimmed(t) && ',' !in t {
      var i :| 0 <= i < |trimmed| && trimmed[i] == t;
      TrimKeepsAbsent(pieces[i], ',');
    }
    NonEmptyOnlyMembers(trimmed);
    forall i | 0 <= i < |ParseTags(input)| ensures CleanTag(ParseTags(input)[i]) {
      assert ParseTags(input)[i] in NonEmptyOnly(trimmed);
    }
  }

  /** The tag box text written back after saving. */
  function TagText(tags: seq<string>): string {
    Join(tags, ", ")
  }

  /** Each tag with a space in front. */
  function SpaceEach(tags: seq<string>): (r: seq<string>)
    ensures |r| == |tags| && forall i :: 0 <= i < |tags| ==> r[i] == " " + tags[i]
  {
    seq(|tags|, i requires 0 <= i < |tags| => " " + tags[i])
  }


  lemma {:induction false} JoinSpaceEach(ts: seq<string>)
    requires |ts| >= 1
    ensures " " + TagText(ts) == Join(SpaceEach(ts), ",")
  {
    if |ts| > 1 {
      JoinSpaceEach(ts[1..]);
      assert SpaceEach(ts)[1..] == SpaceEach(ts[1..]);
    }
  }

  /** `tags.join(", ")` read as comma-separated pieces: every tag after the first keeps a leading space. */
  lemma TagTextPieces(tags: seq<string>)
    requires |tags| >= 1
    ensures TagText(tags) == Join([tags[0]] + SpaceEach(tags[1..]), ",")
  {
    var xs := [tags[0]] + SpaceEach(tags[1..]);
    if |tags| > 1 {
      JoinSpaceEach(tags[1..]);
      assert xs[1..] == SpaceEach(tags[1..]);
    }
  }

  lemma {:induction false} NonEmptyOnlyKeeps(tags: seq<string>)
    requires forall i :: 0 <= i < |tags| ==> tags[i] != ""
    ensures NonEmptyOnly(tags) == tags
  {
    if tags != [] {
      NonEmptyOnlyKeeps(tags[1..]);
      HeadTail(tags);
    }
  }

  /** Clean tags written to the tag box parse back to themselves. */
  lemma TagTextParses(tags: seq<string>)
    requires forall i :: 0 <= i < |tags| ==> CleanTag(tags[i])
    ensures ParseTags(TagText(tags)) == tags
  {
    if |tags| == 0 {
      assert Split("", ',') == [""];
    } else {
      var pieces := [tags[0]] + SpaceEach(tags[1..]);
      TagTextPieces(tags);
      forall i | 0 <= i < |pieces| ensures ',' !in pieces[i] {
        if i > 0 {
          assert pieces[i] == " " + tags[i];
        }
      }
      SplitJoin(pieces, ',');
      TrimAllPieces(tags);
      NonEmptyOnlyKeeps(tags);
    }
  }

  lemma TrimAllPieces(tags: seq<string>)
    requires |tags| >= 1
    requires forall i :: 0 <= i < |tags| ==> CleanTag(tags[i])
    ensures TrimAll([tags[0]] + SpaceEach(tags[1..])) == tags
  {
    var pieces := [tags[0]] + SpaceEach(tags[1..]);
    forall i | 0 <= i < |tags| ensures Trim(pieces[i]) == tags[i] {
      if i == 0 {
        TrimOfTrimmed(tags[0]);
      } else {
        assert pieces[i] == " " + tags[i];
        TrimSpacePrefix(tags[i]);
      }
    }
  }

  /** Saving the tags twice gives the same tags: the text written back parses to what was saved. */
  lemma SaveTagsIdempotent(input: string)
    ensures ParseTags(TagText(ParseTags(input))) == ParseTags(input)
  {
    ParseTagsClean(input);
    TagTextParses(ParseTags(input));
  }

  // ---------------------------------------------------------------------------
  // Search
  // ---------------------------------------------------------------------------

  /** What local storage returns for a note key, or "" when nothing is stored. */
  function StoredTextOf(store: map<string, string>, id: string): string {
    if id in store then StoredText(store[id]) else ""
  }

  /** The search test: title, space-joined tags, or the stored JSON text, case-insensitively. */
  predicate MatchesQuery(n: NoteMeta, query: string, store: map<string, string>)
    ensures query == "" ==> MatchesQuery(n, query, store)
  {
    IncludesEmpty(Lower(n.title));
    || IncludesInsensitive(n.title, query)
    || IncludesInsensitive(Join(n.tags, " "), query)
    || IncludesInsensitive(StoredTextOf(store, n.id), query)
  }

  /** `filtered`: the notes matching the search box, in list order. */
  function FilterNotes(notes: seq<NoteMeta>, query: string, store: map<string, string>): (r: seq<NoteMeta>)
    ensures forall n {:trigger n in r} :: n in r <==> n in notes && MatchesQuery(n, query, store)
    ensures |r| <= |notes|
  {
    if notes == [] then []
    else
      assert notes == [notes[0]] + notes[1..];
      KeepIfMatch(notes[0], query, store) + FilterNotes(notes[1..], query, store)
  }

  /** One step of the search: the note alone when it matches, nothing otherwise. */
  function KeepIfMatch(n: NoteMeta, query: string, store: map<string, string>): seq<NoteMeta> {
    if MatchesQuery(n, query, store) then [n] else []
  }

  /** The search keeps every occurrence of a matching note and none of the others. */
  lemma {:induction false} FilterNotesCount(notes: seq<NoteMeta>, query: string, store: map<string, string>, n: NoteMeta)
    ensures multiset(FilterNotes(notes, query, store))[n] == if MatchesQuery(n, query, store) then multiset(notes)[n] else 0
  {
    if notes != [] {
      assert notes == [notes[0]] + notes[1..];
      FilterNotesCount(notes[1..], query, store, n);
    }
  }

  /** The search keeps the list order: filtering a concatenation filters each part in turn. */
  lemma {:induction false} FilterNotesAppend(a: seq<NoteMeta>, b: seq<NoteMeta>, query: string, store: map<string, string>)
    ensures FilterNotes(a + b, query, store) == FilterNotes(a, query, store) + FilterNotes(b, query, store)
  {
    if a == [] {
      assert a + b == b;
    } else {
      assert (a + b)[0] == a[0] && (a + b)[1..] == a[1..] + b;
      FilterNotesAppend(a[1..], b, query, store);
    }
  }

  /** An empty search box shows every note. */
  lemma {:induction false} EmptyQueryKeepsAll(notes: seq<NoteMeta>, store: map<string, string>)
    ensures FilterNotes(notes, "", store) == notes
  {
    if notes != [] {
      IncludesEmpty(Lower(notes[0].title));
      EmptyQueryKeepsAll(notes[1..], store);
    }
  }

  /**
   * The search reads the stored JSON text rather than the markdown: the word
   * "content" matches every note that has stored content.
   */
  lemma JsonKeyMatchesEveryStoredNote(n: NoteMeta, store: map<string, string>)
    requires n.id in store
    ensures MatchesQuery(n, "content", store)
  {
    var text := StoredText(store[n.id]);
    assert text[2..9] == "content";
    IncludesAt(text, "content", 2);
    IncludesLower(text, "content");
  }

  // ---------------------------------------------------------------------------
  // The editor state
  // ---------------------------------------------------------------------------

  datatype View = Both | Editor | Preview

  /** `activeId` as a JavaScript condition: null and the empty id are both falsy. */
  predicate IsActive(activeId: Option<string>) {
    activeId.Some? && activeId.value != ""
  }

  /** What reading the index key gives at start-up: nothing, a parsed list, or text whose parse fails or is not a list. */
  datatype IndexRead = Absent | Parsed(index: seq<NoteMeta>) | Unparsable

  class NoteIndex {
    var notes: seq<NoteMeta>
    var activeId: Option<string>
    var markdown: string
    var tagInput: string
    var query: string
    var view: View
    /** Note id to markdown, standing for the `create_note_v1_<id>` entries. */
    var store: map<string, string>
    /** The `create_notes_index_v1` entry. */
    var savedIndex: IndexRead

    /**
     * The start-up load. An empty or absent index is replaced by one fresh
     * note, stored and made active; otherwise the first listed note becomes
     * active and its stored text, if any, is loaded. An unreadable index
     * falls back to one fresh note kept in memory only.
     */
    constructor Load(saved: IndexRead, stored: map<string, string>, newId: string, now: int, wide: bool)
      ensures query == "" && view == (if wide then Both else Editor)
      ensures saved.Unparsable? ==>
        && notes == [NoteMeta(newId, "Untitled", [], now, now)]
        && activeId == Some(newId) && markdown == FreshContent && tagInput == ""
        && store == stored && savedIndex == saved
      ensures (saved.Absent? || saved == Parsed([])) ==>
        && notes == [NoteMeta(newId, "Untitled", [], now, now)]
        && activeId == Some(newId) && markdown == FreshContent && tagInput == ""
        && store == stored[newId := FreshContent] && savedIndex == Parsed(notes)
      ensures saved.Parsed? && saved.index != [] ==>
        && notes == saved.index && activeId == Some(saved.index[0].id)
        && store == stored && savedIndex == saved
        && markdown == (if saved.index[0].id in stored then stored[saved.index[0].id] else WelcomeText)
        && tagInput == (if saved.index[0].id in stored then TagText(saved.index[0].tags) else "")
    {
      query := "";
      view := if wide then Both else Editor;
      tagInput := "";
      if saved.Unparsable? {
        var title := FreshNoteTitle();
        markdown := FreshContent;
        notes := [NoteMeta(newId, title, [], now, now)];
        activeId := Some(newId);
        store := stored;
        savedIndex := saved;
      } else {
        var idx := if saved.Parsed? then saved.index else [];
        var st := stored;
        var si := saved;
        if idx == [] {
          var meta := NoteMeta(newId, "Untitled", [], now, now);
          st := st[newId := FreshContent];
          idx := [meta];
          si := Parsed(idx);
        }
        notes := idx;
        store := st;
        savedIndex := si;
        activeId := Some(idx[0].id);
        markdown := WelcomeText;
        if idx[0].id in st {
          markdown := st[idx[0].id];
          tagInput := TagText(idx[0].tags);
        }
      }
    }

    /** The list the sidebar shows for the current search text. */
    function Filtered(): (r: seq<NoteMeta>)
      reads this
      ensures r == FilterNotes(notes, query, store)
      ensures forall n {:trigger n in r} :: n in r <==> n in notes && MatchesQuery(n, query, store)
    {
      FilterNotes(notes, query, store)
    }

    /** Typing in the editor. */
    method SetMarkdown(text: string)
      modifies this`markdown
      ensures markdown == text
    {
      markdown := text;
    }

    /** Typing in the tag box. */
    method SetTagInput(text: string)
      modifies this`tagInput
      ensures tagInput == text
    {
      tagInput := text;
    }

    /** Typing in the search box. */
    method SetQuery(text: string)
      modifies this`query
      ensures query == text
    {
      query := text;
    }

    /** The editor / preview / both buttons. */
    method SetView(v: View)
      modifies this`view
      ensures view == v
    {
      view := v;
    }

    /** A window resize: a wide window shows both panes; a narrow one leaves "both" for the editor and keeps any single pane. */
    method Resize(wide: bool)
      modifies this`view
      ensures wide ==> view == Both
      ensures !wide ==> view == (if old(view) == Both then Editor else old(view))
    {
      if wide {
        view := Both;
      } else if view == Both {
        view := Editor;
      }
    }

    /**
     * The debounced autosave, as one step: the active note's text is stored
     * and that note's title and update time refreshed; the index entry in
     * storage is not rewritten.
     */
    method Autosave(now: int)
      modifies this`notes, this`store
      ensures !IsActive(activeId) ==> notes == old(notes) && store == old(store)
      ensures IsActive(activeId) ==>
        && store == old(store)[activeId.value := markdown]
        && notes == Retitle(old(notes), activeId.value, TitleOf(markdown), now)
    {
      if !IsActive(activeId) {
        return;
      }
      var id := activeId.value;
      store := store[id := markdown];
      var title := ExtractTitle(markdown);
      ghost var retitled := Retitle(old(notes), id, TitleOf(markdown), now);
      notes := Retitle(notes, id, title, now);
      assert notes == retitled;
    }

    /** A new note goes first in the list, is stored with "# Untitled" and becomes active. */
    method CreateNote(id: string, now: int)
      modifies this`notes, this`activeId, this`markdown, this`tagInput, this`view, this`store, this`savedIndex
      ensures notes == [NoteMeta(id, "Untitled", [], now, now)] + old(notes)
      ensures savedIndex == Parsed(notes)
      ensures store == old(store)[id := FreshContent]
      ensures activeId == Some(id) && markdown == FreshContent && tagInput == "" && view == Editor
    {
      var meta := NoteMeta(id, "Untitled", [], now, now);
      store := store[id := FreshContent];
      notes := [meta] + notes;
      savedIndex := Parsed(notes);
      activeId := Some(id);
      markdown := FreshContent;
      tagInput := "";
      view := Editor;
    }

    /**
     * Deleting after the confirmation: the stored text and every list entry
     * with that id go; if the note was active the first remaining note takes
     * over (its stored text loaded when present), or nothing is active.
     */
    method DeleteNote(id: string, confirmed: bool)
      modifies this`notes, this`activeId, this`markdown, this`store, this`savedIndex
      ensures !confirmed ==>
        && notes == old(notes) && store == old(store) && savedIndex == old(savedIndex)
        && activeId == old(activeId) && markdown == old(markdown)
      ensures confirmed ==>
        && notes == Without(old(notes), MetaId, id) && savedIndex == Parsed(notes)
        && store == old(store) - {id}
      ensures confirmed && old(activeId) != Some(id) ==> activeId == old(activeId) && markdown == old(markdown)
      ensures confirmed && old(activeId) == Some(id) && notes == [] ==> activeId.None? && markdown == ""
      ensures confirmed && old(activeId) == Some(id) && notes != [] ==>
        && activeId == Some(notes[0].id)
        && markdown == (if notes[0].id in store then store[notes[0].id] else old(markdown))
    {
      if !confirmed {
        return;
      }
      store := store - {id};
      var next := Without(notes, MetaId, id);
      notes := next;
      savedIndex := Parsed(next);
      if activeId == Some(id) {
        if |next| > 0 {
          activeId := Some(next[0].id);
          if next[0].id in store {
            markdown := store[next[0].id];
          }
        } else {
          activeId := None;
          markdown := "";
        }
      }
    }

    /** Clicking a note opens it only when it has stored text. */
    method OpenNote(id: string)
      modifies this`activeId, this`markdown, this`tagInput, this`view
      ensures id !in store ==>
        && activeId == old(activeId) && markdown == old(markdown)
        && tagInput == old(tagInput) && view == old(view)
      ensures id in store ==>
        && activeId == Some(id) && markdown == store[id] && view == Editor
        && tagInput == (var m := FindMeta(notes, id); if m.Some? then TagText(m.value.tags) else "")
    {
      if id in store {
        activeId := Some(id);
        markdown := store[id];
        var meta := FindMeta(notes, id);
        tagInput := if meta.Some? then TagText(meta.value.tags) else "";
        view := Editor;
      }
    }

    /** The pencil button: the note becomes active even without stored text; only present text is loaded. */
    method EditNote(id: string)
      modifies this`activeId, this`markdown
      ensures activeId == Some(id)
      ensures markdown == (if id in store then store[id] else old(markdown))
    {
      activeId := Some(id);
      if id in store {
        markdown := store[id];
      }
    }

    /** Saving the tag box: only the active note's tags change, and the box is rewritten in canonical form. */
    method SaveTagsForActive()
      modifies this`notes, this`savedIndex, this`tagInput
      ensures !IsActive(activeId) ==>
        notes == old(notes) && savedIndex == old(savedIndex) && tagInput == old(tagInput)
      ensures IsActive(activeId) ==>
        var tags := ParseTags(old(tagInput));
        && notes == Retag(old(notes), activeId.value, tags)
        && savedIndex == Parsed(notes)
        && tagInput == TagText(tags)
    {
      var tags := ParseTags(tagInput);
      var text := TagText(tags);
      if IsActive(activeId) {
        notes := Retag(notes, activeId.value, tags);
        savedIndex := Parsed(notes);
        tagInput := text;
      }
    }
  }
}
