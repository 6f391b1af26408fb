/**
 * The "All Notes" page: a list of content items fetched from the content
 * endpoint, each with a delete button. The list, the loading flag, the error
 * text and the id being deleted are component state; fetching and deleting
 * each change that state before and after their network call, so each is
 * modelled as a start step and a finish step that receives the call's outcome.
 */
module AllNotes {
  import opened Wrappers
  import opened NoteViewer
  import opened Lists

  /** One listed item, with the fields the page reads. */
  datatype Note = Note(id: string, title: string, kind: string, content: Option<string>, url: Option<string>)

  /** How the list request ended: the request failed (network error or non-2xx), or a JSON body whose `data` may or may not be an array. */
  datatype FetchOutcome = FetchFailed | Fetched(data: Option<seq<Note>>)

  const FetchErrorText: string := "Something went wrong while fetching notes"

  /** What the page shows, in the order the component tests for it. */
  datatype Screen = Spinner | ErrorMessage(text: string) | NoNotes | NoteCards(notes: seq<Note>)

  function NoteId(n: Note): string {
    n.id
  }

  /**
   * The frame a video card embeds: only a VIDEO item with a non-empty URL
   * gets one, and its source is the rewritten link.
   */
  function VideoFrame(note: Note, parse: UrlParser): (r: Option<string>)
    ensures r.Some? <==> note.kind == "VIDEO" && note.url.Some? && note.url.value != ""
    ensures r.Some? && parse(note.url.value).None? ==> r.value == note.url.value
    ensures r.Some? && parse(note.url.value).Some? && HasWatchId(parse(note.url.value).value) ==>
              r.value == EmbedPrefix + "/" + parse(note.url.value).value.v.value
    ensures r.Some? && parse(note.url.value).Some? && !HasWatchId(parse(note.url.value).value) &&
            parse(note.url.value).value.hostname == "youtu.be" ==>
              r.value == EmbedPrefix + parse(note.url.value).value.pathname
  {
    if note.kind == "VIDEO" && note.url.Some? && note.url.value != "" then Some(EmbedUrl(note.url.value, parse))
    else None
  }

  class NotesList {
    var notes: seq<Note>
    var loading: bool
    var error: string
    var deleting: Option<string>

    /** The initial state: nothing listed yet and the spinner showing. */
    constructor ()
      ensures notes == [] && loading && error == "" && deleting.None?
    {
      notes := [];
      loading := true;
      error := "";
      deleting := None;
    }

    /** The page's content for the current state: spinner, then error, then the empty message, then the cards. */
    function View(): (s: Screen)
      reads this
      ensures loading <==> s == Spinner
      ensures s.ErrorMessage? <==> !loading && error != ""
      ensures s == NoNotes <==> !loading && error == "" && notes == []
      ensures s.NoteCards? ==> s.notes == notes && notes != []
    {
      if loading then Spinner
      else if error != "" then ErrorMessage(error)
      else if notes == [] then NoNotes
      else NoteCards(notes)
    }

    /** `fetchNotes` before its request: the spinner shows and the error is cleared. */
    method BeginFetch()
      modifies this
      ensures loading && error == ""
      ensures notes == old(notes) && deleting == old(deleting)
    {
      loading := true;
      error := "";
    }

    /**
     * `fetchNotes` after its request: an array in `data` replaces the list,
     * anything else empties it, and a failure keeps the list and sets the
     * error text. The spinner stops in every case.
     */
    method FinishFetch(outcome: FetchOutcome)
      modifies this
      ensures !loading && deleting == old(deleting)
      ensures outcome.FetchFailed? ==> notes == old(notes) && error == FetchErrorText
      ensures outcome.Fetched? ==>
        error == old(error) && notes == (if outcome.data.Some? then outcome.data.value else [])
    {
      match outcome {
        case FetchFailed =>
          error := FetchErrorText;
        case Fetched(data) =>
          notes := if data.Some? then data.value else [];
      }
      loading := false;
    }

    /** `deleteNote` before its request: the note's button is disabled. */
    method BeginDelete(id: string)
      modifies this
      ensures deleting == Some(id)
      ensures notes == old(notes) && loading == old(loading) && error == old(error)
    {
      deleting := Some(id);
    }

    /**
     * `deleteNote` after its request: on success every entry with that id
     * leaves the list and the rest keep their order; on failure the list is
     * unchanged. No button stays disabled either way.
     */
    method FinishDelete(id: string, ok: bool)
      modifies this
      ensures notes == (if ok then Without(old(notes), NoteId, id) else old(notes))
      ensures deleting.None?
      ensures loading == old(loading) && error == old(error)
    {
      if ok {
        notes := Without(notes, NoteId, id);
      }
      deleting := None;
    }
  }
}
