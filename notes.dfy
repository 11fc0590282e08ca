/**
 * The notes area, `initNotes` (js/comp_work.js; script.js holds a copy that
 * nests the same two tests). A single string is kept in localStorage under
 * "notes", overwritten on every edit and restored on load when it is not
 * empty.
 */
module Notes {
  import opened JsValues

  /** What the textarea shows after `initNotes` on a page whose textarea
      currently holds `current`. */
  function Restore(saved: Option<string>, current: string): string {
    if Truthy(saved) then saved.value else current
  }

  /** After the user's last edit `v`, the next page load shows `v` again,
      except that an emptied note leaves the textarea's own content. */
  lemma ReloadShowsLastEdit(v: string, pageDefault: string)
    ensures v != "" ==> Restore(Some(v), pageDefault) == v
    ensures v == "" ==> Restore(Some(v), pageDefault) == pageDefault
  {
  }

  /** Nothing stored and nothing overwritten: a first visit keeps the page's
      own textarea content. */
  lemma FirstVisitKeepsPage(pageDefault: string)
    ensures Restore(None, pageDefault) == pageDefault
  {
  }

  class NotesWidget {
    /** localStorage "notes". */
    var storedNotes: Option<string>
    /** The textarea's value. */
    var textarea: string
    const hasTextarea: bool

    constructor (storedNotes: Option<string>, textarea: string, hasTextarea: bool)
      ensures this.storedNotes == storedNotes && this.textarea == textarea
      ensures this.hasTextarea == hasTextarea
    {
      this.storedNotes := storedNotes;
      this.textarea := textarea;
      this.hasTextarea := hasTextarea;
    }

    /** The load step of `initNotes()`: storage is only read. */
    method InitNotes()
      modifies this
      ensures storedNotes == old(storedNotes)
      ensures textarea == if hasTextarea then Restore(storedNotes, old(textarea)) else old(textarea)
    {
      var savedNotes := storedNotes;
      if Truthy(savedNotes) && hasTextarea {
        textarea := savedNotes.value;
      }
    }

    /** The `input` listener, which exists only when the textarea does: the
        stored note becomes the textarea's new value, empty or not. */
    method OnInput(value: string)
      requires hasTextarea
      modifies this
      ensures textarea == value && storedNotes == Some(value)
    {
      textarea := value;
      storedNotes := Some(textarea);
    }
  }

  /** The user types `v` on one page; the next page load, over the same
      storage and with the page's own content `pageDefault`, shows the last
      edit, or the page's own content when the note was emptied. */
  method EditThenReload(saved: Option<string>, v: string, pageDefault: string) returns (shown: string)
    ensures v != "" ==> shown == v
    ensures v == "" ==> shown == pageDefault
  {
    var page := new NotesWidget(saved, "", true);
    page.InitNotes();
    page.OnInput(v);
    var next := new NotesWidget(page.storedNotes, pageDefault, true);
    next.InitNotes();
    shown := next.textarea;
  }
}
