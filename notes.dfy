/**
 * The note manager (notes/note.py): notes with a title, a content and a
 * timestamp, numbered by position when added; edits refresh the timestamp.
 */
module Notes {
  import opened Wrappers
  import opened Text
  import Json
  import Csv
  import RecordStore

  /** `Notes(title, content, note_id, date)`; the date is `date or now()`, so never empty. */
  datatype Note = Note(id: int, title: string, content: string, date: Stamp)

  function NoteId(n: Note): int { n.id }

  // ---------------------------------------------------------------- backing file

  /** One object as `save_notes` writes it: title, content and date, but no note_id. */
  function NoteToJson(n: Note): Json.Object {
    map["title" := Json.Str(n.title), "content" := Json.Str(n.content), "date" := Json.Str(n.date)]
  }

  function DumpNotes(ns: seq<Note>): seq<Json.Object> {
    Json.EncodeAll(ns, NoteToJson)
  }

  /** `Notes(**obj)`: note_id, title and content are required, date defaults to now. */
  function NoteFromJson(obj: Json.Object, now: Stamp): Option<Note> {
    if !Json.Binds(obj, {"title", "content", "note_id", "date"}, {"title", "content", "note_id"}) then None
    else
      match (Json.TextAt(obj, "title"), Json.TextAt(obj, "content"), Json.NumberAt(obj, "note_id"), Json.StampAt(obj, "date", now))
      case (Some(title), Some(content), Some(id), Some(date)) => Some(Note(id, title, content, date))
      case _ => None
  }

  function NoteDecoder(now: Stamp): Json.Object -> Option<Note> {
    obj => NoteFromJson(obj, now)
  }

  /**
   * `load_notes`: no file is no notes; otherwise the file loads iff every
   * object binds, giving one note per object, in order.
   */
  function LoadNotes(disk: Option<seq<Json.Object>>, now: Stamp): (r: Option<seq<Note>>)
    ensures disk.None? ==> r == Some([])
    ensures disk.Some? ==> (r.Some? <==> forall i :: 0 <= i < |disk.value| ==> NoteDecoder(now)(disk.value[i]).Some?)
    ensures disk.Some? && r.Some? ==> |r.value| == |disk.value|
    ensures disk.Some? && r.Some? ==> forall i :: 0 <= i < |disk.value| ==> NoteDecoder(now)(disk.value[i]) == Some(r.value[i])
  {
    Json.Load(disk, NoteDecoder(now))
  }

  /**
   * What `save_notes` writes cannot be loaded back unless it is empty: every
   * object lacks the note_id the constructor requires.
   */
  lemma SavedNotesDoNotLoad(ns: seq<Note>, now: Stamp)
    ensures LoadNotes(Some(DumpNotes(ns)), now).Some? <==> ns == []
  {
    if ns != [] {
      var obj := DumpNotes(ns)[0];
      assert obj == NoteToJson(ns[0]);
      assert obj.Keys == {"title", "content", "date"};
      assert "note_id"[0] != "content"[0];
      assert NoteDecoder(now)(obj).None?;
    }
  }

  // ---------------------------------------------------------------- CSV

  const NoteHeader: Csv.Row := ["ID", "Title", "Content", "Date"]

  /** The row `export_csv` writes for a note: id, title, content, date. */
  function NoteRow(n: Note): Csv.Row {
    [IntText(n.id), n.title, n.content, n.date]
  }

  function NoteTable(ns: seq<Note>): seq<Csv.Row> {
    Csv.Write(NoteHeader, ns, NoteRow)
  }

  /** The arguments `import_csv` passes to `add_note`. */
  datatype NoteInput = NoteInput(title: string, content: string)

  /** `add_note(row['Title'], row['Content'])`; a missing column or cell stops the import. */
  function NoteArgs(header: Csv.Row, row: Csv.Row): Option<NoteInput> {
    match (Csv.Lookup(header, row, "Title"), Csv.Lookup(header, row, "Content"))
    case (Value(title), Value(content)) => Some(NoteInput(title, content))
    case _ => None
  }

  function NoteParser(header: Csv.Row): Csv.Row -> Option<NoteInput> {
    row => NoteArgs(header, row)
  }

  /** The note `add_note` makes: the given id, the arguments, and the current time. */
  function NoteBuilder(now: Stamp): (int, NoteInput) -> Note {
    (id, a: NoteInput) => Note(id, a.title, a.content, now)
  }

  /** `import_csv` from the list `ns`: one `add_note` per data row, until a row fails. */
  function ImportNotes(ns: seq<Note>, table: seq<Csv.Row>, now: Stamp): (seq<Note>, bool) {
    RecordStore.AddEach(ns, Csv.DataRows(table), NoteParser(Csv.Header(table)), NoteBuilder(now))
  }

  /**
   * Imported notes are numbered on from the list they join, whatever the ID
   * column says; the notes already there are untouched.
   */
  lemma ImportNumbersOn(ns: seq<Note>, table: seq<Csv.Row>, now: Stamp)
    requires RecordStore.NumberedFromOne(ns, NoteId)
    ensures RecordStore.NumberedFromOne(ImportNotes(ns, table, now).0, NoteId)
    ensures |ImportNotes(ns, table, now).0| >= |ns| && ImportNotes(ns, table, now).0[..|ns|] == ns
  {
    RecordStore.AddEachAdds(ns, Csv.DataRows(table), NoteParser(Csv.Header(table)), NoteBuilder(now));
    RecordStore.AddEachNumbersOn(ns, Csv.DataRows(table), NoteParser(Csv.Header(table)), NoteBuilder(now), NoteId);
  }

  /**
   * Exporting and importing into an empty manager keeps every title and
   * content in order, renumbers the notes 1..N, and stamps them with the
   * import time.
   */
  lemma ImportOfExport(ns: seq<Note>, now: Stamp)
    ensures ImportNotes([], NoteTable(ns), now).1
    ensures |ImportNotes([], NoteTable(ns), now).0| == |ns|
    ensures forall k :: 0 <= k < |ns| ==>
      ImportNotes([], NoteTable(ns), now).0[k] == Note(k + 1, ns[k].title, ns[k].content, now)
  {
    var table := NoteTable(ns);
    Csv.ReadWritten(NoteHeader, ns, NoteRow);
    var rows := Csv.DataRows(table);
    forall k | 0 <= k < |rows| ensures NoteParser(NoteHeader)(rows[k]) == Some(NoteInput(ns[k].title, ns[k].content)) {
      assert rows[k] == NoteRow(ns[k]);
    }
    RecordStore.AddEachAdds([], rows, NoteParser(NoteHeader), NoteBuilder(now));
  }

  // ---------------------------------------------------------------- the manager

  class NoteManager {
    /** `self.notes` */
    var notes: seq<Note>
    /** The backing file's contents; None while the file does not exist. */
    var disk: Option<seq<Json.Object>>
    /** How many times the backing file has been rewritten. */
    var writes: nat

    constructor (disk: Option<seq<Json.Object>>, notes: seq<Note>)
      ensures this.disk == disk && this.notes == notes && writes == 0
    {
      this.disk := disk;
      this.notes := notes;
      writes := 0;
    }

    /** `save_notes`: rewrites the whole file from the list. */
    method SaveNotes()
      modifies this
      ensures notes == old(notes)
      ensures disk == Some(DumpNotes(notes)) && writes == old(writes) + 1
    {
      disk := Some(DumpNotes(notes));
      writes := writes + 1;
    }

    /** `add_note`: appends one note numbered len + 1, stamped now, then saves. */
    method AddNote(title: string, content: string, now: Stamp)
      modifies this
      ensures notes == old(notes) + [Note(|old(notes)| + 1, title, content, now)]
      ensures disk == Some(DumpNotes(notes)) && writes == old(writes) + 1
    {
      notes := notes + [Note(|notes| + 1, title, content, now)];
      SaveNotes();
    }

    /** `view_note_details`: the first note with the id, or None ("not found"). */
    method ViewNoteDetails(id: int) returns (r: Option<Note>)
      ensures match RecordStore.FirstIndex(notes, NoteId, id)
        case None => r.None?
        case Some(i) => r == Some(notes[i])
    {
      var i := 0;
      while i < |notes|
        invariant 0 <= i <= |notes|
        invariant forall j :: 0 <= j < i ==> notes[j].id != id
      {
        if notes[i].id == id {
          RecordStore.FirstIndexAt(notes, NoteId, id, i);
          return Some(notes[i]);
        }
        i := i + 1;
      }
      return None;
    }

    /**
     * `edit_note`: on the first note with the id, replaces the title and the
     * content that are given and always sets the date to now, then saves; an
     * unknown id changes nothing and saves nothing.
     */
    method EditNote(id: int, newTitle: Option<string>, newContent: Option<string>, now: Stamp)
      modifies this
      ensures match RecordStore.FirstIndex(old(notes), NoteId, id)
        case None =>
          notes == old(notes) && disk == old(disk) && writes == old(writes)
        case Some(i) =>
          notes == old(notes)[i := Note(id, newTitle.GetOr(old(notes)[i].title), newContent.GetOr(old(notes)[i].content), now)]
          && disk == Some(DumpNotes(notes)) && writes == old(writes) + 1
    {
      var i := 0;
      while i < |notes|
        invariant 0 <= i <= |notes|
        invariant notes == old(notes) && disk == old(disk) && writes == old(writes)
        invariant forall j :: 0 <= j < i ==> notes[j].id != id
      {
        if notes[i].id == id {
          RecordStore.FirstIndexAt(notes, NoteId, id, i);
          var note := notes[i];
          if newTitle.Some? {
            note := note.(title := newTitle.value);
          }
          if newContent.Some? {
            note := note.(content := newContent.value);
          }
          note := note.(date := now);
          notes := notes[i := note];
          SaveNotes();
          return;
        }
        i := i + 1;
      }
    }

    /**
     * `delete`: removes the first note with the id, keeping the others in
     * order, and saves; an unknown id changes nothing and saves nothing.
     * `found` is what the source reports to the user.
     */
    method Delete(id: int) returns (found: bool)
      modifies this
      ensures match RecordStore.FirstIndex(old(notes), NoteId, id)
        case None =>
          !found && notes == old(notes) && disk == old(disk) && writes == old(writes)
        case Some(i) =>
          found && notes == old(notes)[..i] + old(notes)[i + 1..]
          && disk == Some(DumpNotes(notes)) && writes == old(writes) + 1
    {
      found := false;
      var i := 0;
      while i < |notes|
        invariant 0 <= i <= |notes|
        invariant notes == old(notes) && !found
        invariant forall j :: 0 <= j < i ==> notes[j].id != id
      {
        if notes[i].id == id {
          RecordStore.FirstIndexAt(notes, NoteId, id, i);
          notes := notes[..i] + notes[i + 1..];
          found := true;
          break;
        }
        i := i + 1;
      }
      if found {
        SaveNotes();
      }
    }

    /** `export_csv`: the header, then one row per note in list order. */
    method ExportCsv() returns (table: seq<Csv.Row>)
      ensures table == NoteTable(notes)
    {
      table := [NoteHeader];
      var i := 0;
      while i < |notes|
        invariant 0 <= i <= |notes|
        invariant table == Csv.Write(NoteHeader, notes[..i], NoteRow)
      {
        assert notes[..i + 1][..i] == notes[..i];
        table := table + [NoteRow(notes[i])];
        i := i + 1;
      }
      assert notes[..i] == notes;
    }

    /**
     * `import_csv`: one `add_note` per data row, each saving; a row without
     * Title or Content stops the import (the source raises), keeping what was
     * added before it. `ok` says whether every row was imported.
     */
    method ImportCsv(table: seq<Csv.Row>, now: Stamp) returns (ok: bool)
      modifies this
      ensures (notes, ok) == ImportNotes(old(notes), table, now)
      ensures writes == old(writes) + (|notes| - |old(notes)|)
      ensures |notes| == |old(notes)| ==> disk == old(disk)
      ensures |notes| > |old(notes)| ==> disk == Some(DumpNotes(notes))
    {
      var parse := NoteParser(Csv.Header(table));
      var pending := Csv.DataRows(table);
      while pending != []
        invariant RecordStore.AddEach(notes, pending, parse, NoteBuilder(now)) == ImportNotes(old(notes), table, now)
        invariant |notes| - |old(notes)| == writes - old(writes) >= 0
        invariant |notes| == |old(notes)| ==> disk == old(disk)
        invariant |notes| > |old(notes)| ==> disk == Some(DumpNotes(notes))
        decreases |pending|
      {
        RecordStore.AddEachStep(notes, pending, parse, NoteBuilder(now));
        var args := parse(pending[0]);
        if args.None? {
          return false;
        }
        var a := args.value;
        AddNote(a.title, a.content, now);
        pending := pending[1..];
      }
      return true;
    }
  }

  /** `NoteManager()`: loads the backing file; a file that does not load raises, and no manager exists. */
  method OpenNoteManager(disk: Option<seq<Json.Object>>, now: Stamp) returns (m: Option<NoteManager>)
    ensures LoadNotes(disk, now).None? ==> m.None?
    ensures LoadNotes(disk, now).Some? ==>
      m.Some? && fresh(m.value) && m.value.notes == LoadNotes(disk, now).value
      && m.value.disk == disk && m.value.writes == 0
  {
    var loaded := LoadNotes(disk, now);
    if loaded.None? {
      return None;
    }
    var manager := new NoteManager(disk, loaded.value);
    return Some(manager);
  }

  /** A note added by `add_note` to a list numbered 1..N is numbered N + 1. */
  lemma AddNoteNumbersOn(ns: seq<Note>, title: string, content: string, now: Stamp)
    requires RecordStore.NumberedFromOne(ns, NoteId)
    ensures RecordStore.NumberedFromOne(ns + [Note(|ns| + 1, title, content, now)], NoteId)
  {
    RecordStore.AddKeepsNumbering(ns, NoteId, Note(|ns| + 1, title, content, now));
  }
}
