# Multituls record managers in Dafny

This project models the four record managers of the Multituls console
toolkit: notes, tasks, contacts and finance records. Each manager keeps an
ordered list of records. `add` gives a new record the id `len(list) + 1` and
rewrites the backing JSON file. `edit` changes the first record whose id
matches, replacing only the fields that are given. `delete` removes by id.
Each manager exports its list as a CSV table and imports one back, one `add`
per row.

On top of that shared pattern:

- **Tasks:** `create_task` re-prompts until the priority is one of three labels.
- **Contacts:** search matches the name ignoring case, or a substring of the phone, case-sensitively.
- **Finance:**
  - records can be viewed through a category filter and a date filter;
  - a report totals income and expense over an inclusive date range;
  - the balance sums every amount.

Layout:

- `wrappers.dfy`: `Option`.
- `seqs.dfy`: order-preserving selection, which is every list comprehension with an `if`.
- `text.dfy`:
  - `str.lower()`, for ASCII A-Z and the Russian capitals;
  - the substring test `in`;
  - decimal text of integers.
- `json.dfy`: the backing files as lists of JSON objects, and the binding rules of `Ctor(**obj)`.
- `csv.dfy`: the tables that `csv.writer` writes and `csv.DictReader` reads back.
- `record_store.dfy`: the pattern all four managers share:
  - the first-match scan;
  - the `len + 1` numbering;
  - one `add` per imported row.
- `notes.dfy`, `tasks.dfy`, `contacts.dfy`, `finance.dfy`: one module per manager. Each has:
  - the record datatype;
  - the JSON and CSV mappings, as pure functions;
  - the manager as a class whose `seq` field the methods update;
  - `OpenXManager`, which stands for the constructor loading its file.

State of a manager: the record list and the backing file. The file is
`disk: Option<seq<Json.Object>>`, where `None` means the file does not exist.
A counter `writes` records how often the file has been rewritten, which is
how "saves / does not save" is stated. The current time is a parameter
`now`. A CSV file is its list of rows.

## Model

| member | source | states |
|---|---|---|
| RecordStore.FirstIndex | notes/note.py:55-56 | The scan `for r in list: if r.id == id` finds no position iff no record has the id; otherwise it finds a record with the id and no earlier one. |
| RecordStore.AddKeepsNumbering | notes/note.py:22-24 | Appending a record numbered len + 1 to a list numbered 1..N keeps the numbering 1..N+1, with unique ids. |
| RecordStore.DeleteThenAddRepeatsId | task/task_manager.py:42 | Numbering by `len + 1` reuses ids. After the first of two or more records is deleted, the next add duplicates the last id. |
| RecordStore.AddEachAdds | notes/note.py:89-90 | One `add` per row: the old records stay in front, and row j becomes record len + j + 1. Import stops at the first row that cannot be read, and succeeds iff every row was added. |
| RecordStore.AddEachNumbersOn | task/task_manager.py:108-109 | Whatever ids the rows carry, imported records are numbered on from the list they join. |
| RecordStore.DeleteAllIsDeleteFirst | contacts/contact.py:59 | With unique ids, deleting every record with the id removes the same record as deleting the first match. A missing id removes nothing. |
| Text.LowerStr | contacts/contact.py:42 | `s.lower()` keeps the length, leaves no capital, turns each capital into the small letter that `Upper` maps back to it, and keeps every other character. |
| Text.LowerOfUpper | contacts/contact.py:42 | Lower-casing forgets case: an upper-cased string lowers to what the string itself lowers to. |
| Text.Contains | contacts/contact.py:42 | `q in s` can only hold when `q` is no longer than `s`. |
| Text.ParseInt | finance/finance_manager.py:80 | Accepted amount text ends in a digit, and only a leading '-' makes the amount negative. |
| Text.ParseIntCases | finance/finance_manager.py:80 | A sign and leading zeros are accepted. Empty text, a bare sign, surrounding blanks, `_` separators and a decimal point are rejected. |
| Csv.DataRows | contacts/contact.py:71-72 | DictReader yields exactly the non-blank rows after the header. |
| Seqs.FilterMembers | contacts/contact.py:42 | A comprehension with an `if` holds exactly the elements that pass the test. |
| Seqs.FilterTwice | finance/finance_manager.py:46-49 | Filtering twice in a row is filtering once by the conjunction. |
| Text.ContainsIffOccurs | contacts/contact.py:42 | `q in s` holds iff `q` starts at some position of `s`. |
| Text.ParseIntOfIntText | finance/finance_manager.py:74-80 | The decimal text written for an integer amount parses back to the same integer. |
| Json.DecodeAll | contacts/contact.py:23 | `[Ctor(**o) for o in objs]` succeeds iff every object decodes. The result then has one record per object, in order. |
| Json.DecodeEncodeAll | contacts/contact.py:23-33 | If each record survives encoding and decoding, so does the whole list. |
| Csv.LastIndex | contacts/contact.py:71-73 | DictReader maps a repeated column name to its last column. A name with no column gives KeyError. |
| Csv.Lookup | contacts/contact.py:73 | `row[name]` is KeyError iff the header has no such column. |
| Csv.Write | contacts/contact.py:64-67 | The table written has the header first, then row i+1 for record i. |
| Csv.ReadWritten | contacts/contact.py:69-73 | Reading a written table gives back the header and exactly the records' rows, in order. |
| Notes.LoadNotes | notes/note.py:36-41 | No file is no notes. Otherwise the file loads iff every object binds, giving one note per object, in order. |
| Notes.NoteManager.SaveNotes | notes/note.py:32-34 | Rewrites the file from the whole list and leaves the list unchanged. |
| Notes.SavedNotesDoNotLoad | notes/note.py:7-41 | `save_notes` omits `note_id`, which the constructor requires. Saved notes load back iff the list is empty. |
| Notes.ImportNumbersOn | notes/note.py:86-90 | After `import_csv`, the notes are still numbered 1..N and the old notes are unchanged. |
| Notes.ImportOfExport | notes/note.py:79-90 | Export then import into an empty manager keeps every title and content in order. The notes are renumbered 1..N and stamped with the import time. |
| Notes.AddNoteNumbersOn | notes/note.py:21-24 | An `add_note` on a list numbered 1..N gives the new note id N+1. |
| Notes.NoteManager.AddNote | notes/note.py:21-25 | Appends one note with id len+1, stamped now, and saves. Earlier notes are unchanged. |
| Notes.NoteManager.ViewNoteDetails | notes/note.py:47-52 | Returns the first note with the id, or None for "not found". |
| Notes.NoteManager.EditNote | notes/note.py:54-64 | On the first note with the id: replaces only the given title and content, always sets the date to now, saves, and leaves every other note unchanged. An unknown id changes nothing and does not save. |
| Notes.NoteManager.Delete | notes/note.py:66-77 | Removes only the first note with the id, keeps the others in order, and saves. An unknown id changes nothing and does not save. |
| Notes.NoteManager.ExportCsv | notes/note.py:79-84 | Writes the header ID, Title, Content, Date, then one row per note in list order. |
| Notes.NoteManager.ImportCsv | notes/note.py:86-90 | Calls `add_note(Title, Content)` once per data row and saves once per added note. The first unreadable row stops the import. |
| Notes.OpenNoteManager | notes/note.py:17-41 | A missing file loads as an empty list. A file that does not bind gives no manager. |
| Tasks.FirstValidPriority | task/task_manager.py:50-54 | The answer the prompt loop keeps is the first answer that is one of the three labels. No answer is kept iff none is a label. |
| Tasks.LoadTasks | task/task_manager.py:22-28 | No file is no tasks. Otherwise the file loads iff every object binds, giving one task per object, in order. |
| Tasks.TaskManager.SaveTasks | task/task_manager.py:30-39 | Rewrites the file from the whole list and leaves the list unchanged. |
| Tasks.SavedTasksDoNotLoad | task/task_manager.py:7-39 | `save_tasks` writes `title` and `done_task`, but the constructor takes `task_title` and `done`. Saved tasks load back iff the list is empty. |
| Tasks.TaskArgsOfRow | task/task_manager.py:101-109 | An exported row read back gives `add_task` the task's title, description, priority and status text. |
| Tasks.ImportNumbersOn | task/task_manager.py:105-109 | After import, the tasks are still numbered 1..N and the old tasks are unchanged. |
| Tasks.ImportOfExport | task/task_manager.py:98-109 | Export then import renumbers the tasks 1..N and keeps title, description and priority. The status comes back as its CSV text and the due date as the import time. |
| Tasks.AddTaskNumbersOn | task/task_manager.py:41-44 | An `add_task` on a list numbered 1..N gives the new task id N+1. |
| Tasks.AddTwoDeleteFirst | task/task_manager.py:41-96 | On a manager with no file, two `add_task` calls number the tasks 1 and 2. `delete_task(1)` then finds the first and leaves exactly the second, numbered 2, in the list and in the saved file. |
| Tasks.TaskManager.AddTask | task/task_manager.py:41-45 | Appends one task with id len+1, due now, and saves. Earlier tasks are unchanged. |
| Tasks.TaskManager.CreateTask | task/task_manager.py:47-59 | A task is added iff some answer is a valid label. It gets the first valid label and is not done. The due-date answer is dropped. |
| Tasks.TaskManager.ViewTaskDetails | task/task_manager.py:65-70 | Returns the first task with the id, or None for "not found". |
| Tasks.TaskManager.EditTask | task/task_manager.py:72-83 | On the first task with the id: replaces only the given title, description and priority. The id, status and due date stay, as do the other tasks. An unknown id changes nothing and does not save. |
| Tasks.TaskManager.DeleteTask | task/task_manager.py:85-96 | Removes only the first task with the id, keeps the others in order, and saves. An unknown id changes nothing and does not save. |
| Tasks.TaskManager.ExportToCsv | task/task_manager.py:98-103 | Writes the header ID, Title, Description, Priority, Status, Due Date, then one row per task. |
| Tasks.TaskManager.ImportFromCsv | task/task_manager.py:105-109 | Calls `add_task(Title, Description, Priority, Status)` once per data row. The first unreadable row stops the import. |
| Tasks.OpenTaskManager | task/task_manager.py:19-28 | A missing file loads as an empty list. A file that does not bind gives no manager. |
| Contacts.SearchContact | contacts/contact.py:41-43 | A contact is found iff it is in the list and matches the query. |
| Contacts.WithoutId | contacts/contact.py:58-60 | A contact is kept iff it is in the list and its id differs. |
| Contacts.LoadContacts | contacts/contact.py:20-24 | No file is no contacts. Otherwise the file loads iff every object binds, giving one contact per object, in order. |
| Contacts.ContactManager.SaveContacts | contacts/contact.py:26-33 | Rewrites the file from the whole list and leaves the list unchanged. |
| Contacts.SearchKeepsOrder | contacts/contact.py:41-43 | The search keeps stored order: searching two concatenated lists is searching each and concatenating the results. |
| Contacts.EmptyQueryFindsAll | contacts/contact.py:42 | The empty query returns every contact. |
| Contacts.NoPhoneMatchesByName | contacts/contact.py:42 | A contact with no phone, or an empty one, matches iff its lower-cased name contains the lower-cased query. |
| Contacts.NameTestIgnoresCase | contacts/contact.py:42 | For every name and query, upper-casing either changes no answer of the name test. A contact without a phone answers an upper-cased query as it answers the query. |
| Contacts.SearchCaseRules | contacts/contact.py:42 | Concrete cases: "ANNA" finds "Anna", but "X1" does not find the phone "x1", since phones compare case-sensitively. |
| Contacts.DeleteUnknownIdKeepsAll | contacts/contact.py:58-60 | Deleting an id that no contact has leaves the list unchanged, order included. |
| Contacts.DeleteIsDeleteFirstWhenUnique | contacts/contact.py:59 | With unique ids, `delete_contact` removes the same contact as a first-match delete. |
| Contacts.ContactJsonRoundTrip | contacts/contact.py:6-33 | One saved contact object decodes back to the same contact. |
| Contacts.SavedContactsLoad | contacts/contact.py:20-33 | Loading what `save_contacts` wrote gives back the same contacts, ids included. |
| Contacts.ContactArgsOfRow | contacts/contact.py:65-73 | An exported row read back gives `add_contact` the name. A None phone or email comes back as the empty string. |
| Contacts.ImportNumbersOn | contacts/contact.py:69-73 | After import, the contacts are still numbered 1..N and the old contacts are unchanged. |
| Contacts.ImportOfExport | contacts/contact.py:62-73 | Export then import renumbers the contacts 1..N and keeps every name in order. A missing phone or email becomes "". |
| Contacts.ReimportedSearchAlike | contacts/contact.py:42-73 | A re-imported contact answers every search as the original did. |
| Contacts.AddContactNumbersOn | contacts/contact.py:35-38 | An `add_contact` on a list numbered 1..N gives the new contact id N+1. |
| Contacts.ContactManager.AddContact | contacts/contact.py:35-39 | Appends one contact with id len+1 and saves. Earlier contacts are unchanged. |
| Contacts.ContactManager.EditContact | contacts/contact.py:45-56 | On the first contact with the id: replaces only the given fields, saves, and returns true. An unknown id returns false, changes nothing and does not save. |
| Contacts.ContactManager.DeleteContact | contacts/contact.py:58-60 | Keeps the contacts whose id differs, and saves whether or not one was found. |
| Contacts.ContactManager.ExportToCsv | contacts/contact.py:62-67 | Writes the header ID, Name, Phone, Email, then one row per contact. |
| Contacts.ContactManager.ImportFromCsv | contacts/contact.py:69-73 | Calls `add_contact(Name, Phone, Email)` once per data row. The first unreadable row stops the import. |
| Contacts.OpenContactManager | contacts/contact.py:16-24 | A missing file loads as an empty list. A file that does not bind gives no manager. |
| Finance.Balance | finance/finance_manager.py:86-87 | The balance of records that only add money is at least zero, and that of records that only take money at most zero. |
| Finance.ViewRecords | finance/finance_manager.py:44-49 | A record is shown iff it is in the list and passes each filter that is given. |
| Finance.ReportRecords | finance/finance_manager.py:56-61 | A record is kept iff its date parses and lies from start to end, inclusive. |
| Finance.ReportOf | finance/finance_manager.py:54-64 | No report iff some date does not parse. Otherwise income ≥ 0 ≥ expense, and the two add up to the balance of the records kept. |
| Finance.LoadRecords | finance/finance_manager.py:22-26 | No file is no records. Otherwise the file loads iff every object binds, giving one record per object, in order. |
| Finance.FinanceManager.SaveRecords | finance/finance_manager.py:28-36 | Rewrites the file from the whole list and leaves the list unchanged. |
| Finance.BalanceAfterAdd | finance/finance_manager.py:38-87 | The balance after adding a record is the balance before plus its amount. |
| Finance.ViewRecordsSelects | finance/finance_manager.py:44-49 | The two successive comprehensions are one order-keeping selection by both filters. With neither filter, the view holds every record. |
| Finance.ParseDate | finance/finance_manager.py:58 | `strptime(s, "%d-%m-%Y")` only yields days the calendar has. |
| Finance.ParseDateOfDateText | finance/finance_manager.py:58 | Every calendar day written as DD-MM-YYYY parses back to itself. |
| Finance.ParseDateShortForms | finance/finance_manager.py:58 | The short forms "5-3-2024" and " 5-03-2024" parse. |
| Finance.ParseDateRejects | finance/finance_manager.py:58 | 29-02 parses in a leap year but not in another year. ISO order does not parse. |
| Finance.OneDayRange | finance/finance_manager.py:59 | The range from D to D holds exactly D, so both bounds are inclusive. |
| Finance.Income | finance/finance_manager.py:63 | Income is never negative. |
| Finance.Expense | finance/finance_manager.py:64 | Expense is never positive. |
| Finance.TotalsAreSelectedBalances | finance/finance_manager.py:63-64 | Income is the sum over the records with amount > 0, and expense the sum over those with amount < 0. |
| Finance.TotalsMakeBalance | finance/finance_manager.py:63-87 | Income plus expense equals the sum of all amounts. |
| Finance.ZeroCountsInNeither | finance/finance_manager.py:63-64 | Records of amount zero change neither total. |
| Finance.ReportWithoutBounds | finance/finance_manager.py:57-61 | With no bounds, every record is in the report. |
| Finance.ReportOneDay | finance/finance_manager.py:57-61 | With start = end = D, the report holds exactly the records dated D. |
| Finance.RecordJsonRoundTrip | finance/finance_manager.py:7-36 | One saved record object decodes back to the same record. |
| Finance.SavedRecordsLoad | finance/finance_manager.py:22-36 | Loading what `save_records` wrote gives back the same records, ids included. |
| Finance.FinanceArgsOfRow | finance/finance_manager.py:72-83 | An exported row read back gives `add_record` the record's amount, category, date and description. |
| Finance.ImportNumbersOn | finance/finance_manager.py:76-84 | After import, the records are still numbered 1..N and the old records are unchanged. |
| Finance.ImportOfExport | finance/finance_manager.py:69-84 | Export then import renumbers the records 1..N and keeps every amount, category, date and description in order. |
| Finance.AddRecordNumbersOn | finance/finance_manager.py:38-41 | An `add_record` on a list numbered 1..N gives the new record id N+1. |
| Finance.FinanceManager.AddRecord | finance/finance_manager.py:38-42 | Appends one record with id len+1 and saves. Earlier records are unchanged. |
| Finance.FinanceManager.GenerateReport | finance/finance_manager.py:54-64 | The loop's result equals the report specification: no report if a date fails to parse; otherwise the totals over the records in range. |
| Finance.FinanceManager.ExportToCsv | finance/finance_manager.py:69-74 | Writes the header ID, Amount, Category, Date, Description, then one row per record. |
| Finance.FinanceManager.ImportFromCsv | finance/finance_manager.py:76-84 | Calls `add_record` once per data row with the amount converted to a number. The first row whose amount does not convert, or which lacks a column or cell, stops the import. |
| Finance.OpenFinanceManager | finance/finance_manager.py:18-26 | A missing file loads as an empty list. A file that does not bind gives no manager. |

## Left out

- The file system and JSON text: the backing file is its list of decoded objects, and a missing file is `None`.
  - File paths, `os.getcwd()` and I/O errors other than a missing file are not modelled.
- CSV quoting and escaping are the csv library's concern. A table is its list of cells.
- Newlines inside CSV cells: every import opens its file without `newline=''`, so a `\r` inside an exported cell reads back as `\n`. The four `ImportOfExport` lemmas hold for the model's cell lists, not for cells holding carriage returns.
- The menus (`main` of each manager, `main.py`) and every `print`/`input` are not modelled. The exceptions are these input sequences:
  - the priority answers of `create_task` are a sequence;
  - running out of them is modelled as no task added;
  - EOF at the other prompts of `create_task` (title, description, due date) is not modelled.
- `view_tasks`, `view_note` and the record listing of `view_records` only print. `view_records` is modelled as the list it would print.
- The clock is a parameter `now`. One reading serves a whole call, including a whole import.
- Finance.FinanceRecord: amounts are integers in the currency's smallest unit rather than Python floats. Their CSV text is decimal integer text, and `float()` is modelled by `ParseInt`, which parses that text.
  - Fractional amounts, exponents, "inf"/"nan" and rounding are not modelled.
  - `float()` also accepts surrounding whitespace and `_` digit separators (`" 5"`, `"1_000"`). `Text.ParseInt` rejects both, so `Finance.FinanceManager.ImportFromCsv` stops at such a row where Python goes on.
- Finance.ParseDate: digits are ASCII only. Python's `\d` would also accept other Unicode decimal digits.
- Text.LowerStr: lower-cases ASCII A-Z and the Russian capitals only. Other letters, such as `É`, are not lower-cased, although Python would map them.
- Finance.FinanceArgs: a row too short to reach the Category, Date or Description column stops the import. Python adds the record with `None` in that field; the model stops the import there.
- Notes.NoteArgs, Tasks.TaskArgs and Contacts.ContactArgs: a short row that leaves a text field `None` stops the import. Python adds the record with `None` in that field; the model stops the import there. A missing Phone or Email cell, by contrast, is modelled as `None`, as the source passes it.
- JSON values of a type other than the one the field has (a number as a title, say) make a load fail here. Python would accept them into the record.
- Object identity: records are values. Python's `list.remove` removes the matching object, which here is the first match.
- `calculate/file_operations.py` is not part of this model.
- A saved note list or a saved task list cannot be read back. This is stated and proved by `Notes.SavedNotesDoNotLoad` and `Tasks.SavedTasksDoNotLoad` rather than repaired.
