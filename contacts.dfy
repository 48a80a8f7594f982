/**
 * The contact manager (contacts/contact.py): contacts with a name and an
 * optional phone and e-mail, numbered by position when added, searched by
 * name or phone.
 */
module Contacts {
  import opened Wrappers
  import opened Text
  import Json
  import Csv
  import Seqs
  import RecordStore

  /** `Contact(contact_id, name, phone=None, email=None)` */
  datatype Contact = Contact(id: int, name: string, phone: Option<string>, email: Option<string>)

  function ContactId(c: Contact): int { c.id }

  // ---------------------------------------------------------------- search

  /**
   * The test of `search_contact`: the query, lower-cased, occurs in the
   * lower-cased name; or the phone is set and non-empty (truthy) and the
   * query occurs in it as typed.
   */
  predicate Matches(c: Contact, query: string) {
    Contains(LowerStr(c.name), LowerStr(query))
    || (c.phone.Some? && c.phone.value != "" && Contains(c.phone.value, query))
  }

  function MatchesQuery(query: string): Contact -> bool {
    (c: Contact) => Matches(c, query)
  }

  /** `search_contact`: the matching contacts, in list order. */
  function SearchContact(cs: seq<Contact>, query: string): (found: seq<Contact>)
    ensures forall c :: c in found <==> c in cs && Matches(c, query)
  {
    Seqs.FilterMembers(cs, MatchesQuery(query));
    Seqs.Filter(cs, MatchesQuery(query))
  }

  /** The search keeps the stored order: searching a list made of two parts searches each part. */
  lemma SearchKeepsOrder(cs: seq<Contact>, more: seq<Contact>, query: string)
    ensures SearchContact(cs + more, query) == SearchContact(cs, query) + SearchContact(more, query)
  {
    Seqs.FilterConcat(cs, more, MatchesQuery(query));
  }

  /** The empty query is in every name, so it finds every contact. */
  lemma EmptyQueryFindsAll(cs: seq<Contact>)
    ensures SearchContact(cs, "") == cs
  {
    forall c | c in cs ensures MatchesQuery("")(c) {
      assert LowerStr("") == "";
      EmptyOccursEverywhere(LowerStr(c.name));
    }
    Seqs.FilterKeepsAll(cs, MatchesQuery(""));
  }

  /** A contact without a phone, or with an empty one, can match only by name. */
  lemma NoPhoneMatchesByName(c: Contact, query: string)
    requires c.phone.None? || c.phone == Some("")
    ensures Matches(c, query) <==> Contains(LowerStr(c.name), LowerStr(query))
  {
  }

  /**
   * The name test ignores case on both sides: upper-casing the name or the
   * query changes no answer, and a contact without a phone answers an
   * upper-cased query as it answers the query itself.
   */
  lemma NameTestIgnoresCase(c: Contact, q: string)
    ensures Contains(LowerStr(UpperStr(c.name)), LowerStr(UpperStr(q))) == Contains(LowerStr(c.name), LowerStr(q))
    ensures Matches(c.(name := UpperStr(c.name)), q) == Matches(c, q)
    ensures c.phone.None? ==> Matches(c, UpperStr(q)) == Matches(c, q)
  {
    LowerOfUpper(c.name);
    LowerOfUpper(q);
  }

  /**
   * Concrete cases: a name found under another case, and a phone that is
   * not, because the phone comparison is case-sensitive.
   */
  lemma SearchCaseRules()
    ensures Matches(Contact(1, "Anna", None, None), "ANNA")
    ensures !Matches(Contact(2, "Bob", Some("x1"), None), "X1")
    ensures Matches(Contact(3, "Bob", Some("x1"), None), "x1")
  {
    assert LowerStr("ANNA") == "anna" == LowerStr("Anna");
    assert "anna" <= "anna";
    assert LowerStr("X1") == "x1";
    assert LowerStr("Bob") == "bob";
    assert !Contains("bob", "x1") by {
      assert "bob"[1..] == "ob" && "ob"[1..] == "b" && "b"[1..] == "";
      assert !Contains("", "x1");
      assert !Contains("b", "x1");
      assert "x1"[0] != "ob"[0];
      assert !Contains("ob", "x1");
      assert "x1"[0] != "bob"[0];
    }
    assert !Contains("x1", "X1") by {
      assert "x1"[1..] == "1" && "1"[1..] == "";
      assert !Contains("", "X1");
      assert "X1"[0] != "1"[0];
      assert !Contains("1", "X1");
      assert "X1"[0] != "x1"[0];
    }
    assert "x1" <= "x1";
  }

  // ---------------------------------------------------------------- delete

  function OtherThan(id: int): Contact -> bool {
    (c: Contact) => c.id != id
  }

  /** `delete_contact`: the list without the contacts whose id is `id`. */
  function WithoutId(cs: seq<Contact>, id: int): (kept: seq<Contact>)
    ensures forall c :: c in kept <==> c in cs && c.id != id
  {
    Seqs.FilterMembers(cs, OtherThan(id));
    Seqs.Filter(cs, OtherThan(id))
  }

  /** Deleting an id that is not there leaves the list as it was, order included. */
  lemma DeleteUnknownIdKeepsAll(cs: seq<Contact>, id: int)
    requires forall c :: c in cs ==> c.id != id
    ensures WithoutId(cs, id) == cs
  {
    Seqs.FilterKeepsAll(cs, OtherThan(id));
  }

  /** With unique ids, deleting all matches is deleting the first match, as notes and tasks do. */
  lemma DeleteIsDeleteFirstWhenUnique(cs: seq<Contact>, id: int)
    requires RecordStore.UniqueIds(cs, ContactId)
    ensures RecordStore.FirstIndex(cs, ContactId, id).None? ==> WithoutId(cs, id) == cs
    ensures RecordStore.FirstIndex(cs, ContactId, id).Some? ==>
      var i := RecordStore.FirstIndex(cs, ContactId, id).value;
      WithoutId(cs, id) == cs[..i] + cs[i + 1..]
  {
    RecordStore.DeleteAllIsDeleteFirst(cs, ContactId, id, OtherThan(id));
  }

  // ---------------------------------------------------------------- backing file

  function OptionalToJson(o: Option<string>): Json.Value {
    match o
    case None => Json.Null
    case Some(s) => Json.Str(s)
  }

  /** One object as `save_contacts` writes it: exactly the constructor's keys. */
  function ContactToJson(c: Contact): Json.Object {
    map["contact_id" := Json.Num(c.id), "name" := Json.Str(c.name),
        "phone" := OptionalToJson(c.phone), "email" := OptionalToJson(c.email)]
  }

  function DumpContacts(cs: seq<Contact>): seq<Json.Object> {
    Json.EncodeAll(cs, ContactToJson)
  }

  /** `Contact(**obj)`: contact_id and name are required, phone and email default to None. */
  function ContactFromJson(obj: Json.Object): Option<Contact> {
    if !Json.Binds(obj, {"contact_id", "name", "phone", "email"}, {"contact_id", "name"}) then None
    else
      match (Json.NumberAt(obj, "contact_id"), Json.TextAt(obj, "name"),
             Json.OptionalTextAt(obj, "phone"), Json.OptionalTextAt(obj, "email"))
      case (Some(id), Some(name), Some(phone), Some(email)) => Some(Contact(id, name, phone, email))
      case _ => None
  }

  /**
   * `load_contacts`: no file is no contacts; otherwise the file loads iff
   * every object binds, giving one contact per object, in order.
   */
  function LoadContacts(disk: Option<seq<Json.Object>>): (r: Option<seq<Contact>>)
    ensures disk.None? ==> r == Some([])
    ensures disk.Some? ==> (r.Some? <==> forall i :: 0 <= i < |disk.value| ==> ContactFromJson(disk.value[i]).Some?)
    ensures disk.Some? && r.Some? ==> |r.value| == |disk.value|
    ensures disk.Some? && r.Some? ==> forall i :: 0 <= i < |disk.value| ==> ContactFromJson(disk.value[i]) == Some(r.value[i])
  {
    Json.Load(disk, ContactFromJson)
  }

  lemma ContactJsonRoundTrip(c: Contact)
    ensures ContactFromJson(ContactToJson(c)) == Some(c)
  {
    var obj := ContactToJson(c);
    assert obj.Keys == {"contact_id", "name", "phone", "email"};
  }

  /** Loading what `save_contacts` wrote gives back the same contacts, ids included. */
  lemma SavedContactsLoad(cs: seq<Contact>)
    ensures LoadContacts(Some(DumpContacts(cs))) == Some(cs)
  {
    forall c | c in cs ensures ContactFromJson(ContactToJson(c)) == Some(c) {
      ContactJsonRoundTrip(c);
    }
    Json.DecodeEncodeAll(cs, ContactToJson, ContactFromJson);
  }

  // ---------------------------------------------------------------- CSV

  /** How csv.writer writes an optional value: None as the empty string. */
  function OptionalText(o: Option<string>): string {
    o.GetOr("")
  }

  const ContactHeader: Csv.Row := ["ID", "Name", "Phone", "Email"]

  /** The row `export_to_csv` writes for a contact. */
  function ContactRow(c: Contact): Csv.Row {
    [IntText(c.id), c.name, OptionalText(c.phone), OptionalText(c.email)]
  }

  function ContactTable(cs: seq<Contact>): seq<Csv.Row> {
    Csv.Write(ContactHeader, cs, ContactRow)
  }

  /** The arguments `import_from_csv` passes to `add_contact`. */
  datatype ContactInput = ContactInput(name: string, phone: Option<string>, email: Option<string>)

  /** A cell as a `phone=`/`email=` argument: a short row gives None, any text (even empty) gives itself. */
  function OptionalField(f: Csv.Field): Option<Option<string>> {
    match f
    case NoColumn => None
    case NoValue => Some(None)
    case Value(s) => Some(Some(s))
  }

  /** `add_contact(row['Name'], row['Phone'], row['Email'])`; the ID column is not read. */
  function ContactArgs(header: Csv.Row, row: Csv.Row): Option<ContactInput> {
    match (Csv.Lookup(header, row, "Name"), OptionalField(Csv.Lookup(header, row, "Phone")),
           OptionalField(Csv.Lookup(header, row, "Email")))
    case (Value(name), Some(phone), Some(email)) => Some(ContactInput(name, phone, email))
    case _ => None
  }

  function ContactParser(header: Csv.Row): Csv.Row -> Option<ContactInput> {
    row => ContactArgs(header, row)
  }

  function BuildContact(id: int, a: ContactInput): Contact {
    Contact(id, a.name, a.phone, a.email)
  }

  /** `import_from_csv` from the list `cs`: one `add_contact` per data row, until a row fails. */
  function ImportContacts(cs: seq<Contact>, table: seq<Csv.Row>): (seq<Contact>, bool) {
    RecordStore.AddEach(cs, Csv.DataRows(table), ContactParser(Csv.Header(table)), BuildContact)
  }

  lemma ImportNumbersOn(cs: seq<Contact>, table: seq<Csv.Row>)
    requires RecordStore.NumberedFromOne(cs, ContactId)
    ensures RecordStore.NumberedFromOne(ImportContacts(cs, table).0, ContactId)
    ensures |ImportContacts(cs, table).0| >= |cs| && ImportContacts(cs, table).0[..|cs|] == cs
  {
    RecordStore.AddEachAdds(cs, Csv.DataRows(table), ContactParser(Csv.Header(table)), BuildContact);
    RecordStore.AddEachNumbersOn(cs, Csv.DataRows(table), ContactParser(Csv.Header(table)), BuildContact, ContactId);
  }

  lemma ContactArgsOfRow(c: Contact)
    ensures ContactArgs(ContactHeader, ContactRow(c))
      == Some(ContactInput(c.name, Some(OptionalText(c.phone)), Some(OptionalText(c.email))))
  {
    var h, row := ContactHeader, ContactRow(c);
    assert "Phone"[0] != "Email"[0];
    Csv.LookupAt(h, row, "Name", 1);
    Csv.LookupAt(h, row, "Phone", 2);
    Csv.LookupAt(h, row, "Email", 3);
  }

  /**
   * Exporting and importing into an empty manager keeps every name in order
   * and renumbers the contacts 1..N; a missing phone or e-mail comes back as
   * the empty string rather than None.
   */
  lemma ImportOfExport(cs: seq<Contact>)
    ensures ImportContacts([], ContactTable(cs)).1
    ensures |ImportContacts([], ContactTable(cs)).0| == |cs|
    ensures forall k :: 0 <= k < |cs| ==>
      ImportContacts([], ContactTable(cs)).0[k]
        == Contact(k + 1, cs[k].name, Some(OptionalText(cs[k].phone)), Some(OptionalText(cs[k].email)))
  {
    Csv.ReadWritten(ContactHeader, cs, ContactRow);
    var rows := Csv.DataRows(ContactTable(cs));
    forall k | 0 <= k < |rows|
      ensures ContactParser(ContactHeader)(rows[k])
        == Some(ContactInput(cs[k].name, Some(OptionalText(cs[k].phone)), Some(OptionalText(cs[k].email))))
    {
      assert rows[k] == ContactRow(cs[k]);
      ContactArgsOfRow(cs[k]);
    }
    RecordStore.AddEachAdds([], rows, ContactParser(ContactHeader), BuildContact);
  }

  /**
   * Although import turns a missing phone into an empty one, a contact and
   * its re-imported copy answer every search alike: an empty phone is falsy.
   */
  lemma ReimportedSearchAlike(c: Contact, id: int, query: string)
    ensures Matches(Contact(id, c.name, Some(OptionalText(c.phone)), Some(OptionalText(c.email))), query)
        == Matches(c, query)
  {
  }

  // ---------------------------------------------------------------- the manager

  class ContactManager {
    /** `self.contacts` */
    var contacts: seq<Contact>
    /** The backing file's contents; None while the file does not exist. */
    var disk: Option<seq<Json.Object>>
    /** How many times the backing file has been rewritten. */
    var writes: nat

    constructor (disk: Option<seq<Json.Object>>, contacts: seq<Contact>)
      ensures this.disk == disk && this.contacts == contacts && writes == 0
    {
      this.disk := disk;
      this.contacts := contacts;
      writes := 0;
    }

    /** `save_contacts`: rewrites the whole file from the list. */
    method SaveContacts()
      modifies this
      ensures contacts == old(contacts)
      ensures disk == Some(DumpContacts(contacts)) && writes == old(writes) + 1
    {
      disk := Some(DumpContacts(contacts));
      writes := writes + 1;
    }

    /** `add_contact`: appends one contact numbered len + 1, then saves. */
    method AddContact(name: string, phone: Option<string>, email: Option<string>)
      modifies this
      ensures contacts == old(contacts) + [Contact(|old(contacts)| + 1, name, phone, email)]
      ensures disk == Some(DumpContacts(contacts)) && writes == old(writes) + 1
    {
      contacts := contacts + [Contact(|contacts| + 1, name, phone, email)];
      SaveContacts();
    }

    /**
     * `edit_contact`: on the first contact with the id, replaces the name, the
     * phone and the e-mail that are given, saves, and answers true; an unknown
     * id changes nothing, saves nothing, and answers false.
     */
    method EditContact(id: int, name: Option<string>, phone: Option<string>, email: Option<string>)
      returns (found: bool)
      modifies this
      ensures found == RecordStore.FirstIndex(old(contacts), ContactId, id).Some?
      ensures match RecordStore.FirstIndex(old(contacts), ContactId, id)
        case None =>
          contacts == old(contacts) && disk == old(disk) && writes == old(writes)
        case Some(i) =>
          var c := old(contacts)[i];
          contacts == old(contacts)[i := Contact(id, name.GetOr(c.name),
                                                 if phone.Some? then phone else c.phone,
                                                 if email.Some? then email else c.email)]
          && disk == Some(DumpContacts(contacts)) && writes == old(writes) + 1
    {
      var i := 0;
      while i < |contacts|
        invariant 0 <= i <= |contacts|
        invariant contacts == old(contacts) && disk == old(disk) && writes == old(writes)
        invariant forall j :: 0 <= j < i ==> contacts[j].id != id
      {
        if contacts[i].id == id {
          RecordStore.FirstIndexAt(contacts, ContactId, id, i);
          var contact := contacts[i];
          if name.Some? {
            contact := contact.(name := name.value);
          }
          if phone.Some? {
            contact := contact.(phone := phone);
          }
          if email.Some? {
            contact := contact.(email := email);
          }
          contacts := contacts[i := contact];
          SaveContacts();
          return true;
        }
        i := i + 1;
      }
      return false;
    }

    /** `delete_contact`: keeps the contacts whose id differs, then saves, found or not. */
    method DeleteContact(id: int)
      modifies this
      ensures contacts == WithoutId(old(contacts), id)
      ensures disk == Some(DumpContacts(contacts)) && writes == old(writes) + 1
    {
      contacts := WithoutId(contacts, id);
      SaveContacts();
    }

    /** `export_to_csv`: the header, then one row per contact in list order. */
    method ExportToCsv() returns (table: seq<Csv.Row>)
      ensures table == ContactTable(contacts)
    {
      table := [ContactHeader];
      var i := 0;
      while i < |contacts|
        invariant 0 <= i <= |contacts|
        invariant table == Csv.Write(ContactHeader, contacts[..i], ContactRow)
      {
        assert contacts[..i + 1][..i] == contacts[..i];
        table := table + [ContactRow(contacts[i])];
        i := i + 1;
      }
      assert contacts[..i] == contacts;
    }

    /**
     * `import_from_csv`: one `add_contact` per data row, each saving; a row
     * without a Name (or a table without the Phone or Email column) stops the
     * import, keeping what was added before it.
     */
    method ImportFromCsv(table: seq<Csv.Row>) returns (ok: bool)
      modifies this
      ensures (contacts, ok) == ImportContacts(old(contacts), table)
      ensures writes == old(writes) + (|contacts| - |old(contacts)|)
      ensures |contacts| == |old(contacts)| ==> disk == old(disk)
      ensures |contacts| > |old(contacts)| ==> disk == Some(DumpContacts(contacts))
    {
      var parse := ContactParser(Csv.Header(table));
      var pending := Csv.DataRows(table);
      while pending != []
        invariant RecordStore.AddEach(contacts, pending, parse, BuildContact) == ImportContacts(old(contacts), table)
        invariant |contacts| - |old(contacts)| == writes - old(writes) >= 0
        invariant |contacts| == |old(contacts)| ==> disk == old(disk)
        invariant |contacts| > |old(contacts)| ==> disk == Some(DumpContacts(contacts))
        decreases |pending|
      {
        RecordStore.AddEachStep(contacts, pending, parse, BuildContact);
        var args := parse(pending[0]);
        if args.None? {
          return false;
        }
        var a := args.value;
        AddContact(a.name, a.phone, a.email);
        pending := pending[1..];
      }
      return true;
    }
  }

  /** `ContactManager()`: loads the backing file; a file that does not load raises, and no manager exists. */
  method OpenContactManager(disk: Option<seq<Json.Object>>) returns (m: Option<ContactManager>)
    ensures LoadContacts(disk).None? ==> m.None?
    ensures LoadContacts(disk).Some? ==>
      m.Some? && fresh(m.value) && m.value.contacts == LoadContacts(disk).value
      && m.value.disk == disk && m.value.writes == 0
  {
    var loaded := LoadContacts(disk);
    if loaded.None? {
      return None;
    }
    var manager := new ContactManager(disk, loaded.value);
    return Some(manager);
  }

  /** A contact added by `add_contact` to a list numbered 1..N is numbered N + 1. */
  lemma AddContactNumbersOn(cs: seq<Contact>, name: string, phone: Option<string>, email: Option<string>)
    requires RecordStore.NumberedFromOne(cs, ContactId)
    ensures RecordStore.NumberedFromOne(cs + [Contact(|cs| + 1, name, phone, email)], ContactId)
  {
    RecordStore.AddKeepsNumbering(cs, ContactId, Contact(|cs| + 1, name, phone, email));
  }
}
