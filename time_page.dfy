/**
 * The time-entry page: rates read from the entry's own client, the month
 * filter of the table, the row amount, and the entry form, whose state
 * (`formData`, `editingEntry`, `showForm`) changes on "+ Zeit erfassen",
 * on edit, on submit and on cancel. The store calls themselves are not
 * modelled; `Submit` returns the write it would send.
 */
module TimePage {

  import opened Collections
  import opened Text
  import opened Records
  import Dashboard

  // ---------------------------------------------------------------------
  // Rates, filter and row amount

  /** `entry.client?.hourly_rate || 0`: the client's rate, with a missing client or a rate of 0 giving 0. */
  function HourlyRate(e: TimeEntry): (r: real)
    ensures e.client.Some? ==> r == e.client.value.hourlyRate
    ensures e.client.None? ==> r == 0.0
  {
    if e.client.Some? && e.client.value.hourlyRate != 0.0 then e.client.value.hourlyRate else 0.0
  }

  /** The amount of a table row: the entry's hours at its client's rate. */
  function RowAmount(e: TimeEntry): (amount: real)
    ensures e.hours >= 0.0 && e.client.Some? && e.client.value.hourlyRate >= 0.0 ==> amount >= 0.0
  {
    e.hours * HourlyRate(e)
  }

  /**
   * The two pages bill an entry alike when its project inherits the rate
   * of the same client the entry is booked on; a project rate of its own
   * is seen only by the dashboard.
   */
  lemma PagesAgreeOnInheritedRate(e: TimeEntry, p: Project, c: Client)
    requires e.client == Some(c) && e.project == Some(p) && p.client == Some(c)
    requires p.hourlyRate.None? || p.hourlyRate == Some(0.0)
    ensures Dashboard.HourlyRate(e) == HourlyRate(e)
    ensures e.hours * Dashboard.HourlyRate(e) == RowAmount(e)
  {
  }

  /** With a rate of its own, the project decides the dashboard's amount while the table keeps the client's. */
  lemma PagesDisagreeOnProjectRate(e: TimeEntry, p: Project, c: Client)
    requires e.client == Some(c) && e.project == Some(p) && p.client == Some(c)
    requires p.hourlyRate.Some? && p.hourlyRate.value != 0.0 && p.hourlyRate.value != c.hourlyRate
    ensures Dashboard.HourlyRate(e) != HourlyRate(e)
  {
  }

  /** `filteredEntries`: all entries when no month is chosen, else those whose date starts with the month. */
  function FilteredEntries(entries: seq<TimeEntry>, selectedMonth: string): (r: seq<TimeEntry>)
    ensures selectedMonth == "" ==> r == entries
    ensures forall e :: e in r <==> e in entries && StartsWith(e.date, selectedMonth)
  {
    if selectedMonth == "" then entries
    else Dashboard.MonthEntries(entries, selectedMonth)
  }

  /**
   * The empty-month shortcut changes nothing: every date starts with the
   * empty string, so the table is the dashboard's month filter whatever
   * the month, and it keeps the store's order.
   */
  lemma FilteredEntriesIsMonthFilter(entries: seq<TimeEntry>, selectedMonth: string)
    ensures FilteredEntries(entries, selectedMonth) == Dashboard.MonthEntries(entries, selectedMonth)
  {
    if selectedMonth == "" {
      forall i | 0 <= i < |entries|
        ensures Dashboard.InMonth(entries[i], "")
      {
        assert entries[i].date[..0] == "";
      }
      FilterKeepsAll(entries, e => Dashboard.InMonth(e, ""));
    }
  }

  // ---------------------------------------------------------------------
  // The entry form

  /** The form's fields, all strings as the inputs hold them. */
  datatype FormData = FormData(clientId: string, date: string, hours: string, description: string)

  /** The row `handleSubmit` writes: `hours` is `None` where `parseFloat` gives NaN, `description` is null when empty. */
  datatype EntryData = EntryData(clientId: string, date: string, hours: Option<real>, description: Option<string>)

  /** The store call of a submit: an update of the entry being edited, or an insert. */
  datatype StoreWrite = UpdateEntry(id: string, data: EntryData) | InsertEntry(data: EntryData)

  /** `entryData`: client and date copied, hours parsed, an empty description sent as null. */
  function EntryDataOf(form: FormData, parseFloat: string -> Option<real>): (d: EntryData)
    ensures d.clientId == form.clientId && d.date == form.date && d.hours == parseFloat(form.hours)
    ensures d.description.None? <==> form.description == ""
    ensures d.description.Some? ==> d.description.value == form.description
  {
    EntryData(form.clientId, form.date, parseFloat(form.hours), if form.description == "" then None else Some(form.description))
  }

  /** The write a submit sends: an update when an entry is being edited, an insert otherwise. */
  function WriteOf(editingEntry: Option<TimeEntry>, form: FormData, parseFloat: string -> Option<real>): (w: StoreWrite)
    ensures w.UpdateEntry? <==> editingEntry.Some?
    ensures w.UpdateEntry? ==> w.id == editingEntry.value.id
    ensures w.data == EntryDataOf(form, parseFloat)
  {
    if editingEntry.Some? then UpdateEntry(editingEntry.value.id, EntryDataOf(form, parseFloat))
    else InsertEntry(EntryDataOf(form, parseFloat))
  }

  /** The form after a submit: client and date kept for the next entry, hours and description cleared. */
  function AfterSubmit(form: FormData): (f: FormData)
    ensures f.clientId == form.clientId && f.date == form.date
    ensures f.hours == "" && f.description == ""
  {
    FormData(form.clientId, form.date, "", "")
  }

  /** The form `handleEdit` fills from an entry: hours rendered by `toString`, a null description as empty. */
  function EditForm(entry: TimeEntry, show: real -> string): (f: FormData)
    ensures f.clientId == entry.clientId && f.date == entry.date && f.hours == show(entry.hours)
    ensures entry.description.Some? ==> f.description == entry.description.value
    ensures entry.description.None? ==> f.description == ""
  {
    FormData(entry.clientId, entry.date, show(entry.hours), if entry.description.Some? then entry.description.value else "")
  }

  /** `new Date().toISOString().slice(0, 7)`: the `YYYY-MM` prefix of the current ISO timestamp. */
  function DefaultMonth(nowIso: string): (m: string)
    ensures StartsWith(nowIso, m)
    ensures |m| == if |nowIso| >= 7 then 7 else |nowIso|
  {
    if |nowIso| >= 7 then nowIso[..7] else nowIso
  }

  /**
   * `new Date().toISOString().split('T')[0]`: the `YYYY-MM-DD` part of the
   * current ISO timestamp, everything before its first `T`.
   */
  function DefaultDate(nowIso: string): (d: string)
    ensures StartsWith(nowIso, d)
    ensures forall j :: 0 <= j ==> !OccursAt(d, "T", j)
    ensures (forall j :: 0 <= j ==> !OccursAt(nowIso, "T", j)) ==> d == nowIso
  {
    SplitPieces(nowIso, "T");
    Split(nowIso, "T")[0]
  }

  /** The date a new entry starts with lies in the month the table starts with. */
  lemma DefaultDateInDefaultMonth(date: string, time: string)
    requires |date| >= 7 && Avoids(date, "T")
    ensures DefaultDate(date + "T" + time) == date
    ensures StartsWith(DefaultDate(date + "T" + time), DefaultMonth(date + "T" + time))
  {
    var nowIso := date + "T" + time;
    var k := Find(nowIso, "T");
    forall j | 0 <= j < |date|
      ensures !OccursAt(nowIso, "T", j)
    {
      assert nowIso[j..j + 1][0] == date[j];
    }
    assert OccursAt(nowIso, "T", |date|);
    assert k == Some(|date|);
    assert nowIso[..|date|] == date;
    assert nowIso[..7] == date[..7];
  }

  /** "+ Zeit erfassen": the first client's id preselected, or nothing when there are no clients. */
  function NewEntryForm(clients: seq<Client>, nowIso: string): (f: FormData)
    ensures clients != [] ==> f.clientId == clients[0].id
    ensures clients == [] ==> f.clientId == ""
    ensures f.date == DefaultDate(nowIso) && f.hours == "" && f.description == ""
  {
    FormData(if clients != [] then clients[0].id else "", DefaultDate(nowIso), "", "")
  }

  /**
   * Editing an entry and saving it unchanged writes the entry back: an
   * update of the same id with the same client, date and hours, as long
   * as `parseFloat` reads back what `toString` wrote. An empty description
   * is stored as null.
   */
  lemma EditThenSubmit(entry: TimeEntry, show: real -> string, parseFloat: string -> Option<real>)
    requires parseFloat(show(entry.hours)) == Some(entry.hours)
    ensures WriteOf(Some(entry), EditForm(entry, show), parseFloat)
         == UpdateEntry(entry.id, EntryData(entry.clientId, entry.date, Some(entry.hours),
              if entry.description == Some("") then None else entry.description))
  {
  }

  /** A field of the form an input's `onChange` sets. */
  datatype Field = ClientField | DateField | HoursField | DescriptionField

  function WithField(form: FormData, field: Field, value: string): (f: FormData)
    ensures field == ClientField ==> f == form.(clientId := value)
    ensures field == DateField ==> f == form.(date := value)
    ensures field == HoursField ==> f == form.(hours := value)
    ensures field == DescriptionField ==> f == form.(description := value)
  {
    match field
    case ClientField => form.(clientId := value)
    case DateField => form.(date := value)
    case HoursField => form.(hours := value)
    case DescriptionField => form.(description := value)
  }

  /** The page's state. */
  class TimePageState {
    var entries: seq<TimeEntry>
    var clients: seq<Client>
    var loading: bool
    var showForm: bool
    var editingEntry: Option<TimeEntry>
    var selectedMonth: string
    var formData: FormData

    /** An entry is only ever edited in the open form. */
    predicate Valid()
      reads this
    {
      editingEntry.Some? ==> showForm
    }

    /** The first render, before the data arrives; `nowIso` is the current time as an ISO timestamp. */
    constructor(nowIso: string)
      ensures Valid()
      ensures entries == [] && clients == [] && loading
      ensures !showForm && editingEntry == None
      ensures selectedMonth == DefaultMonth(nowIso)
      ensures formData == FormData("", DefaultDate(nowIso), "", "")
    {
      entries := [];
      clients := [];
      loading := true;
      showForm := false;
      editingEntry := None;
      selectedMonth := DefaultMonth(nowIso);
      formData := FormData("", DefaultDate(nowIso), "", "");
    }

    /** `fetchData` once both queries have answered; a failed query (`None`) leaves an empty list. */
    method Refresh(entriesRes: Option<seq<TimeEntry>>, clientsRes: Option<seq<Client>>)
      requires Valid()
      modifies this
      ensures Valid()
      ensures entries == (if entriesRes.Some? then entriesRes.value else [])
      ensures clients == (if clientsRes.Some? then clientsRes.value else [])
      ensures !loading
      ensures showForm == old(showForm) && editingEntry == old(editingEntry)
      ensures selectedMonth == old(selectedMonth) && formData == old(formData)
    {
      entries := if entriesRes.Some? then entriesRes.value else [];
      clients := if clientsRes.Some? then clientsRes.value else [];
      loading := false;
    }

    /**
     * `handleSubmit`: returns the write sent to the store, then, whether
     * it succeeded or not, keeps client and date, clears hours and
     * description, closes the form and ends editing.
     */
    method Submit(parseFloat: string -> Option<real>) returns (write: StoreWrite)
      requires Valid()
      modifies this
      ensures Valid()
      ensures write == WriteOf(old(editingEntry), old(formData), parseFloat)
      ensures formData == AfterSubmit(old(formData))
      ensures !showForm && editingEntry == None
      ensures entries == old(entries) && clients == old(clients)
      ensures loading == old(loading) && selectedMonth == old(selectedMonth)
    {
      var entryData := EntryDataOf(formData, parseFloat);
      if editingEntry.Some? {
        write := UpdateEntry(editingEntry.value.id, entryData);
      } else {
        write := InsertEntry(entryData);
      }
      formData := FormData(formData.clientId, formData.date, "", "");
      showForm := false;
      editingEntry := None;
    }

    /** `handleEdit`: remember the entry, fill the form from it and open the form. */
    method Edit(entry: TimeEntry, show: real -> string)
      requires Valid()
      modifies this
      ensures Valid()
      ensures editingEntry == Some(entry) && showForm
      ensures formData == EditForm(entry, show)
      ensures entries == old(entries) && clients == old(clients)
      ensures loading == old(loading) && selectedMonth == old(selectedMonth)
    {
      editingEntry := Some(entry);
      formData := EditForm(entry, show);
      showForm := true;
    }

    /** "+ Zeit erfassen": open an empty form for a new entry today. */
    method NewEntry(nowIso: string)
      requires Valid()
      modifies this
      ensures Valid()
      ensures showForm && editingEntry == None
      ensures formData == NewEntryForm(clients, nowIso)
      ensures entries == old(entries) && clients == old(clients)
      ensures loading == old(loading) && selectedMonth == old(selectedMonth)
    {
      showForm := true;
      editingEntry := None;
      formData := NewEntryForm(clients, nowIso);
    }

    /** "Abbrechen": close the form and end editing; the typed values stay. */
    method Cancel()
      requires Valid()
      modifies this
      ensures Valid()
      ensures !showForm && editingEntry == None
      ensures formData == old(formData)
      ensures entries == old(entries) && clients == old(clients)
      ensures loading == old(loading) && selectedMonth == old(selectedMonth)
    {
      showForm := false;
      editingEntry := None;
    }

    /** An input's `onChange`: set one field of the form, keep the others. */
    method ChangeField(field: Field, value: string)
      requires Valid()
      modifies this
      ensures Valid()
      ensures formData == WithField(old(formData), field, value)
      ensures showForm == old(showForm) && editingEntry == old(editingEntry)
      ensures entries == old(entries) && clients == old(clients)
      ensures loading == old(loading) && selectedMonth == old(selectedMonth)
    {
      formData := WithField(formData, field, value);
    }

    /** The month picker's `onChange`. */
    method SelectMonth(month: string)
      requires Valid()
      modifies this
      ensures Valid()
      ensures selectedMonth == month
      ensures formData == old(formData) && showForm == old(showForm) && editingEntry == old(editingEntry)
      ensures entries == old(entries) && clients == old(clients) && loading == old(loading)
    {
      selectedMonth := month;
    }

    /** The rows the table shows. */
    function Rows(): (rows: seq<TimeEntry>)
      reads this
      ensures forall e :: e in rows <==> e in entries && StartsWith(e.date, selectedMonth)
    {
      FilteredEntries(entries, selectedMonth)
    }
  }
}
