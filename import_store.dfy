/**
 * The store as the import scripts see it: the `clients`, `projects` and
 * `time_entries` tables as row sequences, the `.single()` lookups they
 * check before inserting, and the inserts themselves. Row ids are numbers
 * handed out by a counter; whether the store accepts an insert is given
 * by a `Policy`, so that refused inserts (the scripts' `error` branches)
 * are part of the model.
 */
module ImportStore {

  import opened Collections

  datatype ClientRow = ClientRow(id: nat, name: string, hourlyRate: real)

  datatype ProjectRow = ProjectRow(id: nat, clientId: nat, name: string, hourlyRate: Option<real>)

  datatype EntryRow = EntryRow(id: nat, projectId: nat, date: string, hours: real, description: string)

  datatype Db = Db(clients: seq<ClientRow>, projects: seq<ProjectRow>, entries: seq<EntryRow>, nextId: nat)

  /** Which inserts the store accepts; a refused insert comes back as an error and adds no row. */
  datatype Policy = Policy(acceptClient: ClientRow -> bool, acceptProject: ProjectRow -> bool, acceptEntry: EntryRow -> bool)

  /** A store that accepts every insert. */
  function AcceptAll(): (p: Policy)
    ensures forall c :: p.acceptClient(c)
    ensures forall r :: p.acceptProject(r)
    ensures forall e :: p.acceptEntry(e)
  {
    Policy(c => true, r => true, e => true)
  }

  /** The client rows called `name`. */
  function ClientsNamed(db: Db, name: string): seq<ClientRow>
  {
    Filter(db.clients, (c: ClientRow) => c.name == name)
  }

  /** The project rows called `name` that belong to client `clientId`. */
  function ProjectsNamed(db: Db, name: string, clientId: nat): seq<ProjectRow>
  {
    Filter(db.projects, (p: ProjectRow) => p.name == name && p.clientId == clientId)
  }

  /**
   * `.from('clients').select('id').eq('name', name).single()`: the id of
   * the one client with that name; none, or several, give no data.
   */
  function FindClient(db: Db, name: string): (r: Option<nat>)
    ensures r.Some? <==> |ClientsNamed(db, name)| == 1
    ensures r.Some? ==> r.value == ClientsNamed(db, name)[0].id && ClientsNamed(db, name)[0].name == name
  {
    var found := ClientsNamed(db, name);
    if |found| == 1 then
      FilterMembership(db.clients, (c: ClientRow) => c.name == name);
      assert found[0] in found;
      Some(found[0].id)
    else None
  }

  /** The same lookup for a project by name and client id. */
  function FindProject(db: Db, name: string, clientId: nat): (r: Option<nat>)
    ensures r.Some? <==> |ProjectsNamed(db, name, clientId)| == 1
    ensures r.Some? ==> r.value == ProjectsNamed(db, name, clientId)[0].id
  {
    var found := ProjectsNamed(db, name, clientId);
    if |found| == 1 then Some(found[0].id) else None
  }

  /** The rows an accepted insert adds: the row with the next id, and the counter moved on. */
  function AddClient(db: Db, name: string, rate: real): (r: Db)
    ensures r.clients == db.clients + [ClientRow(db.nextId, name, rate)]
    ensures r.projects == db.projects && r.entries == db.entries && r.nextId == db.nextId + 1
  {
    Db(db.clients + [ClientRow(db.nextId, name, rate)], db.projects, db.entries, db.nextId + 1)
  }

  function AddProject(db: Db, clientId: nat, name: string, rate: Option<real>): (r: Db)
    ensures r.projects == db.projects + [ProjectRow(db.nextId, clientId, name, rate)]
    ensures r.clients == db.clients && r.entries == db.entries && r.nextId == db.nextId + 1
  {
    Db(db.clients, db.projects + [ProjectRow(db.nextId, clientId, name, rate)], db.entries, db.nextId + 1)
  }

  function AddEntry(db: Db, projectId: nat, date: string, hours: real, description: string): (r: Db)
    ensures r.entries == db.entries + [EntryRow(db.nextId, projectId, date, hours, description)]
    ensures r.clients == db.clients && r.projects == db.projects && r.nextId == db.nextId + 1
  {
    Db(db.clients, db.projects, db.entries + [EntryRow(db.nextId, projectId, date, hours, description)], db.nextId + 1)
  }

  /** At most one client per name and at most one project per name and client: what `.single()` relies on. */
  ghost predicate Unique(db: Db)
  {
    && (forall name :: |ClientsNamed(db, name)| <= 1)
    && (forall name, clientId :: |ProjectsNamed(db, name, clientId)| <= 1)
  }

  /** Adding a client counts for its own name and leaves every other name's rows as they were. */
  lemma AddClientNamed(db: Db, name: string, rate: real, other: string)
    ensures ClientsNamed(AddClient(db, name, rate), other)
         == ClientsNamed(db, other) + (if other == name then [ClientRow(db.nextId, name, rate)] else [])
  {
    FilterAppend(db.clients, [ClientRow(db.nextId, name, rate)], (c: ClientRow) => c.name == other);
  }

  lemma AddProjectNamed(db: Db, clientId: nat, name: string, rate: Option<real>, other: string, otherClient: nat)
    ensures ProjectsNamed(AddProject(db, clientId, name, rate), other, otherClient)
         == ProjectsNamed(db, other, otherClient)
            + (if other == name && otherClient == clientId then [ProjectRow(db.nextId, clientId, name, rate)] else [])
  {
    FilterAppend(db.projects, [ProjectRow(db.nextId, clientId, name, rate)],
                 (p: ProjectRow) => p.name == other && p.clientId == otherClient);
  }

  /** Inserting a client whose name has no row yet keeps names unique. */
  lemma AddClientUnique(db: Db, name: string, rate: real)
    requires Unique(db) && ClientsNamed(db, name) == []
    ensures Unique(AddClient(db, name, rate))
  {
    var db' := AddClient(db, name, rate);
    forall other
      ensures |ClientsNamed(db', other)| <= 1
    {
      AddClientNamed(db, name, rate, other);
    }
    forall other, clientId
      ensures ProjectsNamed(db', other, clientId) == ProjectsNamed(db, other, clientId)
    {
    }
  }

  /** Inserting a project whose name has no row for its client yet keeps projects unique. */
  lemma AddProjectUnique(db: Db, clientId: nat, name: string, rate: Option<real>)
    requires Unique(db) && ProjectsNamed(db, name, clientId) == []
    ensures Unique(AddProject(db, clientId, name, rate))
  {
    var db' := AddProject(db, clientId, name, rate);
    forall other, otherClient
      ensures |ProjectsNamed(db', other, otherClient)| <= 1
    {
      AddProjectNamed(db, clientId, name, rate, other, otherClient);
    }
    forall other
      ensures ClientsNamed(db', other) == ClientsNamed(db, other)
    {
    }
  }
}
