/**
 * The two CSV import scripts, `import-2025.ts` and the January 2026
 * `import-csv.ts`, which differ only in the client-name normalisation and
 * in where the year of an entry's date comes from. Both run four passes
 * over the data lines: collect clients (highest rate) and projects
 * (first-seen rate), create or reuse the clients, create or reuse the
 * projects, and insert one time entry per usable line. Each pass is a
 * fold here, and a method with the script's loop is proved to compute it.
 */
module CsvImport {

  import opened Collections
  import opened Text
  import opened ImportStore

  datatype Script = Import2025 | ImportJanuary2026

  // ---------------------------------------------------------------------
  // Lines and columns

  /** `csvData.trim().split('\n').slice(1)`: the data lines, the header dropped; none holds a line break. */
  function DataLines(csv: string): (lines: seq<string>)
    ensures forall i, j :: 0 <= i < |lines| && 0 <= j ==> !OccursAt(lines[i], "\n", j)
  {
    SplitPieces(Trim(csv), "\n");
    Split(Trim(csv), "\n")[1..]
  }

  /**
   * The destructured columns of a line; `None` is a column past the end
   * of the line (`undefined`). The January 2026 script does not read
   * `jahr`, and neither script reads the columns after it.
   */
  datatype Row = Row(
    datum: Option<string>,
    kunde: Option<string>,
    projekt: Option<string>,
    stundensatz: Option<string>,
    stunden: Option<string>,
    jahr: Option<string>)

  function Column(fields: seq<string>, i: nat): Option<string>
  {
    if i < |fields| then Some(fields[i]) else None
  }

  /** A column holds no comma. */
  ghost predicate CommaFree(f: Option<string>)
  {
    f.Some? ==> forall j :: 0 <= j ==> !OccursAt(f.value, ",", j)
  }

  /** `const [datum, kunde, projekt, stundensatz, stunden, jahr] = line.split(',')`. */
  function ParseRow(line: string): Row
  {
    var f := Split(line, ",");
    Row(Column(f, 0), Column(f, 1), Column(f, 2), Column(f, 3), Column(f, 4), Column(f, 5))
  }

  /**
   * The destructured columns: the first is always there and opens the
   * line, the second is there iff the line holds a comma, a column is
   * there only if the one before it is, and no column holds a comma.
   */
  lemma ParseRowShape(line: string)
    ensures var r := ParseRow(line);
      && r.datum.Some? && StartsWith(line, r.datum.value)
      && (r.kunde.None? <==> forall j :: 0 <= j ==> !OccursAt(line, ",", j))
      && (r.projekt.Some? ==> r.kunde.Some?) && (r.stundensatz.Some? ==> r.projekt.Some?)
      && (r.stunden.Some? ==> r.stundensatz.Some?) && (r.jahr.Some? ==> r.stunden.Some?)
      && CommaFree(r.datum) && CommaFree(r.kunde) && CommaFree(r.projekt)
      && CommaFree(r.stundensatz) && CommaFree(r.stunden) && CommaFree(r.jahr)
  {
    SplitPieces(line, ",");
  }

  /** JavaScript truthiness of a column: present and not empty. */
  predicate Given(f: Option<string>)
  {
    f.Some? && f.value != ""
  }

  /** `parseFloat(column) || fallback`: the parsed number, unless it is NaN (a missing column too) or 0. */
  function NumberOr(f: Option<string>, parseFloat: string -> Option<real>, fallback: real): (r: real)
    ensures f.Some? && parseFloat(f.value).Some? && parseFloat(f.value).value != 0.0 ==> r == parseFloat(f.value).value
    ensures r == fallback || (f.Some? && parseFloat(f.value) == Some(r) && r != 0.0)
  {
    if f.Some? && parseFloat(f.value).Some? && parseFloat(f.value).value != 0.0 then parseFloat(f.value).value
    else fallback
  }

  /** `parseFloat(stundensatz) || 100`: never 0, so the rate always counts as set. */
  function Rate(row: Row, parseFloat: string -> Option<real>): (r: real)
    ensures r != 0.0
  {
    NumberOr(row.stundensatz, parseFloat, 100.0)
  }

  /** `parseFloat(stunden) || 0`: the parsed hours, or 0 when the column is missing or not a number. */
  function Hours(row: Row, parseFloat: string -> Option<real>): (h: real)
    ensures row.stunden.Some? && parseFloat(row.stunden.value).Some? ==> h == parseFloat(row.stunden.value).value
    ensures h == 0.0 || (row.stunden.Some? && parseFloat(row.stunden.value) == Some(h))
  {
    NumberOr(row.stunden, parseFloat, 0.0)
  }

  /** The client name a row is filed under: the 2025 script turns `JOAN` into `Joan`, the other keeps names. */
  function ClientName(script: Script, kunde: string): (name: string)
    ensures script == Import2025 && kunde == "JOAN" ==> name == "Joan"
    ensures script == ImportJanuary2026 || kunde != "JOAN" ==> name == kunde
  {
    if script == Import2025 && kunde == "JOAN" then "Joan" else kunde
  }

  /** `${clientName}::${projekt}`. */
  function ProjectKey(client: string, projekt: string): string
  {
    client + "::" + projekt
  }

  /**
   * `const [, projektName] = key.split('::')`; every key holds a `::`, so
   * the second part exists. The name never holds a `::` itself.
   */
  function ProjectNameOfKey(key: string): (name: string)
    ensures forall j :: 0 <= j ==> !OccursAt(name, "::", j)
  {
    var parts := Split(key, "::");
    SplitPieces(key, "::");
    if |parts| >= 2 then parts[1] else ""
  }

  // ---------------------------------------------------------------------
  // Pass 1: collect clients and projects

  datatype ProjectInfo = ProjectInfo(client: string, rate: real)

  /** `clientsMap` (name to highest rate) and `projectsMap` (key to client and first-seen rate). */
  datatype Collected = Collected(clients: OrderedMap<string, real>, projects: OrderedMap<string, ProjectInfo>)

  /** Rows with an empty client or project column are skipped. */
  predicate Collectable(row: Row)
  {
    Given(row.kunde) && Given(row.projekt)
  }

  /** The client a collected line is filed under. */
  predicate NamesClient(line: string, script: Script, name: string)
  {
    var row := ParseRow(line);
    Collectable(row) && ClientName(script, row.kunde.value) == name
  }

  /** The project key a collected line is filed under. */
  predicate NamesProject(line: string, script: Script, key: string)
  {
    var row := ParseRow(line);
    Collectable(row) && ProjectKey(ClientName(script, row.kunde.value), row.projekt.value) == key
  }

  function LineRate(line: string, parseFloat: string -> Option<real>): real
  {
    Rate(ParseRow(line), parseFloat)
  }

  /** The client of a line, for a line that names one. */
  function LineClient(line: string, script: Script): string
  {
    var row := ParseRow(line);
    if row.kunde.Some? then ClientName(script, row.kunde.value) else ""
  }

  /** Record `rate` for `name` unless the recorded rate is at least as high. */
  function KeepMax(m: OrderedMap<string, real>, name: string, rate: real): (r: OrderedMap<string, real>)
    requires m.Valid()
    ensures r.Valid()
  {
    if name !in m.values || m.values[name] < rate then m.Set(name, rate) else m
  }

  /** Record `info` under `key` unless the key is already there. */
  function KeepFirst(m: OrderedMap<string, ProjectInfo>, key: string, info: ProjectInfo): (r: OrderedMap<string, ProjectInfo>)
    requires m.Valid()
    ensures r.Valid()
  {
    if key !in m.values then m.Set(key, info) else m
  }

  ghost predicate CollectedValid(c: Collected)
  {
    c.clients.Valid() && c.projects.Valid()
  }

  /** One line of the collection loop. */
  function CollectLine(c: Collected, line: string, script: Script, parseFloat: string -> Option<real>): (r: Collected)
    requires CollectedValid(c)
    ensures CollectedValid(r)
  {
    var row := ParseRow(line);
    if !Collectable(row) then c
    else
      var rate := Rate(row, parseFloat);
      var name := ClientName(script, row.kunde.value);
      Collected(KeepMax(c.clients, name, rate), KeepFirst(c.projects, ProjectKey(name, row.projekt.value), ProjectInfo(name, rate)))
  }

  /** The two maps after the collection loop over `lines`. */
  function Collect(lines: seq<string>, script: Script, parseFloat: string -> Option<real>): (c: Collected)
    ensures CollectedValid(c)
  {
    if lines == [] then Collected(EmptyMap(), EmptyMap())
    else CollectLine(Collect(lines[..|lines| - 1], script, parseFloat), lines[|lines| - 1], script, parseFloat)
  }

  lemma CollectStep(lines: seq<string>, i: nat, script: Script, parseFloat: string -> Option<real>)
    requires i < |lines|
    ensures Collect(lines[..i + 1], script, parseFloat) == CollectLine(Collect(lines[..i], script, parseFloat), lines[i], script, parseFloat)
  {
    assert lines[..i + 1][..i] == lines[..i];
  }

  /** The collection loop of both scripts. */
  method CollectPass(lines: seq<string>, script: Script, parseFloat: string -> Option<real>)
    returns (clientsMap: OrderedMap<string, real>, projectsMap: OrderedMap<string, ProjectInfo>)
    ensures Collected(clientsMap, projectsMap) == Collect(lines, script, parseFloat)
  {
    clientsMap := EmptyMap();
    projectsMap := EmptyMap();
    var i := 0;
    while i < |lines|
      invariant 0 <= i <= |lines|
      invariant Collected(clientsMap, projectsMap) == Collect(lines[..i], script, parseFloat)
    {
      CollectStep(lines, i, script, parseFloat);
      var row := ParseRow(lines[i]);
      if Collectable(row) {
        var rate := Rate(row, parseFloat);
        var clientName := ClientName(script, row.kunde.value);
        if clientName !in clientsMap.values || clientsMap.values[clientName] < rate {
          clientsMap := clientsMap.Set(clientName, rate);
        }
        var projectKey := ProjectKey(clientName, row.projekt.value);
        if projectKey !in projectsMap.values {
          projectsMap := projectsMap.Set(projectKey, ProjectInfo(clientName, rate));
        }
      }
      i := i + 1;
    }
    assert lines[..i] == lines;
  }

  // ---------------------------------------------------------------------
  // Passes 2 and 3: create or reuse clients and projects

  /** The store and the ids recorded so far (`clientIds` or `projectIds`). */
  datatype Stage = Stage(db: Db, ids: map<string, nat>)

  /** One client: reuse the single row with the name, else insert it with its highest rate; a refused insert records no id. */
  function ClientStep(st: Stage, name: string, rate: real, policy: Policy): (r: Stage)
    ensures r.db.projects == st.db.projects && r.db.entries == st.db.entries
    ensures r.db == st.db || (FindClient(st.db, name).None? && r.db == AddClient(st.db, name, rate))
  {
    match FindClient(st.db, name)
    case Some(id) => Stage(st.db, st.ids[name := id])
    case None =>
      if policy.acceptClient(ClientRow(st.db.nextId, name, rate))
      then Stage(AddClient(st.db, name, rate), st.ids[name := st.db.nextId])
      else st
  }

  /** A client step records for `name` either nothing new or the id of a client row called `name`. */
  lemma ClientStepIds(st: Stage, name: string, rate: real, policy: Policy)
    ensures var r := ClientStep(st, name, rate, policy);
      r.ids == st.ids || exists c :: c in r.db.clients && c.name == name && r.ids == st.ids[name := c.id]
  {
    if FindClient(st.db, name).Some? {
      FilterMembership(st.db.clients, (c: ClientRow) => c.name == name);
      assert ClientsNamed(st.db, name)[0] in ClientsNamed(st.db, name);
    }
  }

  /** The client loop over the names `keys`, in `clientsMap` order. */
  function ClientPass(db: Db, keys: seq<string>, rates: map<string, real>, policy: Policy): (r: Stage)
    requires forall k :: k in keys ==> k in rates
    ensures r.db.projects == db.projects && r.db.entries == db.entries
    ensures db.clients <= r.db.clients
    ensures forall k :: k in r.ids ==> k in keys
  {
    if keys == [] then Stage(db, map[])
    else
      var k := keys[|keys| - 1];
      var st := ClientPass(db, keys[..|keys| - 1], rates, policy);
      var r := ClientStep(st, k, rates[k], policy);
      r
  }

  lemma ClientPassStep(db: Db, keys: seq<string>, i: nat, rates: map<string, real>, policy: Policy)
    requires i < |keys| && forall k :: k in keys ==> k in rates
    ensures ClientPass(db, keys[..i + 1], rates, policy) == ClientStep(ClientPass(db, keys[..i], rates, policy), keys[i], rates[keys[i]], policy)
  {
    assert keys[..i + 1][..i] == keys[..i];
  }

  /** The client loop of both scripts: `for (const [name, rate] of clientsMap)`. */
  method CreateClients(db: Db, clientsMap: OrderedMap<string, real>, policy: Policy)
    returns (db': Db, clientIds: map<string, nat>)
    requires clientsMap.Valid()
    ensures Stage(db', clientIds) == ClientPass(db, clientsMap.keys, clientsMap.values, policy)
  {
    db' := db;
    clientIds := map[];
    var i := 0;
    while i < |clientsMap.keys|
      invariant 0 <= i <= |clientsMap.keys|
      invariant Stage(db', clientIds) == ClientPass(db, clientsMap.keys[..i], clientsMap.values, policy)
    {
      ClientPassStep(db, clientsMap.keys, i, clientsMap.values, policy);
      var name := clientsMap.keys[i];
      var rate := clientsMap.values[name];
      var existing := FindClient(db', name);
      if existing.Some? {
        clientIds := clientIds[name := existing.value];
      } else if policy.acceptClient(ClientRow(db'.nextId, name, rate)) {
        clientIds := clientIds[name := db'.nextId];
        db' := AddClient(db', name, rate);
      }
      i := i + 1;
    }
    assert clientsMap.keys[..i] == clientsMap.keys;
  }

  /** `rate !== clientRate ? rate : null`: a project gets no rate of its own when it bills at its client's. */
  function NewProjectRate(info: ProjectInfo, clientRates: map<string, real>): (r: Option<real>)
    ensures r.None? <==> info.client in clientRates && clientRates[info.client] == info.rate
    ensures r.Some? ==> r.value == info.rate
  {
    if info.client in clientRates && clientRates[info.client] == info.rate then None else Some(info.rate)
  }

  /**
   * One project: skipped when its client has no id; else reuse the single
   * row with its name for that client, or insert it; a refused insert
   * records no id.
   */
  function ProjectStep(st: Stage, key: string, info: ProjectInfo, clientIds: map<string, nat>,
                       clientRates: map<string, real>, policy: Policy): (r: Stage)
    ensures r.db.clients == st.db.clients && r.db.entries == st.db.entries
    ensures r.db == st.db
         || (&& info.client in clientIds
             && FindProject(st.db, ProjectNameOfKey(key), clientIds[info.client]).None?
             && r.db == AddProject(st.db, clientIds[info.client], ProjectNameOfKey(key), NewProjectRate(info, clientRates)))
  {
    if info.client !in clientIds then st
    else
      var clientId := clientIds[info.client];
      var name := ProjectNameOfKey(key);
      match FindProject(st.db, name, clientId)
      case Some(id) => Stage(st.db, st.ids[key := id])
      case None =>
        var rate := NewProjectRate(info, clientRates);
        if policy.acceptProject(ProjectRow(st.db.nextId, clientId, name, rate))
        then Stage(AddProject(st.db, clientId, name, rate), st.ids[key := st.db.nextId])
        else st
  }

  /**
   * A project step records for `key` either nothing new or the id of a
   * project row with the key's project name and its client's id.
   */
  lemma ProjectStepIds(st: Stage, key: string, info: ProjectInfo, clientIds: map<string, nat>,
                       clientRates: map<string, real>, policy: Policy)
    ensures var r := ProjectStep(st, key, info, clientIds, clientRates, policy);
      || r.ids == st.ids
      || exists p :: && p in r.db.projects && p.name == ProjectNameOfKey(key)
                     && info.client in clientIds && p.clientId == clientIds[info.client]
                     && r.ids == st.ids[key := p.id]
  {
    if info.client in clientIds {
      var name := ProjectNameOfKey(key);
      var clientId := clientIds[info.client];
      if FindProject(st.db, name, clientId).Some? {
        FilterMembership(st.db.projects, (p: ProjectRow) => p.name == name && p.clientId == clientId);
        assert ProjectsNamed(st.db, name, clientId)[0] in ProjectsNamed(st.db, name, clientId);
      }
    }
  }

  /** The project loop over the keys `keys`, in `projectsMap` order. */
  function ProjectPass(db: Db, keys: seq<string>, infos: map<string, ProjectInfo>, clientIds: map<string, nat>,
                       clientRates: map<string, real>, policy: Policy): (r: Stage)
    requires forall k :: k in keys ==> k in infos
    ensures r.db.clients == db.clients && r.db.entries == db.entries
    ensures db.projects <= r.db.projects
    ensures forall k :: k in r.ids ==> k in keys
  {
    if keys == [] then Stage(db, map[])
    else
      var k := keys[|keys| - 1];
      var st := ProjectPass(db, keys[..|keys| - 1], infos, clientIds, clientRates, policy);
      var r := ProjectStep(st, k, infos[k], clientIds, clientRates, policy);
      r
  }

  lemma ProjectPassStep(db: Db, keys: seq<string>, i: nat, infos: map<string, ProjectInfo>, clientIds: map<string, nat>,
                        clientRates: map<string, real>, policy: Policy)
    requires i < |keys| && forall k :: k in keys ==> k in infos
    ensures ProjectPass(db, keys[..i + 1], infos, clientIds, clientRates, policy)
         == ProjectStep(ProjectPass(db, keys[..i], infos, clientIds, clientRates, policy), keys[i], infos[keys[i]], clientIds, clientRates, policy)
  {
    assert keys[..i + 1][..i] == keys[..i];
  }

  /** The project loop of both scripts: `for (const [key, { client, rate }] of projectsMap)`. */
  method CreateProjects(db: Db, projectsMap: OrderedMap<string, ProjectInfo>, clientIds: map<string, nat>,
                        clientsMap: OrderedMap<string, real>, policy: Policy)
    returns (db': Db, projectIds: map<string, nat>)
    requires projectsMap.Valid()
    ensures Stage(db', projectIds) == ProjectPass(db, projectsMap.keys, projectsMap.values, clientIds, clientsMap.values, policy)
  {
    db' := db;
    projectIds := map[];
    var i := 0;
    while i < |projectsMap.keys|
      invariant 0 <= i <= |projectsMap.keys|
      invariant Stage(db', projectIds) == ProjectPass(db, projectsMap.keys[..i], projectsMap.values, clientIds, clientsMap.values, policy)
    {
      ProjectPassStep(db, projectsMap.keys, i, projectsMap.values, clientIds, clientsMap.values, policy);
      var key := projectsMap.keys[i];
      var info := projectsMap.values[key];
      var projektName := ProjectNameOfKey(key);
      if info.client in clientIds {
        var clientId := clientIds[info.client];
        var existing := FindProject(db', projektName, clientId);
        if existing.Some? {
          projectIds := projectIds[key := existing.value];
        } else {
          var projectRate := if info.client in clientsMap.values && clientsMap.values[info.client] == info.rate then None else Some(info.rate);
          if policy.acceptProject(ProjectRow(db'.nextId, clientId, projektName, projectRate)) {
            projectIds := projectIds[key := db'.nextId];
            db' := AddProject(db', clientId, projektName, projectRate);
          }
        }
      }
      i := i + 1;
    }
    assert projectsMap.keys[..i] == projectsMap.keys;
  }

  // ---------------------------------------------------------------------
  // Pass 4: time entries

  /** The year of an entry: the `Jahr` column in 2025 (`undefined` when missing), always 2026 in January 2026. */
  function Year(script: Script, row: Row): (y: string)
    ensures script == ImportJanuary2026 ==> y == "2026"
    ensures script == Import2025 && row.jahr.Some? ==> y == row.jahr.value
    ensures script == Import2025 && row.jahr.None? ==> y == "undefined"
  {
    match script
    case Import2025 => Interpolate(row.jahr)
    case ImportJanuary2026 => "2026"
  }

  /**
   * `DD.MM.` to `YYYY-MM-DD`: `datum.split('.')` gives day and month, each
   * padded to two digits. Without a dot the month is undefined and
   * `month.padStart` throws, which ends the whole import: `None`.
   */
  function EntryDate(script: Script, row: Row): Option<string>
    requires row.datum.Some?
  {
    var parts := Split(row.datum.value, ".");
    if |parts| < 2 then None
    else Some(Year(script, row) + "-" + PadStart2(parts[1]) + "-" + PadStart2(parts[0]))
  }

  /** There is no date exactly when the column holds no dot, and a date starts with the script's year. */
  lemma EntryDateShape(script: Script, row: Row)
    requires row.datum.Some?
    ensures EntryDate(script, row).None? <==> forall j :: 0 <= j ==> !OccursAt(row.datum.value, ".", j)
    ensures EntryDate(script, row).Some? ==> StartsWith(EntryDate(script, row).value, Year(script, row) + "-")
  {
    SplitPieces(row.datum.value, ".");
  }

  /** The entry loop skips rows with an empty client, project or date. */
  predicate EntryGiven(row: Row)
  {
    Given(row.kunde) && Given(row.projekt) && Given(row.datum)
  }

  /** The store, the `entriesCreated` counter, and whether the loop ended on an exception. */
  datatype EntryStage = EntryStage(db: Db, created: nat, aborted: bool)

  /** The project key the entry loop looks up for a row. */
  function EntryKey(script: Script, row: Row): string
    requires EntryGiven(row)
  {
    ProjectKey(ClientName(script, row.kunde.value), row.projekt.value)
  }

  /** A line the entry loop turns into a row: all three columns given, its project recorded, a dated day. */
  predicate Inserts(line: string, script: Script, projectIds: map<string, nat>)
  {
    var row := ParseRow(line);
    EntryGiven(row) && EntryKey(script, row) in projectIds && EntryDate(script, row).Some?
  }

  /** A line on which the entry loop throws: all three columns given, its project recorded, a date without a dot. */
  predicate Throws(line: string, script: Script, projectIds: map<string, nat>)
  {
    var row := ParseRow(line);
    EntryGiven(row) && EntryKey(script, row) in projectIds && EntryDate(script, row).None?
  }

  /** The row an inserting line asks for, apart from its id. */
  function EntryPayload(line: string, script: Script, projectIds: map<string, nat>,
                        parseFloat: string -> Option<real>): EntryRow
    requires Inserts(line, script, projectIds)
  {
    var row := ParseRow(line);
    EntryRow(0, projectIds[EntryKey(script, row)], EntryDate(script, row).value, Hours(row, parseFloat), row.projekt.value)
  }

  /** One line of the entry loop. */
  function EntryLine(st: EntryStage, line: string, script: Script, projectIds: map<string, nat>,
                     parseFloat: string -> Option<real>, policy: Policy): EntryStage
  {
    var row := ParseRow(line);
    if st.aborted || !EntryGiven(row) || EntryKey(script, row) !in projectIds then st
    else match EntryDate(script, row)
      case None => EntryStage(st.db, st.created, true)
      case Some(date) =>
        var projectId := projectIds[EntryKey(script, row)];
        var hours := Hours(row, parseFloat);
        if policy.acceptEntry(EntryRow(st.db.nextId, projectId, date, hours, row.projekt.value))
        then EntryStage(AddEntry(st.db, projectId, date, hours, row.projekt.value), st.created + 1, false)
        else st
  }

  /**
   * One line of the entry loop throws exactly on a throwing line; otherwise
   * it changes nothing or, on an inserting line the store accepts, appends
   * that line's row with the next id and counts it.
   */
  lemma EntryLineCases(st: EntryStage, line: string, script: Script, projectIds: map<string, nat>,
                       parseFloat: string -> Option<real>, policy: Policy)
    ensures var r := EntryLine(st, line, script, projectIds, parseFloat, policy);
      && (r.aborted <==> st.aborted || Throws(line, script, projectIds))
      && (|| (r.db == st.db && r.created == st.created)
          || (&& !st.aborted && Inserts(line, script, projectIds)
              && r.db.entries == st.db.entries + [EntryPayload(line, script, projectIds, parseFloat).(id := st.db.nextId)]
              && r.db.clients == st.db.clients && r.db.projects == st.db.projects && r.db.nextId == st.db.nextId + 1
              && r.created == st.created + 1))
      && (!st.aborted && Inserts(line, script, projectIds)
          && policy.acceptEntry(EntryPayload(line, script, projectIds, parseFloat).(id := st.db.nextId))
          ==> r.created == st.created + 1)
  {
  }

  /** The entry loop over `lines`. `entriesCreated` is the number of entry rows the store accepted. */
  function EntryPass(db: Db, lines: seq<string>, script: Script, projectIds: map<string, nat>,
                     parseFloat: string -> Option<real>, policy: Policy): (r: EntryStage)
    ensures r.db.clients == db.clients && r.db.projects == db.projects
    ensures db.entries <= r.db.entries
    ensures |r.db.entries| == |db.entries| + r.created
  {
    if lines == [] then EntryStage(db, 0, false)
    else
      var st := EntryPass(db, lines[..|lines| - 1], script, projectIds, parseFloat, policy);
      var r := EntryLine(st, lines[|lines| - 1], script, projectIds, parseFloat, policy);
      r
  }

  lemma EntryPassStep(db: Db, lines: seq<string>, i: nat, script: Script, projectIds: map<string, nat>,
                      parseFloat: string -> Option<real>, policy: Policy)
    requires i < |lines|
    ensures EntryPass(db, lines[..i + 1], script, projectIds, parseFloat, policy)
         == EntryLine(EntryPass(db, lines[..i], script, projectIds, parseFloat, policy), lines[i], script, projectIds, parseFloat, policy)
  {
    assert lines[..i + 1][..i] == lines[..i];
  }

  /**
   * The entry loop of both scripts. A line whose date has no dot throws
   * in the script; here the loop stops and reports `aborted`, with the
   * entries inserted so far kept.
   */
  method CreateTimeEntries(db: Db, lines: seq<string>, script: Script, projectIds: map<string, nat>,
                           parseFloat: string -> Option<real>, policy: Policy)
    returns (db': Db, entriesCreated: nat, aborted: bool)
    ensures EntryStage(db', entriesCreated, aborted) == EntryPass(db, lines, script, projectIds, parseFloat, policy)
  {
    db' := db;
    entriesCreated := 0;
    aborted := false;
    var i := 0;
    while i < |lines| && !aborted
      invariant 0 <= i <= |lines|
      invariant EntryStage(db', entriesCreated, aborted) == EntryPass(db, lines[..i], script, projectIds, parseFloat, policy)
    {
      EntryPassStep(db, lines, i, script, projectIds, parseFloat, policy);
      var row := ParseRow(lines[i]);
      if EntryGiven(row) {
        var projectKey := EntryKey(script, row);
        if projectKey in projectIds {
          var projectId := projectIds[projectKey];
          var date := EntryDate(script, row);
          if date.None? {
            aborted := true;
          } else {
            var hours := Hours(row, parseFloat);
            if policy.acceptEntry(EntryRow(db'.nextId, projectId, date.value, hours, row.projekt.value)) {
              db' := AddEntry(db', projectId, date.value, hours, row.projekt.value);
              entriesCreated := entriesCreated + 1;
            }
          }
        }
      }
      i := i + 1;
    }
    EntryPassAborted(db, lines, i, script, projectIds, parseFloat, policy);
    assert lines[..|lines|] == lines;
  }

  /** Once the loop has thrown, the remaining lines change nothing. */
  lemma {:induction false} EntryPassAborted(db: Db, lines: seq<string>, i: nat, script: Script, projectIds: map<string, nat>,
                                            parseFloat: string -> Option<real>, policy: Policy)
    requires i <= |lines| && (i == |lines| || EntryPass(db, lines[..i], script, projectIds, parseFloat, policy).aborted)
    ensures EntryPass(db, lines, script, projectIds, parseFloat, policy) == EntryPass(db, lines[..i], script, projectIds, parseFloat, policy)
    decreases |lines| - i
  {
    if i < |lines| {
      EntryPassStep(db, lines, i, script, projectIds, parseFloat, policy);
      EntryPassAborted(db, lines, i + 1, script, projectIds, parseFloat, policy);
    } else {
      assert lines[..i] == lines;
    }
  }

  // ---------------------------------------------------------------------
  // The whole script

  datatype Outcome = Outcome(db: Db, entriesCreated: nat, aborted: bool)

  /** `importData()` of the given script against the store `db`. */
  function Import(db: Db, csv: string, script: Script, parseFloat: string -> Option<real>, policy: Policy): (o: Outcome)
    ensures db.clients <= o.db.clients
    ensures db.projects <= o.db.projects
    ensures db.entries <= o.db.entries && |o.db.entries| == |db.entries| + o.entriesCreated
  {
    var lines := DataLines(csv);
    var c := Collect(lines, script, parseFloat);
    var clients := ClientPass(db, c.clients.keys, c.clients.values, policy);
    var projects := ProjectPass(clients.db, c.projects.keys, c.projects.values, clients.ids, c.clients.values, policy);
    var entries := EntryPass(projects.db, lines, script, projects.ids, parseFloat, policy);
    Outcome(entries.db, entries.created, entries.aborted)
  }

  /** `importData()`: the four loops in order. */
  method ImportData(db: Db, csv: string, script: Script, parseFloat: string -> Option<real>, policy: Policy)
    returns (outcome: Outcome)
    ensures outcome == Import(db, csv, script, parseFloat, policy)
  {
    var lines := DataLines(csv);
    var clientsMap, projectsMap := CollectPass(lines, script, parseFloat);
    var db1, clientIds := CreateClients(db, clientsMap, policy);
    var db2, projectIds := CreateProjects(db1, projectsMap, clientIds, clientsMap, policy);
    var db3, entriesCreated, aborted := CreateTimeEntries(db2, lines, script, projectIds, parseFloat, policy);
    outcome := Outcome(db3, entriesCreated, aborted);
  }
}
