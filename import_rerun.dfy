/**
 * What a run of an import script leaves in the store, and what running
 * it a second time on the same file does: clients and projects are
 * looked up before they are inserted, so the second run finds every one
 * of them and inserts none, while time entries are inserted without a
 * lookup, so the second run inserts the same entries again.
 */
module ImportRerun {

  import opened Collections
  import opened Text
  import opened ImportStore
  import opened CsvImport

  // ---------------------------------------------------------------------
  // Uniqueness

  /** Uniqueness is a property of the client and project tables alone. */
  lemma UniqueSameTables(db: Db, db': Db)
    requires Unique(db) && db'.clients == db.clients && db'.projects == db.projects
    ensures Unique(db')
  {
    forall name ensures ClientsNamed(db', name) == ClientsNamed(db, name) {}
    forall name, clientId ensures ProjectsNamed(db', name, clientId) == ProjectsNamed(db, name, clientId) {}
  }

  lemma ClientStepUnique(st: Stage, name: string, rate: real, policy: Policy)
    requires Unique(st.db)
    ensures Unique(ClientStep(st, name, rate, policy).db)
  {
    if FindClient(st.db, name).None? && policy.acceptClient(ClientRow(st.db.nextId, name, rate)) {
      AddClientUnique(st.db, name, rate);
    }
  }

  /** The client loop inserts a client only when no row has its name, so names stay unique. */
  lemma {:induction false} ClientPassUnique(db: Db, keys: seq<string>, rates: map<string, real>, policy: Policy)
    requires Unique(db) && forall k :: k in keys ==> k in rates
    ensures Unique(ClientPass(db, keys, rates, policy).db)
  {
    if keys != [] {
      var k := keys[|keys| - 1];
      ClientPassUnique(db, keys[..|keys| - 1], rates, policy);
      ClientStepUnique(ClientPass(db, keys[..|keys| - 1], rates, policy), k, rates[k], policy);
    }
  }

  lemma ProjectStepUnique(st: Stage, key: string, info: ProjectInfo, clientIds: map<string, nat>,
                          clientRates: map<string, real>, policy: Policy)
    requires Unique(st.db)
    ensures Unique(ProjectStep(st, key, info, clientIds, clientRates, policy).db)
  {
    if info.client in clientIds {
      var clientId := clientIds[info.client];
      var name := ProjectNameOfKey(key);
      var rate := NewProjectRate(info, clientRates);
      if FindProject(st.db, name, clientId).None? && policy.acceptProject(ProjectRow(st.db.nextId, clientId, name, rate)) {
        AddProjectUnique(st.db, clientId, name, rate);
      }
    }
  }

  /** The project loop inserts a project only when its client has no row of that name, so projects stay unique. */
  lemma {:induction false} ProjectPassUnique(db: Db, keys: seq<string>, infos: map<string, ProjectInfo>,
                                             clientIds: map<string, nat>, clientRates: map<string, real>, policy: Policy)
    requires Unique(db) && forall k :: k in keys ==> k in infos
    ensures Unique(ProjectPass(db, keys, infos, clientIds, clientRates, policy).db)
  {
    if keys != [] {
      var k := keys[|keys| - 1];
      ProjectPassUnique(db, keys[..|keys| - 1], infos, clientIds, clientRates, policy);
      ProjectStepUnique(ProjectPass(db, keys[..|keys| - 1], infos, clientIds, clientRates, policy), k, infos[k],
                        clientIds, clientRates, policy);
    }
  }

  /** An import never creates a second client of one name or a second project of one name for one client. */
  lemma ImportKeepsUnique(db: Db, csv: string, script: Script, parseFloat: string -> Option<real>, policy: Policy)
    requires Unique(db)
    ensures Unique(Import(db, csv, script, parseFloat, policy).db)
  {
    var lines := DataLines(csv);
    var c := Collect(lines, script, parseFloat);
    var clients := ClientPass(db, c.clients.keys, c.clients.values, policy);
    ClientPassUnique(db, c.clients.keys, c.clients.values, policy);
    var projects := ProjectPass(clients.db, c.projects.keys, c.projects.values, clients.ids, c.clients.values, policy);
    ProjectPassUnique(clients.db, c.projects.keys, c.projects.values, clients.ids, c.clients.values, policy);
    UniqueSameTables(projects.db, Import(db, csv, script, parseFloat, policy).db);
  }

  // ---------------------------------------------------------------------
  // Clients: the first run records them, the second finds them

  /** Every name of `keys` has exactly one client row, and its id is the one recorded. */
  predicate ClientsRecorded(db: Db, keys: seq<string>, ids: map<string, nat>)
  {
    forall k :: k in keys ==> k in ids && FindClient(db, k) == Some(ids[k])
  }

  lemma ClientStepRecords(st: Stage, keys: seq<string>, k: string, rate: real)
    requires Unique(st.db) && (forall x :: x in st.ids <==> x in keys) && ClientsRecorded(st.db, keys, st.ids)
    ensures var r := ClientStep(st, k, rate, AcceptAll());
      && Unique(r.db) && (forall x :: x in r.ids <==> x in keys + [k]) && ClientsRecorded(r.db, keys + [k], r.ids)
  {
    var r := ClientStep(st, k, rate, AcceptAll());
    if FindClient(st.db, k).None? {
      assert ClientsNamed(st.db, k) == [];
      AddClientUnique(st.db, k, rate);
      forall x | x in keys + [k]
        ensures x in r.ids && FindClient(r.db, x) == Some(r.ids[x])
      {
        AddClientNamed(st.db, k, rate, x);
      }
    }
  }

  /** With a store that accepts every insert, the client loop leaves each name with one row and records its id. */
  lemma {:induction false} ClientPassRecords(db: Db, keys: seq<string>, rates: map<string, real>)
    requires Unique(db) && forall k :: k in keys ==> k in rates
    ensures var r := ClientPass(db, keys, rates, AcceptAll());
      && Unique(r.db) && (forall x :: x in r.ids <==> x in keys) && ClientsRecorded(r.db, keys, r.ids)
  {
    if keys != [] {
      var n := |keys| - 1;
      assert keys[..n] + [keys[n]] == keys;
      ClientPassRecords(db, keys[..n], rates);
      var st := ClientPass(db, keys[..n], rates, AcceptAll());
      ClientStepRecords(st, keys[..n], keys[n], rates[keys[n]]);
      assert ClientPass(db, keys, rates, AcceptAll()) == ClientStep(st, keys[n], rates[keys[n]], AcceptAll());
    }
  }

  /** When every name already has its one row, the client loop inserts nothing and records the same ids. */
  lemma {:induction false} ClientPassFound(db: Db, keys: seq<string>, rates: map<string, real>, policy: Policy, ids: map<string, nat>)
    requires (forall k :: k in keys ==> k in rates) && ClientsRecorded(db, keys, ids)
    ensures var r := ClientPass(db, keys, rates, policy);
      && r.db == db && (forall x :: x in r.ids <==> x in keys) && (forall x :: x in r.ids ==> r.ids[x] == ids[x])
  {
    if keys != [] {
      var n := |keys| - 1;
      ClientPassFound(db, keys[..n], rates, policy, ids);
      assert keys[..n] + [keys[n]] == keys;
    }
  }

  /** The client lookups read the client table only. */
  lemma ClientsRecordedSameTable(db: Db, db': Db, keys: seq<string>, ids: map<string, nat>)
    requires ClientsRecorded(db, keys, ids) && db'.clients == db.clients
    ensures ClientsRecorded(db', keys, ids)
  {
    forall k | k in keys ensures ClientsNamed(db', k) == ClientsNamed(db, k) {}
  }

  // ---------------------------------------------------------------------
  // Projects: the same for the project loop

  /**
   * Every key of `keys` whose client has an id has exactly one project row
   * of its name for that client, and its id is the one recorded.
   */
  predicate ProjectsRecorded(db: Db, keys: seq<string>, infos: map<string, ProjectInfo>, clientIds: map<string, nat>,
                             ids: map<string, nat>)
  {
    forall k :: k in keys && k in infos && infos[k].client in clientIds ==>
      k in ids && FindProject(db, ProjectNameOfKey(k), clientIds[infos[k].client]) == Some(ids[k])
  }

  /** The keys the project loop records an id for: those whose client has one. */
  ghost predicate ProjectIdsFor(ids: map<string, nat>, keys: seq<string>, infos: map<string, ProjectInfo>, clientIds: map<string, nat>)
  {
    forall x :: x in ids <==> x in keys && x in infos && infos[x].client in clientIds
  }

  lemma ProjectStepRecords(st: Stage, keys: seq<string>, k: string, infos: map<string, ProjectInfo>,
                           clientIds: map<string, nat>, clientRates: map<string, real>)
    requires k in infos
    requires Unique(st.db) && ProjectIdsFor(st.ids, keys, infos, clientIds) && ProjectsRecorded(st.db, keys, infos, clientIds, st.ids)
    ensures var r := ProjectStep(st, k, infos[k], clientIds, clientRates, AcceptAll());
      && Unique(r.db) && ProjectIdsFor(r.ids, keys + [k], infos, clientIds) && ProjectsRecorded(r.db, keys + [k], infos, clientIds, r.ids)
  {
    var info := infos[k];
    var r := ProjectStep(st, k, info, clientIds, clientRates, AcceptAll());
    if info.client in clientIds {
      var clientId := clientIds[info.client];
      var name := ProjectNameOfKey(k);
      if FindProject(st.db, name, clientId).None? {
        var rate := NewProjectRate(info, clientRates);
        assert ProjectsNamed(st.db, name, clientId) == [];
        AddProjectUnique(st.db, clientId, name, rate);
        forall x | x in keys + [k] && x in infos && infos[x].client in clientIds
          ensures x in r.ids && FindProject(r.db, ProjectNameOfKey(x), clientIds[infos[x].client]) == Some(r.ids[x])
        {
          AddProjectNamed(st.db, clientId, name, rate, ProjectNameOfKey(x), clientIds[infos[x].client]);
        }
      }
    }
  }

  /** With a store that accepts every insert, the project loop leaves each project with one row and records its id. */
  lemma {:induction false} ProjectPassRecords(db: Db, keys: seq<string>, infos: map<string, ProjectInfo>,
                                              clientIds: map<string, nat>, clientRates: map<string, real>)
    requires Unique(db) && forall k :: k in keys ==> k in infos
    ensures var r := ProjectPass(db, keys, infos, clientIds, clientRates, AcceptAll());
      && Unique(r.db) && ProjectIdsFor(r.ids, keys, infos, clientIds) && ProjectsRecorded(r.db, keys, infos, clientIds, r.ids)
  {
    if keys != [] {
      var n := |keys| - 1;
      assert keys[..n] + [keys[n]] == keys;
      ProjectPassRecords(db, keys[..n], infos, clientIds, clientRates);
      var st := ProjectPass(db, keys[..n], infos, clientIds, clientRates, AcceptAll());
      ProjectStepRecords(st, keys[..n], keys[n], infos, clientIds, clientRates);
      assert ProjectPass(db, keys, infos, clientIds, clientRates, AcceptAll())
          == ProjectStep(st, keys[n], infos[keys[n]], clientIds, clientRates, AcceptAll());
    }
  }

  /** When every project already has its one row, the project loop inserts nothing and records the same ids. */
  lemma {:induction false} ProjectPassFound(db: Db, keys: seq<string>, infos: map<string, ProjectInfo>,
                                            clientIds: map<string, nat>, clientRates: map<string, real>, policy: Policy,
                                            ids: map<string, nat>)
    requires (forall k :: k in keys ==> k in infos) && ProjectsRecorded(db, keys, infos, clientIds, ids)
    ensures var r := ProjectPass(db, keys, infos, clientIds, clientRates, policy);
      && r.db == db && ProjectIdsFor(r.ids, keys, infos, clientIds) && (forall x :: x in r.ids ==> r.ids[x] == ids[x])
  {
    if keys != [] {
      var n := |keys| - 1;
      var k := keys[n];
      assert keys[..n] + [k] == keys;
      ProjectPassFound(db, keys[..n], infos, clientIds, clientRates, policy, ids);
      var st := ProjectPass(db, keys[..n], infos, clientIds, clientRates, policy);
      ProjectStepFound(db, st, keys[..n], k, infos, clientIds, clientRates, policy, ids);
    }
  }

  lemma ProjectStepFound(db: Db, st: Stage, keys: seq<string>, k: string, infos: map<string, ProjectInfo>,
                         clientIds: map<string, nat>, clientRates: map<string, real>, policy: Policy,
                         ids: map<string, nat>)
    requires k in infos && ProjectsRecorded(db, keys + [k], infos, clientIds, ids)
    requires st.db == db && ProjectIdsFor(st.ids, keys, infos, clientIds) && (forall x :: x in st.ids ==> x in ids && st.ids[x] == ids[x])
    ensures var r := ProjectStep(st, k, infos[k], clientIds, clientRates, policy);
      && r.db == db && ProjectIdsFor(r.ids, keys + [k], infos, clientIds) && (forall x :: x in r.ids ==> x in ids && r.ids[x] == ids[x])
  {
    if infos[k].client in clientIds {
      assert FindProject(st.db, ProjectNameOfKey(k), clientIds[infos[k].client]) == Some(ids[k]);
    }
  }

  /** The project lookups read the project table only. */
  lemma ProjectsRecordedSameTable(db: Db, db': Db, keys: seq<string>, infos: map<string, ProjectInfo>,
                                  clientIds: map<string, nat>, ids: map<string, nat>)
    requires ProjectsRecorded(db, keys, infos, clientIds, ids) && db'.projects == db.projects
    ensures ProjectsRecorded(db', keys, infos, clientIds, ids)
  {
    forall k | k in keys && k in infos && infos[k].client in clientIds
      ensures ProjectsNamed(db', ProjectNameOfKey(k), clientIds[infos[k].client])
           == ProjectsNamed(db, ProjectNameOfKey(k), clientIds[infos[k].client])
    {
    }
  }

  // ---------------------------------------------------------------------
  // Entries: inserted again on every run

  /** An entry row without its id: what is inserted, whatever id the store hands out. */
  function Payloads(rows: seq<EntryRow>): (r: seq<EntryRow>)
    ensures |r| == |rows|
    ensures forall i :: 0 <= i < |rows| ==> r[i] == rows[i].(id := 0)
  {
    seq(|rows|, i requires 0 <= i < |rows| => rows[i].(id := 0))
  }

  lemma PayloadsSnoc(rows: seq<EntryRow>, e: EntryRow)
    ensures Payloads(rows + [e]) == Payloads(rows) + [e.(id := 0)]
  {
  }

  /** Two runs of the entry loop, from stores `dbA` and `dbB`, that have done the same so far. */
  ghost predicate SameEntries(a: EntryStage, dbA: Db, b: EntryStage, dbB: Db)
  {
    && a.created == b.created && a.aborted == b.aborted
    && |dbA.entries| <= |a.db.entries| && |dbB.entries| <= |b.db.entries|
    && Payloads(a.db.entries[|dbA.entries|..]) == Payloads(b.db.entries[|dbB.entries|..])
  }

  lemma EntryLineIndependent(a: EntryStage, dbA: Db, b: EntryStage, dbB: Db, line: string, script: Script,
                             projectIds: map<string, nat>, parseFloat: string -> Option<real>)
    requires SameEntries(a, dbA, b, dbB)
    ensures SameEntries(EntryLine(a, line, script, projectIds, parseFloat, AcceptAll()), dbA,
                        EntryLine(b, line, script, projectIds, parseFloat, AcceptAll()), dbB)
  {
    var row := ParseRow(line);
    if !a.aborted && EntryGiven(row) && EntryKey(script, row) in projectIds && EntryDate(script, row).Some? {
      var projectId := projectIds[EntryKey(script, row)];
      var date := EntryDate(script, row).value;
      var hours := Hours(row, parseFloat);
      AddEntrySamePayloads(a.db, dbA, b.db, dbB, projectId, date, hours, row.projekt.value);
    }
  }

  /** Inserting the same entry into two stores that have inserted the same so far keeps them alike. */
  lemma AddEntrySamePayloads(a: Db, dbA: Db, b: Db, dbB: Db, projectId: nat, date: string, hours: real, description: string)
    requires |dbA.entries| <= |a.entries| && |dbB.entries| <= |b.entries|
    requires Payloads(a.entries[|dbA.entries|..]) == Payloads(b.entries[|dbB.entries|..])
    ensures Payloads(AddEntry(a, projectId, date, hours, description).entries[|dbA.entries|..])
         == Payloads(AddEntry(b, projectId, date, hours, description).entries[|dbB.entries|..])
  {
    var a' := AddEntry(a, projectId, date, hours, description);
    var b' := AddEntry(b, projectId, date, hours, description);
    assert a'.entries[|dbA.entries|..] == a.entries[|dbA.entries|..] + [a'.entries[|a.entries|]];
    assert b'.entries[|dbB.entries|..] == b.entries[|dbB.entries|..] + [b'.entries[|b.entries|]];
    PayloadsSnoc(a.entries[|dbA.entries|..], a'.entries[|a.entries|]);
    PayloadsSnoc(b.entries[|dbB.entries|..], b'.entries[|b.entries|]);
  }

  /**
   * With a store that accepts every insert, the entry loop does the same
   * whatever the store held before: as many entries, the same abort, and
   * the same rows apart from their ids.
   */
  lemma {:induction false} EntryPassIndependent(dbA: Db, dbB: Db, lines: seq<string>, script: Script,
                                                projectIds: map<string, nat>, parseFloat: string -> Option<real>)
    ensures var a := EntryPass(dbA, lines, script, projectIds, parseFloat, AcceptAll());
            var b := EntryPass(dbB, lines, script, projectIds, parseFloat, AcceptAll());
      && a.created == b.created && a.aborted == b.aborted
      && Payloads(a.db.entries[|dbA.entries|..]) == Payloads(b.db.entries[|dbB.entries|..])
  {
    EntryPassSame(dbA, dbB, lines, script, projectIds, parseFloat);
  }

  lemma {:induction false} EntryPassSame(dbA: Db, dbB: Db, lines: seq<string>, script: Script,
                                         projectIds: map<string, nat>, parseFloat: string -> Option<real>)
    ensures SameEntries(EntryPass(dbA, lines, script, projectIds, parseFloat, AcceptAll()), dbA,
                        EntryPass(dbB, lines, script, projectIds, parseFloat, AcceptAll()), dbB)
  {
    if lines == [] {
      assert dbA.entries[|dbA.entries|..] == [] && dbB.entries[|dbB.entries|..] == [];
    } else {
      var n := |lines| - 1;
      EntryPassSame(dbA, dbB, lines[..n], script, projectIds, parseFloat);
      EntryLineIndependent(EntryPass(dbA, lines[..n], script, projectIds, parseFloat, AcceptAll()), dbA,
                           EntryPass(dbB, lines[..n], script, projectIds, parseFloat, AcceptAll()), dbB,
                           lines[n], script, projectIds, parseFloat);
    }
  }

  // ---------------------------------------------------------------------
  // Running a script twice

  /**
   * What the first run leaves: every collected client and every project
   * whose client has an id has its single row, with the recorded id.
   */
  lemma FirstRunRecords(db: Db, c: Collected)
    requires Unique(db) && CollectedValid(c)
    ensures var clients := ClientPass(db, c.clients.keys, c.clients.values, AcceptAll());
            var projects := ProjectPass(clients.db, c.projects.keys, c.projects.values, clients.ids, c.clients.values, AcceptAll());
      && (forall x :: x in clients.ids <==> x in c.clients.keys)
      && ClientsRecorded(projects.db, c.clients.keys, clients.ids)
      && ProjectIdsFor(projects.ids, c.projects.keys, c.projects.values, clients.ids)
      && ProjectsRecorded(projects.db, c.projects.keys, c.projects.values, clients.ids, projects.ids)
  {
    var clients := ClientPass(db, c.clients.keys, c.clients.values, AcceptAll());
    ClientPassRecords(db, c.clients.keys, c.clients.values);
    var projects := ProjectPass(clients.db, c.projects.keys, c.projects.values, clients.ids, c.clients.values, AcceptAll());
    ProjectPassRecords(clients.db, c.projects.keys, c.projects.values, clients.ids, c.clients.values);
    ClientsRecordedSameTable(clients.db, projects.db, c.clients.keys, clients.ids);
  }

  /** A store holding those client rows makes the client loop change nothing and record the same ids. */
  lemma ClientsFoundAgain(db: Db, c: Collected, clientIds: map<string, nat>, policy: Policy)
    requires CollectedValid(c)
    requires (forall x :: x in clientIds <==> x in c.clients.keys) && ClientsRecorded(db, c.clients.keys, clientIds)
    ensures ClientPass(db, c.clients.keys, c.clients.values, policy) == Stage(db, clientIds)
  {
    ClientPassFound(db, c.clients.keys, c.clients.values, policy, clientIds);
  }

  /** A store holding those project rows makes the project loop change nothing and record the same ids. */
  lemma ProjectsFoundAgain(db: Db, c: Collected, clientIds: map<string, nat>, projectIds: map<string, nat>, policy: Policy)
    requires CollectedValid(c)
    requires ProjectIdsFor(projectIds, c.projects.keys, c.projects.values, clientIds)
    requires ProjectsRecorded(db, c.projects.keys, c.projects.values, clientIds, projectIds)
    ensures ProjectPass(db, c.projects.keys, c.projects.values, clientIds, c.clients.values, policy) == Stage(db, projectIds)
  {
    ProjectPassFound(db, c.projects.keys, c.projects.values, clientIds, c.clients.values, policy, projectIds);
  }

  /**
   * Running a script a second time on the same file, against a store that
   * accepts every insert and started with unique names: no client and no
   * project is added, the same number of entries is inserted with the
   * same content, and the store then holds every entry twice.
   */
  lemma ImportTwice(db: Db, csv: string, script: Script, parseFloat: string -> Option<real>)
    requires Unique(db)
    ensures var o1 := Import(db, csv, script, parseFloat, AcceptAll());
            var o2 := Import(o1.db, csv, script, parseFloat, AcceptAll());
      && o2.db.clients == o1.db.clients && o2.db.projects == o1.db.projects
      && o2.entriesCreated == o1.entriesCreated && o2.aborted == o1.aborted
      && Payloads(o2.db.entries[|o1.db.entries|..]) == Payloads(o1.db.entries[|db.entries|..])
      && |o2.db.entries| == |db.entries| + 2 * o1.entriesCreated
  {
    var policy := AcceptAll();
    var lines := DataLines(csv);
    var c := Collect(lines, script, parseFloat);
    var clients1 := ClientPass(db, c.clients.keys, c.clients.values, policy);
    var projects1 := ProjectPass(clients1.db, c.projects.keys, c.projects.values, clients1.ids, c.clients.values, policy);
    FirstRunRecords(db, c);
    var o1 := Import(db, csv, script, parseFloat, policy);
    assert o1.db == EntryPass(projects1.db, lines, script, projects1.ids, parseFloat, policy).db;
    ClientsRecordedSameTable(projects1.db, o1.db, c.clients.keys, clients1.ids);
    ProjectsRecordedSameTable(projects1.db, o1.db, c.projects.keys, c.projects.values, clients1.ids, projects1.ids);
    ClientsFoundAgain(o1.db, c, clients1.ids, policy);
    ProjectsFoundAgain(o1.db, c, clients1.ids, projects1.ids, policy);
    EntryPassIndependent(projects1.db, o1.db, lines, script, projects1.ids, parseFloat);
  }
}
