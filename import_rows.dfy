/**
 * The rows a run of an import script writes: the time entries it inserts,
 * one per usable dated line and in file order, and the rates of the
 * clients and projects it creates, read off the store the run leaves.
 */
module ImportRows {

  import opened Collections
  import opened ImportStore
  import opened CsvImport
  import opened ImportRerun
  import ImportFacts
  import Records
  import Dashboard

  // ---------------------------------------------------------------------
  // Time entries

  /**
   * The rows, apart from their ids, that the entry loop asks to insert for
   * `lines`: one per inserting line, in file order, each with id 0.
   */
  function EntryPayloads(lines: seq<string>, script: Script, projectIds: map<string, nat>,
                         parseFloat: string -> Option<real>): (rows: seq<EntryRow>)
    ensures |rows| <= |lines|
    ensures forall i :: 0 <= i < |rows| ==> rows[i].id == 0
  {
    if lines == [] then []
    else
      var n := |lines| - 1;
      EntryPayloads(lines[..n], script, projectIds, parseFloat)
        + (if Inserts(lines[n], script, projectIds) then [EntryPayload(lines[n], script, projectIds, parseFloat)] else [])
  }

  /** Some line of `lines` throws in the entry loop. */
  ghost predicate AnyThrows(lines: seq<string>, script: Script, projectIds: map<string, nat>)
  {
    exists i :: 0 <= i < |lines| && Throws(lines[i], script, projectIds)
  }

  /**
   * With a store that accepts every insert, the entry loop throws iff some
   * line throws, and when none does, the rows it appends are, apart from
   * their ids, exactly one per inserting line, in file order.
   */
  lemma {:induction false} EntryPassContents(db: Db, lines: seq<string>, script: Script, projectIds: map<string, nat>,
                                             parseFloat: string -> Option<real>)
    ensures var r := EntryPass(db, lines, script, projectIds, parseFloat, AcceptAll());
      && (r.aborted <==> AnyThrows(lines, script, projectIds))
      && (!r.aborted ==> Payloads(r.db.entries[|db.entries|..]) == EntryPayloads(lines, script, projectIds, parseFloat))
  {
    if lines == [] {
      assert db.entries[|db.entries|..] == [];
    } else {
      var n := |lines| - 1;
      EntryPassContents(db, lines[..n], script, projectIds, parseFloat);
      EntryPassContentsStep(db, lines, script, projectIds, parseFloat);
    }
  }

  /** The last line's step of `EntryPassContents`, the earlier lines' facts given. */
  lemma EntryPassContentsStep(db: Db, lines: seq<string>, script: Script, projectIds: map<string, nat>,
                              parseFloat: string -> Option<real>)
    requires lines != []
    requires var p := lines[..|lines| - 1]; var st := EntryPass(db, p, script, projectIds, parseFloat, AcceptAll());
      && (st.aborted <==> AnyThrows(p, script, projectIds))
      && (!st.aborted ==> Payloads(st.db.entries[|db.entries|..]) == EntryPayloads(p, script, projectIds, parseFloat))
    ensures var r := EntryPass(db, lines, script, projectIds, parseFloat, AcceptAll());
      && (r.aborted <==> AnyThrows(lines, script, projectIds))
      && (!r.aborted ==> Payloads(r.db.entries[|db.entries|..]) == EntryPayloads(lines, script, projectIds, parseFloat))
  {
    var n := |lines| - 1;
    var p := lines[..n];
    var st := EntryPass(db, p, script, projectIds, parseFloat, AcceptAll());
    EntryPassStep(db, lines, n, script, projectIds, parseFloat, AcceptAll());
    assert lines[..n + 1] == lines;
    assert p + [lines[n]] == lines;
    EntryLineContents(st, db, p, lines[n], script, projectIds, parseFloat);
  }

  /** One more line, at the level of the loop's state. */
  lemma EntryLineContents(st: EntryStage, db: Db, p: seq<string>, l: string, script: Script, projectIds: map<string, nat>,
                          parseFloat: string -> Option<real>)
    requires db.entries <= st.db.entries
    requires st.aborted <==> AnyThrows(p, script, projectIds)
    requires !st.aborted ==> Payloads(st.db.entries[|db.entries|..]) == EntryPayloads(p, script, projectIds, parseFloat)
    ensures var r := EntryLine(st, l, script, projectIds, parseFloat, AcceptAll());
      && (r.aborted <==> AnyThrows(p + [l], script, projectIds))
      && (!r.aborted ==> Payloads(r.db.entries[|db.entries|..]) == EntryPayloads(p + [l], script, projectIds, parseFloat))
  {
    var r := EntryLine(st, l, script, projectIds, parseFloat, AcceptAll());
    EntryLineCases(st, l, script, projectIds, parseFloat, AcceptAll());
    AnyThrowsSnoc(p, l, script, projectIds);
    assert (p + [l])[..|p|] == p;
    if !r.aborted && Inserts(l, script, projectIds) {
      var x := EntryPayload(l, script, projectIds, parseFloat).(id := st.db.nextId);
      assert r.db.entries[|db.entries|..] == st.db.entries[|db.entries|..] + [x];
      PayloadsSnoc(st.db.entries[|db.entries|..], x);
    }
  }

  lemma AnyThrowsSnoc(p: seq<string>, l: string, script: Script, projectIds: map<string, nat>)
    ensures AnyThrows(p + [l], script, projectIds) <==> AnyThrows(p, script, projectIds) || Throws(l, script, projectIds)
  {
    assert forall i :: 0 <= i < |p| ==> (p + [l])[i] == p[i];
    if Throws(l, script, projectIds) {
      assert (p + [l])[|p|] == l;
    }
  }

  /**
   * With a store that accepts every insert, a throwing line ends the
   * entry loop: the rows appended are those of the inserting lines
   * before the first throwing line.
   */
  lemma EntryPassStopsAtThrow(db: Db, lines: seq<string>, k: nat, script: Script, projectIds: map<string, nat>,
                              parseFloat: string -> Option<real>)
    requires k < |lines| && Throws(lines[k], script, projectIds)
    requires forall i :: 0 <= i < k ==> !Throws(lines[i], script, projectIds)
    ensures var r := EntryPass(db, lines, script, projectIds, parseFloat, AcceptAll());
      && r.aborted
      && Payloads(r.db.entries[|db.entries|..]) == EntryPayloads(lines[..k], script, projectIds, parseFloat)
  {
    EntryPassContents(db, lines[..k], script, projectIds, parseFloat);
    NoThrowBefore(lines, k, script, projectIds);
    var st := EntryPass(db, lines[..k], script, projectIds, parseFloat, AcceptAll());
    EntryPassStep(db, lines, k, script, projectIds, parseFloat, AcceptAll());
    ThrowingLineAborts(st, lines[k], script, projectIds, parseFloat, AcceptAll());
    EntryPassAborted(db, lines, k + 1, script, projectIds, parseFloat, AcceptAll());
  }

  lemma NoThrowBefore(lines: seq<string>, k: nat, script: Script, projectIds: map<string, nat>)
    requires k <= |lines| && forall i :: 0 <= i < k ==> !Throws(lines[i], script, projectIds)
    ensures !AnyThrows(lines[..k], script, projectIds)
  {
    assert forall i :: 0 <= i < k ==> lines[..k][i] == lines[i];
  }

  /** A throwing line ends the loop and inserts nothing. */
  lemma ThrowingLineAborts(st: EntryStage, line: string, script: Script, projectIds: map<string, nat>,
                           parseFloat: string -> Option<real>, policy: Policy)
    requires Throws(line, script, projectIds)
    ensures EntryLine(st, line, script, projectIds, parseFloat, policy).aborted
    ensures EntryLine(st, line, script, projectIds, parseFloat, policy).db == st.db
  {
  }

  // ---------------------------------------------------------------------
  // Client rates

  /**
   * With a store that accepts every insert, the client loop leaves the
   * rows of a name outside `keys` as they were, and gives each name of
   * `keys` that had no row exactly one, at the name's collected rate.
   */
  lemma {:induction false} ClientPassRates(db: Db, keys: seq<string>, rates: map<string, real>)
    requires forall k :: k in keys ==> k in rates
    ensures var r := ClientPass(db, keys, rates, AcceptAll());
      && (forall name :: name !in keys ==> ClientsNamed(r.db, name) == ClientsNamed(db, name))
      && (forall name :: name in keys && ClientsNamed(db, name) == [] ==>
            |ClientsNamed(r.db, name)| == 1 && ClientsNamed(r.db, name)[0].hourlyRate == rates[name])
  {
    if keys != [] {
      var n := |keys| - 1;
      ClientPassRates(db, keys[..n], rates);
      ClientStepRates(ClientPass(db, keys[..n], rates, AcceptAll()), db, keys[..n], keys[n], rates);
      assert keys[..n] + [keys[n]] == keys;
    }
  }

  lemma ClientStepRates(st: Stage, db: Db, keys: seq<string>, k: string, rates: map<string, real>)
    requires k in rates && forall x :: x in keys ==> x in rates
    requires forall name :: name !in keys ==> ClientsNamed(st.db, name) == ClientsNamed(db, name)
    requires forall name :: name in keys && ClientsNamed(db, name) == [] ==>
      |ClientsNamed(st.db, name)| == 1 && ClientsNamed(st.db, name)[0].hourlyRate == rates[name]
    ensures var r := ClientStep(st, k, rates[k], AcceptAll());
      && (forall name :: name !in keys + [k] ==> ClientsNamed(r.db, name) == ClientsNamed(db, name))
      && (forall name :: name in keys + [k] && ClientsNamed(db, name) == [] ==>
            |ClientsNamed(r.db, name)| == 1 && ClientsNamed(r.db, name)[0].hourlyRate == rates[name])
  {
    var r := ClientStep(st, k, rates[k], AcceptAll());
    forall name
      ensures ClientsNamed(r.db, name)
           == ClientsNamed(st.db, name) + (if name == k && r.db != st.db then [ClientRow(st.db.nextId, k, rates[k])] else [])
    {
      if r.db != st.db {
        AddClientNamed(st.db, k, rates[k], name);
      }
    }
  }

  // ---------------------------------------------------------------------
  // Project rates

  /** Some key of `keys` whose client has an id names the project `name` of client `clientId`. */
  ghost predicate Targets(keys: seq<string>, infos: map<string, ProjectInfo>, clientIds: map<string, nat>,
                          name: string, clientId: nat)
  {
    exists k :: k in keys && k in infos && infos[k].client in clientIds
      && ProjectNameOfKey(k) == name && clientIds[infos[k].client] == clientId
  }

  /**
   * `key`'s client has an id, and no other key of `keys` names the same
   * project of the same client (keys such as `A::P` and `A::P::Q` do).
   */
  ghost predicate SoleKey(keys: seq<string>, infos: map<string, ProjectInfo>, clientIds: map<string, nat>, key: string)
  {
    && key in infos && infos[key].client in clientIds
    && forall k :: k in keys && k in infos && infos[k].client in clientIds
         && ProjectNameOfKey(k) == ProjectNameOfKey(key) && clientIds[infos[k].client] == clientIds[infos[key].client]
         ==> k == key
  }

  lemma TargetsGrow(keys: seq<string>, k: string, infos: map<string, ProjectInfo>, clientIds: map<string, nat>,
                    name: string, clientId: nat)
    requires Targets(keys, infos, clientIds, name, clientId)
    ensures Targets(keys + [k], infos, clientIds, name, clientId)
  {
    var x :| x in keys && x in infos && infos[x].client in clientIds
      && ProjectNameOfKey(x) == name && clientIds[infos[x].client] == clientId;
    assert x in keys + [k];
  }

  /**
   * With a store that accepts every insert, the project loop leaves the
   * rows of a project no key names as they were, and gives the project of
   * a sole key that had no row exactly one, at the rate `NewProjectRate`
   * chooses.
   */
  lemma {:induction false} ProjectPassRates(db: Db, keys: seq<string>, infos: map<string, ProjectInfo>,
                                            clientIds: map<string, nat>, clientRates: map<string, real>)
    requires forall k :: k in keys ==> k in infos
    ensures var r := ProjectPass(db, keys, infos, clientIds, clientRates, AcceptAll());
      && (forall name, clientId :: !Targets(keys, infos, clientIds, name, clientId) ==>
            ProjectsNamed(r.db, name, clientId) == ProjectsNamed(db, name, clientId))
      && (forall k :: (&& k in keys && SoleKey(keys, infos, clientIds, k)
                       && ProjectsNamed(db, ProjectNameOfKey(k), clientIds[infos[k].client]) == []) ==>
              && |ProjectsNamed(r.db, ProjectNameOfKey(k), clientIds[infos[k].client])| == 1
              && ProjectsNamed(r.db, ProjectNameOfKey(k), clientIds[infos[k].client])[0].hourlyRate
                 == NewProjectRate(infos[k], clientRates))
  {
    if keys != [] {
      var n := |keys| - 1;
      ProjectPassRates(db, keys[..n], infos, clientIds, clientRates);
      ProjectStepRates(ProjectPass(db, keys[..n], infos, clientIds, clientRates, AcceptAll()), db, keys[..n], keys[n],
                       infos, clientIds, clientRates);
      assert keys[..n] + [keys[n]] == keys;
    }
  }

  lemma ProjectStepRates(st: Stage, db: Db, keys: seq<string>, k: string, infos: map<string, ProjectInfo>,
                         clientIds: map<string, nat>, clientRates: map<string, real>)
    requires k in infos && forall x :: x in keys ==> x in infos
    requires forall name, clientId :: !Targets(keys, infos, clientIds, name, clientId) ==>
      ProjectsNamed(st.db, name, clientId) == ProjectsNamed(db, name, clientId)
    requires forall x :: (&& x in keys && SoleKey(keys, infos, clientIds, x)
                          && ProjectsNamed(db, ProjectNameOfKey(x), clientIds[infos[x].client]) == []) ==>
        && |ProjectsNamed(st.db, ProjectNameOfKey(x), clientIds[infos[x].client])| == 1
        && ProjectsNamed(st.db, ProjectNameOfKey(x), clientIds[infos[x].client])[0].hourlyRate
           == NewProjectRate(infos[x], clientRates)
    ensures var r := ProjectStep(st, k, infos[k], clientIds, clientRates, AcceptAll());
      && (forall name, clientId :: !Targets(keys + [k], infos, clientIds, name, clientId) ==>
            ProjectsNamed(r.db, name, clientId) == ProjectsNamed(db, name, clientId))
      && (forall x :: (&& x in keys + [k] && SoleKey(keys + [k], infos, clientIds, x)
                       && ProjectsNamed(db, ProjectNameOfKey(x), clientIds[infos[x].client]) == []) ==>
              && |ProjectsNamed(r.db, ProjectNameOfKey(x), clientIds[infos[x].client])| == 1
              && ProjectsNamed(r.db, ProjectNameOfKey(x), clientIds[infos[x].client])[0].hourlyRate
                 == NewProjectRate(infos[x], clientRates))
  {
    var r := ProjectStep(st, k, infos[k], clientIds, clientRates, AcceptAll());
    forall name, clientId | !Targets(keys + [k], infos, clientIds, name, clientId)
      ensures ProjectsNamed(r.db, name, clientId) == ProjectsNamed(db, name, clientId)
    {
      if Targets(keys, infos, clientIds, name, clientId) {
        TargetsGrow(keys, k, infos, clientIds, name, clientId);
      }
      ProjectStepNamed(st, k, infos, clientIds, clientRates, name, clientId);
      assert k in keys + [k];
    }
    forall x | && x in keys + [k] && SoleKey(keys + [k], infos, clientIds, x)
               && ProjectsNamed(db, ProjectNameOfKey(x), clientIds[infos[x].client]) == []
      ensures && |ProjectsNamed(r.db, ProjectNameOfKey(x), clientIds[infos[x].client])| == 1
              && ProjectsNamed(r.db, ProjectNameOfKey(x), clientIds[infos[x].client])[0].hourlyRate
                 == NewProjectRate(infos[x], clientRates)
    {
      ProjectStepStoredAt(st, db, keys, k, x, infos, clientIds, clientRates);
    }
  }

  /** What one project step does to the rows of the project `name` of client `clientId`. */
  lemma ProjectStepNamed(st: Stage, k: string, infos: map<string, ProjectInfo>, clientIds: map<string, nat>,
                         clientRates: map<string, real>, name: string, clientId: nat)
    requires k in infos
    ensures var r := ProjectStep(st, k, infos[k], clientIds, clientRates, AcceptAll());
      if && infos[k].client in clientIds && name == ProjectNameOfKey(k) && clientId == clientIds[infos[k].client]
         && |ProjectsNamed(st.db, name, clientId)| != 1
      then ProjectsNamed(r.db, name, clientId)
           == ProjectsNamed(st.db, name, clientId) + [ProjectRow(st.db.nextId, clientId, name, NewProjectRate(infos[k], clientRates))]
      else ProjectsNamed(r.db, name, clientId) == ProjectsNamed(st.db, name, clientId)
  {
    var info := infos[k];
    if info.client in clientIds {
      AddProjectNamed(st.db, clientIds[info.client], ProjectNameOfKey(k), NewProjectRate(info, clientRates), name, clientId);
    }
  }

  /** The rate facts of `ProjectStepRates` for one key `x`. */
  lemma ProjectStepStoredAt(st: Stage, db: Db, keys: seq<string>, k: string, x: string, infos: map<string, ProjectInfo>,
                            clientIds: map<string, nat>, clientRates: map<string, real>)
    requires k in infos && forall y :: y in keys ==> y in infos
    requires forall name, clientId :: !Targets(keys, infos, clientIds, name, clientId) ==>
      ProjectsNamed(st.db, name, clientId) == ProjectsNamed(db, name, clientId)
    requires forall y :: (&& y in keys && SoleKey(keys, infos, clientIds, y)
                          && ProjectsNamed(db, ProjectNameOfKey(y), clientIds[infos[y].client]) == []) ==>
        && |ProjectsNamed(st.db, ProjectNameOfKey(y), clientIds[infos[y].client])| == 1
        && ProjectsNamed(st.db, ProjectNameOfKey(y), clientIds[infos[y].client])[0].hourlyRate
           == NewProjectRate(infos[y], clientRates)
    requires x in keys + [k] && SoleKey(keys + [k], infos, clientIds, x)
    requires ProjectsNamed(db, ProjectNameOfKey(x), clientIds[infos[x].client]) == []
    ensures var r := ProjectStep(st, k, infos[k], clientIds, clientRates, AcceptAll());
      && |ProjectsNamed(r.db, ProjectNameOfKey(x), clientIds[infos[x].client])| == 1
      && ProjectsNamed(r.db, ProjectNameOfKey(x), clientIds[infos[x].client])[0].hourlyRate
         == NewProjectRate(infos[x], clientRates)
  {
    var name := ProjectNameOfKey(x);
    var clientId := clientIds[infos[x].client];
    ProjectStepNamed(st, k, infos, clientIds, clientRates, name, clientId);
    if x in keys {
      assert SoleKey(keys, infos, clientIds, x);
    } else {
      forall y | y in keys && y in infos && infos[y].client in clientIds && ProjectNameOfKey(y) == name
        ensures clientIds[infos[y].client] != clientId
      {
        assert y in keys + [k];
      }
      assert !Targets(keys, infos, clientIds, name, clientId);
    }
  }

  // ---------------------------------------------------------------------
  // Client ids

  /** Client ids are keys: each is below the id counter, and no two client rows share one. */
  ghost predicate ClientIdsFresh(db: Db)
  {
    && (forall c :: c in db.clients ==> c.id < db.nextId)
    && (forall c, d :: c in db.clients && d in db.clients && c.id == d.id ==> c == d)
  }

  /** The client loop hands every new client the next id, so ids stay keys. */
  lemma {:induction false} ClientPassFresh(db: Db, keys: seq<string>, rates: map<string, real>, policy: Policy)
    requires ClientIdsFresh(db) && forall k :: k in keys ==> k in rates
    ensures ClientIdsFresh(ClientPass(db, keys, rates, policy).db)
  {
    if keys != [] {
      var n := |keys| - 1;
      ClientPassFresh(db, keys[..n], rates, policy);
      var st := ClientPass(db, keys[..n], rates, policy);
      var r := ClientStep(st, keys[n], rates[keys[n]], policy);
      assert r.db == st.db || r.db == AddClient(st.db, keys[n], rates[keys[n]]);
    }
  }

  /** With ids that are keys, the loop records different ids for different names. */
  lemma RecordedIdsDistinct(db: Db, keys: seq<string>, ids: map<string, nat>, a: string, b: string)
    requires ClientIdsFresh(db) && ClientsRecorded(db, keys, ids)
    requires a in keys && b in keys && ids[a] == ids[b]
    ensures a == b
  {
    FilterMembership(db.clients, (c: ClientRow) => c.name == a);
    FilterMembership(db.clients, (c: ClientRow) => c.name == b);
    var ra := ClientsNamed(db, a)[0];
    var rb := ClientsNamed(db, b)[0];
    assert ra in ClientsNamed(db, a) && rb in ClientsNamed(db, b);
  }

  // ---------------------------------------------------------------------
  // The whole run

  /**
   * The conditions under which a run creates a project's row and its
   * client's row afresh: the store has unique names and key-like client
   * ids, the key was collected, its client has no row, no project of that
   * name exists for any client, and no other collected key names the same
   * project of the same client.
   */
  ghost predicate CreatesAfresh(db: Db, c: Collected, key: string)
  {
    && Unique(db) && ClientIdsFresh(db) && CollectedValid(c)
    && key in c.projects.values
    && ClientsNamed(db, c.projects.values[key].client) == []
    && (forall clientId :: ProjectsNamed(db, ProjectNameOfKey(key), clientId) == [])
    && (forall k :: (&& k in c.projects.values && c.projects.values[k].client == c.projects.values[key].client
                     && ProjectNameOfKey(k) == ProjectNameOfKey(key)) ==> k == key)
  }

  /**
   * With a store that accepts every insert, a run leaves the project's
   * client with exactly one row, at the client's highest collected rate,
   * and the project with exactly one row for that client, at the rate
   * `NewProjectRate` chooses: null when it equals the client's.
   */
  lemma ImportStoresRates(db: Db, csv: string, script: Script, parseFloat: string -> Option<real>, key: string)
    requires CreatesAfresh(db, Collect(DataLines(csv), script, parseFloat), key)
    ensures var c := Collect(DataLines(csv), script, parseFloat); var info := c.projects.values[key];
      var o := Import(db, csv, script, parseFloat, AcceptAll());
      && info.client in c.clients.values
      && |ClientsNamed(o.db, info.client)| == 1
      && ClientsNamed(o.db, info.client)[0].hourlyRate == c.clients.values[info.client]
      && |ProjectsNamed(o.db, ProjectNameOfKey(key), ClientsNamed(o.db, info.client)[0].id)| == 1
      && ProjectsNamed(o.db, ProjectNameOfKey(key), ClientsNamed(o.db, info.client)[0].id)[0].hourlyRate
         == NewProjectRate(info, c.clients.values)
  {
    var lines := DataLines(csv);
    var c := Collect(lines, script, parseFloat);
    ImportFacts.ProjectRateBelowClientMax(lines, script, parseFloat, key);
    PassesStoreRates(db, c, key);
    var clients := ClientPass(db, c.clients.keys, c.clients.values, AcceptAll());
    var projects := ProjectPass(clients.db, c.projects.keys, c.projects.values, clients.ids, c.clients.values, AcceptAll());
    var o := Import(db, csv, script, parseFloat, AcceptAll());
    assert o.db.clients == projects.db.clients && o.db.projects == projects.db.projects;
  }

  /** `ImportStoresRates` for the client and the project loop, run on the collected maps `c`. */
  lemma PassesStoreRates(db: Db, c: Collected, key: string)
    requires CreatesAfresh(db, c, key) && c.projects.values[key].client in c.clients.values
    ensures var info := c.projects.values[key];
      var clients := ClientPass(db, c.clients.keys, c.clients.values, AcceptAll());
      var o := ProjectPass(clients.db, c.projects.keys, c.projects.values, clients.ids, c.clients.values, AcceptAll());
      && |ClientsNamed(o.db, info.client)| == 1
      && ClientsNamed(o.db, info.client)[0].hourlyRate == c.clients.values[info.client]
      && |ProjectsNamed(o.db, ProjectNameOfKey(key), ClientsNamed(o.db, info.client)[0].id)| == 1
      && ProjectsNamed(o.db, ProjectNameOfKey(key), ClientsNamed(o.db, info.client)[0].id)[0].hourlyRate
         == NewProjectRate(info, c.clients.values)
  {
    var info := c.projects.values[key];
    var name := ProjectNameOfKey(key);
    var clients := ClientPass(db, c.clients.keys, c.clients.values, AcceptAll());
    ClientPassRecords(db, c.clients.keys, c.clients.values);
    ClientPassRates(db, c.clients.keys, c.clients.values);
    ClientPassFresh(db, c.clients.keys, c.clients.values, AcceptAll());
    assert info.client in c.clients.keys;
    var clientId := clients.ids[info.client];
    assert FindClient(clients.db, info.client) == Some(clientId);
    forall k | k in c.projects.keys && k in c.projects.values && c.projects.values[k].client in clients.ids
        && ProjectNameOfKey(k) == name && clients.ids[c.projects.values[k].client] == clientId
      ensures k == key
    {
      RecordedIdsDistinct(clients.db, c.clients.keys, clients.ids, c.projects.values[k].client, info.client);
    }
    assert key in c.projects.keys;
    assert SoleKey(c.projects.keys, c.projects.values, clients.ids, key);
    assert ProjectsNamed(clients.db, name, clientId) == ProjectsNamed(db, name, clientId);
    ProjectPassRates(clients.db, c.projects.keys, c.projects.values, clients.ids, c.clients.values);
    var o := ProjectPass(clients.db, c.projects.keys, c.projects.values, clients.ids, c.clients.values, AcceptAll());
    assert ClientsNamed(o.db, info.client) == ClientsNamed(clients.db, info.client);
  }


  /** An entry as the dashboard reads it: joined with a project row and that project's client row. */
  predicate BilledFrom(e: Records.TimeEntry, p: ProjectRow, c: ClientRow)
  {
    && e.project.Some? && e.project.value.hourlyRate == p.hourlyRate
    && e.project.value.client.Some? && e.project.value.client.value.hourlyRate == c.hourlyRate
  }

  /**
   * Whichever way a fresh project's rate is stored, the dashboard bills
   * an entry of it, read with the rows the run leaves (the ones the
   * scripts' lookups find), at the project's first-seen rate.
   */
  lemma ImportedRateIsFirstSeen(db: Db, csv: string, script: Script, parseFloat: string -> Option<real>, key: string)
    requires CreatesAfresh(db, Collect(DataLines(csv), script, parseFloat), key)
    ensures var c := Collect(DataLines(csv), script, parseFloat); var info := c.projects.values[key];
      var o := Import(db, csv, script, parseFloat, AcceptAll());
      exists crow, prow ::
        && crow in o.db.clients && FindClient(o.db, info.client) == Some(crow.id)
        && prow in o.db.projects && FindProject(o.db, ProjectNameOfKey(key), crow.id) == Some(prow.id)
        && (forall e :: BilledFrom(e, prow, crow) ==> Dashboard.HourlyRate(e) == info.rate)
  {
    var lines := DataLines(csv);
    var c := Collect(lines, script, parseFloat);
    var info := c.projects.values[key];
    var o := Import(db, csv, script, parseFloat, AcceptAll());
    ImportStoresRates(db, csv, script, parseFloat, key);
    var crow := ClientsNamed(o.db, info.client)[0];
    var prow := ProjectsNamed(o.db, ProjectNameOfKey(key), crow.id)[0];
    FilterMembership(o.db.clients, (r: ClientRow) => r.name == info.client);
    FilterMembership(o.db.projects, (p: ProjectRow) => p.name == ProjectNameOfKey(key) && p.clientId == crow.id);
    assert crow in ClientsNamed(o.db, info.client);
    assert prow in ProjectsNamed(o.db, ProjectNameOfKey(key), crow.id);
    forall e | BilledFrom(e, prow, crow)
      ensures Dashboard.HourlyRate(e) == info.rate
    {
      ImportFacts.BilledAtFirstSeenRate(lines, script, parseFloat, key, e);
    }
  }
}
