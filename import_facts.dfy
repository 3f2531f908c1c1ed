/**
 * What the import scripts guarantee: the collected rates, the project
 * rate that is stored, the dates written, the rows skipped, the rate the
 * dashboard then bills, and what a second run of a script does.
 */
module ImportFacts {

  import opened Collections
  import opened Text
  import opened ImportStore
  import opened CsvImport
  import Records
  import Dashboard

  // ---------------------------------------------------------------------
  // Collection

  /** What recording a rate does to the recorded rate of `name`. */
  lemma KeepMaxAt(m: OrderedMap<string, real>, n: string, rate: real, name: string)
    requires m.Valid()
    ensures name in KeepMax(m, n, rate).values <==> name in m.values || name == n
    ensures name == n ==>
      KeepMax(m, n, rate).values[name] == (if name in m.values && m.values[name] >= rate then m.values[name] else rate)
    ensures name != n && name in m.values ==> KeepMax(m, n, rate).values[name] == m.values[name]
  {
  }

  /**
   * A client is collected exactly when some usable line names it, and its
   * recorded rate is the highest rate among those lines.
   */
  lemma {:induction false} CollectClients(lines: seq<string>, script: Script, parseFloat: string -> Option<real>, name: string)
    ensures var c := Collect(lines, script, parseFloat).clients;
      name in c.values <==> exists i :: 0 <= i < |lines| && NamesClient(lines[i], script, name)
    ensures var c := Collect(lines, script, parseFloat).clients;
      name in c.values ==>
        && (forall i :: 0 <= i < |lines| && NamesClient(lines[i], script, name) ==> LineRate(lines[i], parseFloat) <= c.values[name])
        && (exists i :: 0 <= i < |lines| && NamesClient(lines[i], script, name) && LineRate(lines[i], parseFloat) == c.values[name])
  {
    if lines != [] {
      var n := |lines| - 1;
      var p := lines[..n];
      CollectClients(p, script, parseFloat, name);
      assert forall i :: 0 <= i < n ==> p[i] == lines[i];
      CollectClientsStep(lines, script, parseFloat, name);
    }
  }

  /** The last line's step of `CollectClients`, the earlier lines' facts given. */
  lemma CollectClientsStep(lines: seq<string>, script: Script, parseFloat: string -> Option<real>, name: string)
    requires lines != []
    requires var n := |lines| - 1; var c := Collect(lines[..n], script, parseFloat).clients;
      && (name in c.values <==> exists i :: 0 <= i < n && NamesClient(lines[i], script, name))
      && (name in c.values ==>
        && (forall i :: 0 <= i < n && NamesClient(lines[i], script, name) ==> LineRate(lines[i], parseFloat) <= c.values[name])
        && (exists i :: 0 <= i < n && NamesClient(lines[i], script, name) && LineRate(lines[i], parseFloat) == c.values[name]))
    ensures var c := Collect(lines, script, parseFloat).clients;
      name in c.values <==> exists i :: 0 <= i < |lines| && NamesClient(lines[i], script, name)
    ensures var c := Collect(lines, script, parseFloat).clients;
      name in c.values ==>
        && (forall i :: 0 <= i < |lines| && NamesClient(lines[i], script, name) ==> LineRate(lines[i], parseFloat) <= c.values[name])
        && (exists i :: 0 <= i < |lines| && NamesClient(lines[i], script, name) && LineRate(lines[i], parseFloat) == c.values[name])
  {
    var n := |lines| - 1;
    var c := Collect(lines[..n], script, parseFloat).clients;
    var row := ParseRow(lines[n]);
    CollectStep(lines, n, script, parseFloat);
    assert lines[..n + 1] == lines;
    if Collectable(row) {
      var k := ClientName(script, row.kunde.value);
      var rate := LineRate(lines[n], parseFloat);
      KeepMaxAt(c, k, rate, name);
      var c' := Collect(lines, script, parseFloat).clients;
      if name in c.values {
        var i :| 0 <= i < n && NamesClient(lines[i], script, name) && LineRate(lines[i], parseFloat) == c.values[name];
        if name == k && c.values[name] < rate {
          assert NamesClient(lines[n], script, name) && LineRate(lines[n], parseFloat) == c'.values[name];
        } else {
          assert NamesClient(lines[i], script, name) && LineRate(lines[i], parseFloat) == c'.values[name];
        }
      } else if name == k {
        assert NamesClient(lines[n], script, name) && LineRate(lines[n], parseFloat) == c'.values[name];
      }
    } else {
      assert !NamesClient(lines[n], script, name);
    }
  }

  /** What recording a project does to the entry of `key`. */
  lemma KeepFirstAt(m: OrderedMap<string, ProjectInfo>, k: string, info: ProjectInfo, key: string)
    requires m.Valid()
    ensures key in KeepFirst(m, k, info).values <==> key in m.values || key == k
    ensures key in m.values ==> KeepFirst(m, k, info).values[key] == m.values[key]
    ensures key !in m.values && key == k ==> KeepFirst(m, k, info).values[key] == info
  {
  }

  /**
   * A project key is collected exactly when some usable line carries it,
   * and it keeps the client and the rate of the first such line.
   */
  lemma {:induction false} CollectProjects(lines: seq<string>, script: Script, parseFloat: string -> Option<real>, key: string)
    ensures var c := Collect(lines, script, parseFloat).projects;
      key in c.values <==> exists i :: 0 <= i < |lines| && NamesProject(lines[i], script, key)
    ensures var c := Collect(lines, script, parseFloat).projects;
      key in c.values ==>
        exists i :: 0 <= i < |lines| && NamesProject(lines[i], script, key)
          && (forall j :: 0 <= j < i ==> !NamesProject(lines[j], script, key))
          && c.values[key] == ProjectInfo(LineClient(lines[i], script), LineRate(lines[i], parseFloat))
  {
    if lines != [] {
      var n := |lines| - 1;
      var p := lines[..n];
      CollectProjects(p, script, parseFloat, key);
      assert forall i :: 0 <= i < n ==> p[i] == lines[i];
      CollectProjectsStep(lines, script, parseFloat, key);
    }
  }

  /** The last line's step of `CollectProjects`, the earlier lines' facts given. */
  lemma CollectProjectsStep(lines: seq<string>, script: Script, parseFloat: string -> Option<real>, key: string)
    requires lines != []
    requires var n := |lines| - 1; var c := Collect(lines[..n], script, parseFloat).projects;
      && (key in c.values <==> exists i :: 0 <= i < n && NamesProject(lines[i], script, key))
      && (key in c.values ==>
        exists i :: 0 <= i < n && NamesProject(lines[i], script, key)
          && (forall j :: 0 <= j < i ==> !NamesProject(lines[j], script, key))
          && c.values[key] == ProjectInfo(LineClient(lines[i], script), LineRate(lines[i], parseFloat)))
    ensures var c := Collect(lines, script, parseFloat).projects;
      key in c.values <==> exists i :: 0 <= i < |lines| && NamesProject(lines[i], script, key)
    ensures var c := Collect(lines, script, parseFloat).projects;
      key in c.values ==>
        exists i :: 0 <= i < |lines| && NamesProject(lines[i], script, key)
          && (forall j :: 0 <= j < i ==> !NamesProject(lines[j], script, key))
          && c.values[key] == ProjectInfo(LineClient(lines[i], script), LineRate(lines[i], parseFloat))
  {
    var n := |lines| - 1;
    var c := Collect(lines[..n], script, parseFloat).projects;
    var row := ParseRow(lines[n]);
    CollectStep(lines, n, script, parseFloat);
    assert lines[..n + 1] == lines;
    if Collectable(row) {
      var k := ProjectKey(ClientName(script, row.kunde.value), row.projekt.value);
      KeepFirstAt(c, k, ProjectInfo(LineClient(lines[n], script), LineRate(lines[n], parseFloat)), key);
      if key in c.values {
        var i :| 0 <= i < n && NamesProject(lines[i], script, key)
          && (forall j :: 0 <= j < i ==> !NamesProject(lines[j], script, key))
          && c.values[key] == ProjectInfo(LineClient(lines[i], script), LineRate(lines[i], parseFloat));
      } else if key == k {
        assert NamesProject(lines[n], script, key);
      }
    } else {
      assert !NamesProject(lines[n], script, key);
    }
  }

  // ---------------------------------------------------------------------
  // Lines, columns and keys

  /**
   * A file of lines without line breaks inside them, and without blanks at
   * its two ends, yields its lines after the header.
   */
  lemma DataLinesDropHeader(header: string, rows: seq<string>)
    requires Avoids(header, "\n") && forall i :: 0 <= i < |rows| ==> Avoids(rows[i], "\n")
    requires var s := Join([header] + rows, "\n"); s != [] ==> !IsSpace(s[0]) && !IsSpace(s[|s| - 1])
    ensures DataLines(Join([header] + rows, "\n")) == rows
  {
    var lines := [header] + rows;
    TrimUnchanged(Join(lines, "\n"));
    assert forall i :: 0 <= i < |lines| ==> Avoids(lines[i], "\n") by {
      forall i | 0 <= i < |lines| ensures Avoids(lines[i], "\n") {
        if i > 0 { assert lines[i] == rows[i - 1]; }
      }
    }
    SplitJoin(lines, "\n");
    assert lines[1..] == rows;
  }

  /**
   * A line of comma-free fields is read column by column: the first five
   * give date, client, project, rate and hours, the sixth (the 2025 year)
   * is read when present, and any further columns are ignored.
   */
  lemma ParseRowColumns(fields: seq<string>)
    requires |fields| >= 5 && forall i :: 0 <= i < |fields| ==> Avoids(fields[i], ",")
    ensures var row := ParseRow(Join(fields, ","));
      && row.datum == Some(fields[0]) && row.kunde == Some(fields[1]) && row.projekt == Some(fields[2])
      && row.stundensatz == Some(fields[3]) && row.stunden == Some(fields[4])
      && row.jahr == (if |fields| > 5 then Some(fields[5]) else None)
  {
    SplitJoin(fields, ",");
  }

  /** The project name is read back from its key when neither name holds a colon. */
  lemma ProjectKeyRoundTrip(client: string, projekt: string)
    requires Avoids(client, ":") && Avoids(projekt, ":")
    ensures ProjectNameOfKey(ProjectKey(client, projekt)) == projekt
  {
    assert Join([client, projekt], "::") == ProjectKey(client, projekt);
    SplitJoin([client, projekt], "::");
  }

  /** A project name holding `::` is cut at it when read back from its key. */
  lemma ProjectKeyTruncates()
    ensures ProjectNameOfKey(ProjectKey("Joan", "Q1::Q2")) == "Q1"
  {
    assert Join(["Joan", "Q1", "Q2"], "::") == ProjectKey("Joan", "Q1::Q2");
    assert Avoids("Joan", "::") && Avoids("Q1", "::") && Avoids("Q2", "::");
    SplitJoin(["Joan", "Q1", "Q2"], "::");
  }

  // ---------------------------------------------------------------------
  // Project rates

  /**
   * A collected project's client is a collected client, and the project's
   * first-seen rate is at most that client's highest rate; the project is
   * stored without a rate of its own exactly when the two are equal.
   */
  lemma ProjectRateBelowClientMax(lines: seq<string>, script: Script, parseFloat: string -> Option<real>, key: string)
    requires key in Collect(lines, script, parseFloat).projects.values
    ensures var c := Collect(lines, script, parseFloat); var info := c.projects.values[key];
      && info.client in c.clients.values
      && info.rate <= c.clients.values[info.client]
      && (NewProjectRate(info, c.clients.values).None? <==> info.rate == c.clients.values[info.client])
  {
    CollectProjects(lines, script, parseFloat, key);
    var i :| 0 <= i < |lines| && NamesProject(lines[i], script, key)
      && Collect(lines, script, parseFloat).projects.values[key] == ProjectInfo(LineClient(lines[i], script), LineRate(lines[i], parseFloat));
    assert NamesClient(lines[i], script, LineClient(lines[i], script));
    CollectClients(lines, script, parseFloat, LineClient(lines[i], script));
  }

  /**
   * Whichever way the project is stored, the dashboard bills an entry of
   * it at the project's first-seen rate, once the project is joined with
   * its client at the client's highest rate.
   */
  lemma BilledAtFirstSeenRate(lines: seq<string>, script: Script, parseFloat: string -> Option<real>, key: string,
                              e: Records.TimeEntry)
    requires key in Collect(lines, script, parseFloat).projects.values
    requires var c := Collect(lines, script, parseFloat); var info := c.projects.values[key];
      && e.project.Some? && e.project.value.hourlyRate == NewProjectRate(info, c.clients.values)
      && e.project.value.client.Some? && info.client in c.clients.values
      && e.project.value.client.value.hourlyRate == c.clients.values[info.client]
    ensures Dashboard.HourlyRate(e) == Collect(lines, script, parseFloat).projects.values[key].rate
  {
    CollectProjects(lines, script, parseFloat, key);
    var i :| 0 <= i < |lines| && NamesProject(lines[i], script, key)
      && Collect(lines, script, parseFloat).projects.values[key] == ProjectInfo(LineClient(lines[i], script), LineRate(lines[i], parseFloat));
    assert LineRate(lines[i], parseFloat) != 0.0;
  }

  // ---------------------------------------------------------------------
  // Entries

  /** Every row the entry loop uses has its project key collected by the first loop. */
  lemma EntryKeysCollected(lines: seq<string>, script: Script, parseFloat: string -> Option<real>, i: nat)
    requires i < |lines| && EntryGiven(ParseRow(lines[i]))
    ensures EntryKey(script, ParseRow(lines[i])) in Collect(lines, script, parseFloat).projects.values
  {
    CollectProjects(lines, script, parseFloat, EntryKey(script, ParseRow(lines[i])));
  }

  /** `D.M.` becomes `Y-MM-DD`: the year of the script, then month and day padded to two digits. */
  lemma EntryDateFormat(script: Script, row: Row, d: string, m: string)
    requires row.datum == Some(d + "." + m + ".") && Avoids(d, ".") && Avoids(m, ".")
    ensures EntryDate(script, row) == Some(Year(script, row) + "-" + PadStart2(m) + "-" + PadStart2(d))
  {
    assert [d, m, ""][1..] == [m, ""] && [m, ""][1..] == [""];
    assert Join([m, ""], ".") == m + "." + "";
    assert Join([d, m, ""], ".") == d + "." + (m + "." + "");
    assert d + "." + (m + "." + "") == d + "." + m + ".";
    SplitJoin([d, m, ""], ".");
  }

  /** The written date splits back at `-` into year, month and day. */
  lemma EntryDateSplits(script: Script, row: Row, d: string, m: string)
    requires row.datum == Some(d + "." + m + ".") && Avoids(d, ".") && Avoids(m, ".")
    requires Avoids(Year(script, row), "-") && Avoids(d, "-") && Avoids(m, "-")
    ensures EntryDate(script, row).Some?
    ensures Split(EntryDate(script, row).value, "-") == [Year(script, row), PadStart2(m), PadStart2(d)]
  {
    EntryDateFormat(script, row, d, m);
    var y, mm, dd := Year(script, row), PadStart2(m), PadStart2(d);
    var parts := [y, mm, dd];
    PadStart2Avoids(m, "-");
    PadStart2Avoids(d, "-");
    assert parts[1..] == [mm, dd] && [mm, dd][1..] == [dd];
    assert Join([mm, dd], "-") == mm + "-" + dd;
    assert Join(parts, "-") == y + "-" + (mm + "-" + dd);
    assert y + "-" + (mm + "-" + dd) == EntryDate(script, row).value;
    SplitJoin(parts, "-");
  }

  /** The January 2026 script dates every entry in 2026, whatever the row says. */
  lemma January2026Dates(row: Row, d: string, m: string)
    requires row.datum == Some(d + "." + m + ".") && Avoids(d, ".") && Avoids(m, ".")
    ensures EntryDate(ImportJanuary2026, row).Some?
    ensures StartsWith(EntryDate(ImportJanuary2026, row).value, "2026-" + PadStart2(m))
  {
    EntryDateFormat(ImportJanuary2026, row, d, m);
  }

  /** A date without a dot has no month: the entry loop stops there. */
  lemma EntryDateWithoutDot(script: Script, row: Row)
    requires row.datum.Some? && Avoids(row.datum.value, ".")
    ensures EntryDate(script, row).None?
  {
    SplitNoSeparator(row.datum.value, ".");
  }
}
