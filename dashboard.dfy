/**
 * The computed rules of the dashboard: rate resolution through the entry's
 * project, the client and month filter, month totals with the 19% VAT
 * gross figure, the per-client breakdown, the "this week" total, the
 * tab-separated clipboard export and the month-name lookup.
 */
module Dashboard {

  import opened Collections
  import opened Text
  import opened Records

  // ---------------------------------------------------------------------
  // Rate resolution

  /** `entry.project?.hourly_rate` read as a number, a null or missing rate as 0. */
  function ProjectRate(e: TimeEntry): real
  {
    if e.project.Some? && e.project.value.hourlyRate.Some? then e.project.value.hourlyRate.value else 0.0
  }

  /** `entry.project?.client?.hourly_rate` read as a number, a missing client as 0. */
  function ProjectClientRate(e: TimeEntry): real
  {
    if e.project.Some? && e.project.value.client.Some? then e.project.value.client.value.hourlyRate else 0.0
  }

  /**
   * `project.hourly_rate || project.client.hourly_rate || 0`: JavaScript
   * truthiness, so a project rate of 0 counts as unset and falls through
   * to the client's rate.
   */
  function HourlyRate(e: TimeEntry): (r: real)
    ensures ProjectRate(e) != 0.0 ==> r == ProjectRate(e)
    ensures ProjectRate(e) == 0.0 ==> r == ProjectClientRate(e)
    ensures ProjectRate(e) >= 0.0 && ProjectClientRate(e) >= 0.0 ==> r >= 0.0
  {
    var projectRate := if e.project.Some? then e.project.value.hourlyRate else None;
    var clientRate := if e.project.Some? && e.project.value.client.Some? then Some(e.project.value.client.value.hourlyRate) else None;
    if projectRate.Some? && projectRate.value != 0.0 then projectRate.value
    else if clientRate.Some? && clientRate.value != 0.0 then clientRate.value
    else 0.0
  }

  /** A project whose rate is 0 is billed at its client's rate, exactly as one whose rate is null. */
  lemma ZeroProjectRateFallsThrough(e: TimeEntry, p: Project)
    requires e.project == Some(p) && p.hourlyRate == Some(0.0)
    ensures HourlyRate(e) == HourlyRate(e.(project := Some(p.(hourlyRate := None))))
  {
  }

  // ---------------------------------------------------------------------
  // Filters

  const AllClients: string := "all"

  /** `entry.project?.client?.id`. */
  function EntryClientId(e: TimeEntry): Option<string>
  {
    if e.project.Some? && e.project.value.client.Some? then Some(e.project.value.client.value.id) else None
  }

  predicate MatchesClient(e: TimeEntry, selectedClient: string)
  {
    selectedClient == AllClients || EntryClientId(e) == Some(selectedClient)
  }

  /** `entry.date.startsWith(month)`: string prefix, not a calendar range. */
  predicate InMonth(e: TimeEntry, month: string)
  {
    StartsWith(e.date, month)
  }

  /** The entries of a month, in their order (`entries.filter(e => e.date.startsWith(month))`). */
  function MonthEntries(entries: seq<TimeEntry>, month: string): (r: seq<TimeEntry>)
    ensures forall e :: e in r <==> e in entries && InMonth(e, month)
  {
    FilterMembership(entries, e => InMonth(e, month));
    Filter(entries, e => InMonth(e, month))
  }

  /** The entries shown in the filtered table and exported. */
  function FilteredEntries(entries: seq<TimeEntry>, selectedClient: string, selectedMonth: string): (r: seq<TimeEntry>)
    ensures forall e :: e in r <==> e in entries && MatchesClient(e, selectedClient) && InMonth(e, selectedMonth)
  {
    FilterMembership(entries, e => MatchesClient(e, selectedClient) && InMonth(e, selectedMonth));
    Filter(entries, e => MatchesClient(e, selectedClient) && InMonth(e, selectedMonth))
  }

  /** The filter keeps the store's order: filtering a concatenation concatenates the filtered parts. */
  lemma FilteredEntriesAppend(a: seq<TimeEntry>, b: seq<TimeEntry>, selectedClient: string, selectedMonth: string)
    ensures FilteredEntries(a + b, selectedClient, selectedMonth)
         == FilteredEntries(a, selectedClient, selectedMonth) + FilteredEntries(b, selectedClient, selectedMonth)
  {
    FilterAppend(a, b, e => MatchesClient(e, selectedClient) && InMonth(e, selectedMonth));
  }

  /** Filtering by one client is filtering that client's entries out of the month's. */
  lemma FilteredEntriesWithinMonth(entries: seq<TimeEntry>, selectedClient: string, selectedMonth: string)
    ensures FilteredEntries(entries, selectedClient, selectedMonth)
         == Filter(MonthEntries(entries, selectedMonth), e => MatchesClient(e, selectedClient))
  {
    FilterFilter(entries, e => InMonth(e, selectedMonth), e => MatchesClient(e, selectedClient),
                 e => MatchesClient(e, selectedClient) && InMonth(e, selectedMonth));
  }

  /** With "all" clients selected, the filtered entries are exactly the month's entries. */
  lemma AllClientsIsMonthFilter(entries: seq<TimeEntry>, selectedMonth: string)
    ensures FilteredEntries(entries, AllClients, selectedMonth) == MonthEntries(entries, selectedMonth)
  {
    FilteredEntriesWithinMonth(entries, AllClients, selectedMonth);
    var m := MonthEntries(entries, selectedMonth);
    FilterKeepsAll(m, e => MatchesClient(e, AllClients));
  }

  // ---------------------------------------------------------------------
  // Totals

  /** `entries.reduce((sum, e) => sum + e.hours, 0)`. */
  function TotalHours(es: seq<TimeEntry>): real
  {
    if es == [] then 0.0 else TotalHours(es[..|es| - 1]) + es[|es| - 1].hours
  }

  /** `entries.reduce((sum, e) => sum + e.hours * getHourlyRate(e), 0)`. */
  function TotalRevenue(es: seq<TimeEntry>): real
  {
    if es == [] then 0.0 else TotalRevenue(es[..|es| - 1]) + es[|es| - 1].hours * HourlyRate(es[|es| - 1])
  }

  /** Both totals are additive over a split of the entries. */
  lemma TotalsAppend(a: seq<TimeEntry>, b: seq<TimeEntry>)
    ensures TotalHours(a + b) == TotalHours(a) + TotalHours(b)
    ensures TotalRevenue(a + b) == TotalRevenue(a) + TotalRevenue(b)
  {
    TotalHoursAppend(a, b);
    TotalRevenueAppend(a, b);
  }

  lemma {:induction false} TotalHoursAppend(a: seq<TimeEntry>, b: seq<TimeEntry>)
    ensures TotalHours(a + b) == TotalHours(a) + TotalHours(b)
    decreases |b|
  {
    if b == [] {
      assert a + b == a;
    } else {
      var b' := b[..|b| - 1];
      assert (a + b)[..|a + b| - 1] == a + b';
      assert (a + b)[|a + b| - 1] == b[|b| - 1];
      TotalHoursAppend(a, b');
    }
  }

  lemma {:induction false} TotalRevenueAppend(a: seq<TimeEntry>, b: seq<TimeEntry>)
    ensures TotalRevenue(a + b) == TotalRevenue(a) + TotalRevenue(b)
    decreases |b|
  {
    if b == [] {
      assert a + b == a;
    } else {
      var b' := b[..|b| - 1];
      var last := b[|b| - 1];
      assert (a + b)[..|a + b| - 1] == a + b';
      assert (a + b)[|a + b| - 1] == last;
      var x := last.hours * HourlyRate(last);
      assert TotalRevenue(b) == TotalRevenue(b') + x;
      assert TotalRevenue(a + b) == TotalRevenue(a + b') + x;
      TotalRevenueAppend(a, b');
    }
  }

  /** Non-negative hours and rates give non-negative totals. */
  lemma {:induction false} TotalsNonNegative(es: seq<TimeEntry>)
    requires forall i :: 0 <= i < |es| ==>
      es[i].hours >= 0.0 && ProjectRate(es[i]) >= 0.0 && ProjectClientRate(es[i]) >= 0.0
    ensures TotalHours(es) >= 0.0 && TotalRevenue(es) >= 0.0
    decreases |es|
  {
    if es != [] {
      var last := es[|es| - 1];
      TotalsNonNegative(es[..|es| - 1]);
      assert HourlyRate(last) >= 0.0;
      assert last.hours * HourlyRate(last) >= 0.0;
    }
  }

  datatype Stats = Stats(totalHours: real, totalRevenue: real)

  /** `currentMonthStats`: the totals of the entries of the current month (a `YYYY-MM` prefix). */
  function CurrentMonthStats(entries: seq<TimeEntry>, currentMonth: string): (s: Stats)
    ensures s.totalHours == TotalHours(MonthEntries(entries, currentMonth))
    ensures s.totalRevenue == TotalRevenue(MonthEntries(entries, currentMonth))
  {
    var monthEntries := MonthEntries(entries, currentMonth);
    Stats(TotalHours(monthEntries), TotalRevenue(monthEntries))
  }

  /** `filteredStats`: the totals of the filtered entries. */
  function FilteredStats(entries: seq<TimeEntry>, selectedClient: string, selectedMonth: string): (s: Stats)
    ensures s.totalHours == TotalHours(FilteredEntries(entries, selectedClient, selectedMonth))
    ensures s.totalRevenue == TotalRevenue(FilteredEntries(entries, selectedClient, selectedMonth))
  {
    var filtered := FilteredEntries(entries, selectedClient, selectedMonth);
    Stats(TotalHours(filtered), TotalRevenue(filtered))
  }

  /** With all clients selected and the current month chosen, the filter box repeats the month cards. */
  lemma FilteredStatsOfAllClients(entries: seq<TimeEntry>, month: string)
    ensures FilteredStats(entries, AllClients, month) == CurrentMonthStats(entries, month)
  {
    AllClientsIsMonthFilter(entries, month);
  }

  /** The gross figure: net revenue plus 19% VAT. */
  function Gross(net: real): (g: real)
    ensures g - net == net * 0.19
    ensures net >= 0.0 ==> g >= net
  {
    net * 1.19
  }

  // ---------------------------------------------------------------------
  // Per-client breakdown (`clientStats`)

  datatype ClientStat = ClientStat(name: string, hours: real, revenue: real)

  /** The group key: `entry.project?.client?.id`; all entries without a client share `None`. */
  function GroupKey(e: TimeEntry): Option<string>
  {
    EntryClientId(e)
  }

  /** `entry.project?.client?.name || 'Unbekannt'`. */
  function GroupName(e: TimeEntry): (name: string)
    ensures name != ""
    ensures e.project.Some? && e.project.value.client.Some? && e.project.value.client.value.name != ""
            ==> name == e.project.value.client.value.name
    ensures e.project.None? || e.project.value.client.None? || e.project.value.client.value.name == ""
            ==> name == "Unbekannt"
  {
    if e.project.Some? && e.project.value.client.Some? && e.project.value.client.value.name != ""
    then e.project.value.client.value.name
    else "Unbekannt"
  }

  /** The entry's group as it stands, or a fresh one at zero named after the entry's client. */
  function OpenGroup(stats: OrderedMap<Option<string>, ClientStat>, e: TimeEntry): (s: ClientStat)
    ensures GroupKey(e) in stats.values ==> s == stats.values[GroupKey(e)]
    ensures GroupKey(e) !in stats.values ==> s == ClientStat(GroupName(e), 0.0, 0.0)
  {
    if GroupKey(e) in stats.values then stats.values[GroupKey(e)] else ClientStat(GroupName(e), 0.0, 0.0)
  }

  /** The group `s` with the entry's hours and revenue added. */
  function Accumulate(s: ClientStat, e: TimeEntry): (t: ClientStat)
    ensures t.name == s.name
    ensures t.hours - s.hours == e.hours
    ensures t.revenue - s.revenue == e.hours * HourlyRate(e)
  {
    ClientStat(s.name, s.hours + e.hours, s.revenue + e.hours * HourlyRate(e))
  }

  /**
   * One step of the `forEach`: open the entry's group at zero if needed,
   * then add its hours and revenue; every other group stays as it was.
   */
  function AddEntry(stats: OrderedMap<Option<string>, ClientStat>, e: TimeEntry): (r: OrderedMap<Option<string>, ClientStat>)
    requires stats.Valid()
    ensures r.Valid()
    ensures GroupKey(e) in r.values && r.values[GroupKey(e)] == Accumulate(OpenGroup(stats, e), e)
    ensures forall k :: k != GroupKey(e) ==> (k in r.values <==> k in stats.values)
    ensures forall k :: k != GroupKey(e) && k in stats.values ==> r.values[k] == stats.values[k]
    ensures |r.keys| <= |stats.keys| + 1
  {
    stats.Set(GroupKey(e), Accumulate(OpenGroup(stats, e), e))
  }

  /** The `stats` dictionary after the `forEach` over `es`: at most one group per entry. */
  function Groups(es: seq<TimeEntry>): (g: OrderedMap<Option<string>, ClientStat>)
    ensures g.Valid()
    ensures |g.keys| <= |es|
  {
    if es == [] then EmptyMap() else AddEntry(Groups(es[..|es| - 1]), es[|es| - 1])
  }

  /** The sum of the hours of a list of groups. */
  function GroupHours(gs: seq<ClientStat>): real
  {
    if gs == [] then 0.0 else gs[0].hours + GroupHours(gs[1..])
  }

  /** The sum of the revenue of a list of groups. */
  function GroupRevenue(gs: seq<ClientStat>): real
  {
    if gs == [] then 0.0 else gs[0].revenue + GroupRevenue(gs[1..])
  }

  predicate SortedByRevenue(gs: seq<ClientStat>)
  {
    forall i, j :: 0 <= i < j < |gs| ==> gs[i].revenue >= gs[j].revenue
  }

  /** Putting a group of at least every revenue in front keeps the list sorted and adds it to the sums. */
  lemma PrependLargest(g: ClientStat, t: seq<ClientStat>)
    requires SortedByRevenue(t)
    requires forall j :: 0 <= j < |t| ==> t[j].revenue <= g.revenue
    ensures SortedByRevenue([g] + t)
    ensures GroupHours([g] + t) == g.hours + GroupHours(t)
    ensures GroupRevenue([g] + t) == g.revenue + GroupRevenue(t)
  {
    assert ([g] + t)[1..] == t;
  }

  /** A revenue above the head of a sorted list is above all of it. */
  lemma HeadAboveAll(v: real, t: seq<ClientStat>)
    requires SortedByRevenue(t) && t != [] && t[0].revenue <= v
    ensures forall j :: 0 <= j < |t| ==> t[j].revenue <= v
  {
  }

  /** The step of `InsertByRevenue` that keeps the head of `s` in front of the insertion into the rest. */
  lemma InsertBehindHead(x: ClientStat, s: seq<ClientStat>, t: seq<ClientStat>)
    requires s != [] && t != [] && t[0].revenue <= s[0].revenue
    requires SortedByRevenue(t)
    requires multiset(t) == multiset(s[1..]) + multiset{x}
    requires GroupHours(t) == x.hours + GroupHours(s[1..])
    requires GroupRevenue(t) == x.revenue + GroupRevenue(s[1..])
    ensures SortedByRevenue([s[0]] + t)
    ensures multiset([s[0]] + t) == multiset(s) + multiset{x}
    ensures GroupHours([s[0]] + t) == x.hours + GroupHours(s)
    ensures GroupRevenue([s[0]] + t) == x.revenue + GroupRevenue(s)
  {
    assert s == [s[0]] + s[1..];
    HeadAboveAll(s[0].revenue, t);
    PrependLargest(s[0], t);
    assert GroupHours(s) == s[0].hours + GroupHours(s[1..]);
    assert GroupRevenue(s) == s[0].revenue + GroupRevenue(s[1..]);
  }

  /** Insert `x` before the first group whose revenue is not larger, so equal groups keep their order. */
  function InsertByRevenue(x: ClientStat, s: seq<ClientStat>): (r: seq<ClientStat>)
    requires SortedByRevenue(s)
    ensures SortedByRevenue(r)
    ensures multiset(r) == multiset(s) + multiset{x}
    ensures GroupHours(r) == x.hours + GroupHours(s)
    ensures GroupRevenue(r) == x.revenue + GroupRevenue(s)
    ensures |r| == |s| + 1 && (r[0] == x || (s != [] && r[0] == s[0]))
  {
    if s == [] || s[0].revenue <= x.revenue then
      PrependLargest(x, s);
      [x] + s
    else
      var t := InsertByRevenue(x, s[1..]);
      assert t[0].revenue <= s[0].revenue;
      InsertBehindHead(x, s, t);
      [s[0]] + t
  }

  /**
   * `.sort((a, b) => b.revenue - a.revenue)`: a stable sort by revenue,
   * largest first, of a permutation of its input with the same totals.
   */
  function SortByRevenue(s: seq<ClientStat>): (r: seq<ClientStat>)
    ensures SortedByRevenue(r)
    ensures multiset(r) == multiset(s)
    ensures GroupHours(r) == GroupHours(s) && GroupRevenue(r) == GroupRevenue(s)
  {
    if s == [] then []
    else
      assert s == [s[0]] + s[1..];
      InsertByRevenue(s[0], SortByRevenue(s[1..]))
  }

  /** The groups with revenue `v`, in their order. */
  function WithRevenue(gs: seq<ClientStat>, v: real): seq<ClientStat>
  {
    Filter(gs, (g: ClientStat) => g.revenue == v)
  }

  lemma WithRevenueAppend(a: seq<ClientStat>, b: seq<ClientStat>, v: real)
    ensures WithRevenue(a + b, v) == WithRevenue(a, v) + WithRevenue(b, v)
  {
    FilterAppend(a, b, (g: ClientStat) => g.revenue == v);
  }

  lemma WithRevenueSingle(g: ClientStat, v: real)
    ensures WithRevenue([g], v) == if g.revenue == v then [g] else []
  {
    assert [g][1..] == [];
  }

  lemma SwapAroundEmpty<T>(a: seq<T>, b: seq<T>, w: seq<T>)
    requires a == [] || b == []
    ensures a + (b + w) == b + (a + w)
  {
    if a == [] {
      assert a + (b + w) == b + w;
    } else {
      assert b + (a + w) == a + w;
    }
  }

  lemma {:induction false} InsertByRevenueStable(x: ClientStat, s: seq<ClientStat>, v: real)
    requires SortedByRevenue(s)
    ensures WithRevenue(InsertByRevenue(x, s), v) == WithRevenue([x] + s, v)
  {
    if s != [] && s[0].revenue > x.revenue {
      var t := s[1..];
      assert s == [s[0]] + t;
      var a, b, w := WithRevenue([s[0]], v), WithRevenue([x], v), WithRevenue(t, v);
      assert InsertByRevenue(x, s) == [s[0]] + InsertByRevenue(x, t);
      WithRevenueAppend([s[0]], InsertByRevenue(x, t), v);
      InsertByRevenueStable(x, t, v);
      WithRevenueAppend([x], t, v);
      assert WithRevenue(InsertByRevenue(x, s), v) == a + (b + w);
      WithRevenueSingle(s[0], v);
      WithRevenueSingle(x, v);
      SwapAroundEmpty(a, b, w);
      WithRevenueAppend([s[0]], t, v);
      WithRevenueAppend([x], s, v);
    }
  }

  /** The sort is stable: groups of equal revenue appear in the order they were opened. */
  lemma {:induction false} SortByRevenueStable(s: seq<ClientStat>, v: real)
    ensures WithRevenue(SortByRevenue(s), v) == WithRevenue(s, v)
  {
    if s != [] {
      SortByRevenueStable(s[1..], v);
      InsertByRevenueStable(s[0], SortByRevenue(s[1..]), v);
      assert ([s[0]] + SortByRevenue(s[1..]))[1..] == SortByRevenue(s[1..]);
      assert s[1..] == s[1..];
    }
  }

  lemma GroupsStep(es: seq<TimeEntry>, i: nat)
    requires i < |es|
    ensures Groups(es[..i + 1]) == AddEntry(Groups(es[..i]), es[i])
  {
    assert es[..i + 1][..i] == es[..i];
  }

  /** The `forEach` over the month's entries that fills the `stats` dictionary. */
  method GroupByClient(monthEntries: seq<TimeEntry>) returns (stats: OrderedMap<Option<string>, ClientStat>)
    ensures stats == Groups(monthEntries)
  {
    stats := EmptyMap();
    var i := 0;
    while i < |monthEntries|
      invariant 0 <= i <= |monthEntries|
      invariant stats == Groups(monthEntries[..i])
    {
      var entry := monthEntries[i];
      GroupsStep(monthEntries, i);
      var clientId := GroupKey(entry);
      var s := OpenGroup(stats, entry);
      stats := stats.Set(clientId, Accumulate(s, entry));
      i := i + 1;
    }
    assert monthEntries[..i] == monthEntries;
  }

  /** The entries of `es` that fall in group `k`, in their order. */
  function KeyEntries(es: seq<TimeEntry>, k: Option<string>): seq<TimeEntry>
  {
    Filter(es, (e: TimeEntry) => GroupKey(e) == k)
  }

  lemma KeyEntriesSnoc(es: seq<TimeEntry>, e: TimeEntry, k: Option<string>)
    ensures KeyEntries(es + [e], k) == if GroupKey(e) == k then KeyEntries(es, k) + [e] else KeyEntries(es, k)
  {
    FilterAppend(es, [e], (x: TimeEntry) => GroupKey(x) == k);
  }

  /**
   * A client id has a group exactly when some entry carries it; the group
   * is named after the first such entry and holds the total hours and the
   * total revenue of all of them.
   */
  lemma {:induction false} GroupsContents(es: seq<TimeEntry>, k: Option<string>)
    ensures k in Groups(es).values <==> KeyEntries(es, k) != []
    ensures k in Groups(es).values ==>
      var ks := KeyEntries(es, k);
      Groups(es).values[k] == ClientStat(GroupName(ks[0]), TotalHours(ks), TotalRevenue(ks))
  {
    if es != [] {
      var p := es[..|es| - 1];
      var e := es[|es| - 1];
      assert es == p + [e];
      GroupsContents(p, k);
      KeyEntriesSnoc(p, e, k);
      if GroupKey(e) == k {
        GroupsContentsHit(p, e, k);
      }
    }
  }

  /** The step of `GroupsContents` for an entry that falls in group `k`. */
  lemma GroupsContentsHit(p: seq<TimeEntry>, e: TimeEntry, k: Option<string>)
    requires GroupKey(e) == k
    requires k in Groups(p).values <==> KeyEntries(p, k) != []
    requires k in Groups(p).values ==>
      var ks := KeyEntries(p, k);
      Groups(p).values[k] == ClientStat(GroupName(ks[0]), TotalHours(ks), TotalRevenue(ks))
    ensures Groups(p + [e]).values[k] ==
      ClientStat(GroupName((KeyEntries(p, k) + [e])[0]), TotalHours(KeyEntries(p, k) + [e]), TotalRevenue(KeyEntries(p, k) + [e]))
  {
    assert (p + [e])[..|p|] == p;
    AddEntryHit(Groups(p), e, KeyEntries(p, k));
  }

  /** Adding an entry to its group extends that group's entries by one. */
  lemma AddEntryHit(g: OrderedMap<Option<string>, ClientStat>, e: TimeEntry, ks: seq<TimeEntry>)
    requires g.Valid()
    requires GroupKey(e) in g.values <==> ks != []
    requires ks != [] ==> g.values[GroupKey(e)] == ClientStat(GroupName(ks[0]), TotalHours(ks), TotalRevenue(ks))
    ensures AddEntry(g, e).values[GroupKey(e)] ==
      ClientStat(GroupName((ks + [e])[0]), TotalHours(ks + [e]), TotalRevenue(ks + [e]))
  {
    var s := OpenGroup(g, e);
    assert s == ClientStat(GroupName((ks + [e])[0]), TotalHours(ks), TotalRevenue(ks)) by {
      if ks == [] {
        assert (ks + [e])[0] == e;
      } else {
        assert (ks + [e])[0] == ks[0];
      }
    }
    TotalsSnoc(ks, e);
  }

  lemma TotalsSnoc(es: seq<TimeEntry>, e: TimeEntry)
    ensures TotalHours(es + [e]) == TotalHours(es) + e.hours
    ensures TotalRevenue(es + [e]) == TotalRevenue(es) + e.hours * HourlyRate(e)
  {
    assert (es + [e])[..|es|] == es;
    if es == [] {
      assert TotalHours([]) == 0.0 && TotalRevenue([]) == 0.0;
    }
  }

  /** The groups' keys are exactly the client ids of the entries, the missing one included. */
  lemma GroupKeys(es: seq<TimeEntry>)
    ensures forall k :: k in Groups(es).values <==> exists e :: e in es && GroupKey(e) == k
  {
    forall k
      ensures k in Groups(es).values <==> exists e :: e in es && GroupKey(e) == k
    {
      GroupsContents(es, k);
      FilterMembership(es, (e: TimeEntry) => GroupKey(e) == k);
      if KeyEntries(es, k) != [] {
        assert KeyEntries(es, k)[0] in KeyEntries(es, k);
      }
    }
  }

  lemma {:induction false} GroupSumsAppend(gs: seq<ClientStat>, g: ClientStat)
    ensures GroupHours(gs + [g]) == GroupHours(gs) + g.hours
    ensures GroupRevenue(gs + [g]) == GroupRevenue(gs) + g.revenue
  {
    if gs != [] {
      assert (gs + [g])[1..] == gs[1..] + [g];
      GroupSumsAppend(gs[1..], g);
    }
  }

  lemma {:induction false} GroupSumsUpdate(gs: seq<ClientStat>, i: nat, g: ClientStat)
    requires i < |gs|
    ensures GroupHours(gs[i := g]) == GroupHours(gs) - gs[i].hours + g.hours
    ensures GroupRevenue(gs[i := g]) == GroupRevenue(gs) - gs[i].revenue + g.revenue
  {
    if i > 0 {
      assert gs[i := g][1..] == gs[1..][i - 1 := g];
      GroupSumsUpdate(gs[1..], i - 1, g);
    }
  }

  /** Summed over all groups, hours and revenue are the totals of the grouped entries. */
  lemma {:induction false} GroupsTotals(es: seq<TimeEntry>)
    ensures GroupHours(Groups(es).Values()) == TotalHours(es)
    ensures GroupRevenue(Groups(es).Values()) == TotalRevenue(es)
  {
    if es != [] {
      var p := es[..|es| - 1];
      var e := es[|es| - 1];
      GroupsTotals(p);
      var g := Groups(p);
      var t := Accumulate(OpenGroup(g, e), e);
      SetValues(g, GroupKey(e), t);
      if GroupKey(e) in g.values {
        var i :| 0 <= i < |g.keys| && g.keys[i] == GroupKey(e);
        GroupSumsUpdate(g.Values(), i, t);
      } else {
        GroupSumsAppend(g.Values(), t);
      }
    }
  }

  /** Distinct elements are as many as the sequence is long. */
  lemma {:induction false} DistinctCardinality<K>(s: seq<K>)
    requires forall i, j :: 0 <= i < j < |s| ==> s[i] != s[j]
    ensures |set x | x in s| == |s|
  {
    if s != [] {
      var t := s[..|s| - 1];
      DistinctCardinality(t);
      assert (set x | x in s) == (set x | x in t) + {s[|s| - 1]};
      assert s[|s| - 1] !in t;
    }
  }

  /**
   * The per-client breakdown of the selected month: its groups sorted by
   * revenue, largest first.
   */
  function ClientStatsOf(entries: seq<TimeEntry>, selectedMonth: string): (r: seq<ClientStat>)
    ensures SortedByRevenue(r)
    ensures multiset(r) == multiset(Groups(MonthEntries(entries, selectedMonth)).Values())
    ensures GroupHours(r) == CurrentMonthStats(entries, selectedMonth).totalHours
    ensures GroupRevenue(r) == CurrentMonthStats(entries, selectedMonth).totalRevenue
  {
    var monthEntries := MonthEntries(entries, selectedMonth);
    GroupsTotals(monthEntries);
    SortByRevenue(Groups(monthEntries).Values())
  }

  /** The breakdown has exactly one group per distinct client id among the month's entries. */
  lemma ClientStatsOnePerClient(entries: seq<TimeEntry>, selectedMonth: string)
    ensures |ClientStatsOf(entries, selectedMonth)| == |set e | e in MonthEntries(entries, selectedMonth) :: GroupKey(e)|
  {
    var monthEntries := MonthEntries(entries, selectedMonth);
    var g := Groups(monthEntries);
    GroupKeys(monthEntries);
    DistinctCardinality(g.keys);
    assert (set k | k in g.keys) == (set e | e in monthEntries :: GroupKey(e));
    assert |multiset(ClientStatsOf(entries, selectedMonth))| == |multiset(g.Values())|;
  }

  /** `clientStats`: group the selected month's entries by client, then sort the groups by revenue. */
  method ClientStats(entries: seq<TimeEntry>, selectedMonth: string) returns (result: seq<ClientStat>)
    ensures result == ClientStatsOf(entries, selectedMonth)
  {
    var monthEntries := MonthEntries(entries, selectedMonth);
    var stats := GroupByClient(monthEntries);
    result := SortByRevenue(stats.Values());
  }

  // ---------------------------------------------------------------------
  // This week (`thisWeekStats`)

  /**
   * `Date.getDay()` of a day number: 0 for Sunday up to 6 for Saturday;
   * 1970-01-01 was a Thursday, so `day - w` is the Sunday on or before `day`.
   */
  function Weekday(day: int): (w: nat)
    ensures w < 7
    ensures (day - w + 4) % 7 == 0
  {
    (day + 4) % 7
  }

  /**
   * The week start as written: `today - getDay() + 1`. On Monday to
   * Saturday this is the Monday on or before today; on a Sunday it is
   * the following Monday.
   */
  function WeekStartAsWritten(today: int): (start: int)
    ensures Weekday(start) == 1
    ensures Weekday(today) != 0 ==> start <= today < start + 7
    ensures Weekday(today) == 0 ==> start == today + 1
  {
    today - Weekday(today) + 1
  }

  /** The Monday on or before `today`, the start of the current Monday-to-Sunday week. */
  function WeekStart(today: int): (start: int)
    ensures Weekday(start) == 1
    ensures start <= today < start + 7
    ensures Weekday(today) != 0 ==> start == WeekStartAsWritten(today)
  {
    var w := Weekday(today);
    if w == 0 then today - 6 else today - (w - 1)
  }

  /** The entries dated on or after `start`, in their order (`new Date(e.date) >= startOfWeek`). */
  function EntriesSince(entries: seq<TimeEntry>, start: int): (r: seq<TimeEntry>)
    ensures forall e :: e in r <==> e in entries && e.day >= start
  {
    FilterMembership(entries, (e: TimeEntry) => e.day >= start);
    Filter(entries, (e: TimeEntry) => e.day >= start)
  }

  /**
   * The "this week" card as written: the hours of every entry from the
   * computed start on, with no upper bound. It agrees with the Monday-based
   * week except on Sundays, when it counts nothing dated up to today.
   */
  function ThisWeekHoursAsWritten(entries: seq<TimeEntry>, today: int): (h: real)
    ensures Weekday(today) != 0 ==> h == ThisWeekHours(entries, today)
    ensures Weekday(today) == 0 && (forall i :: 0 <= i < |entries| ==> entries[i].day <= today) ==> h == 0.0
  {
    TotalHours(EntriesSince(entries, WeekStartAsWritten(today)))
  }

  /**
   * The "this week" card: the hours of every entry from this week's Monday
   * on, with no upper bound; entries of earlier weeks count nothing.
   */
  function ThisWeekHours(entries: seq<TimeEntry>, today: int): (h: real)
    ensures (forall i :: 0 <= i < |entries| ==> entries[i].day < WeekStart(today)) ==> h == 0.0
  {
    TotalHours(EntriesSince(entries, WeekStart(today)))
  }

  /**
   * On Sunday 2026-01-11 (day 20464) the card as written counts nothing of
   * the week that is ending: eight hours booked on Saturday 2026-01-10 are
   * left out, while the Monday-based week counts them.
   */
  lemma SundayWeekStartsTomorrow()
    ensures Weekday(20464) == 0
    ensures WeekStartAsWritten(20464) == 20465 && WeekStart(20464) == 20458
    ensures var e := TimeEntry("e1", "c1", "2026-01-10", 20463, 8.0, None, "", None, None);
      ThisWeekHoursAsWritten([e], 20464) == 0.0 && ThisWeekHours([e], 20464) == 8.0
  {
    var e := TimeEntry("e1", "c1", "2026-01-10", 20463, 8.0, None, "", None, None);
    assert EntriesSince([e], 20465) == [];
    assert EntriesSince([e], 20458) == [e];
    TotalsSnoc([], e);
  }

  /**
   * Whatever the start, as written or corrected, every entry from the
   * start on counts, a future-dated one too; earlier ones do not.
   */
  lemma ThisWeekHoursSplit(entries: seq<TimeEntry>, e: TimeEntry, start: int)
    ensures TotalHours(EntriesSince(entries + [e], start))
         == TotalHours(EntriesSince(entries, start)) + (if e.day >= start then e.hours else 0.0)
  {
    FilterAppend(entries, [e], (x: TimeEntry) => x.day >= start);
    TotalsAppend(EntriesSince(entries, start), EntriesSince([e], start));
    if e.day >= start {
      TotalsSnoc([], e);
    }
  }

  // ---------------------------------------------------------------------
  // Clipboard export (`handleCopyForExport`)

  /**
   * The renderings the export leaves to the browser: the `de-DE` date of
   * a `YYYY-MM-DD` string, a number as a template literal shows it, and
   * `toFixed(2)`.
   */
  datatype Formatter = Formatter(localeDate: string -> string, number: real -> string, fixed2: real -> string)

  const Tab: string := "\t"
  const Newline: string := "\n"

  /** The column titles of the header line. */
  const ExportColumns: seq<string> := ["Datum", "Kunde", "Projekt", "Stunden", "Betrag", "Beschreibung"]

  /** `Datum\tKunde\tProjekt\tStunden\tBetrag\tBeschreibung`. */
  const ExportHeader: string := Join(ExportColumns, Tab)

  /** The six cells of an entry's export line. */
  function ExportFields(e: TimeEntry, f: Formatter): seq<string>
  {
    var clientName := if e.project.Some? && e.project.value.client.Some? then Some(e.project.value.client.value.name) else None;
    var projectName := if e.project.Some? then Some(e.project.value.name) else None;
    [ f.localeDate(e.date),
      Interpolate(clientName),
      Interpolate(projectName),
      f.number(e.hours) + "h",
      f.fixed2(e.hours * HourlyRate(e)) + "€",
      if e.description.Some? then e.description.value else "" ]
  }

  function ExportLine(e: TimeEntry, f: Formatter): string
  {
    Join(ExportFields(e, f), Tab)
  }

  /** The lines of the given entries, in their order. */
  function ExportLines(es: seq<TimeEntry>, f: Formatter): (lines: seq<string>)
    ensures |lines| == |es|
    ensures forall i :: 0 <= i < |es| ==> lines[i] == ExportLine(es[i], f)
  {
    seq(|es|, i requires 0 <= i < |es| => ExportLine(es[i], f))
  }

  /**
   * The clipboard text: the header, then one line per filtered entry,
   * separated by newlines; the header alone when nothing is filtered in.
   */
  function ExportText(entries: seq<TimeEntry>, selectedClient: string, selectedMonth: string, f: Formatter): (t: string)
    ensures StartsWith(t, ExportHeader)
    ensures FilteredEntries(entries, selectedClient, selectedMonth) == [] ==> t == ExportHeader
  {
    var lines := ExportLines(FilteredEntries(entries, selectedClient, selectedMonth), f);
    var t := Join([ExportHeader] + lines, Newline);
    if lines == [] then
      assert [ExportHeader] + lines == [ExportHeader];
      t
    else
      assert ([ExportHeader] + lines)[1..] == lines;
      assert t == ExportHeader + (Newline + Join(lines, Newline));
      t
  }

  /** No cell of the entry's line contains a tab or a newline. */
  predicate ExportSafe(e: TimeEntry, f: Formatter)
  {
    forall i :: 0 <= i < 6 ==> Avoids(ExportFields(e, f)[i], Tab + Newline)
  }

  lemma AvoidsSubset(s: string, cs: string, ds: string)
    requires Avoids(s, cs)
    requires forall c :: c in ds ==> c in cs
    ensures Avoids(s, ds)
  {
  }

  /** A safe entry's line holds no newline and splits at its tabs into its six cells. */
  lemma ExportLineRoundTrip(e: TimeEntry, f: Formatter)
    requires ExportSafe(e, f)
    ensures Avoids(ExportLine(e, f), Newline)
    ensures Split(ExportLine(e, f), Tab) == ExportFields(e, f)
  {
    var cells := ExportFields(e, f);
    forall j | 0 <= j < |cells|
      ensures Avoids(cells[j], Tab) && Avoids(cells[j], Newline)
    {
      AvoidsSubset(cells[j], Tab + Newline, Tab);
      AvoidsSubset(cells[j], Tab + Newline, Newline);
    }
    JoinAvoids(cells, Tab, Newline);
    SplitJoin(cells, Tab);
  }

  /** The header holds no newline and splits at its tabs into the six column titles. */
  lemma ExportHeaderRoundTrip()
    ensures Avoids(ExportHeader, Newline)
    ensures Split(ExportHeader, Tab) == ExportColumns
  {
    forall j | 0 <= j < |ExportColumns|
      ensures Avoids(ExportColumns[j], Tab) && Avoids(ExportColumns[j], Newline)
    {
      assert '\t' !in ExportColumns[j] && '\n' !in ExportColumns[j];
    }
    JoinAvoids(ExportColumns, Tab, Newline);
    SplitJoin(ExportColumns, Tab);
  }

  /**
   * Reading the clipboard text back as a spreadsheet does (rows at
   * newlines, cells at tabs) gives the header and then, row by row in
   * filter order, the entry's date, client name, project name, hours with
   * `h`, amount at the resolved rate with `€`, and description or nothing.
   * This holds as long as no cell contains a tab or a newline.
   */
  lemma ExportRoundTrip(entries: seq<TimeEntry>, selectedClient: string, selectedMonth: string, f: Formatter)
    requires forall e :: e in entries ==> ExportSafe(e, f)
    ensures var rows := Split(ExportText(entries, selectedClient, selectedMonth, f), Newline);
      var fs := FilteredEntries(entries, selectedClient, selectedMonth);
      && |rows| == |fs| + 1
      && Split(rows[0], Tab) == ExportColumns
      && forall i :: 0 <= i < |fs| ==> Split(rows[i + 1], Tab) == ExportFields(fs[i], f)
  {
    var fs := FilteredEntries(entries, selectedClient, selectedMonth);
    ExportRowsRoundTrip(fs, f);
    SplitJoin([ExportHeader] + ExportLines(fs, f), Newline);
  }

  /** The rows of the clipboard text: none holds a newline, and each splits at its tabs into its cells. */
  lemma ExportRowsRoundTrip(fs: seq<TimeEntry>, f: Formatter)
    requires forall e :: e in fs ==> ExportSafe(e, f)
    ensures var rows := [ExportHeader] + ExportLines(fs, f);
      && (forall i :: 0 <= i < |rows| ==> Avoids(rows[i], Newline))
      && Split(rows[0], Tab) == ExportColumns
      && forall i :: 0 <= i < |fs| ==> Split(rows[i + 1], Tab) == ExportFields(fs[i], f)
  {
    var lines := ExportLines(fs, f);
    var rows := [ExportHeader] + lines;
    ExportHeaderRoundTrip();
    ExportLinesRoundTrip(fs, f);
    assert rows[0] == ExportHeader;
    forall i | 0 <= i < |rows|
      ensures Avoids(rows[i], Newline)
    {
      if i > 0 {
        assert rows[i] == lines[i - 1];
      }
    }
    assert forall i :: 0 <= i < |fs| ==> rows[i + 1] == lines[i];
  }

  lemma ExportLinesRoundTrip(fs: seq<TimeEntry>, f: Formatter)
    requires forall e :: e in fs ==> ExportSafe(e, f)
    ensures forall i :: 0 <= i < |fs| ==>
      Avoids(ExportLines(fs, f)[i], Newline) && Split(ExportLines(fs, f)[i], Tab) == ExportFields(fs[i], f)
  {
    forall i | 0 <= i < |fs|
      ensures Avoids(ExportLine(fs[i], f), Newline) && Split(ExportLine(fs[i], f), Tab) == ExportFields(fs[i], f)
    {
      assert fs[i] in fs;
      ExportLineRoundTrip(fs[i], f);
    }
  }

  // ---------------------------------------------------------------------
  // Month names

  const MonthNames: seq<string> :=
    ["Januar", "Februar", "März", "April", "Mai", "Juni",
     "Juli", "August", "September", "Oktober", "November", "Dezember"]

  /** `monthNames[i] || ''`: the German name of month index `i` (January is 0), empty outside 0 to 11. */
  function MonthName(i: int): (name: string)
    ensures 0 <= i < 12 ==> name == MonthNames[i]
    ensures !(0 <= i < 12) ==> name == ""
  {
    if 0 <= i < |MonthNames| then MonthNames[i] else ""
  }

  /** Every month has a name, so the `|| ''` fallback only applies outside 0 to 11. */
  lemma MonthNamesNonEmpty()
    ensures |MonthNames| == 12
    ensures forall i :: 0 <= i < |MonthNames| ==> MonthNames[i] != "" && MonthName(i) == MonthNames[i]
  {
    forall i | 0 <= i < |MonthNames|
      ensures MonthNames[i] != ""
    {
      assert |MonthNames[i]| >= 3;
    }
  }

  /**
   * `parseInt(selectedMonth.split('-')[1]) - 1`, with `None` for NaN (no
   * second part, or no leading digit): an index from -1 on, and NaN when
   * the value holds no `-`.
   */
  function SelectedMonthIndex(selectedMonth: string): (r: Option<int>)
    ensures r.Some? ==> r.value >= -1
    ensures (forall j :: 0 <= j ==> !OccursAt(selectedMonth, "-", j)) ==> r.None?
  {
    var parts := Split(selectedMonth, "-");
    if |parts| < 2 then None
    else match ParseInt(parts[1])
      case None => None
      case Some(n) => Some(n - 1)
  }

  /** The name shown over the per-client breakdown. */
  function SelectedMonthName(selectedMonth: string): (name: string)
    ensures name in MonthNames || name == ""
    ensures Avoids(selectedMonth, "-") ==> name == ""
  {
    var name := match SelectedMonthIndex(selectedMonth)
      case None => ""
      case Some(i) => MonthName(i);
    if Avoids(selectedMonth, "-") then
      SplitNoSeparator(selectedMonth, "-");
      name
    else name
  }

  /** A string of decimal digits is its own leading-digit prefix. */
  lemma {:induction false} LeadingDigitsOfDigits(d: string)
    requires forall i :: 0 <= i < |d| ==> IsDigit(d[i])
    ensures LeadingDigits(d) == d
  {
    if d != [] {
      assert forall i :: 0 <= i < |d[1..]| ==> d[1..][i] == d[i + 1];
      LeadingDigitsOfDigits(d[1..]);
      assert [d[0]] + d[1..] == d;
    }
  }

  /** For a `YYYY-MM` value of the month picker, the breakdown is titled with that month's name. */
  lemma SelectedMonthNameOfMonth(year: string, month: nat)
    requires Avoids(year, "-") && 1 <= month <= 12
    ensures SelectedMonthName(year + "-" + TwoDigits(month)) == MonthNames[month - 1]
  {
    var mm := TwoDigits(month);
    assert Join([year, mm], "-") == year + "-" + mm;
    assert Avoids(mm, "-");
    SplitJoin([year, mm], "-");
    LeadingDigitsOfDigits(mm);
    assert ParseInt(mm) == Some(month);
  }
}
