/** Aggregation of raw time entries into one work item per task description
    of a client (get_work_items and merge_time_entries). */
module Aggregation {
  import opened Wrappers
  import opened Pricing
  import opened Sequences
  import opened WorkItems

  /** A time-tracking record, its ISO 8601 duration already in seconds. */
  datatype TimeEntry = TimeEntry(projectId: string, description: string, durationSeconds: int)

  /** A project record; the hourly rate is in minor currency units. */
  datatype Project = Project(id: string, name: string, clientName: string, hourlyRateAmount: int)

  // ---------------------------------------------------------------------
  // Python's order on strings: lexicographic by code point.

  predicate LexLess(a: string, b: string)
  {
    if a == [] then b != []
    else if b == [] then false
    else if a[0] != b[0] then a[0] < b[0]
    else LexLess(a[1..], b[1..])
  }

  lemma {:induction false} LexLessIrreflexive(a: string)
    ensures !LexLess(a, a)
  {
    if a != [] {
      LexLessIrreflexive(a[1..]);
    }
  }

  lemma {:induction false} LexLessTransitive(a: string, b: string, c: string)
    requires LexLess(a, b) && LexLess(b, c)
    ensures LexLess(a, c)
  {
    if a != [] && b != [] && c != [] && a[0] == b[0] == c[0] {
      LexLessTransitive(a[1..], b[1..], c[1..]);
    }
  }

  lemma {:induction false} LexLessTotal(a: string, b: string)
    requires a != b
    ensures LexLess(a, b) || LexLess(b, a)
  {
    if a != [] && b != [] && a[0] == b[0] {
      assert a == [a[0]] + a[1..] && b == [b[0]] + b[1..];
      LexLessTotal(a[1..], b[1..]);
    }
  }

  predicate StrictlyAscending(s: seq<string>)
  {
    forall i, j :: 0 <= i < j < |s| ==> LexLess(s[i], s[j])
  }

  /** Inserts d into an ascending list of distinct strings. */
  function Insert(s: seq<string>, d: string): seq<string>
  {
    if s == [] then [d]
    else if d == s[0] then s
    else if LexLess(d, s[0]) then [d] + s
    else [s[0]] + Insert(s[1..], d)
  }

  /** Insertion adds d and keeps every element. */
  lemma {:induction false} InsertMembers(s: seq<string>, d: string)
    ensures forall x :: x in Insert(s, d) <==> x in s || x == d
  {
    if s != [] && d != s[0] && !LexLess(d, s[0]) {
      InsertMembers(s[1..], d);
      assert forall x :: x in s <==> x == s[0] || x in s[1..];
    }
  }

  lemma {:induction false} InsertAscending(s: seq<string>, d: string)
    requires StrictlyAscending(s)
    ensures StrictlyAscending(Insert(s, d))
  {
    if s == [] || d == s[0] {
    } else if LexLess(d, s[0]) {
      forall j | 0 <= j < |s|
        ensures LexLess(d, s[j])
      {
        if j > 0 {
          LexLessTransitive(d, s[0], s[j]);
        }
      }
    } else {
      LexLessTotal(d, s[0]);
      InsertAscending(s[1..], d);
      InsertMembers(s[1..], d);
      var r := Insert(s[1..], d);
      forall x | x in r
        ensures LexLess(s[0], x)
      {
      }
    }
  }

  /** Two ascending lists with the same elements are the same list, so
      the sorted list of a set of descriptions is unique. */
  lemma {:induction false} AscendingUnique(a: seq<string>, b: seq<string>)
    requires StrictlyAscending(a) && StrictlyAscending(b)
    requires forall x :: x in a <==> x in b
    ensures a == b
  {
    // Neither list can be empty while the other is not.
    assert a != [] ==> a[0] in b;
    assert b != [] ==> b[0] in a;
    if a != [] && b != [] {
      if a[0] != b[0] {
        assert a[0] in b && b[0] in a;
        var i :| 0 <= i < |b| && b[i] == a[0];
        var j :| 0 <= j < |a| && a[j] == b[0];
        LexLessTransitive(a[0], b[0], a[0]);
        LexLessIrreflexive(a[0]);
      }
      forall x
        ensures x in a[1..] <==> x in b[1..]
      {
        LexLessIrreflexive(x);
        if x in a[1..] {
          var i :| 0 <= i < |a[1..]| && a[1..][i] == x;
          assert LexLess(a[0], a[i + 1]);
          assert x in b && x != b[0];
          assert b == [b[0]] + b[1..];
        }
        if x in b[1..] {
          var i :| 0 <= i < |b[1..]| && b[1..][i] == x;
          assert LexLess(b[0], b[i + 1]);
          assert x in a && x != a[0];
          assert a == [a[0]] + a[1..];
        }
      }
      AscendingUnique(a[1..], b[1..]);
      assert a == [a[0]] + a[1..] && b == [b[0]] + b[1..];
    }
  }

  // ---------------------------------------------------------------------
  // The comprehensions of get_work_items.

  ghost predicate HasDescription(entries: seq<TimeEntry>, d: string)
  {
    exists e :: e in entries && e.description == d
  }

  /** sorted(set(e['description'] for e in entries)). */
  function SortedDescriptions(entries: seq<TimeEntry>): seq<string>
  {
    if entries == [] then []
    else Insert(SortedDescriptions(entries[1..]), entries[0].description)
  }

  /** The sorted list holds exactly the descriptions that occur. */
  lemma {:induction false} SortedDescriptionsMembers(entries: seq<TimeEntry>)
    ensures forall d :: d in SortedDescriptions(entries) <==> HasDescription(entries, d)
  {
    if entries != [] {
      SortedDescriptionsMembers(entries[1..]);
      InsertMembers(SortedDescriptions(entries[1..]), entries[0].description);
      assert forall e :: e in entries <==> e == entries[0] || e in entries[1..];
    }
  }

  lemma {:induction false} SortedDescriptionsAscending(entries: seq<TimeEntry>)
    ensures StrictlyAscending(SortedDescriptions(entries))
  {
    if entries != [] {
      SortedDescriptionsAscending(entries[1..]);
      InsertAscending(SortedDescriptions(entries[1..]), entries[0].description);
    }
  }

  /** The ids of the projects that belong to the client. */
  function ClientProjectIds(projects: seq<Project>, clientName: string): set<string>
  {
    set p | p in projects && p.clientName == clientName :: p.id
  }

  /** The entries whose project is one of ids, in their original order. */
  function Keep(entries: seq<TimeEntry>, ids: set<string>): seq<TimeEntry>
  {
    if entries == [] then []
    else (if entries[0].projectId in ids then [entries[0]] else []) + Keep(entries[1..], ids)
  }

  /** Keep drops exactly the entries of other projects. */
  lemma {:induction false} KeepMembers(entries: seq<TimeEntry>, ids: set<string>)
    ensures forall e :: e in Keep(entries, ids) <==> e in entries && e.projectId in ids
  {
    if entries != [] {
      KeepMembers(entries[1..], ids);
      assert forall e :: e in entries <==> e == entries[0] || e in entries[1..];
    }
  }

  /** One entry is kept once, exactly when its project is one of ids; with
      KeepAppend this makes Keep the order-preserving filter that keeps
      every entry of those projects exactly once. */
  lemma KeepSingle(e: TimeEntry, ids: set<string>)
    ensures Keep([e], ids) == if e.projectId in ids then [e] else []
  {
    assert [e][1..] == [];
  }

  /** The client's entries: those whose project belongs to the client. */
  function ClientEntries(projects: seq<Project>, entries: seq<TimeEntry>, clientName: string): seq<TimeEntry>
  {
    Keep(entries, ClientProjectIds(projects, clientName))
  }

  /** The group of one description, in entry order. */
  function WithDescription(entries: seq<TimeEntry>, d: string): seq<TimeEntry>
  {
    if entries == [] then []
    else (if entries[0].description == d then [entries[0]] else []) + WithDescription(entries[1..], d)
  }

  /** The group of d holds exactly the entries with description d. */
  lemma {:induction false} WithDescriptionMembers(entries: seq<TimeEntry>, d: string)
    ensures forall e :: e in WithDescription(entries, d) <==> e in entries && e.description == d
  {
    if entries != [] {
      WithDescriptionMembers(entries[1..], d);
      assert forall e :: e in entries <==> e == entries[0] || e in entries[1..];
    }
  }

  /** The group of a concatenation is the concatenation of the groups, so
      a group keeps every entry with the description, repeats included, in
      entry order. */
  lemma {:induction false} WithDescriptionAppend(a: seq<TimeEntry>, b: seq<TimeEntry>, d: string)
    ensures WithDescription(a + b, d) == WithDescription(a, d) + WithDescription(b, d)
  {
    if a != [] {
      assert (a + b)[1..] == a[1..] + b;
      WithDescriptionAppend(a[1..], b, d);
    } else {
      assert a + b == b;
    }
  }

  /** One entry is its own group exactly when it carries the description. */
  lemma WithDescriptionSingle(e: TimeEntry, d: string)
    ensures WithDescription([e], d) == if e.description == d then [e] else []
  {
    assert [e][1..] == [];
  }

  /** The summed durations of a group, in seconds. */
  function SumSeconds(entries: seq<TimeEntry>): int
  {
    if entries == [] then 0
    else SumSeconds(entries[..|entries| - 1]) + entries[|entries| - 1].durationSeconds
  }

  /** The seconds of a concatenation are the seconds of the parts. */
  lemma {:induction false} SumSecondsAppend(a: seq<TimeEntry>, b: seq<TimeEntry>)
    ensures SumSeconds(a + b) == SumSeconds(a) + SumSeconds(b)
  {
    if b != [] {
      var n := |b| - 1;
      assert (a + b)[..|a + b| - 1] == a + b[..n];
      SumSecondsAppend(a, b[..n]);
    } else {
      assert a + b == a;
    }
  }

  /** Index i holds the first project with the id. */
  predicate FirstWithId(projects: seq<Project>, id: string, i: int)
  {
    0 <= i < |projects| && projects[i].id == id && forall j :: 0 <= j < i ==> projects[j].id != id
  }

  /** next(p for p in projects if p['id'] == id): the first project with the
      id, or None where Python raises StopIteration. */
  function FindProject(projects: seq<Project>, id: string): Option<Project>
  {
    if projects == [] then None
    else if projects[0].id == id then Some(projects[0])
    else FindProject(projects[1..], id)
  }

  /** The lookup fails exactly when no project has the id, and otherwise
      finds the first project that has it. */
  lemma {:induction false} FindProjectFirst(projects: seq<Project>, id: string)
    ensures var r := FindProject(projects, id);
      && (r.None? <==> forall p :: p in projects ==> p.id != id)
      && (r.Some? ==> exists i :: FirstWithId(projects, id, i) && projects[i] == r.value)
  {
    if projects != [] && projects[0].id != id {
      FindProjectFirst(projects[1..], id);
      var r := FindProject(projects[1..], id);
      assert forall p :: p in projects ==> p == projects[0] || p in projects[1..];
      if r.Some? {
        var i :| FirstWithId(projects[1..], id, i) && projects[1..][i] == r.value;
        assert FirstWithId(projects, id, i + 1);
      }
    } else if projects != [] {
      assert FirstWithId(projects, id, 0);
    }
  }

  /** merge_time_entries as a value: the project's name, the first entry's
      description, the rate in currency units, the summed hours. */
  function MergeLine(project: Project, group: seq<TimeEntry>): Billable
    requires |group| > 0
  {
    Billable(project.name, group[0].description,
             project.hourlyRateAmount as real / 100.0,
             SumSeconds(group) as real / 3600.0)
  }

  /** Each of the client's entries has its project among the projects. */
  lemma ClientEntriesHaveProjects(projects: seq<Project>, entries: seq<TimeEntry>, clientName: string, e: TimeEntry)
    requires e in ClientEntries(projects, entries, clientName)
    ensures FindProject(projects, e.projectId).Some?
  {
    KeepMembers(entries, ClientProjectIds(projects, clientName));
    var p :| p in projects && p.clientName == clientName && p.id == e.projectId;
    FindProjectFirst(projects, e.projectId);
  }

  /** The work item of one description of the client. */
  function GroupLine(projects: seq<Project>, es: seq<TimeEntry>, d: string): Billable
    requires Mergeable(projects, es, d)
  {
    var g := WithDescription(es, d);
    MergeLine(FindProject(projects, g[0].projectId).value, g)
  }

  /** The group of d is not empty and its first entry's project exists. */
  predicate Mergeable(projects: seq<Project>, es: seq<TimeEntry>, d: string)
  {
    var g := WithDescription(es, d);
    |g| > 0 && FindProject(projects, g[0].projectId).Some?
  }

  /** The group of a description that occurs among entries whose projects
      all exist can be merged. */
  lemma DescriptionMergeable(projects: seq<Project>, es: seq<TimeEntry>, d: string)
    requires HasDescription(es, d)
    requires forall e :: e in es ==> FindProject(projects, e.projectId).Some?
    ensures Mergeable(projects, es, d)
  {
    var g := WithDescription(es, d);
    WithDescriptionMembers(es, d);
    var e :| e in es && e.description == d;
    assert e in g;
    assert g[0] in es;
  }

  /** Every description of the client's entries can be merged. */
  lemma ClientDescriptionsMergeable(projects: seq<Project>, entries: seq<TimeEntry>, clientName: string)
    ensures var es := ClientEntries(projects, entries, clientName);
      forall d :: d in SortedDescriptions(es) ==> Mergeable(projects, es, d)
  {
    var es := ClientEntries(projects, entries, clientName);
    forall e | e in es
      ensures FindProject(projects, e.projectId).Some?
    {
      ClientEntriesHaveProjects(projects, entries, clientName, e);
    }
    SortedDescriptionsMembers(es);
    forall d | d in SortedDescriptions(es)
      ensures Mergeable(projects, es, d)
    {
      DescriptionMergeable(projects, es, d);
    }
  }

  /** get_work_items as a value: one line per description of the client's
      entries, in ascending description order. */
  function WorkItemLines(projects: seq<Project>, entries: seq<TimeEntry>, clientName: string): seq<Billable>
  {
    var es := ClientEntries(projects, entries, clientName);
    ClientDescriptionsMergeable(projects, entries, clientName);
    MergedLines(projects, es, SortedDescriptions(es))
  }

  /** One merged line per description of ds, in the order of ds. */
  function MergedLines(projects: seq<Project>, es: seq<TimeEntry>, ds: seq<string>): seq<Billable>
    requires forall d :: d in ds ==> Mergeable(projects, es, d)
  {
    if ds == [] then []
    else MergedLines(projects, es, ds[..|ds| - 1]) + [GroupLine(projects, es, ds[|ds| - 1])]
  }

  /** One line per description. */
  lemma {:induction false} MergedLinesLength(projects: seq<Project>, es: seq<TimeEntry>, ds: seq<string>)
    requires forall d :: d in ds ==> Mergeable(projects, es, d)
    ensures |MergedLines(projects, es, ds)| == |ds|
  {
    if ds != [] {
      MergedLinesLength(projects, es, ds[..|ds| - 1]);
    }
  }

  /** The k-th line is the merged group of the k-th description. */
  lemma {:induction false} MergedLineAt(projects: seq<Project>, es: seq<TimeEntry>, ds: seq<string>, k: int)
    requires forall d :: d in ds ==> Mergeable(projects, es, d)
    requires 0 <= k < |ds|
    ensures |MergedLines(projects, es, ds)| == |ds|
    ensures MergedLines(projects, es, ds)[k] == GroupLine(projects, es, ds[k])
  {
    var n := |ds| - 1;
    MergedLinesLength(projects, es, ds[..n]);
    if k < n {
      MergedLineAt(projects, es, ds[..n], k);
      assert ds[..n][k] == ds[k];
    }
  }

  /** One more description adds its merged group at the end. */
  lemma MergedLinesExtend(projects: seq<Project>, es: seq<TimeEntry>, ds: seq<string>, k: int)
    requires forall d :: d in ds ==> Mergeable(projects, es, d)
    requires 0 <= k < |ds|
    ensures MergedLines(projects, es, ds[..k + 1]) ==
      MergedLines(projects, es, ds[..k]) + [GroupLine(projects, es, ds[k])]
  {
    assert ds[..k + 1][..k] == ds[..k];
  }

  /** The k-th line is the merged group of the k-th description. */
  lemma WorkItemLinesAt(projects: seq<Project>, entries: seq<TimeEntry>, clientName: string)
    ensures var es := ClientEntries(projects, entries, clientName);
      forall d :: d in SortedDescriptions(es) ==> Mergeable(projects, es, d)
    ensures var es := ClientEntries(projects, entries, clientName);
      var ds := SortedDescriptions(es);
      var r := WorkItemLines(projects, entries, clientName);
      |r| == |ds| && forall k :: 0 <= k < |ds| ==> r[k] == GroupLine(projects, es, ds[k])
  {
    var es := ClientEntries(projects, entries, clientName);
    var ds := SortedDescriptions(es);
    ClientDescriptionsMergeable(projects, entries, clientName);
    MergedLinesLength(projects, es, ds);
    forall k | 0 <= k < |ds|
      ensures MergedLines(projects, es, ds)[k] == GroupLine(projects, es, ds[k])
    {
      MergedLineAt(projects, es, ds, k);
    }
  }

  // ---------------------------------------------------------------------
  // What get_work_items yields.

  /** The lines follow the client's descriptions one to one. */
  lemma WorkItemLinesFollowDescriptions(projects: seq<Project>, entries: seq<TimeEntry>, clientName: string)
    ensures var ds := SortedDescriptions(ClientEntries(projects, entries, clientName));
      var r := WorkItemLines(projects, entries, clientName);
      |r| == |ds| && forall k :: 0 <= k < |r| ==> r[k].description == ds[k]
  {
    var es := ClientEntries(projects, entries, clientName);
    var ds := SortedDescriptions(es);
    var r := WorkItemLines(projects, entries, clientName);
    WorkItemLinesAt(projects, entries, clientName);
    SortedDescriptionsMembers(es);
    forall k | 0 <= k < |r|
      ensures r[k].description == ds[k]
    {
      var g := WithDescription(es, ds[k]);
      WithDescriptionMembers(es, ds[k]);
      assert ds[k] in ds;
      var e :| e in es && e.description == ds[k];
      assert e in g;
      assert g[0] in g;
    }
  }

  /** The lines are in strictly ascending description order, so no
      description occurs twice. */
  lemma WorkItemLinesAscending(projects: seq<Project>, entries: seq<TimeEntry>, clientName: string)
    ensures var r := WorkItemLines(projects, entries, clientName);
      forall i, j :: 0 <= i < j < |r| ==> LexLess(r[i].description, r[j].description)
  {
    WorkItemLinesFollowDescriptions(projects, entries, clientName);
    SortedDescriptionsAscending(ClientEntries(projects, entries, clientName));
  }

  /** There is a line for a description exactly when some entry of one of
      the client's projects carries it; other clients' entries never show. */
  lemma WorkItemLinesCoverClientDescriptions(projects: seq<Project>, entries: seq<TimeEntry>, clientName: string, d: string)
    ensures var r := WorkItemLines(projects, entries, clientName);
      (exists k :: 0 <= k < |r| && r[k].description == d) <==>
      (exists e :: e in entries && e.projectId in ClientProjectIds(projects, clientName) && e.description == d)
  {
    var es := ClientEntries(projects, entries, clientName);
    var ds := SortedDescriptions(es);
    var r := WorkItemLines(projects, entries, clientName);
    WorkItemLinesFollowDescriptions(projects, entries, clientName);
    SortedDescriptionsMembers(es);
    KeepMembers(entries, ClientProjectIds(projects, clientName));
    if exists k :: 0 <= k < |r| && r[k].description == d {
      var k :| 0 <= k < |r| && r[k].description == d;
      assert ds[k] in ds;
    }
    if exists e :: e in entries && e.projectId in ClientProjectIds(projects, clientName) && e.description == d {
      var e :| e in entries && e.projectId in ClientProjectIds(projects, clientName) && e.description == d;
      assert e in es;
      assert d in ds;
      var k :| 0 <= k < |ds| && ds[k] == d;
      assert r[k].description == d;
    }
  }

  /** Each line sums the durations of its whole group, in hours, and takes
      its name and rate from the project of the group's first entry. */
  lemma WorkItemLineFields(projects: seq<Project>, entries: seq<TimeEntry>, clientName: string, k: int)
    requires 0 <= k < |WorkItemLines(projects, entries, clientName)|
    ensures var r := WorkItemLines(projects, entries, clientName);
      var g := WithDescription(ClientEntries(projects, entries, clientName), r[k].description);
      |g| > 0 &&
      r[k].hours == SumSeconds(g) as real / 3600.0 &&
      var p := FindProject(projects, g[0].projectId);
      p.Some? &&
      r[k].project == p.value.name &&
      r[k].rate == p.value.hourlyRateAmount as real / 100.0
  {
    WorkItemLinesFollowDescriptions(projects, entries, clientName);
    WorkItemLinesAt(projects, entries, clientName);
    var es := ClientEntries(projects, entries, clientName);
    var ds := SortedDescriptions(es);
    var g := WithDescription(es, ds[k]);
    WithDescriptionMembers(es, ds[k]);
    SortedDescriptionsMembers(es);
    assert ds[k] in ds;
    var e :| e in es && e.description == ds[k];
    assert e in g;
    assert g[0] in es;
    ClientEntriesHaveProjects(projects, entries, clientName, g[0]);
  }

  // ---------------------------------------------------------------------
  // No time is lost or counted twice.

  /** The seconds of the groups of the descriptions ds, added up. */
  function GroupSeconds(es: seq<TimeEntry>, ds: seq<string>): int
  {
    if ds == [] then 0
    else GroupSeconds(es, ds[..|ds| - 1]) + SumSeconds(WithDescription(es, ds[|ds| - 1]))
  }

  predicate Distinct(ds: seq<string>)
  {
    forall i, j :: 0 <= i < j < |ds| ==> ds[i] != ds[j]
  }

  lemma {:induction false} GroupSecondsOfNothing(ds: seq<string>)
    ensures GroupSeconds([], ds) == 0
  {
    if ds != [] {
      GroupSecondsOfNothing(ds[..|ds| - 1]);
    }
  }

  /** An entry in front adds its seconds to the group of its description
      and to no other, when no description is listed twice. */
  lemma {:induction false} GroupSecondsCons(e: TimeEntry, rest: seq<TimeEntry>, ds: seq<string>)
    requires Distinct(ds)
    ensures GroupSeconds([e] + rest, ds) ==
      (if e.description in ds then e.durationSeconds else 0) + GroupSeconds(rest, ds)
  {
    if ds != [] {
      var n := |ds| - 1;
      var d := ds[n];
      assert Distinct(ds[..n]);
      GroupSecondsCons(e, rest, ds[..n]);
      WithDescriptionAppend([e], rest, d);
      WithDescriptionSingle(e, d);
      SumSecondsAppend(WithDescription([e], d), WithDescription(rest, d));
      assert SumSeconds([e]) == e.durationSeconds by {
        assert [e][..0] == [];
      }
      assert ds == ds[..n] + [d];
      assert d !in ds[..n];
    }
  }

  /** Over distinct descriptions that cover every entry, the groups' seconds
      add up to all the seconds. */
  lemma {:induction false} GroupSecondsCover(es: seq<TimeEntry>, ds: seq<string>)
    requires Distinct(ds)
    requires forall e :: e in es ==> e.description in ds
    ensures GroupSeconds(es, ds) == SumSeconds(es)
  {
    if es == [] {
      GroupSecondsOfNothing(ds);
    } else {
      var e, rest := es[0], es[1..];
      assert es == [e] + rest;
      assert e in es;
      GroupSecondsCons(e, rest, ds);
      GroupSecondsCover(rest, ds);
      SumSecondsAppend([e], rest);
      assert SumSeconds([e]) == e.durationSeconds by {
        assert [e][..0] == [];
      }
    }
  }

  /** The hours of each line, in order. */
  function LineHours(lines: seq<Billable>): seq<real>
  {
    seq(|lines|, i requires 0 <= i < |lines| => lines[i].hours)
  }

  /** The merged lines of ds carry the groups' seconds, in hours. */
  lemma {:induction false} MergedLinesHours(projects: seq<Project>, es: seq<TimeEntry>, ds: seq<string>)
    requires forall d :: d in ds ==> Mergeable(projects, es, d)
    ensures Sum(LineHours(MergedLines(projects, es, ds))) == GroupSeconds(es, ds) as real / 3600.0
  {
    if ds != [] {
      var n := |ds| - 1;
      MergedLinesHours(projects, es, ds[..n]);
      var a := MergedLines(projects, es, ds[..n]);
      var h := LineHours(a + [GroupLine(projects, es, ds[n])]);
      assert h[..|h| - 1] == LineHours(a);
    }
  }

  /** No time is lost or counted twice: the items' hours add up to the
      seconds of all the client's entries, repeated entries included, in
      hours. */
  lemma WorkItemHoursConserved(projects: seq<Project>, entries: seq<TimeEntry>, clientName: string)
    ensures Sum(LineHours(WorkItemLines(projects, entries, clientName))) ==
      SumSeconds(ClientEntries(projects, entries, clientName)) as real / 3600.0
  {
    var es := ClientEntries(projects, entries, clientName);
    var ds := SortedDescriptions(es);
    ClientDescriptionsMergeable(projects, entries, clientName);
    MergedLinesHours(projects, es, ds);
    SortedDescriptionsAscending(es);
    forall i, j | 0 <= i < j < |ds|
      ensures ds[i] != ds[j]
    {
      LexLessIrreflexive(ds[i]);
    }
    SortedDescriptionsMembers(es);
    GroupSecondsCover(es, ds);
  }

  lemma {:induction false} KeepAppend(a: seq<TimeEntry>, b: seq<TimeEntry>, ids: set<string>)
    ensures Keep(a + b, ids) == Keep(a, ids) + Keep(b, ids)
  {
    if a != [] {
      assert (a + b)[1..] == a[1..] + b;
      KeepAppend(a[1..], b, ids);
    } else {
      assert a + b == b;
    }
  }

  /** An entry whose project is not the client's is not among the client's
      entries. */
  lemma ForeignEntryDropped(projects: seq<Project>, before: seq<TimeEntry>, e: TimeEntry, after: seq<TimeEntry>, clientName: string)
    requires e.projectId !in ClientProjectIds(projects, clientName)
    ensures ClientEntries(projects, before + [e] + after, clientName) == ClientEntries(projects, before + after, clientName)
  {
    var ids := ClientProjectIds(projects, clientName);
    assert Keep([e], ids) == [];
    calc {
      Keep(before + [e] + after, ids);
      { KeepAppend(before + [e], after, ids); }
      Keep(before + [e], ids) + Keep(after, ids);
      { KeepAppend(before, [e], ids); }
      Keep(before, ids) + Keep([e], ids) + Keep(after, ids);
      Keep(before, ids) + Keep(after, ids);
      { KeepAppend(before, after, ids); }
      Keep(before + after, ids);
    }
  }

  /** An entry whose project is not the client's changes nothing, wherever
      it stands among the entries. */
  lemma ForeignEntryIgnored(projects: seq<Project>, before: seq<TimeEntry>, e: TimeEntry, after: seq<TimeEntry>, clientName: string)
    requires e.projectId !in ClientProjectIds(projects, clientName)
    ensures WorkItemLines(projects, before + [e] + after, clientName) == WorkItemLines(projects, before + after, clientName)
  {
    ForeignEntryDropped(projects, before, e, after, clientName);
  }

  // Two "design" entries of one and a half hours in all, and one "dev"
  // entry of two hours, on a project billed at 10000 minor units an hour.
  const ExampleProject := Project("A", "Site", "Acme", 10000)
  const DesignFirst := TimeEntry("A", "design", 3600)
  const DesignSecond := TimeEntry("A", "design", 1800)
  const Dev := TimeEntry("A", "dev", 7200)

  lemma ExampleClientEntries()
    ensures ClientEntries([ExampleProject], [DesignFirst, DesignSecond, Dev], "Acme")
      == [DesignFirst, DesignSecond, Dev]
  {
    var projects := [ExampleProject];
    var ids := ClientProjectIds(projects, "Acme");
    assert "A" in ids by {
      assert projects[0] in projects;
    }
    var entries := [DesignFirst, DesignSecond, Dev];
    assert entries[1..] == [DesignSecond, Dev] && [DesignSecond, Dev][1..] == [Dev] && [Dev][1..] == [];
    assert Keep([Dev], ids) == [Dev];
    assert Keep([DesignSecond, Dev], ids) == [DesignSecond, Dev];
  }

  lemma ExampleDescriptions()
    ensures SortedDescriptions([DesignFirst, DesignSecond, Dev]) == ["design", "dev"]
  {
    var entries := [DesignFirst, DesignSecond, Dev];
    assert entries[1..] == [DesignSecond, Dev] && [DesignSecond, Dev][1..] == [Dev] && [Dev][1..] == [];
    assert LexLess("design", "dev");
    assert SortedDescriptions([Dev]) == ["dev"];
    assert SortedDescriptions([DesignSecond, Dev]) == Insert(["dev"], "design");
  }

  lemma ExampleGroups()
    ensures WithDescription([DesignFirst, DesignSecond, Dev], "design") == [DesignFirst, DesignSecond]
    ensures WithDescription([DesignFirst, DesignSecond, Dev], "dev") == [Dev]
  {
    var entries := [DesignFirst, DesignSecond, Dev];
    assert entries[1..] == [DesignSecond, Dev] && [DesignSecond, Dev][1..] == [Dev] && [Dev][1..] == [];
    assert WithDescription([Dev], "design") == [];
    assert WithDescription([DesignSecond, Dev], "design") == [DesignSecond];
    assert WithDescription([Dev], "dev") == [Dev];
    assert WithDescription([DesignSecond, Dev], "dev") == [Dev];
  }

  lemma ExampleSums()
    ensures SumSeconds([DesignFirst, DesignSecond]) == 5400
    ensures SumSeconds([Dev]) == 7200
  {
    assert [DesignFirst][..0] == [] && [Dev][..0] == [];
    assert SumSeconds([DesignFirst]) == 3600;
    assert [DesignFirst, DesignSecond][..1] == [DesignFirst];
    assert SumSeconds([DesignFirst, DesignSecond]) == SumSeconds([DesignFirst]) + 1800;
  }

  lemma AggregationExample()
    ensures WorkItemLines([ExampleProject], [DesignFirst, DesignSecond, Dev], "Acme")
      == [Billable("Site", "design", 100.0, 1.5), Billable("Site", "dev", 100.0, 2.0)]
  {
    var projects := [ExampleProject];
    var entries := [DesignFirst, DesignSecond, Dev];
    ExampleClientEntries();
    ExampleDescriptions();
    ExampleGroups();
    ExampleSums();
    assert FindProject(projects, "A") == Some(ExampleProject);
    WorkItemLinesAt(projects, entries, "Acme");
    var r := WorkItemLines(projects, entries, "Acme");
    assert r[0] == MergeLine(ExampleProject, [DesignFirst, DesignSecond]);
    assert r[1] == MergeLine(ExampleProject, [Dev]);
  }

  // ---------------------------------------------------------------------
  // The imperative code.

  /** merge_time_entries: accumulates the group's durations in a loop and
      makes a new, not yet rounded, work item. */
  method MergeTimeEntries(project: Project, timeEntries: seq<TimeEntry>) returns (item: WorkItem)
    requires |timeEntries| > 0
    ensures fresh(item)
    ensures item.View() == MergeLine(project, timeEntries)
    ensures item.roundedHours == None && item.total == None
  {
    var projectName := project.name;
    var description := timeEntries[0].description;
    var rate := project.hourlyRateAmount as real / 100.0;
    var delta := 0;
    for i := 0 to |timeEntries|
      invariant delta == SumSeconds(timeEntries[..i])
    {
      assert timeEntries[..i + 1][..i] == timeEntries[..i];
      delta := delta + timeEntries[i].durationSeconds;
    }
    assert timeEntries[..|timeEntries|] == timeEntries;
    var hours := delta as real / 60.0 / 60.0;
    item := new WorkItem(projectName, description, rate, hours);
  }

  /** One pass of get_work_items' loop: the group of d merged into a new
      work item with the project of the group's first entry. */
  method MergeDescription(projects: seq<Project>, es: seq<TimeEntry>, d: string) returns (item: WorkItem)
    requires Mergeable(projects, es, d)
    ensures fresh(item)
    ensures item.View() == GroupLine(projects, es, d)
    ensures item.roundedHours == None && item.total == None
  {
    var group := WithDescription(es, d);
    var project := FindProject(projects, group[0].projectId);
    item := MergeTimeEntries(project.value, group);
  }

  /** The loop of get_work_items: one new work item per description of ds,
      in the order of ds. */
  method MergeAll(projects: seq<Project>, es: seq<TimeEntry>, ds: seq<string>)
    returns (items: seq<WorkItem>)
    requires forall d :: d in ds ==> Mergeable(projects, es, d)
    ensures Views(items) == MergedLines(projects, es, ds)
    ensures forall i :: 0 <= i < |items| ==>
      fresh(items[i]) && items[i].roundedHours == None && items[i].total == None
  {
    items := [];
    for k := 0 to |ds|
      invariant Views(items) == MergedLines(projects, es, ds[..k])
      invariant forall i :: 0 <= i < |items| ==>
        fresh(items[i]) && items[i].roundedHours == None && items[i].total == None
    {
      assert ds[k] in ds;
      var item := MergeDescription(projects, es, ds[k]);
      MergedLinesExtend(projects, es, ds, k);
      ViewsAppend(items, item);
      items := items + [item];
    }
    assert ds[..|ds|] == ds;
  }

  /** get_work_items: one new work item per description of the client's
      entries, in ascending description order. */
  method GetWorkItems(projects: seq<Project>, timeEntries: seq<TimeEntry>, clientName: string)
    returns (items: seq<WorkItem>)
    ensures Views(items) == WorkItemLines(projects, timeEntries, clientName)
    ensures forall i :: 0 <= i < |items| ==>
      fresh(items[i]) && items[i].roundedHours == None && items[i].total == None
  {
    var es := ClientEntries(projects, timeEntries, clientName);
    var ds := SortedDescriptions(es);
    ClientDescriptionsMergeable(projects, timeEntries, clientName);
    items := MergeAll(projects, es, ds);
  }
}
