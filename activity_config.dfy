/**
 * ActivityConfig.Normalize: the activity schedule file may list schedule rows directly, or
 * activity entries whose modules become rows; Normalize fills in defaults, drops rows without
 * an activity, and keeps the first row of each (activity, panel) pair.
 */
module Activity {
  import opened Common
  import opened Text

  /** 2022-09-27 12:00:00 UTC. */
  const DefaultBeginTime: int := 1664308800
  /** 2106-02-07 06:28:15 UTC. */
  const DefaultEndTime: int := 4294967295

  /** ActivityScheduleData. */
  datatype ScheduleItem = ScheduleItem(activityId: int32, beginTime: int, endTime: int, panelId: int32)

  /** ActivityConfigEntry; a module list that is null is `None`. */
  datatype ConfigEntry = ConfigEntry(activityId: int32, activityPanelId: int32, residentModules: Option<seq<int32>>,
                                     activityModules: Option<seq<int32>>, beginTime: int, endTime: int)

  /** The field rewrites AddOne applies to a row before deciding whether to keep it. */
  function Normalized(item: ScheduleItem): (r: ScheduleItem)
    ensures r.activityId == Max(item.activityId, 0)
    ensures r.activityId > 0 ==> r.panelId > 0 && r.beginTime > 0 && r.endTime > 0
    ensures item.panelId > 0 ==> r.panelId == item.panelId
    ensures item.beginTime > 0 ==> r.beginTime == item.beginTime
    ensures item.endTime > 0 ==> r.endTime == item.endTime
  {
    var activityId := Max(item.activityId, 0);
    ScheduleItem(activityId,
                 if item.beginTime > 0 then item.beginTime else DefaultBeginTime,
                 if item.endTime > 0 then item.endTime else DefaultEndTime,
                 if item.panelId > 0 then item.panelId else activityId)
  }

  /** The de-duplication key "ActivityId:PanelId". */
  function KeyOf(item: ScheduleItem): string {
    IntToString(item.activityId) + ":" + IntToString(item.panelId)
  }

  /** Distinct (activity, panel) pairs have distinct keys. */
  lemma KeyInjective(x: ScheduleItem, y: ScheduleItem)
    requires KeyOf(x) == KeyOf(y)
    ensures x.activityId == y.activityId && x.panelId == y.panelId
  {
    IntToStringNoColon(x.panelId);
    IntToStringNoColon(y.panelId);
    AfterLastColonOfJoin(IntToString(x.activityId), IntToString(x.panelId));
    AfterLastColonOfJoin(IntToString(y.activityId), IntToString(y.panelId));
    IntToStringInjective(x.panelId, y.panelId);
    var a := IntToString(x.activityId);
    var b := IntToString(y.activityId);
    assert |a| == |b|;
    assert a == KeyOf(x)[..|a|] == KeyOf(y)[..|b|] == b;
    IntToStringInjective(x.activityId, y.activityId);
  }

  /** The merged list and the key set as Normalize builds them. */
  datatype Merge = Merge(merged: seq<ScheduleItem>, unique: set<string>)

  /** AddOne: normalise the row; keep it when it has an activity and its key is new. */
  function AddOne(m: Merge, item: ScheduleItem): Merge {
    var n := Normalized(item);
    if n.activityId <= 0 || KeyOf(n) in m.unique then m
    else Merge(m.merged + [n], m.unique + {KeyOf(n)})
  }

  /** AddOne over rows in order. */
  function AddAll(m: Merge, items: seq<ScheduleItem>): Merge {
    if items == [] then m
    else AddOne(AddAll(m, items[..|items| - 1]), items[|items| - 1])
  }

  lemma {:induction false} AddAllAppend(m: Merge, a: seq<ScheduleItem>, b: seq<ScheduleItem>)
    ensures AddAll(m, a + b) == AddAll(AddAll(m, a), b)
  {
    if b != [] {
      var init := b[..|b| - 1];
      AddAllAppend(m, a, init);
      assert (a + b)[..|a + b| - 1] == a + init;
    } else {
      assert a + b == a;
    }
  }

  lemma AddAllStep(m: Merge, xs: seq<ScheduleItem>, i: int)
    requires 0 <= i < |xs|
    ensures AddAll(m, xs[..i + 1]) == AddOne(AddAll(m, xs[..i]), xs[i])
  {
    assert xs[..i + 1][..i] == xs[..i];
  }

  /** One more row of an entry: AddOne of the row built from the next module. */
  lemma EntryStep(m: Merge, e: ConfigEntry, i: int)
    requires 0 <= i < |ModulesOf(e)|
    ensures AddAll(m, ItemsOf(e)[..i + 1])
            == AddOne(AddAll(m, ItemsOf(e)[..i]),
                      ScheduleItem(ModulesOf(e)[i], if e.beginTime > 0 then e.beginTime else DefaultBeginTime,
                                   if e.endTime > 0 then e.endTime else DefaultEndTime,
                                   if e.activityPanelId > 0 then e.activityPanelId else e.activityId))
  {
    AddAllStep(m, ItemsOf(e), i);
  }

  /** The modules of an entry: resident then activity modules, or the activity itself when both are empty. */
  function ModulesOf(e: ConfigEntry): (r: seq<int32>)
    ensures |r| == 0 ==> e.activityId <= 0
  {
    var modules := (if e.residentModules.Some? then e.residentModules.value else [])
                   + (if e.activityModules.Some? then e.activityModules.value else []);
    if |modules| == 0 && e.activityId > 0 then [e.activityId] else modules
  }

  /** The rows an entry contributes: one per module, each with the entry's panel and times (defaults applied). */
  function ItemsOf(e: ConfigEntry): (r: seq<ScheduleItem>)
    ensures |r| == |ModulesOf(e)|
    ensures forall i :: 0 <= i < |r| ==>
      && r[i].activityId == ModulesOf(e)[i]
      && r[i].panelId == (if e.activityPanelId > 0 then e.activityPanelId else e.activityId)
      && r[i].beginTime == (if e.beginTime > 0 then e.beginTime else DefaultBeginTime)
      && r[i].endTime == (if e.endTime > 0 then e.endTime else DefaultEndTime)
  {
    var panelId := if e.activityPanelId > 0 then e.activityPanelId else e.activityId;
    var begin := if e.beginTime > 0 then e.beginTime else DefaultBeginTime;
    var end := if e.endTime > 0 then e.endTime else DefaultEndTime;
    var modules := ModulesOf(e);
    seq(|modules|, i requires 0 <= i < |modules| => ScheduleItem(modules[i], begin, end, panelId))
  }

  /** An entry without modules and with a positive activity contributes exactly one row, for that activity. */
  lemma EntryWithoutModules(e: ConfigEntry)
    requires e.residentModules.None? || e.residentModules.value == []
    requires e.activityModules.None? || e.activityModules.value == []
    requires e.activityId > 0
    ensures |ItemsOf(e)| == 1 && ItemsOf(e)[0].activityId == e.activityId
  {
  }

  /** The rows of all entries, in order. */
  function Flatten(entries: seq<ConfigEntry>): seq<ScheduleItem> {
    if entries == [] then [] else Flatten(entries[..|entries| - 1]) + ItemsOf(entries[|entries| - 1])
  }

  /** The new ScheduleData: the existing rows first, then the rows of the entries. */
  function NormalizedSchedule(schedule: seq<ScheduleItem>, entries: seq<ConfigEntry>): seq<ScheduleItem> {
    AddAll(AddAll(Merge([], {}), schedule), Flatten(entries)).merged
  }

  /** Two rows are for the same (activity, panel) pair. */
  predicate SamePair(x: ScheduleItem, y: ScheduleItem) {
    x.activityId == y.activityId && x.panelId == y.panelId
  }

  /** Keys are equal exactly for rows of the same pair. */
  lemma KeyIff(x: ScheduleItem, y: ScheduleItem)
    ensures KeyOf(x) == KeyOf(y) <==> SamePair(x, y)
  {
    if KeyOf(x) == KeyOf(y) {
      KeyInjective(x, y);
    }
  }

  /** A kept row: it has an activity, and no earlier row with an activity has its pair once normalised. */
  predicate FirstOf(xs: seq<ScheduleItem>, i: int)
    requires 0 <= i < |xs|
  {
    && xs[i].activityId > 0
    && forall j :: 0 <= j < i && xs[j].activityId > 0 ==> !SamePair(Normalized(xs[j]), Normalized(xs[i]))
  }

  /** The merged list holds rows with an activity, a panel and both times, one per key, each key recorded. */
  predicate MergeValid(m: Merge) {
    && (forall i :: 0 <= i < |m.merged| ==> m.merged[i].activityId > 0 && m.merged[i].panelId > 0
                                            && m.merged[i].beginTime > 0 && m.merged[i].endTime > 0)
    && (forall i, j :: 0 <= i < j < |m.merged| ==> KeyOf(m.merged[i]) != KeyOf(m.merged[j]))
    && (forall i :: 0 <= i < |m.merged| ==> KeyOf(m.merged[i]) in m.unique)
  }

  lemma AddOneValid(m: Merge, item: ScheduleItem)
    requires MergeValid(m)
    ensures MergeValid(AddOne(m, item))
  {
    var n := Normalized(item);
    if n.activityId > 0 && KeyOf(n) !in m.unique {
      var r := AddOne(m, item);
      assert r.merged == m.merged + [n];
      assert forall i :: 0 <= i < |m.merged| ==> r.merged[i] == m.merged[i];
      forall i, j | 0 <= i < j < |r.merged|
        ensures KeyOf(r.merged[i]) != KeyOf(r.merged[j])
      {
        if j == |m.merged| {
          assert KeyOf(r.merged[i]) in m.unique;
        }
      }
    }
  }

  /** From an empty start the merged list keeps the invariant. */
  lemma {:induction false} AddAllValid(xs: seq<ScheduleItem>)
    ensures MergeValid(AddAll(Merge([], {}), xs))
  {
    if xs != [] {
      AddAllValid(xs[..|xs| - 1]);
      AddOneValid(AddAll(Merge([], {}), xs[..|xs| - 1]), xs[|xs| - 1]);
    }
  }

  /** Some row with an activity normalises to the key. */
  predicate KeySeen(xs: seq<ScheduleItem>, k: string) {
    exists i :: 0 <= i < |xs| && xs[i].activityId > 0 && KeyOf(Normalized(xs[i])) == k
  }

  /** The key set holds the keys of the rows with an activity. */
  lemma {:induction false} AddAllUnique(xs: seq<ScheduleItem>, k: string)
    ensures k in AddAll(Merge([], {}), xs).unique <==> KeySeen(xs, k)
  {
    if xs != [] {
      var n := |xs| - 1;
      AddAllUnique(xs[..n], k);
      assert forall i :: 0 <= i < n ==> xs[..n][i] == xs[i];
      if KeySeen(xs, k) && !KeySeen(xs[..n], k) {
        var i :| 0 <= i < |xs| && xs[i].activityId > 0 && KeyOf(Normalized(xs[i])) == k;
        assert i == n;
      }
    }
  }

  /** Every merged row is the normalised form of a row that is the first of its pair. */
  lemma {:induction false} MergedAreFirst(xs: seq<ScheduleItem>, x: ScheduleItem)
    requires x in AddAll(Merge([], {}), xs).merged
    ensures exists i :: 0 <= i < |xs| && FirstOf(xs, i) && x == Normalized(xs[i])
  {
    var n := |xs| - 1;
    var init := xs[..n];
    var before := AddAll(Merge([], {}), init);
    FirstOfLast(xs, before);
    if x in before.merged {
      MergedAreFirst(init, x);
      var i :| 0 <= i < n && FirstOf(init, i) && x == Normalized(init[i]);
      FirstOfPrefix(xs, n, i);
      assert FirstOf(xs, i) && x == Normalized(xs[i]);
    } else {
      assert FirstOf(xs, n) && x == Normalized(xs[n]);
    }
  }

  /** The normalised form of every row that is the first of its pair is merged. */
  lemma {:induction false} FirstAreMerged(xs: seq<ScheduleItem>, i: int)
    requires 0 <= i < |xs| && FirstOf(xs, i)
    ensures Normalized(xs[i]) in AddAll(Merge([], {}), xs).merged
  {
    var n := |xs| - 1;
    var init := xs[..n];
    var before := AddAll(Merge([], {}), init);
    FirstOfLast(xs, before);
    if i < n {
      FirstOfPrefix(xs, n, i);
      FirstAreMerged(init, i);
      assert Normalized(xs[i]) in before.merged;
    }
  }

  /** The merged list holds exactly the normalised rows that are the first of their pair. */
  lemma AddAllMerged(xs: seq<ScheduleItem>, x: ScheduleItem)
    ensures x in AddAll(Merge([], {}), xs).merged <==> exists i :: 0 <= i < |xs| && FirstOf(xs, i) && x == Normalized(xs[i])
  {
    if x in AddAll(Merge([], {}), xs).merged {
      MergedAreFirst(xs, x);
    }
    if exists i :: 0 <= i < |xs| && FirstOf(xs, i) && x == Normalized(xs[i]) {
      var i :| 0 <= i < |xs| && FirstOf(xs, i) && x == Normalized(xs[i]);
      FirstAreMerged(xs, i);
    }
  }

  /** Whether a row is the first of its pair depends only on the rows up to it. */
  lemma FirstOfPrefix(xs: seq<ScheduleItem>, n: int, i: int)
    requires 0 <= i < n <= |xs|
    ensures FirstOf(xs[..n], i) <==> FirstOf(xs, i)
    ensures xs[..n][i] == xs[i]
  {
    assert forall j :: 0 <= j <= i ==> xs[..n][j] == xs[j];
  }

  /** The last row is kept by AddOne exactly when it is the first of its pair. */
  lemma FirstOfLast(xs: seq<ScheduleItem>, before: Merge)
    requires xs != [] && before == AddAll(Merge([], {}), xs[..|xs| - 1])
    ensures var n := |xs| - 1;
      FirstOf(xs, n) <==> Normalized(xs[n]).activityId > 0 && KeyOf(Normalized(xs[n])) !in before.unique
  {
    var n := |xs| - 1;
    var init := xs[..n];
    var y := Normalized(xs[n]);
    AddAllUnique(init, KeyOf(y));
    if xs[n].activityId > 0 {
      if KeySeen(init, KeyOf(y)) {
        var j :| 0 <= j < n && init[j].activityId > 0 && KeyOf(Normalized(init[j])) == KeyOf(y);
        KeyIff(Normalized(init[j]), y);
        assert xs[j] == init[j];
      } else {
        forall j | 0 <= j < n && xs[j].activityId > 0
          ensures !SamePair(Normalized(xs[j]), y)
        {
          KeyIff(Normalized(xs[j]), y);
          assert init[j] == xs[j];
        }
      }
    }
  }

  /**
   * After Normalize no two rows share an (activity, panel) pair, and every row has an
   * activity, a panel and both times.
   */
  lemma NormalizedDistinct(schedule: seq<ScheduleItem>, entries: seq<ConfigEntry>)
    ensures forall i :: 0 <= i < |NormalizedSchedule(schedule, entries)| ==>
              var r := NormalizedSchedule(schedule, entries)[i];
              r.activityId > 0 && r.panelId > 0 && r.beginTime > 0 && r.endTime > 0
    ensures forall i, j :: 0 <= i < j < |NormalizedSchedule(schedule, entries)| ==>
              !SamePair(NormalizedSchedule(schedule, entries)[i], NormalizedSchedule(schedule, entries)[j])
  {
    var xs := schedule + Flatten(entries);
    AddAllAppend(Merge([], {}), schedule, Flatten(entries));
    AddAllValid(xs);
    var r := NormalizedSchedule(schedule, entries);
    forall i, j | 0 <= i < j < |r|
      ensures !SamePair(r[i], r[j])
    {
      KeyIff(r[i], r[j]);
    }
  }

  /** The normaliser is one fold over the existing rows followed by the entries' rows. */
  lemma NormalizedIsOneFold(schedule: seq<ScheduleItem>, entries: seq<ConfigEntry>)
    ensures NormalizedSchedule(schedule, entries) == AddAll(Merge([], {}), schedule + Flatten(entries)).merged
  {
    AddAllAppend(Merge([], {}), schedule, Flatten(entries));
  }

  /**
   * Normalize keeps exactly the first row of each key, taking the existing rows before the
   * rows of the entries: a row is kept iff it is the first with an activity and its key.
   */
  lemma NormalizedKeepsFirst(schedule: seq<ScheduleItem>, entries: seq<ConfigEntry>, x: ScheduleItem)
    ensures var xs := schedule + Flatten(entries);
            x in NormalizedSchedule(schedule, entries) <==> exists i :: 0 <= i < |xs| && FirstOf(xs, i) && x == Normalized(xs[i])
  {
    var xs := schedule + Flatten(entries);
    NormalizedIsOneFold(schedule, entries);
    AddAllMerged(xs, x);
  }

  /**
   * The existing rows take precedence: a row of the entries whose key is that of an existing
   * row with an activity is never the kept row for that key.
   */
  lemma ScheduleTakesPrecedence(schedule: seq<ScheduleItem>, entries: seq<ConfigEntry>, s: int, f: int)
    requires 0 <= s < |schedule| && 0 <= f < |Flatten(entries)|
    requires schedule[s].activityId > 0
    requires SamePair(Normalized(schedule[s]), Normalized(Flatten(entries)[f]))
    ensures !FirstOf(schedule + Flatten(entries), |schedule| + f)
  {
    var xs := schedule + Flatten(entries);
    assert xs[s] == schedule[s];
    assert xs[|schedule| + f] == Flatten(entries)[f];
  }

  /** ActivityConfig after deserialisation. */
  class ActivityConfig {
    var scheduleData: seq<ScheduleItem>
    var activityConfigEntries: seq<ConfigEntry>

    constructor (scheduleData: seq<ScheduleItem>, entries: seq<ConfigEntry>)
      ensures this.scheduleData == scheduleData && activityConfigEntries == entries
    {
      this.scheduleData := scheduleData;
      activityConfigEntries := entries;
    }

    /** Normalize: ScheduleData becomes the merged list of the existing rows and the entries' rows. */
    method Normalize()
      modifies this
      ensures scheduleData == NormalizedSchedule(old(scheduleData), old(activityConfigEntries))
      ensures activityConfigEntries == old(activityConfigEntries)
    {
      var merged, unique := AddRows([], {}, scheduleData);
      ghost var base := Merge(merged, unique);
      var entries := activityConfigEntries;
      var e := 0;
      while e < |entries|
        invariant 0 <= e <= |entries|
        invariant Merge(merged, unique) == AddAll(base, Flatten(entries[..e]))
        invariant activityConfigEntries == entries
      {
        assert entries[..e + 1][..e] == entries[..e];
        assert Flatten(entries[..e + 1]) == Flatten(entries[..e]) + ItemsOf(entries[e]);
        AddAllAppend(base, Flatten(entries[..e]), ItemsOf(entries[e]));
        merged, unique := AddEntry(merged, unique, entries[e]);
        e := e + 1;
      }
      assert entries[..e] == entries;
      scheduleData := merged;
    }
  }

  /** The module list of an entry: resident modules, then activity modules, else the activity itself. */
  method CollectModules(entry: ConfigEntry) returns (modules: seq<int32>)
    ensures modules == ModulesOf(entry)
  {
    modules := [];
    if entry.residentModules.Some? {
      modules := modules + entry.residentModules.value;
    }
    if entry.activityModules.Some? {
      modules := modules + entry.activityModules.value;
    }
    if |modules| == 0 && entry.activityId > 0 {
      modules := modules + [entry.activityId];
    }
  }

  /** The existing rows, each through AddOne. */
  method AddRows(merged: seq<ScheduleItem>, unique: set<string>, rows: seq<ScheduleItem>)
    returns (merged': seq<ScheduleItem>, unique': set<string>)
    ensures Merge(merged', unique') == AddAll(Merge(merged, unique), rows)
  {
    merged', unique' := merged, unique;
    var k := 0;
    while k < |rows|
      invariant 0 <= k <= |rows|
      invariant Merge(merged', unique') == AddAll(Merge(merged, unique), rows[..k])
    {
      AddAllStep(Merge(merged, unique), rows, k);
      merged', unique' := AddOneStep(merged', unique', rows[k]);
      k := k + 1;
    }
    assert rows[..k] == rows;
  }

  /** The rows of one activity entry, each through AddOne. */
  method AddEntry(merged: seq<ScheduleItem>, unique: set<string>, entry: ConfigEntry)
    returns (merged': seq<ScheduleItem>, unique': set<string>)
    ensures Merge(merged', unique') == AddAll(Merge(merged, unique), ItemsOf(entry))
  {
    var panelId := if entry.activityPanelId > 0 then entry.activityPanelId else entry.activityId;
    var begin := if entry.beginTime > 0 then entry.beginTime else DefaultBeginTime;
    var end := if entry.endTime > 0 then entry.endTime else DefaultEndTime;
    var modules := CollectModules(entry);
    var items := ItemsOf(entry);
    merged', unique' := merged, unique;
    var i := 0;
    while i < |modules|
      invariant 0 <= i <= |modules|
      invariant Merge(merged', unique') == AddAll(Merge(merged, unique), items[..i])
    {
      EntryStep(Merge(merged, unique), entry, i);
      merged', unique' := AddOneStep(merged', unique', ScheduleItem(modules[i], begin, end, panelId));
      i := i + 1;
    }
    assert items[..i] == items;
  }

  /** The body of AddOne on the merged list and key set. */
  method AddOneStep(merged: seq<ScheduleItem>, unique: set<string>, item: ScheduleItem)
    returns (merged': seq<ScheduleItem>, unique': set<string>)
    ensures Merge(merged', unique') == AddOne(Merge(merged, unique), item)
  {
    var activityId := Max(item.activityId, 0);
    var panelId := if item.panelId > 0 then item.panelId else activityId;
    var beginTime := if item.beginTime > 0 then item.beginTime else DefaultBeginTime;
    var endTime := if item.endTime > 0 then item.endTime else DefaultEndTime;
    merged', unique' := merged, unique;
    if activityId <= 0 {
      return;
    }
    var normalized := ScheduleItem(activityId, beginTime, endTime, panelId);
    var key := IntToString(activityId) + ":" + IntToString(panelId);
    if key in unique {
      return;
    }
    unique' := unique + {key};
    merged' := merged + [normalized];
  }
}
