/** The steps of the preferences between their layouts, and the plans of the documents of the app. */
module Migrations {
  import opened Wrappers
  import opened Upgrade

  const LOOK_KEYS: seq<string> := ["zone", "invert", "grid", "grid_horizontal", "grid_vertical", "crosshair",
                                   "margin", "watermark", "colors", "price_lines", "status", "trading"]

  // ---- trimming the account panel ----

  function Trimmed(table: Table): Table {
    if "account_panel" in table && table["account_panel"].Sub? then
      var panel := table["account_panel"].table;
      table["account_panel" := Sub(map key | key in panel && key == "tab" :: panel[key])]
    else table
  }

  lemma TrimKeepsTheTab(table: Table)
    ensures Trimmed(Trimmed(table)) == Trimmed(table)
    ensures Trimmed(table).Keys == table.Keys
    ensures forall key | key in table && key != "account_panel" :: Trimmed(table)[key] == table[key]
    ensures "account_panel" in table && table["account_panel"].Sub? ==>
              var before, after := table["account_panel"].table, Trimmed(table)["account_panel"];
              after.Sub? && after.table.Keys <= {"tab"}
              && ("tab" in before <==> "tab" in after.table) && ("tab" in before ==> after.table["tab"] == before["tab"])
  {
    if "account_panel" in table && table["account_panel"].Sub? {
      var once, twice := Trimmed(table), Trimmed(Trimmed(table));
      assert twice["account_panel"].table == once["account_panel"].table;
      assert twice == once;
    }
  }

  // ---- lifting the look out of the charts ----

  function SettingsOf(chart: Value): Option<Table> {
    if chart.Sub? && "settings" in chart.table && chart.table["settings"].Sub? then
      Some(chart.table["settings"].table)
    else None
  }

  /** A missing key, a value that is no integer and a negative one all mean place zero. */
  function ActiveOf(table: Table): nat {
    if "active_chart" in table && table["active_chart"].Integer? && table["active_chart"].n >= 0 then
      table["active_chart"].n
    else 0
  }

  /** The place of the first chart with settings. */
  function FirstWithSettings(charts: seq<Value>): (r: Option<nat>)
    ensures r.Some? ==> r.value < |charts| && SettingsOf(charts[r.value]).Some?
    ensures r.Some? ==> forall i | 0 <= i < r.value :: SettingsOf(charts[i]).None?
    ensures r.None? ==> forall i | 0 <= i < |charts| :: SettingsOf(charts[i]).None?
  {
    if charts == [] then None
    else match FirstWithSettings(charts[..|charts| - 1])
      case Some(i) => Some(i)
      case None => if SettingsOf(charts[|charts| - 1]).Some? then Some(|charts| - 1) else None
  }

  function SourceOf(charts: seq<Value>, active: nat): (r: Option<nat>)
    ensures r.Some? ==> r.value < |charts| && SettingsOf(charts[r.value]).Some?
  {
    if active < |charts| && SettingsOf(charts[active]).Some? then Some(active) else FirstWithSettings(charts)
  }

  function LookOf(settings: Table): Table {
    map key | key in settings && key in LOOK_KEYS :: settings[key]
  }

  function WithoutLook(settings: Table): Table {
    map key | key in settings && key !in LOOK_KEYS :: settings[key]
  }

  function Cleaned(chart: Value): Value {
    if SettingsOf(chart).Some? then
      Sub(chart.table["settings" := Sub(WithoutLook(chart.table["settings"].table))])
    else chart
  }

  function AllCleaned(charts: seq<Value>): (r: seq<Value>)
    ensures |r| == |charts|
    ensures forall i | 0 <= i < |charts| :: r[i] == Cleaned(charts[i])
  {
    seq(|charts|, i requires 0 <= i < |charts| => Cleaned(charts[i]))
  }

  function ChartsOf(table: Table): Option<seq<Value>> {
    if "charts" in table && table["charts"].List? then Some(table["charts"].items) else None
  }

  /** The look keys of the source chart; empty when there is none. */
  function LookFound(table: Table): Table {
    match ChartsOf(table)
    case None => map[]
    case Some(charts) =>
      match SourceOf(charts, ActiveOf(table))
      case None => map[]
      case Some(i) => LookOf(SettingsOf(charts[i]).value)
  }

  function WithZone(look: Table, table: Table): Table {
    if "zone" in table && "zone" !in look then look["zone" := table["zone"]] else look
  }

  function Lifted(table: Table): Table {
    var look := WithZone(LookFound(table), table);
    var cleaned := match ChartsOf(table)
      case None => table
      case Some(charts) => table["charts" := List(AllCleaned(charts))];
    var rest := cleaned - {"zone"};
    if look != map[] && "chart" !in rest then rest["chart" := Sub(look)] else rest
  }

  /** The keys of the look that the settings have, copied one after the other. */
  method CopyLook(settings: Table) returns (look: Table)
    ensures look == LookOf(settings)
  {
    look := map[];
    var i := 0;
    while i < |LOOK_KEYS|
      invariant 0 <= i <= |LOOK_KEYS|
      invariant look == map key | key in settings && key in LOOK_KEYS[..i] :: settings[key]
    {
      var key := LOOK_KEYS[i];
      assert LOOK_KEYS[..i + 1] == LOOK_KEYS[..i] + [key];
      if key in settings {
        look := look[key := settings[key]];
      }
      i := i + 1;
    }
    assert LOOK_KEYS[..i] == LOOK_KEYS;
  }

  method RemoveLook(settings: Table) returns (rest: Table)
    ensures rest == WithoutLook(settings)
  {
    rest := settings;
    var i := 0;
    while i < |LOOK_KEYS|
      invariant 0 <= i <= |LOOK_KEYS|
      invariant rest == map key | key in settings && key !in LOOK_KEYS[..i] :: settings[key]
    {
      assert LOOK_KEYS[..i + 1] == LOOK_KEYS[..i] + [LOOK_KEYS[i]];
      rest := rest - {LOOK_KEYS[i]};
      i := i + 1;
    }
    assert LOOK_KEYS[..i] == LOOK_KEYS;
  }

  method CleanCharts(charts: seq<Value>) returns (done: seq<Value>)
    ensures done == AllCleaned(charts)
  {
    var i := 0;
    done := charts;
    while i < |charts|
      invariant 0 <= i <= |charts| == |done|
      invariant forall k | 0 <= k < i :: done[k] == Cleaned(charts[k])
      invariant forall k | i <= k < |charts| :: done[k] == charts[k]
    {
      var settings := SettingsOf(done[i]);
      if settings.Some? {
        var rest := RemoveLook(settings.value);
        done := done[i := Sub(done[i].table["settings" := Sub(rest)])];
      }
      i := i + 1;
    }
  }

  /** The step as the source takes it: the look is copied, then taken out of each chart, then put at the top. */
  method LiftChartLook(table: Table) returns (r: Table)
    ensures r == Lifted(table)
  {
    var active := ActiveOf(table);
    var look: Table := map[];
    r := table;
    if "charts" in r && r["charts"].List? {
      var charts := r["charts"].items;
      var source := SourceOf(charts, active);
      if source.Some? {
        look := CopyLook(SettingsOf(charts[source.value]).value);
      }
      var done := CleanCharts(charts);
      r := r["charts" := List(done)];
    }
    if "zone" in r {
      if "zone" !in look {
        look := look["zone" := r["zone"]];
      }
      r := r - {"zone"};
    }
    if look != map[] && "chart" !in r {
      r := r["chart" := Sub(look)];
    }
  }

  // ---- what the lift keeps, moves and leaves ----

  predicate NoLook(chart: Value) {
    SettingsOf(chart).Some? ==> forall key | key in LOOK_KEYS :: key !in SettingsOf(chart).value
  }

  /** No chart says how it looks any more, and the old zone at the top is gone. */
  lemma NoLookKeyIsLeft(table: Table)
    ensures "zone" !in Lifted(table)
    ensures ChartsOf(Lifted(table)).Some? ==>
              forall i | 0 <= i < |ChartsOf(Lifted(table)).value| :: NoLook(ChartsOf(Lifted(table)).value[i])
  {
  }

  predicate SameBut(a: Table, b: Table, keys: set<string>) {
    && (forall key | key in a && key !in keys :: key in b && b[key] == a[key])
    && (forall key | key in b && key !in keys :: key in a)
  }

  predicate SameChartButLook(a: Value, b: Value) {
    match SettingsOf(a)
    case None => b == a
    case Some(settings) =>
      && SettingsOf(b).Some? && SameBut(a.table, b.table, {"settings"})
      && SameBut(settings, SettingsOf(b).value, set key | key in LOOK_KEYS)
  }

  /** Every other key keeps its value: at the top, in each chart and in the settings of each chart. */
  lemma EveryOtherKeyIsKept(table: Table)
    ensures SameBut(table, Lifted(table), {"charts", "zone", "chart"})
    ensures "chart" in table ==> "chart" in Lifted(table) && Lifted(table)["chart"] == table["chart"]
    ensures "charts" in table <==> "charts" in Lifted(table)
    ensures "charts" in table && !table["charts"].List? ==> Lifted(table)["charts"] == table["charts"]
    ensures ChartsOf(table).Some? ==> ChartsOf(Lifted(table)).Some?
    ensures ChartsOf(table).Some? ==>
              var before, after := ChartsOf(table).value, ChartsOf(Lifted(table)).value;
              |after| == |before| && forall i | 0 <= i < |before| :: SameChartButLook(before[i], after[i])
  {
    if ChartsOf(table).Some? {
      var before, after := ChartsOf(table).value, ChartsOf(Lifted(table)).value;
      forall i | 0 <= i < |before| ensures SameChartButLook(before[i], after[i]) {
        assert after[i] == Cleaned(before[i]);
      }
    }
  }

  /**
   The look the user sees stays the one they see: each key of the new table is what the source chart
   said, and the zone at the top is the zone when that chart said none.
   */
  lemma TheLookIsMoved(table: Table, charts: seq<Value>, source: nat, key: string)
    requires "chart" !in table && ChartsOf(table) == Some(charts) && SourceOf(charts, ActiveOf(table)) == Some(source)
    requires key in LOOK_KEYS
    ensures var settings := SettingsOf(charts[source]).value;
            var said := if key in settings then Some(settings[key])
                        else if key == "zone" && "zone" in table then Some(table["zone"]) else None;
      said == if "chart" in Lifted(table) && Lifted(table)["chart"].Sub? && key in Lifted(table)["chart"].table then
                Some(Lifted(table)["chart"].table[key])
              else None
  {
    var look := WithZone(LookFound(table), table);
    if key in look {
      assert look != map[];
    }
  }

  /** With no chart that has settings only the zone at the top is moved, when there is one. */
  lemma TheZoneIsMoved(table: Table)
    requires "chart" !in table && (ChartsOf(table).None? || SourceOf(ChartsOf(table).value, ActiveOf(table)).None?)
    ensures Lifted(table) ==
            if "zone" in table then (table - {"zone"})["chart" := Sub(map["zone" := table["zone"]])] else table
  {
    if ChartsOf(table).Some? {
      var charts := ChartsOf(table).value;
      assert AllCleaned(charts) == charts;
    }
  }

  predicate HasSettings(chart: Value) {
    chart.Sub? && "settings" in chart.table && chart.table["settings"].Sub?
  }

  /** Which keys are part of the look. */
  lemma WhatTheLookIs(key: string)
    ensures key in LOOK_KEYS <==> key in {"zone", "invert", "grid", "grid_horizontal", "grid_vertical", "crosshair", "margin",
                                          "watermark", "colors", "price_lines", "status", "trading"}
  {
  }

  /**
   The look is taken from the chart that was worked on, the first when no place is said, if it has
   settings; else from the first chart that has.
   */
  lemma WhichChartGivesTheLook(table: Table, charts: seq<Value>, place: nat)
    requires if "active_chart" !in table then place == 0 else table["active_chart"] == Integer(place)
    ensures place < |charts| && HasSettings(charts[place]) ==> SourceOf(charts, ActiveOf(table)) == Some(place)
    ensures forall i | 0 <= i < |charts| && HasSettings(charts[i]) && !(place < |charts| && HasSettings(charts[place]))
                       && (forall j | 0 <= j < i :: !HasSettings(charts[j])) ::
              SourceOf(charts, ActiveOf(table)) == Some(i)
  {
  }

  lemma CleanedTwice(chart: Value)
    ensures Cleaned(Cleaned(chart)) == Cleaned(chart)
    ensures SettingsOf(Cleaned(chart)).Some? ==> LookOf(SettingsOf(Cleaned(chart)).value) == map[]
  {
    if SettingsOf(chart).Some? {
      var settings := SettingsOf(chart).value;
      assert WithoutLook(WithoutLook(settings)) == WithoutLook(settings);
      assert Cleaned(chart).table["settings" := Sub(WithoutLook(settings))] == Cleaned(chart).table;
    }
  }

  /** The lift is idempotent on every table. */
  lemma LiftTwiceIsOnce(table: Table)
    ensures Lifted(Lifted(table)) == Lifted(table)
  {
    var once := Lifted(table);
    assert "zone" !in once;
    if ChartsOf(table).Some? {
      LiftedChartsAreClean(table);
      var charts := ChartsOf(once).value;
      assert AllCleaned(charts) == charts;
      assert LookFound(once) == map[];
      assert once["charts" := List(charts)] == once;
    } else {
      assert ChartsOf(once).None?;
    }
    assert once - {"zone"} == once;
  }

  lemma LiftedChartsAreClean(table: Table)
    requires ChartsOf(table).Some?
    ensures ChartsOf(Lifted(table)) == Some(AllCleaned(ChartsOf(table).value))
    ensures forall i | 0 <= i < |ChartsOf(table).value| ::
              Cleaned(ChartsOf(Lifted(table)).value[i]) == ChartsOf(Lifted(table)).value[i]
    ensures LookFound(Lifted(table)) == map[]
  {
    var charts, after := ChartsOf(table).value, ChartsOf(Lifted(table)).value;
    forall i | 0 <= i < |charts|
      ensures Cleaned(after[i]) == after[i]
      ensures SettingsOf(after[i]).Some? ==> LookOf(SettingsOf(after[i]).value) == map[]
    {
      CleanedTwice(charts[i]);
    }
  }

  // ---- the plans ----

  function Unchanged(from: nat): Step {
    Step(from, table => Ok(table))
  }

  const PREFERENCES := Plan(4, [Step(1, table => Ok(Trimmed(table))), Step(2, table => Ok(Lifted(table))), Unchanged(3)])
  const WATCHLISTS := Plan(1, [])
  const ALERTS := Plan(2, [Unchanged(1)])
  const DRAWINGS := Plan(1, [])

  function Marked(table: Table, version: nat): Table {
    table[VERSION_KEY := Integer(version)]
  }

  /** Preferences of any earlier version are upgraded without fail, by the steps that are left for them. */
  lemma PreferencesComeThrough(table: Table)
    requires VersionOf(table).Ok? && VersionOf(table).value < 4
    ensures IsComplete(PREFERENCES) && IsComplete(WATCHLISTS) && IsComplete(ALERTS) && IsComplete(DRAWINGS)
    ensures var found := VersionOf(table).value;
            var at2 := if found < 2 then Marked(Trimmed(table), 2) else table;
            var at3 := if found < 3 then Marked(Lifted(at2), 3) else at2;
      UpgradeOf(table, PREFERENCES) == Ok((Marked(at3, 4), Upgraded(found)))
  {
    var found := VersionOf(table).value;
    var at2 := if found < 2 then Marked(Trimmed(table), 2) else table;
    CompleteFinds(PREFERENCES, 1);
    CompleteFinds(PREFERENCES, 2);
    CompleteFinds(PREFERENCES, 3);
    assert found < 2 ==> Stepped(table, PREFERENCES, found, 2) == Ok(at2);
    assert found < 3 ==> Stepped(table, PREFERENCES, found, 3) == Ok(Marked(Lifted(at2), 3));
  }
}
