/**
 * The officer's zones screen: a fixed list of risk zones shown as map
 * markers, narrowed by a risk-level filter chip, and a modal describing the
 * zone whose marker was pressed.
 */
module Zones {
  import opened Js

  /** The filter chips' values; `All` is no filter. */
  datatype ZoneLevel = All | High | Medium | Low

  /** The level a zone itself carries: never `All`. */
  type RiskLevel = l: ZoneLevel | !l.All? witness High

  function LevelName(l: ZoneLevel): string {
    match l
    case All => "All"
    case High => "High"
    case Medium => "Medium"
    case Low => "Low"
  }

  datatype Zone = Zone(id: string, name: string, level: RiskLevel, color: string,
                       latitude: real, longitude: real, message: string)

  const SchemeMessage := "Govt may apply special schemes in this zone."

  const OldTownMarket := Zone("zone-1", "Old Town Market", High, "#DC2626", 28.6139, 77.209, SchemeMessage)
  const RiverfrontCluster := Zone("zone-2", "Riverfront Cluster", Medium, "#F97316", 28.6239, 77.219, SchemeMessage)
  const IndustrialLayout := Zone("zone-3", "Industrial Layout", Low, "#16A34A", 28.6039, 77.199, SchemeMessage)

  /** The zones the screen ships with, in map order. */
  const ZONES: seq<Zone> := [OldTownMarket] + ([RiverfrontCluster] + [IndustrialLayout])

  /** `a` is `b` with some elements left out, the rest kept in order. */
  predicate IsSubsequence<T(==)>(a: seq<T>, b: seq<T>)
    decreases |b|
  {
    if a == [] then true
    else if b == [] then false
    else if a[0] == b[0] then IsSubsequence(a[1..], b[1..])
    else IsSubsequence(a, b[1..])
  }

  /**
   * `zones.filter((zone) => zone.level === level)`: exactly the zones of that
   * level, each as often as in the input, in their original order.
   */
  function OfLevel(level: ZoneLevel, zones: seq<Zone>): (r: seq<Zone>)
    ensures |r| <= |zones|
    ensures forall i :: 0 <= i < |r| ==> r[i].level == level
    ensures forall z :: z in r <==> z in zones && z.level == level
    ensures forall z :: multiset(r)[z] == if z.level == level then multiset(zones)[z] else 0
    ensures IsSubsequence(r, zones)
  {
    if zones == [] then []
    else
      var rest := OfLevel(level, zones[1..]);
      assert zones == [zones[0]] + zones[1..];
      if zones[0].level == level then [zones[0]] + rest else rest
  }

  /** The `filteredZones` memo: the whole list for `All`, else the zones of the chosen level. */
  function FilteredZones(filter: ZoneLevel, zones: seq<Zone>): (r: seq<Zone>)
    ensures filter.All? ==> r == zones
    ensures forall z :: z in r <==> z in zones && (filter.All? || z.level == filter)
    ensures IsSubsequence(r, zones) && |r| <= |zones|
  {
    if filter.All? then AllKept(zones); zones else OfLevel(filter, zones)
  }

  /** Every list is a subsequence of itself. */
  lemma {:induction false} AllKept(zones: seq<Zone>)
    ensures IsSubsequence(zones, zones)
  {
    if zones != [] {
      AllKept(zones[1..]);
    }
  }

  /** `filter` over a list with a first element: that element if it matches, then the filtered rest. */
  lemma OfLevelCons(level: ZoneLevel, z: Zone, zs: seq<Zone>)
    ensures OfLevel(level, [z] + zs) == (if z.level == level then [z] else []) + OfLevel(level, zs)
  {
    assert ([z] + zs)[0] == z && ([z] + zs)[1..] == zs;
  }

  /** The filtered shipped zones, given which of them have the level. */
  lemma ShippedZonesOfLevel(level: ZoneLevel)
    ensures OfLevel(level, ZONES) ==
      (if OldTownMarket.level == level then [OldTownMarket] else []) +
      ((if RiverfrontCluster.level == level then [RiverfrontCluster] else []) +
       (if IndustrialLayout.level == level then [IndustrialLayout] else []))
  {
    var last := [IndustrialLayout];
    var tail := [RiverfrontCluster] + last;
    assert last == [IndustrialLayout] + [];
    OfLevelCons(level, OldTownMarket, tail);
    OfLevelCons(level, RiverfrontCluster, last);
    OfLevelCons(level, IndustrialLayout, []);
  }

  /** With the shipped zones each level has exactly one marker: zone-1, zone-2 and zone-3. */
  lemma OneZonePerLevel()
    ensures FilteredZones(High, ZONES) == [OldTownMarket]
    ensures FilteredZones(Medium, ZONES) == [RiverfrontCluster]
    ensures FilteredZones(Low, ZONES) == [IndustrialLayout]
  {
    var none: seq<Zone> := [];
    assert OldTownMarket.level == High && RiverfrontCluster.level == Medium && IndustrialLayout.level == Low;
    ShippedZonesOfLevel(High);
    assert OfLevel(High, ZONES) == [OldTownMarket] + (none + none);
    ShippedZonesOfLevel(Medium);
    assert OfLevel(Medium, ZONES) == none + ([RiverfrontCluster] + none);
    ShippedZonesOfLevel(Low);
    assert OfLevel(Low, ZONES) == none + (none + [IndustrialLayout]);
  }

  /** One filter chip: its value, and whether it is drawn as chosen. */
  datatype Chip = Chip(value: ZoneLevel, chosen: bool)

  /** The chip row: All, High, Medium, Low; exactly the chip equal to the filter is drawn as chosen. */
  function Chips(filter: ZoneLevel): (r: seq<Chip>)
    ensures |r| == 4
    ensures r[0].value == All && r[1].value == High && r[2].value == Medium && r[3].value == Low
    ensures forall i :: 0 <= i < |r| ==> (r[i].chosen <==> r[i].value == filter)
  {
    [Chip(All, filter == All)] + ([Chip(High, filter == High)] + ([Chip(Medium, filter == Medium)] + [Chip(Low, filter == Low)]))
  }

  /** Whatever the filter, exactly one chip is drawn as chosen. */
  lemma ExactlyOneChipChosen(filter: ZoneLevel)
    ensures exists i :: 0 <= i < 4 && Chips(filter)[i].chosen
    ensures forall i, j :: 0 <= i < 4 && 0 <= j < 4 && Chips(filter)[i].chosen && Chips(filter)[j].chosen ==> i == j
  {
    var c := Chips(filter);
    match filter
    case All => assert c[0].chosen;
    case High => assert c[1].chosen;
    case Medium => assert c[2].chosen;
    case Low => assert c[3].chosen;
  }

  /** The modal header dot: the zone's colour, or the theme's primary colour with nothing selected. */
  datatype DotColor = ZoneColor(hex: string) | ThemePrimary

  /** The zone modal as drawn: `title` and `body` render nothing when absent. */
  datatype ZoneModal = ZoneModal(visible: bool, dot: DotColor, title: Option<string>, levelText: string, body: Option<string>)

  /**
   * The modal for a selection: visible exactly when a zone is selected, and
   * then showing that zone's colour, name, level and message; with nothing
   * selected the level falls back to "-".
   */
  function ModalOf(selected: Option<Zone>): (m: ZoneModal)
    ensures m.visible <==> selected.Some?
    ensures selected.None? ==> m == ZoneModal(false, ThemePrimary, None, "Risk level: -", None)
    ensures selected.Some? ==>
              m.title == Some(selected.value.name) && m.body == Some(selected.value.message) &&
              m.dot == ZoneColor(selected.value.color) && m.levelText == "Risk level: " + LevelName(selected.value.level)
  {
    match selected
    case None => ZoneModal(false, ThemePrimary, None, "Risk level: " + "-", None)
    case Some(z) => ZoneModal(true, ZoneColor(z.color), Some(z.name), "Risk level: " + LevelName(z.level), Some(z.message))
  }

  /** The screen's two state variables. */
  class ZonesScreen {
    var selected: Option<Zone>
    var filter: ZoneLevel

    /** Opened with nothing selected and the `All` chip chosen. */
    constructor ()
      ensures selected == None && filter == All
    {
      selected := None;
      filter := All;
    }

    /** The zones that have a marker on the map. */
    function Markers(): (r: seq<Zone>)
      reads this
      ensures filter.All? ==> r == ZONES
    {
      FilteredZones(filter, ZONES)
    }

    function Modal(): ZoneModal
      reads this
    {
      ModalOf(selected)
    }

    /** A filter chip: changes the filter and nothing else. */
    method SetFilter(level: ZoneLevel)
      modifies this`filter
      ensures filter == level
      ensures Markers() == FilteredZones(level, ZONES)
    {
      filter := level;
    }

    /** A marker's `onPress`: selects the zone that marker stands for, which opens the modal. */
    method PressMarker(i: nat)
      requires i < |Markers()|
      modifies this`selected
      ensures selected == Some(old(Markers())[i])
      ensures Modal().visible && Modal().title == Some(selected.value.name)
    {
      selected := Some(Markers()[i]);
    }

    /** The modal's Close button and its `onRequestClose`: clears the selection, which hides the modal. */
    method CloseModal()
      modifies this`selected
      ensures selected == None
      ensures !Modal().visible
    {
      selected := None;
    }
  }
}
