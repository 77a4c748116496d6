/** The MiLight platform of index.js: it validates the configured list of zone
    names and creates one accessory per non-empty name, numbering zones from 1,
    and hands the list to its callback only when at least one accessory exists. */
module Platform {
  import opened Commands
  import opened Accessory

  datatype Option<T> = None | Some(value: T)

  /** The platform configuration this code reads and writes. A missing or empty
      `type` is `None`; `name` and `zone` are the fields the creation loop sets
      before each accessory copies the configuration. */
  datatype PlatformConfig = PlatformConfig(
    zones: Option<seq<string>>,
    lampType: Option<LampType>,
    name: Option<string>,
    zone: Option<int>)

  /** The lamp family used when the configuration names none. */
  function TypeOrDefault(t: Option<LampType>): (r: LampType)
    ensures t.Some? ==> r == t.value
    ensures t.None? ==> r == Rgbw
  {
    match t
    case None => Rgbw
    case Some(u) => u
  }

  /** Zones per bridge: an rgb lamp has a single zone, the other families four. */
  function MaxZones(t: LampType): (r: nat)
    ensures 1 <= r <= 4
    ensures r == 1 <==> t == Rgb
    ensures t != Rgb ==> r == 4
  {
    if t == Rgb then 1 else 4
  }

  function Min(a: nat, b: nat): nat
  {
    if a <= b then a else b
  }

  /** How many configured entries the creation loop looks at, out of `n`. */
  function ZoneLimit(t: LampType, n: nat): (r: nat)
    ensures r == Min(n, MaxZones(t))
  {
    if n == 0 then 0
    else if t == Rgb && n > 1 then 1
    else if n > 4 then 4
    else n
  }

  /** The accessories the creation loop makes from the first `n` entries: one per
      non-empty entry, in order, the entry at index `i` getting zone `i + 1`. */
  function Selected(entries: seq<string>, n: nat, t: LampType): (r: seq<LampSettings>)
    requires n <= |entries|
    ensures |r| <= n
    decreases n
  {
    if n == 0 then []
    else
      Selected(entries, n - 1, t)
      + if entries[n - 1] != "" then [LampSettings(entries[n - 1], n, t)] else []
  }

  /** At most `n` accessories, with strictly increasing zones in `1..n`, each of
      family `t` and named after the non-empty entry for its zone. */
  lemma {:induction false} SelectedShape(entries: seq<string>, n: nat, t: LampType)
    requires n <= |entries|
    ensures var r := Selected(entries, n, t);
      |r| <= n
      && (forall k :: 0 <= k < |r| ==>
            1 <= r[k].zone <= n && r[k].name == entries[r[k].zone - 1]
            && r[k].name != "" && r[k].lampType == t)
      && (forall j, k :: 0 <= j < k < |r| ==> r[j].zone < r[k].zone)
  {
    if n > 0 {
      SelectedShape(entries, n - 1, t);
    }
  }

  /** Every non-empty entry among the first `n` gets its accessory. */
  lemma {:induction false} SelectedComplete(entries: seq<string>, n: nat, t: LampType, i: nat)
    requires n <= |entries| && i < n && entries[i] != ""
    ensures exists k :: 0 <= k < |Selected(entries, n, t)|
              && Selected(entries, n, t)[k] == LampSettings(entries[i], i + 1, t)
  {
    var prefix := Selected(entries, n - 1, t);
    if i == n - 1 {
      assert Selected(entries, n, t)[|prefix|] == LampSettings(entries[i], i + 1, t);
    } else {
      SelectedComplete(entries, n - 1, t, i);
      var k :| 0 <= k < |prefix| && prefix[k] == LampSettings(entries[i], i + 1, t);
      assert Selected(entries, n, t)[k] == prefix[k];
    }
  }

  /** No accessory is made exactly when all of the first `n` entries are empty. */
  lemma {:induction false} SelectedEmptyIff(entries: seq<string>, n: nat, t: LampType)
    requires n <= |entries|
    ensures Selected(entries, n, t) == [] <==> forall i :: 0 <= i < n ==> entries[i] == ""
  {
    if exists i :: 0 <= i < n && entries[i] != "" {
      var i :| 0 <= i < n && entries[i] != "";
      SelectedComplete(entries, n, t, i);
    } else if n > 0 {
      SelectedEmptyIff(entries, n - 1, t);
    }
  }

  /** The configuration after the creation loop over `sel`: the family is set, and
      `name` and `zone` hold those of the last accessory made, if any. */
  function Stamped(c: PlatformConfig, t: LampType, sel: seq<LampSettings>): (r: PlatformConfig)
    ensures r.zones == c.zones && r.lampType == Some(t)
    ensures sel == [] ==> r.name == c.name && r.zone == c.zone
    ensures sel != [] ==> r.name == Some(sel[|sel| - 1].name) && r.zone == Some(sel[|sel| - 1].zone)
  {
    var typed := c.(lampType := Some(t));
    if sel == [] then typed
    else typed.(name := Some(sel[|sel| - 1].name), zone := Some(sel[|sel| - 1].zone))
  }

  lemma StampedNext(c: PlatformConfig, t: LampType, sel: seq<LampSettings>, s: LampSettings)
    ensures Stamped(c, t, sel + [s]) == Stamped(c, t, sel).(name := Some(s.name), zone := Some(s.zone))
  {
  }

  /** What `accessories` hands to its callback: `None` when the callback is not
      invoked, otherwise the settings of the accessories in the list. */
  function Plan(c: PlatformConfig): (r: Option<seq<LampSettings>>)
    ensures c.zones.None? ==> r.None?
    ensures r.Some? ==> r.value != [] && c.zones.Some?
  {
    match c.zones
    case None => None
    case Some(entries) =>
      var t := TypeOrDefault(c.lampType);
      var sel := Selected(entries, ZoneLimit(t, |entries|), t);
      if |sel| > 0 then Some(sel) else None
  }

  /** The platform configuration after `accessories` returns. Without `zones`
      nothing is changed. Otherwise the family is written back, defaulting to rgbw,
      the zone list is kept, and `name` and `zone` are those of the last accessory
      handed to the callback, or unchanged when there is none. */
  function ConfigAfter(c: PlatformConfig): (r: PlatformConfig)
    ensures r.zones == c.zones
    ensures c.zones.None? ==> r == c
    ensures c.zones.Some? ==> r.lampType == Some(TypeOrDefault(c.lampType))
    ensures Plan(c).Some? ==>
      var lamps := Plan(c).value;
      r.name == Some(lamps[|lamps| - 1].name) && r.zone == Some(lamps[|lamps| - 1].zone)
    ensures c.zones.Some? && Plan(c).None? ==> r.name == c.name && r.zone == c.zone
  {
    match c.zones
    case None => c
    case Some(entries) =>
      var t := TypeOrDefault(c.lampType);
      Stamped(c, t, Selected(entries, ZoneLimit(t, |entries|), t))
  }

  /** The callback is invoked exactly when `zones` is present and one of the entries
      the loop looks at is non-empty; so never for a missing or empty list. */
  lemma PlanInvokesIff(c: PlatformConfig)
    ensures Plan(c).Some? <==>
      c.zones.Some?
      && exists i :: 0 <= i < ZoneLimit(TypeOrDefault(c.lampType), |c.zones.value|)
                     && c.zones.value[i] != ""
    ensures c.zones.None? || c.zones == Some([]) ==> Plan(c).None?
  {
    if c.zones.Some? {
      var t := TypeOrDefault(c.lampType);
      SelectedEmptyIff(c.zones.value, ZoneLimit(t, |c.zones.value|), t);
    }
  }

  /** A delivered list holds between one and `MaxZones` accessories of the configured
      family (rgbw when none is configured), with strictly increasing zones within
      `1..MaxZones`, each named after the entry for its zone. */
  lemma PlanBounds(c: PlatformConfig)
    requires Plan(c).Some?
    ensures var t := TypeOrDefault(c.lampType);
      var lamps := Plan(c).value;
      1 <= |lamps| <= MaxZones(t)
      && (forall k :: 0 <= k < |lamps| ==>
            1 <= lamps[k].zone <= MaxZones(t) && lamps[k].lampType == t
            && lamps[k].zone <= |c.zones.value| && lamps[k].name != ""
            && lamps[k].name == c.zones.value[lamps[k].zone - 1])
      && (forall j, k :: 0 <= j < k < |lamps| ==> lamps[j].zone < lamps[k].zone)
  {
    var t := TypeOrDefault(c.lampType);
    SelectedShape(c.zones.value, ZoneLimit(t, |c.zones.value|), t);
  }

  /** A delivered list has an accessory with zone `i + 1` for every non-empty entry
      `i` the loop looks at. */
  lemma PlanComplete(c: PlatformConfig, i: nat)
    requires Plan(c).Some?
    requires i < ZoneLimit(TypeOrDefault(c.lampType), |c.zones.value|) && c.zones.value[i] != ""
    ensures exists k :: 0 <= k < |Plan(c).value|
              && Plan(c).value[k] == LampSettings(c.zones.value[i], i + 1, TypeOrDefault(c.lampType))
  {
    var t := TypeOrDefault(c.lampType);
    SelectedComplete(c.zones.value, ZoneLimit(t, |c.zones.value|), t, i);
  }

  class MiLightPlatform {
    var config: PlatformConfig

    constructor (config: PlatformConfig)
      ensures this.config == config
    {
      this.config := config;
    }

    /** The creation loop of `accessories`: for each of the first `zoneLength`
        entries that is non-empty, write its name and zone number into the
        configuration and create an accessory from it. */
    method CreateZoneAccessories(entries: seq<string>, zoneLength: nat, t: LampType)
      returns (lamps: seq<MiLightAccessory>)
      requires zoneLength <= |entries| && config.lampType == Some(t)
      modifies this
      ensures config == Stamped(old(config), t, Selected(entries, zoneLength, t))
      ensures |lamps| == |Selected(entries, zoneLength, t)|
      ensures forall k :: 0 <= k < |lamps| ==> lamps[k].Settings() == Selected(entries, zoneLength, t)[k]
      ensures forall k :: 0 <= k < |lamps| ==> fresh(lamps[k])
      ensures forall k :: 0 <= k < |lamps| ==>
                lamps[k].Valid() && lamps[k].log == [] && lamps[k].acknowledged == 0
    {
      lamps := [];
      var i := 0;
      ghost var sel: seq<LampSettings> := [];
      while i < zoneLength
        invariant 0 <= i <= zoneLength
        invariant sel == Selected(entries, i, t)
        invariant config == Stamped(old(config), t, sel)
        invariant |lamps| == |sel|
        invariant forall k :: 0 <= k < |lamps| ==> lamps[k].Settings() == sel[k]
        invariant forall k :: 0 <= k < |lamps| ==>
                    fresh(lamps[k]) && lamps[k].Valid() && lamps[k].log == [] && lamps[k].acknowledged == 0
      {
        if entries[i] != "" {
          StampedNext(old(config), t, sel, LampSettings(entries[i], i + 1, t));
          config := config.(name := Some(entries[i]), zone := Some(i + 1));
          var lamp := new MiLightAccessory(LampSettings(config.name.value, config.zone.value, t));
          lamps := lamps + [lamp];
          sel := sel + [LampSettings(entries[i], i + 1, t)];
        }
        i := i + 1;
      }
    }

    /** Returns `Some(list)` when the callback is invoked with `list`, `None` when
        it is not invoked. */
    method Accessories() returns (delivered: Option<seq<MiLightAccessory>>)
      modifies this
      ensures config == ConfigAfter(old(config))
      ensures delivered.None? <==> Plan(old(config)).None?
      ensures delivered.Some? ==>
        |delivered.value| == |Plan(old(config)).value|
        && forall k :: 0 <= k < |delivered.value| ==>
             delivered.value[k].Settings() == Plan(old(config)).value[k]
             && fresh(delivered.value[k]) && delivered.value[k].Valid()
             && delivered.value[k].log == [] && delivered.value[k].acknowledged == 0
    {
      var lamps: seq<MiLightAccessory> := [];

      if config.zones.None? {
        return None;
      }
      var entries := config.zones.value;
      var zoneLength := |entries|;

      if config.lampType.None? {
        config := config.(lampType := Some(Rgbw));
      }
      var t := config.lampType.value;

      if zoneLength == 0 {
        return None;
      } else if t == Rgb && zoneLength > 1 {
        zoneLength := 1;
      } else if zoneLength > 4 {
        zoneLength := 4;
      }
      assert zoneLength == ZoneLimit(t, |entries|);
      lamps := CreateZoneAccessories(entries, zoneLength, t);
      assert Plan(old(config)) == var sel := Selected(entries, zoneLength, t);
        if |sel| > 0 then Some(sel) else None;

      if |lamps| > 0 {
        return Some(lamps);
      } else {
        return None;
      }
    }
  }
}
