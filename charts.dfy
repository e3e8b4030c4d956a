/**
  The aggregation behind the dashboard charts: the colour and label of each technology
  code, and the two folds over the line items of the newest batch, one keyed by
  technology (sums of volumes and winners) and one keyed by region (volume sold per
  technology and in total).  Prices are floating point and are not modelled.
*/
module Charts {
  import opened Wrappers
  import opened Technology

  // ---------------------------------------------------------------------------
  // Colours and labels

  /** The chart colour of a technology code; None (`undefined`) for anything else. */
  function MapTechToColor(name: string): (r: Option<string>)
    ensures r.Some? <==> IsTechType(name)
  {
    if name == WindEnergyOnshore then Some("#82ca9d")
    else if name == Hydro then Some("#8884d8")
    else if name == Solar then Some("#ffc658")
    else if name == Thermal then Some("#ff7300")
    else None
  }

  /** The legend label of a technology code; None (`undefined`) for anything else. */
  function MapTechToLabel(name: string): (r: Option<string>)
    ensures r.Some? <==> IsTechType(name)
  {
    if name == WindEnergyOnshore then Some("Wind Energy Onshore")
    else if name == Hydro then Some("Hydro")
    else if name == Solar then Some("Solar")
    else if name == Thermal then Some("Thermal")
    else None
  }

  /** No two technologies share a colour or a label, so the pie slices can be told apart. */
  lemma ColorsAndLabelsDistinct(a: string, b: string)
    requires IsTechType(a) && IsTechType(b) && a != b
    ensures MapTechToColor(a) != MapTechToColor(b)
    ensures MapTechToLabel(a) != MapTechToLabel(b)
  {
  }

  /**
    Every technology name the scraper knows is stored as a code that has a colour and a
    label; a name it does not know is stored unchanged and, unless it already is a code,
    gets neither.
  */
  lemma StoredTechnologiesAreCharted(t: string)
    ensures t in Mapping ==> MapTechToColor(MapTechnology(t)).Some? && MapTechToLabel(MapTechnology(t)).Some?
    ensures t !in Mapping && !IsTechType(t) ==> MapTechToColor(MapTechnology(t)).None? && MapTechToLabel(MapTechnology(t)).None?
  {
  }

  /** One stacked bar of the regional volume chart: its data key, fill colour and name. */
  datatype Series = Series(dataKey: string, fill: string, name: string)

  const RegionVolumeBars: seq<Series> := [
    Series(WindEnergyOnshore, "#82ca9d", "Wind Energy Onshore"),
    Series(Hydro, "#8884d8", "Hydro"),
    Series(Solar, "#ffc658", "Solar"),
    Series(Thermal, "#ff7300", "Thermal")
  ]

  /** The regional bars use the same colour and name for each technology as the pie chart. */
  lemma RegionBarsMatchPie()
    ensures |RegionVolumeBars| == 4
    ensures forall i | 0 <= i < |RegionVolumeBars| ::
      && MapTechToColor(RegionVolumeBars[i].dataKey) == Some(RegionVolumeBars[i].fill)
      && MapTechToLabel(RegionVolumeBars[i].dataKey) == Some(RegionVolumeBars[i].name)
  {
  }

  // ---------------------------------------------------------------------------
  // Line items, filters and sums

  /** The integer fields of a line item as the front end receives it. */
  datatype ChartItem = ChartItem(
    region: string,
    technology: string,
    volumeAuctioned: int,
    volumeSold: int,
    numberOfWinners: int
  )

  /** A batch as the front end receives it; only its line items are charted. */
  datatype ChartBatch = ChartBatch(auctions: seq<ChartItem>)

  /** The items of technology `t`, in order. */
  function OnTechnology(items: seq<ChartItem>, t: string): (r: seq<ChartItem>)
    ensures |r| <= |items|
    ensures forall i | 0 <= i < |r| :: r[i].technology == t
    ensures forall x :: x in r <==> x in items && x.technology == t
  {
    if items == [] then []
    else
      var rest := OnTechnology(items[..|items| - 1], t);
      if items[|items| - 1].technology == t then rest + [items[|items| - 1]] else rest
  }

  /** The items of region `g`, in order. */
  function InRegion(items: seq<ChartItem>, g: string): (r: seq<ChartItem>)
    ensures |r| <= |items|
    ensures forall i | 0 <= i < |r| :: r[i].region == g
    ensures forall x :: x in r <==> x in items && x.region == g
  {
    if items == [] then []
    else
      var rest := InRegion(items[..|items| - 1], g);
      if items[|items| - 1].region == g then rest + [items[|items| - 1]] else rest
  }

  lemma OnTechnologySnoc(items: seq<ChartItem>, x: ChartItem, t: string)
    ensures OnTechnology(items + [x], t) == if x.technology == t then OnTechnology(items, t) + [x] else OnTechnology(items, t)
  {
    assert (items + [x])[..|items|] == items;
  }

  function SoldSum(items: seq<ChartItem>): int
  {
    if items == [] then 0 else SoldSum(items[..|items| - 1]) + items[|items| - 1].volumeSold
  }

  function AuctionedSum(items: seq<ChartItem>): int
  {
    if items == [] then 0 else AuctionedSum(items[..|items| - 1]) + items[|items| - 1].volumeAuctioned
  }

  function WinnersSum(items: seq<ChartItem>): int
  {
    if items == [] then 0 else WinnersSum(items[..|items| - 1]) + items[|items| - 1].numberOfWinners
  }

  lemma SumsSnoc(items: seq<ChartItem>, x: ChartItem)
    ensures SoldSum(items + [x]) == SoldSum(items) + x.volumeSold
    ensures AuctionedSum(items + [x]) == AuctionedSum(items) + x.volumeAuctioned
    ensures WinnersSum(items + [x]) == WinnersSum(items) + x.numberOfWinners
  {
    assert (items + [x])[..|items|] == items;
  }

  /** The last item's volume sold, or 0 when there is none. */
  function LastSold(items: seq<ChartItem>): int
  {
    if items == [] then 0 else items[|items| - 1].volumeSold
  }

  // ---------------------------------------------------------------------------
  // Accumulator dictionaries

  /**
    A JavaScript object used as a dictionary: its keys in insertion order and the value
    stored under each.
  */
  datatype Table<V> = Table(keys: seq<string>, entries: map<string, V>)

  /** The keys are listed once each, and they are exactly the keys that hold a value. */
  ghost predicate Indexed<V>(t: Table<V>)
  {
    && (forall i, j | 0 <= i < j < |t.keys| :: t.keys[i] != t.keys[j])
    && (forall k :: k in t.entries <==> k in t.keys)
  }

  /** `f` summed over the values stored under `keys`. */
  function SumOver<V>(keys: seq<string>, m: map<string, V>, f: V -> int): int
    requires forall k | k in keys :: k in m
  {
    if keys == [] then 0 else SumOver(keys[..|keys| - 1], m, f) + f(m[keys[|keys| - 1]])
  }

  /** Storing a new value under a listed key changes the sum by the difference. */
  lemma {:induction false} SumOverUpdate<V>(keys: seq<string>, m: map<string, V>, f: V -> int, k: string, v: V)
    requires forall i, j | 0 <= i < j < |keys| :: keys[i] != keys[j]
    requires forall key | key in keys :: key in m
    requires k in keys
    ensures SumOver(keys, m[k := v], f) == SumOver(keys, m, f) - f(m[k]) + f(v)
    decreases |keys|
  {
    var init := keys[..|keys| - 1];
    var last := keys[|keys| - 1];
    if last == k {
      assert k !in init by {
        forall i | 0 <= i < |init| ensures init[i] != k {
          assert keys[i] != keys[|keys| - 1];
        }
      }
      SumOverFresh(init, m, f, k, v);
    } else {
      assert k in init by {
        var i :| 0 <= i < |keys| && keys[i] == k;
        assert i < |keys| - 1;
        assert init[i] == k;
      }
      SumOverUpdate(init, m, f, k, v);
    }
  }

  /** Storing a value under a key that is not listed leaves the sum alone. */
  lemma {:induction false} SumOverFresh<V>(keys: seq<string>, m: map<string, V>, f: V -> int, k: string, v: V)
    requires forall key | key in keys :: key in m
    requires k !in keys
    ensures SumOver(keys, m[k := v], f) == SumOver(keys, m, f)
    decreases |keys|
  {
    if keys != [] {
      SumOverFresh(keys[..|keys| - 1], m, f, k, v);
    }
  }

  /** Appending a key adds its value to the sum. */
  lemma SumOverSnoc<V>(keys: seq<string>, m: map<string, V>, f: V -> int, k: string)
    requires forall key | key in keys :: key in m
    requires k in m
    ensures SumOver(keys + [k], m, f) == SumOver(keys, m, f) + f(m[k])
  {
    assert (keys + [k])[..|keys|] == keys;
  }

  lemma IndexedSnoc<V>(t: Table<V>, k: string, v: V)
    requires Indexed(t) && k !in t.entries
    ensures Indexed(Table(t.keys + [k], t.entries[k := v]))
  {
    var keys := t.keys + [k];
    forall i, j | 0 <= i < j < |keys| ensures keys[i] != keys[j] {
      if j < |t.keys| {
        assert keys[i] == t.keys[i] && keys[j] == t.keys[j];
      } else {
        assert keys[i] == t.keys[i];
      }
    }
  }

  // ---------------------------------------------------------------------------
  // Aggregation by technology

  /** The per-technology record of the technology charts (its price is not modelled). */
  datatype TechEntry = TechEntry(technology: string, volumeAuctioned: int, totalVolume: int, totalWinners: int)

  function TechVolume(e: TechEntry): int
  {
    e.totalVolume
  }

  /** One call of the technology `reduce` callback: create the record on first sight, then add the item. */
  function AddTechnology(acc: Table<TechEntry>, x: ChartItem): Table<TechEntry>
  {
    var t := x.technology;
    var e := if t in acc.entries then acc.entries[t] else TechEntry(t, 0, 0, 0);
    var e' := TechEntry(e.technology, e.volumeAuctioned + x.volumeAuctioned, e.totalVolume + x.volumeSold, e.totalWinners + x.numberOfWinners);
    Table(if t in acc.entries then acc.keys else acc.keys + [t], acc.entries[t := e'])
  }

  /** `items.reduce(callback, {})` for the technology callback. */
  function TechnologyTotals(items: seq<ChartItem>): Table<TechEntry>
  {
    if items == [] then Table([], map[])
    else AddTechnology(TechnologyTotals(items[..|items| - 1]), items[|items| - 1])
  }

  /** One callback keeps the dictionary indexed. */
  lemma AddTechnologyIndexed(acc: Table<TechEntry>, x: ChartItem)
    requires Indexed(acc)
    ensures Indexed(AddTechnology(acc, x))
  {
    if x.technology !in acc.entries {
      IndexedSnoc(acc, x.technology, AddTechnology(acc, x).entries[x.technology]);
    }
  }

  lemma {:induction false} TechnologyTotalsIndexed(items: seq<ChartItem>)
    ensures Indexed(TechnologyTotals(items))
  {
    if items != [] {
      TechnologyTotalsIndexed(items[..|items| - 1]);
      AddTechnologyIndexed(TechnologyTotals(items[..|items| - 1]), items[|items| - 1]);
    }
  }

  /**
    There is one record per technology that occurs, and each record holds the sums of
    volume auctioned, volume sold and winners over the items of that technology.
  */
  lemma {:induction false} TechnologyTotalsSums(items: seq<ChartItem>)
    ensures Indexed(TechnologyTotals(items))
    ensures forall t :: t in TechnologyTotals(items).entries <==> OnTechnology(items, t) != []
    ensures forall t | t in TechnologyTotals(items).entries ::
      TechnologyTotals(items).entries[t] == TechEntry(
        t, AuctionedSum(OnTechnology(items, t)), SoldSum(OnTechnology(items, t)), WinnersSum(OnTechnology(items, t)))
  {
    TechnologyTotalsIndexed(items);
    if items != [] {
      var init := items[..|items| - 1];
      var x := items[|items| - 1];
      TechnologyTotalsSums(init);
      SumsSnoc(OnTechnology(init, x.technology), x);
    }
  }

  /** One callback adds the item's volume sold to the sum of the records' volumes. */
  lemma AddTechnologyVolume(acc: Table<TechEntry>, x: ChartItem)
    requires Indexed(acc)
    ensures Indexed(AddTechnology(acc, x))
    ensures SumOver(AddTechnology(acc, x).keys, AddTechnology(acc, x).entries, TechVolume)
      == SumOver(acc.keys, acc.entries, TechVolume) + x.volumeSold
  {
    AddTechnologyIndexed(acc, x);
    var t := x.technology;
    var e' := AddTechnology(acc, x).entries[t];
    if t in acc.entries {
      SumOverUpdate(acc.keys, acc.entries, TechVolume, t, e');
    } else {
      SumOverFresh(acc.keys, acc.entries, TechVolume, t, e');
      SumOverSnoc(acc.keys, acc.entries[t := e'], TechVolume, t);
    }
  }

  /** The technology records' volumes add up to the volume sold of all items. */
  lemma {:induction false} TechnologyVolumeConserved(items: seq<ChartItem>)
    ensures Indexed(TechnologyTotals(items))
    ensures SumOver(TechnologyTotals(items).keys, TechnologyTotals(items).entries, TechVolume) == SoldSum(items)
  {
    if items != [] {
      TechnologyVolumeConserved(items[..|items| - 1]);
      AddTechnologyVolume(TechnologyTotals(items[..|items| - 1]), items[|items| - 1]);
    }
  }

  /** The technology `reduce`, one callback per item, updating the record in place. */
  method AggregateByTechnology(items: seq<ChartItem>) returns (acc: Table<TechEntry>)
    ensures acc == TechnologyTotals(items)
    ensures Indexed(acc)
    ensures SumOver(acc.keys, acc.entries, TechVolume) == SoldSum(items)
  {
    acc := Table([], map[]);
    for i := 0 to |items|
      invariant acc == TechnologyTotals(items[..i])
    {
      var x := items[i];
      var t := x.technology;
      if t !in acc.entries {
        acc := Table(acc.keys + [t], acc.entries[t := TechEntry(t, 0, 0, 0)]);
      }
      var e := acc.entries[t];
      e := e.(totalVolume := e.totalVolume + x.volumeSold);
      e := e.(volumeAuctioned := e.volumeAuctioned + x.volumeAuctioned);
      e := e.(totalWinners := e.totalWinners + x.numberOfWinners);
      acc := acc.(entries := acc.entries[t := e]);
      assert items[..i + 1][..i] == items[..i];
    }
    assert items[..|items|] == items;
    TechnologyVolumeConserved(items);
  }

  // ---------------------------------------------------------------------------
  // Aggregation by region

  /** A record's `region` field: the region name, or a number once an item overwrote it. */
  datatype Label = Name(text: string) | Number(value: int)

  /** The per-region record of the regional charts (its price fields are not modelled). */
  datatype RegionEntry = RegionEntry(
    region: Label,
    windEnergyOnshore: int,
    hydro: int,
    solar: int,
    thermal: int,
    totalVolume: int
  )

  function RegionVolume(e: RegionEntry): int
  {
    e.totalVolume
  }

  /** All eleven keys of a freshly created region record. */
  const RegionRecordKeys: set<string> := {
    "region", WindEnergyOnshore, Hydro, Solar, Thermal,
    "wind_energy_onshore_averagePrice", "hydro_averagePrice", "solar_averagePrice", "thermal_averagePrice",
    "totalVolume", "averagePrice"
  }

  function NewRegionEntry(g: string): RegionEntry
  {
    RegionEntry(Name(g), 0, 0, 0, 0, 0)
  }

  /** `record[key] = v` for one of the record's own keys; the price keys are not modelled. */
  function AssignField(e: RegionEntry, key: string, v: int): RegionEntry
  {
    if key == WindEnergyOnshore then e.(windEnergyOnshore := v)
    else if key == Hydro then e.(hydro := v)
    else if key == Solar then e.(solar := v)
    else if key == Thermal then e.(thermal := v)
    else if key == "region" then e.(region := Number(v))
    else if key == "totalVolume" then e.(totalVolume := v)
    else e
  }

  /**
    The region callback on an existing record: when the technology names one of the
    record's keys that key is set to the volume sold, and then the volume sold is added
    to the total.
  */
  function RegionStep(e: RegionEntry, x: ChartItem): RegionEntry
  {
    var e' := if x.technology in RegionRecordKeys then AssignField(e, x.technology, x.volumeSold) else e;
    e'.(totalVolume := e'.totalVolume + x.volumeSold)
  }

  /** One call of the region `reduce` callback. */
  function AddRegion(acc: Table<RegionEntry>, x: ChartItem): Table<RegionEntry>
  {
    var g := x.region;
    var e := if g in acc.entries then acc.entries[g] else NewRegionEntry(g);
    Table(if g in acc.entries then acc.keys else acc.keys + [g], acc.entries[g := RegionStep(e, x)])
  }

  /** `items.reduce(callback, {})` for the region callback. */
  function RegionTotals(items: seq<ChartItem>): Table<RegionEntry>
  {
    if items == [] then Table([], map[])
    else AddRegion(RegionTotals(items[..|items| - 1]), items[|items| - 1])
  }

  /**
    What record `e` of region `g` holds after the region's items `items`: each technology
    field the volume sold of the last item of that technology (assigned, not summed), the
    region field its name unless an item of technology "region" overwrote it, and the
    total the sum of volume sold, as long as no item's technology is "totalVolume".
  */
  predicate Describes(e: RegionEntry, g: string, items: seq<ChartItem>)
  {
    && e.windEnergyOnshore == LastSold(OnTechnology(items, WindEnergyOnshore))
    && e.hydro == LastSold(OnTechnology(items, Hydro))
    && e.solar == LastSold(OnTechnology(items, Solar))
    && e.thermal == LastSold(OnTechnology(items, Thermal))
    && e.region == (if OnTechnology(items, "region") == [] then Name(g) else Number(LastSold(OnTechnology(items, "region"))))
    && (OnTechnology(items, "totalVolume") == [] ==> e.totalVolume == SoldSum(items))
  }

  lemma RegionStepDescribes(e: RegionEntry, g: string, items: seq<ChartItem>, x: ChartItem)
    requires Describes(e, g, items)
    ensures Describes(RegionStep(e, x), g, items + [x])
  {
    OnTechnologySnoc(items, x, WindEnergyOnshore);
    OnTechnologySnoc(items, x, Hydro);
    OnTechnologySnoc(items, x, Solar);
    OnTechnologySnoc(items, x, Thermal);
    OnTechnologySnoc(items, x, "region");
    OnTechnologySnoc(items, x, "totalVolume");
    SumsSnoc(items, x);
  }

  /** One callback keeps the dictionary indexed. */
  lemma AddRegionIndexed(acc: Table<RegionEntry>, x: ChartItem)
    requires Indexed(acc)
    ensures Indexed(AddRegion(acc, x))
  {
    if x.region !in acc.entries {
      IndexedSnoc(acc, x.region, AddRegion(acc, x).entries[x.region]);
    }
  }

  lemma {:induction false} RegionTotalsIndexed(items: seq<ChartItem>)
    ensures Indexed(RegionTotals(items))
  {
    if items != [] {
      RegionTotalsIndexed(items[..|items| - 1]);
      AddRegionIndexed(RegionTotals(items[..|items| - 1]), items[|items| - 1]);
    }
  }

  /** There is a record for exactly the regions that occur. */
  lemma {:induction false} RegionTotalsKeys(items: seq<ChartItem>)
    ensures forall g :: g in RegionTotals(items).entries <==> InRegion(items, g) != []
  {
    if items != [] {
      RegionTotalsKeys(items[..|items| - 1]);
    }
  }

  lemma {:induction false} RegionTotalsDescribe(items: seq<ChartItem>)
    ensures forall g | g in RegionTotals(items).entries :: Describes(RegionTotals(items).entries[g], g, InRegion(items, g))
  {
    if items != [] {
      var init := items[..|items| - 1];
      var x := items[|items| - 1];
      RegionTotalsDescribe(init);
      RegionTotalsKeys(init);
      var acc := RegionTotals(init);
      var r := RegionTotals(items);
      forall g | g in r.entries ensures Describes(r.entries[g], g, InRegion(items, g)) {
        if g == x.region {
          var e := if g in acc.entries then acc.entries[g] else NewRegionEntry(g);
          if g !in acc.entries {
            assert InRegion(init, g) == [];
          }
          RegionStepDescribes(e, g, InRegion(init, g), x);
        } else {
          assert r.entries[g] == acc.entries[g];
        }
      }
    }
  }

  /** One record per region that occurs, each described by the items of that region. */
  lemma RegionTotalsFields(items: seq<ChartItem>)
    ensures Indexed(RegionTotals(items))
    ensures forall g :: g in RegionTotals(items).entries <==> InRegion(items, g) != []
    ensures forall g | g in RegionTotals(items).entries :: Describes(RegionTotals(items).entries[g], g, InRegion(items, g))
  {
    RegionTotalsIndexed(items);
    RegionTotalsKeys(items);
    RegionTotalsDescribe(items);
  }

  /** No item's technology is "totalVolume", which the front end's technology type guarantees. */
  predicate NoTotalVolumeTechnology(items: seq<ChartItem>)
  {
    forall i | 0 <= i < |items| :: items[i].technology != "totalVolume"
  }

  /** One callback of an item whose technology is not "totalVolume" adds its volume sold to the sum of the region totals. */
  lemma AddRegionVolume(acc: Table<RegionEntry>, x: ChartItem)
    requires Indexed(acc)
    requires x.technology != "totalVolume"
    ensures Indexed(AddRegion(acc, x))
    ensures SumOver(AddRegion(acc, x).keys, AddRegion(acc, x).entries, RegionVolume)
      == SumOver(acc.keys, acc.entries, RegionVolume) + x.volumeSold
  {
    AddRegionIndexed(acc, x);
    var g := x.region;
    var e := if g in acc.entries then acc.entries[g] else NewRegionEntry(g);
    var e' := RegionStep(e, x);
    assert e'.totalVolume == e.totalVolume + x.volumeSold;
    if g in acc.entries {
      SumOverUpdate(acc.keys, acc.entries, RegionVolume, g, e');
    } else {
      SumOverFresh(acc.keys, acc.entries, RegionVolume, g, e');
      SumOverSnoc(acc.keys, acc.entries[g := e'], RegionVolume, g);
    }
  }

  /** The region totals add up to the volume sold of all items. */
  lemma {:induction false} RegionVolumeConserved(items: seq<ChartItem>)
    requires NoTotalVolumeTechnology(items)
    ensures Indexed(RegionTotals(items))
    ensures SumOver(RegionTotals(items).keys, RegionTotals(items).entries, RegionVolume) == SoldSum(items)
  {
    if items != [] {
      var init := items[..|items| - 1];
      assert NoTotalVolumeTechnology(init) by {
        forall i | 0 <= i < |init| ensures init[i].technology != "totalVolume" {
          assert init[i] == items[i];
        }
      }
      RegionVolumeConserved(init);
      AddRegionVolume(RegionTotals(init), items[|items| - 1]);
    }
  }

  /**
    An item whose technology is "totalVolume" replaces its region's running total before
    adding to it: after 3 MWh of hydro and 5 MWh of such an item, the region shows 10 MWh
    where 8 were sold.
  */
  lemma TotalVolumeTechnologyDoublesCount(g: string, hydro: ChartItem, odd: ChartItem)
    requires hydro == ChartItem(g, Hydro, 0, 3, 0)
    requires odd == ChartItem(g, "totalVolume", 0, 5, 0)
    ensures RegionTotals([hydro, odd]).entries[g].totalVolume == 10
    ensures SoldSum([hydro, odd]) == 8
  {
    assert [hydro, odd][..1] == [hydro];
    assert [hydro][..0] == [];
    assert "totalVolume" in RegionRecordKeys;
    assert RegionTotals([hydro]).entries[g].totalVolume == 3;
    assert SoldSum([hydro]) == 3;
  }

  /** The region `reduce`, one callback per item, updating the record in place. */
  method AggregateByRegion(items: seq<ChartItem>) returns (acc: Table<RegionEntry>)
    ensures acc == RegionTotals(items)
    ensures Indexed(acc)
    ensures NoTotalVolumeTechnology(items) ==> SumOver(acc.keys, acc.entries, RegionVolume) == SoldSum(items)
  {
    acc := Table([], map[]);
    for i := 0 to |items|
      invariant acc == RegionTotals(items[..i])
    {
      var x := items[i];
      var g := x.region;
      if g !in acc.entries {
        acc := Table(acc.keys + [g], acc.entries[g := NewRegionEntry(g)]);
      }
      var e := acc.entries[g];
      if x.technology in RegionRecordKeys {
        e := AssignField(e, x.technology, x.volumeSold);
      }
      e := e.(totalVolume := e.totalVolume + x.volumeSold);
      acc := acc.(entries := acc.entries[g := e]);
      assert items[..i + 1][..i] == items[..i];
    }
    assert items[..|items|] == items;
    RegionTotalsIndexed(items);
    if NoTotalVolumeTechnology(items) {
      RegionVolumeConserved(items);
    }
  }

  // ---------------------------------------------------------------------------
  // The component

  /** What the component renders: the empty-state heading, or the charts over the two tables. */
  datatype ChartView = NoData | Charts(byTechnology: Table<TechEntry>, byRegion: Table<RegionEntry>)

  /**
    The chart component: an empty list renders "No data available"; otherwise only the
    first batch's line items are aggregated.
  */
  method AuctionCharts(data: seq<ChartBatch>) returns (v: ChartView)
    ensures v.NoData? <==> data == []
    ensures v.Charts? ==> v.byTechnology == TechnologyTotals(data[0].auctions) && v.byRegion == RegionTotals(data[0].auctions)
    ensures v.Charts? ==> Indexed(v.byTechnology) && Indexed(v.byRegion)
    ensures v.Charts? ==> SumOver(v.byTechnology.keys, v.byTechnology.entries, TechVolume) == SoldSum(data[0].auctions)
  {
    if |data| == 0 {
      return NoData;
    }
    var current := data[0];
    var byTechnology := AggregateByTechnology(current.auctions);
    var byRegion := AggregateByRegion(current.auctions);
    v := Charts(byTechnology, byRegion);
  }
}
