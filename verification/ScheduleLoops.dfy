/** The nested loops that fill and print schedule structures, entry by entry. */
module ScheduleLoops {
  import opened Common
  import opened EnumTable
  import opened Json
  import opened JsonFields
  import opened Schedule

  // ---- Reading ----

  method ReadCosts(items: seq<Json>) returns (r: Option<seq<Cost>>)
    ensures r == All(ReadCost, items)
  {
    hide ReadCost;
    var costs: seq<Cost> := [];
    for i := 0 to |items|
      invariant |costs| == i && forall k :: 0 <= k < i ==> ReadCost(items[k]) == Some(costs[k])
    {
      var cost := ReadCost(items[i]);
      if cost.None? {
        return None;
      }
      costs := costs + [cost.value];
    }
    AllIs(ReadCost, items, costs);
    return Some(costs);
  }

  method ReadOneConsumption(json: Json) returns (r: Option<Consumption>)
    ensures r == ReadConsumption(json)
  {
    hide ReadValue, ReadCost;
    var start := ReadObject(json, "startValue", ReadValue);
    var list := GetList(json, "Cost", 1, 3);
    if start.None? || list.None? {
      return None;
    }
    var costs := ReadCosts(list.value);
    if costs.None? {
      return None;
    }
    return Some(Consumption(start.value, costs.value));
  }

  method ReadConsumptions(items: seq<Json>) returns (r: Option<seq<Consumption>>)
    ensures r == All(ReadConsumption, items)
  {
    hide ReadConsumption;
    var consumptions: seq<Consumption> := [];
    for i := 0 to |items|
      invariant |consumptions| == i && forall k :: 0 <= k < i ==> ReadConsumption(items[k]) == Some(consumptions[k])
    {
      var c := ReadOneConsumption(items[i]);
      if c.None? {
        return None;
      }
      consumptions := consumptions + [c.value];
    }
    AllIs(ReadConsumption, items, consumptions);
    return Some(consumptions);
  }

  method ReadOneTariffEntry(json: Json) returns (r: Option<TariffEntry>)
    ensures r == ReadTariffEntry(json)
  {
    hide ReadInterval, ReadConsumption;
    var interval := ReadObject(json, "RelativeTimeInterval", ReadInterval);
    var level := ReadOptionalInteger(json, "EPriceLevel", 0, UINT8_MAX);
    if interval.None? || level.None? {
      return None;
    }
    if GetItem(json, "ConsumptionCost").None? {
      return Some(TariffEntry(interval, level.value, []));
    }
    var list := GetList(json, "ConsumptionCost", 1, 3);
    if list.None? {
      return None;
    }
    var consumptions := ReadConsumptions(list.value);
    if consumptions.None? {
      return None;
    }
    return Some(TariffEntry(interval, level.value, consumptions.value));
  }

  method ReadTariffEntries(items: seq<Json>) returns (r: Option<seq<TariffEntry>>)
    ensures r == All(ReadTariffEntry, items)
  {
    hide ReadTariffEntry;
    var entries: seq<TariffEntry> := [];
    for i := 0 to |items|
      invariant |entries| == i && forall k :: 0 <= k < i ==> ReadTariffEntry(items[k]) == Some(entries[k])
    {
      var e := ReadOneTariffEntry(items[i]);
      if e.None? {
        return None;
      }
      entries := entries + [e.value];
    }
    AllIs(ReadTariffEntry, items, entries);
    return Some(entries);
  }

  /** `json_to_sales_tariff`. */
  method JsonToSalesTariff(z: Sizes, json: Json) returns (r: Option<Tariff>)
    ensures r == ReadTariff(z, json)
  {
    hide ReadTariffEntry, ItemToText;
    var id := ReadOptionalText(json, "Id", z.id);
    var number := ReadInteger(json, "SalesTariffID", 0, UINT8_MAX);
    var description := ReadOptionalText(json, "SalesTariffDescription", z.description);
    var levels := ReadOptionalInteger(json, "NumEPriceLevels", 0, UINT8_MAX);
    var list := GetList(json, "SalesTariffEntry", 1, 12);
    if id.None? || number.None? || description.None? || levels.None? || list.None? {
      return None;
    }
    var entries := ReadTariffEntries(list.value);
    if entries.None? {
      return None;
    }
    return Some(Tariff(id.value, number.value, description.value, levels.value, entries.value));
  }

  method ReadPMaxEntries(items: seq<Json>) returns (r: Option<seq<PMaxEntry>>)
    ensures r == All(ReadPMaxEntry, items)
  {
    hide ReadPMaxEntry;
    var entries: seq<PMaxEntry> := [];
    for i := 0 to |items|
      invariant |entries| == i && forall k :: 0 <= k < i ==> ReadPMaxEntry(items[k]) == Some(entries[k])
    {
      var e := ReadPMaxEntry(items[i]);
      if e.None? {
        return None;
      }
      entries := entries + [e.value];
    }
    AllIs(ReadPMaxEntry, items, entries);
    return Some(entries);
  }

  method ReadOneTuple(z: Sizes, json: Json) returns (r: Option<ScheduleTuple>)
    ensures r == ReadTuple(z, json)
  {
    hide ReadPMaxEntry, ReadTariff;
    var number := ReadInteger(json, "SAScheduleTupleID", 0, UINT8_MAX);
    var schedule := GetItem(json, "PMaxSchedule");
    if number.None? || schedule.None? || !schedule.value.Object? {
      return None;
    }
    var list := GetList(schedule.value, "PMaxScheduleEntry", 1, 12);
    if list.None? {
      return None;
    }
    var entries := ReadPMaxEntries(list.value);
    if entries.None? {
      return None;
    }
    var item := GetItem(json, "SalesTariff");
    if item.None? {
      return Some(ScheduleTuple(number.value, entries.value, None));
    }
    if !item.value.Object? {
      return None;
    }
    var tariff := JsonToSalesTariff(z, item.value);
    if tariff.None? {
      return None;
    }
    return Some(ScheduleTuple(number.value, entries.value, tariff));
  }

  /** `read_sa_schedule_list`, on the object found in its parent. */
  method ReadSaScheduleList(z: Sizes, json: Json) returns (r: Option<seq<ScheduleTuple>>)
    ensures r == ReadList(z, json)
  {
    hide ReadTuple;
    var list := GetList(json, "SAScheduleTuple", 1, 3);
    if list.None? {
      return None;
    }
    var items := list.value;
    var tuples: seq<ScheduleTuple> := [];
    for i := 0 to |items|
      invariant |tuples| == i && forall k :: 0 <= k < i ==> ReadTuple(z, items[k]) == Some(tuples[k])
    {
      var t := ReadOneTuple(z, items[i]);
      if t.None? {
        return None;
      }
      tuples := tuples + [t.value];
    }
    AllIs(TupleReader(z), items, tuples);
    return Some(tuples);
  }

  // ---- Printing ----

  method PrintCosts(costs: seq<Cost>) returns (r: Option<seq<Json>>)
    ensures r == All(PrintCost, costs)
  {
    hide PrintCost, Build, CostFields;
    var items: seq<Json> := [];
    for i := 0 to |costs|
      invariant |items| == i && forall k :: 0 <= k < i ==> PrintCost(costs[k]) == Some(items[k])
    {
      var item := PrintCost(costs[i]);
      if item.None? {
        return None;
      }
      items := items + [item.value];
    }
    AllIs(PrintCost, costs, items);
    return Some(items);
  }

  method PrintConsumptions(consumptions: seq<Consumption>) returns (r: Option<seq<Json>>)
    ensures r == All(PrintConsumption, consumptions)
  {
    hide PrintValue, PrintCost, Build;
    var items: seq<Json> := [];
    for i := 0 to |consumptions|
      invariant |items| == i && forall k :: 0 <= k < i ==> PrintConsumption(consumptions[k]) == Some(items[k])
    {
      var start := PrintValue(consumptions[i].startValue);
      var costs := PrintCosts(consumptions[i].costs);
      if start.None? || costs.None? {
        return None;
      }
      items := items + [Build([("startValue", start), ("Cost", Some(Array(costs.value)))])];
    }
    AllIs(PrintConsumption, consumptions, items);
    return Some(items);
  }

  method PrintTariffEntries(entries: seq<TariffEntry>) returns (r: Option<seq<Json>>)
    ensures r == All(PrintTariffEntry, entries)
  {
    hide PrintInterval, PrintConsumption, Build, TariffEntryFields;
    var items: seq<Json> := [];
    for i := 0 to |entries|
      invariant |items| == i && forall k :: 0 <= k < i ==> PrintTariffEntry(entries[k]) == Some(items[k])
    {
      var interval := PrintInterval(entries[i].interval);
      var consumptions := PrintConsumptions(entries[i].consumption);
      if interval.None? || consumptions.None? {
        return None;
      }
      items := items + [Build(TariffEntryFields(entries[i], interval.value, consumptions.value))];
    }
    AllIs(PrintTariffEntry, entries, items);
    return Some(items);
  }

  /** `sales_tariff_to_json`. */
  method SalesTariffToJson(z: Sizes, t: Tariff) returns (r: Option<Json>)
    ensures r == PrintTariff(z, t)
  {
    hide PrintOptionalText, PrintTariffEntry, Build, TariffFields;
    var id := PrintOptionalText(z, t.id);
    var description := PrintOptionalText(z, t.description);
    if id.None? || description.None? {
      return None;
    }
    var entries := PrintTariffEntries(t.entries);
    if entries.None? {
      return None;
    }
    return Some(Build(TariffFields(t, id.value, description.value, entries.value)));
  }

  method PrintPMaxEntries(entries: seq<PMaxEntry>) returns (r: Option<seq<Json>>)
    ensures r == All(PrintPMaxEntry, entries)
  {
    hide PrintPMaxEntry;
    var items: seq<Json> := [];
    for i := 0 to |entries|
      invariant |items| == i && forall k :: 0 <= k < i ==> PrintPMaxEntry(entries[k]) == Some(items[k])
    {
      var item := PrintPMaxEntry(entries[i]);
      if item.None? {
        return None;
      }
      items := items + [item.value];
    }
    AllIs(PrintPMaxEntry, entries, items);
    return Some(items);
  }

  method PrintOneTuple(z: Sizes, t: ScheduleTuple) returns (r: Option<Json>)
    ensures r == PrintTuple(z, t)
  {
    hide PrintPMaxEntry, PrintTariff, Build, TupleFields;
    var entries := PrintPMaxEntries(t.entries);
    if entries.None? {
      return None;
    }
    var tariff: Option<Json> := None;
    if t.tariff.Some? {
      tariff := SalesTariffToJson(z, t.tariff.value);
      if tariff.None? {
        return None;
      }
    }
    return Some(Build(TupleFields(t, entries.value, tariff)));
  }

  /** `add_sa_schedule_list`, the object it adds to its parent. */
  method AddSaScheduleList(z: Sizes, ts: seq<ScheduleTuple>) returns (r: Option<Json>)
    ensures r == PrintList(z, ts)
  {
    hide PrintTuple, Build;
    var items: seq<Json> := [];
    for i := 0 to |ts|
      invariant |items| == i && forall k :: 0 <= k < i ==> PrintTuple(z, ts[k]) == Some(items[k])
    {
      var item := PrintOneTuple(z, ts[i]);
      if item.None? {
        return None;
      }
      items := items + [item.value];
    }
    AllIs(TuplePrinter(z), ts, items);
    return Some(Build([("SAScheduleTuple", Some(Array(items)))]));
  }
}
