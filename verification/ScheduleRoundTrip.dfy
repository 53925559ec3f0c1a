/** Printing and reading schedules are inverse to each other on exactly the valid structures. */
module ScheduleRoundTrip {
  import opened Common
  import opened EnumTable
  import opened Json
  import opened JsonFields
  import opened Schedule

  lemma TablesAreDistinct()
    ensures Distinct(UNITS) && Distinct(COST_KINDS)
  {}

  lemma EnumRoundTrip(table: Table, value: int)
    requires Distinct(table) && NameOf(table, value).Some?
    ensures ValueOf(table, NameOf(table, value).value) == Some(value)
  {
    LookupsInverse(table, value, NameOf(table, value).value);
  }

  lemma EnumReadIsKnown(table: Table, name: string)
    requires Distinct(table) && ValueOf(table, name).Some?
    ensures NameOf(table, ValueOf(table, name).value).Some?
  {}

  lemma IntegerRead(n: int, min: int, max: int)
    requires min <= n <= max
    ensures ItemToInteger(Integer(n), min, max) == Some(n)
  {}

  // ---- Valid structures survive ----

  lemma ValueRoundTrip(v: PhysicalValue)
    requires ValidValue(v)
    ensures PrintValue(v).Some? && PrintValue(v).value.Object? && ReadValue(PrintValue(v).value) == Some(v)
  {
    TablesAreDistinct();
    EnumRoundTrip(UNITS, v.unit);
    hide NameOf, ValueOf, Members, Distinct, UNITS, ItemToInteger, GetItem;
    var f := ValueFields(v, NameOf(UNITS, v.unit).value);
    GetBuilt(f, 0);
    GetBuilt(f, 1);
    GetBuilt(f, 2);
    IntegerRead(v.multiplier, MULTIPLIER_MIN, MULTIPLIER_MAX);
    IntegerRead(v.value, -32768, 32767);
  }

  lemma IntervalRoundTrip(i: Interval)
    requires ValidInterval(i)
    ensures PrintInterval(Some(i)).Some? && PrintInterval(Some(i)).value.Object?
    ensures ReadInterval(PrintInterval(Some(i)).value) == Some(i)
  {
    hide Members, ItemToInteger, GetItem;
    var f := IntervalFields(i);
    GetBuilt(f, 0);
    GetBuilt(f, 1);
    IntegerRead(i.start, 0, UINT32_MAX);
    if i.duration.Some? { IntegerRead(i.duration.value, 0, UINT32_MAX); }
  }

  lemma CostRoundTrip(c: Cost)
    requires ValidCost(c)
    ensures PrintCost(c).Some? && ReadCost(PrintCost(c).value) == Some(c)
  {
    TablesAreDistinct();
    EnumRoundTrip(COST_KINDS, c.kind);
    hide NameOf, ValueOf, Members, Distinct, COST_KINDS, ItemToInteger, GetItem;
    var f := CostFields(c, NameOf(COST_KINDS, c.kind).value);
    GetBuilt(f, 0);
    GetBuilt(f, 1);
    GetBuilt(f, 2);
    IntegerRead(c.amount, 0, UINT32_MAX);
    if c.multiplier.Some? { IntegerRead(c.multiplier.value, MULTIPLIER_MIN, MULTIPLIER_MAX); }
  }

  lemma ConsumptionRoundTrip(c: Consumption)
    requires ValidConsumption(c)
    ensures PrintConsumption(c).Some? && ReadConsumption(PrintConsumption(c).value) == Some(c)
  {
    hide ValidValue, ValidCost, PrintValue, ReadValue, PrintCost, ReadCost, Members, GetItem;
    ValueRoundTrip(c.startValue);
    forall i | 0 <= i < |c.costs| ensures Survives(PrintCost, ReadCost, c.costs[i]) {
      CostRoundTrip(c.costs[i]);
    }
    AllInverse(PrintCost, ReadCost, c.costs);
    var f: Fields := [("startValue", PrintValue(c.startValue)), ("Cost", Some(Array(All(PrintCost, c.costs).value)))];
    GetBuilt(f, 0);
    GetBuilt(f, 1);
  }

  lemma TariffEntryRoundTrip(e: TariffEntry)
    requires ValidTariffEntry(e)
    ensures PrintTariffEntry(e).Some? && ReadTariffEntry(PrintTariffEntry(e).value) == Some(e)
  {
    hide ValidInterval, PrintInterval, ReadInterval, Members, GetItem, ItemToInteger;
    hide ValidConsumption, PrintConsumption, ReadConsumption;
    IntervalRoundTrip(e.interval.value);
    forall i | 0 <= i < |e.consumption|
      ensures Survives(PrintConsumption, ReadConsumption, e.consumption[i])
    {
      ConsumptionRoundTrip(e.consumption[i]);
    }
    AllInverse(PrintConsumption, ReadConsumption, e.consumption);
    if e.priceLevel.Some? { IntegerRead(e.priceLevel.value, 0, UINT8_MAX); }
    var f := TariffEntryFields(e, PrintInterval(e.interval).value, All(PrintConsumption, e.consumption).value);
    GetBuilt(f, 0);
    GetBuilt(f, 1);
    GetBuilt(f, 2);
  }

  lemma OptionalTextRoundTrip(z: Sizes, s: Option<string>, size: nat)
    requires Text(s, size) && size <= z.text + 1
    ensures PrintOptionalText(z, s).Some? && PrintOptionalText(z, s).value != Some(Null)
    ensures match PrintOptionalText(z, s).value
            case None => s.None?
            case Some(item) => ItemToText(item, size) == s && s.Some?
  {}

  /** Each member of a printed tariff is found under its key. */
  lemma TariffMembers(t: Tariff, id: Option<Json>, description: Option<Json>, entries: seq<Json>)
    requires id != Some(Null) && description != Some(Null)
    ensures var json := Build(TariffFields(t, id, description, entries));
            && GetItem(json, "Id") == id && GetItem(json, "SalesTariffID") == Some(Integer(t.number))
            && GetItem(json, "SalesTariffDescription") == description
            && GetItem(json, "NumEPriceLevels") == OptionalInteger(t.priceLevels)
            && GetItem(json, "SalesTariffEntry") == Some(Array(entries))
  {
    hide Members, GetItem;
    var f := TariffFields(t, id, description, entries);
    assert DistinctKeys(f);
    GetBuilt(f, 0);
    GetBuilt(f, 1);
    GetBuilt(f, 2);
    GetBuilt(f, 3);
    GetBuilt(f, 4);
  }

  lemma TariffRoundTrip(z: Sizes, t: Tariff)
    requires z.Consistent() && ValidTariff(z, t)
    ensures PrintTariff(z, t).Some? && PrintTariff(z, t).value.Object?
    ensures ReadTariff(z, PrintTariff(z, t).value) == Some(t)
  {
    hide ValidTariffEntry, PrintTariffEntry, ReadTariffEntry, Members, GetItem, ItemToInteger;
    hide Text, PrintOptionalText, ItemToText, TariffFields;
    OptionalTextRoundTrip(z, t.id, z.id);
    OptionalTextRoundTrip(z, t.description, z.description);
    forall i | 0 <= i < |t.entries|
      ensures Survives(PrintTariffEntry, ReadTariffEntry, t.entries[i])
    {
      TariffEntryRoundTrip(t.entries[i]);
    }
    AllInverse(PrintTariffEntry, ReadTariffEntry, t.entries);
    IntegerRead(t.number, 0, UINT8_MAX);
    if t.priceLevels.Some? { IntegerRead(t.priceLevels.value, 0, UINT8_MAX); }
    TariffMembers(t, PrintOptionalText(z, t.id).value, PrintOptionalText(z, t.description).value,
                  All(PrintTariffEntry, t.entries).value);
  }

  lemma PMaxEntryRoundTrip(e: PMaxEntry)
    requires ValidPMaxEntry(e)
    ensures PrintPMaxEntry(e).Some? && ReadPMaxEntry(PrintPMaxEntry(e).value) == Some(e)
  {
    hide ValidInterval, ValidValue, PrintInterval, ReadInterval, PrintValue, ReadValue, Members, GetItem;
    IntervalRoundTrip(e.interval.value);
    ValueRoundTrip(e.pmax);
    var f: Fields := [("RelativeTimeInterval", PrintInterval(e.interval)), ("PMax", PrintValue(e.pmax))];
    GetBuilt(f, 0);
    GetBuilt(f, 1);
  }

  lemma TupleMembers(t: ScheduleTuple, entries: seq<Json>, tariff: Option<Json>)
    requires tariff != Some(Null)
    ensures var json := Build(TupleFields(t, entries, tariff));
            var schedule := Build([("PMaxScheduleEntry", Some(Array(entries)))]);
            && GetItem(json, "SAScheduleTupleID") == Some(Integer(t.number))
            && GetItem(json, "PMaxSchedule") == Some(schedule) && GetItem(json, "SalesTariff") == tariff
            && GetItem(schedule, "PMaxScheduleEntry") == Some(Array(entries))
  {
    hide Members, GetItem;
    GetBuilt([("PMaxScheduleEntry", Some(Array(entries)))], 0);
    var f := TupleFields(t, entries, tariff);
    GetBuilt(f, 0);
    GetBuilt(f, 1);
    GetBuilt(f, 2);
  }

  lemma TupleRoundTrip(z: Sizes, t: ScheduleTuple)
    requires z.Consistent() && ValidTuple(z, t)
    ensures PrintTuple(z, t).Some? && ReadTuple(z, PrintTuple(z, t).value) == Some(t)
  {
    hide ValidPMaxEntry, PrintPMaxEntry, ReadPMaxEntry, Members, GetItem, ItemToInteger;
    hide ValidTariff, PrintTariff, ReadTariff, TupleFields;
    forall i | 0 <= i < |t.entries|
      ensures Survives(PrintPMaxEntry, ReadPMaxEntry, t.entries[i])
    {
      PMaxEntryRoundTrip(t.entries[i]);
    }
    AllInverse(PrintPMaxEntry, ReadPMaxEntry, t.entries);
    if t.tariff.Some? { TariffRoundTrip(z, t.tariff.value); }
    IntegerRead(t.number, 0, UINT8_MAX);
    TupleMembers(t, All(PrintPMaxEntry, t.entries).value, PrintOptionalTariff(z, t.tariff).value);
  }

  lemma ListRoundTrip(z: Sizes, ts: seq<ScheduleTuple>)
    requires z.Consistent() && ValidList(z, ts)
    ensures PrintList(z, ts).Some? && ReadList(z, PrintList(z, ts).value) == Some(ts)
  {
    hide ValidTuple, PrintTuple, ReadTuple, Members, GetItem;
    forall i | 0 <= i < |ts| ensures Survives(TuplePrinter(z), TupleReader(z), ts[i]) {
      TupleRoundTrip(z, ts[i]);
    }
    AllInverse(TuplePrinter(z), TupleReader(z), ts);
    GetBuilt([("SAScheduleTuple", Some(Array(All(TuplePrinter(z), ts).value)))], 0);
  }

  // ---- Everything that is read is valid ----

  lemma ReadValueValid(json: Json)
    ensures ReadValue(json).Some? ==> ValidValue(ReadValue(json).value)
  {
    TablesAreDistinct();
    if ReadValue(json).Some? { EnumReadIsKnown(UNITS, GetItem(json, "Unit").value.text); }
    hide Distinct, UNITS, NameOf, ValueOf;
  }

  lemma ReadCostValid(json: Json)
    ensures ReadCost(json).Some? ==> ValidCost(ReadCost(json).value)
  {
    TablesAreDistinct();
    if ReadCost(json).Some? { EnumReadIsKnown(COST_KINDS, GetItem(json, "costKind").value.text); }
    hide Distinct, COST_KINDS, NameOf, ValueOf;
  }

  lemma ReadConsumptionValid(json: Json)
    ensures ReadConsumption(json).Some? ==> ValidConsumption(ReadConsumption(json).value)
  {
    hide ReadValue, ValidValue, ReadCost, ValidCost;
    if ReadConsumption(json).Some? {
      ReadValueValid(GetItem(json, "startValue").value);
      forall item ensures ReadCost(item).Some? ==> ValidCost(ReadCost(item).value) { ReadCostValid(item); }
    }
  }

  lemma ReadTariffEntryValid(json: Json)
    ensures ReadTariffEntry(json).Some? ==> ValidTariffEntry(ReadTariffEntry(json).value)
  {
    hide ReadConsumption, ValidConsumption;
    forall item ensures ReadConsumption(item).Some? ==> ValidConsumption(ReadConsumption(item).value) {
      ReadConsumptionValid(item);
    }
  }

  lemma ReadTariffValid(z: Sizes, json: Json)
    ensures ReadTariff(z, json).Some? ==> ValidTariff(z, ReadTariff(z, json).value)
  {
    hide ReadTariffEntry, ValidTariffEntry;
    forall item ensures ReadTariffEntry(item).Some? ==> ValidTariffEntry(ReadTariffEntry(item).value) {
      ReadTariffEntryValid(item);
    }
  }

  lemma ReadPMaxEntryValid(json: Json)
    ensures ReadPMaxEntry(json).Some? ==> ValidPMaxEntry(ReadPMaxEntry(json).value)
  {
    hide ReadValue, ValidValue;
    if ReadPMaxEntry(json).Some? { ReadValueValid(GetItem(json, "PMax").value); }
  }

  lemma ReadTupleValid(z: Sizes, json: Json)
    ensures ReadTuple(z, json).Some? ==> ValidTuple(z, ReadTuple(z, json).value)
  {
    hide ReadPMaxEntry, ValidPMaxEntry, ReadTariff, ValidTariff;
    forall item ensures ReadPMaxEntry(item).Some? ==> ValidPMaxEntry(ReadPMaxEntry(item).value) {
      ReadPMaxEntryValid(item);
    }
    forall item ensures ReadTariff(z, item).Some? ==> ValidTariff(z, ReadTariff(z, item).value) {
      ReadTariffValid(z, item);
    }
  }

  lemma ReadListValid(z: Sizes, json: Json)
    ensures ReadList(z, json).Some? ==> ValidList(z, ReadList(z, json).value)
  {
    hide ReadTuple, ValidTuple;
    forall item ensures ReadTuple(z, item).Some? ==> ValidTuple(z, ReadTuple(z, item).value) {
      ReadTupleValid(z, item);
    }
  }

  // ---- Together ----

  /** A schedule list survives printing and reading if and only if it is valid. */
  lemma RoundTripExactlyValid(z: Sizes, ts: seq<ScheduleTuple>)
    requires z.Consistent()
    ensures PrintList(z, ts).Some? && ReadList(z, PrintList(z, ts).value) == Some(ts) <==> ValidList(z, ts)
  {
    if ValidList(z, ts) {
      ListRoundTrip(z, ts);
    } else if PrintList(z, ts).Some? {
      ReadListValid(z, PrintList(z, ts).value);
    }
  }

  /** Whatever the reader builds prints successfully and reads back to itself. */
  lemma ReadPrintRead(z: Sizes, json: Json)
    requires z.Consistent()
    ensures match ReadList(z, json)
            case None => true
            case Some(ts) => PrintList(z, ts).Some? && ReadList(z, PrintList(z, ts).value) == Some(ts)
  {
    ReadListValid(z, json);
    if ReadList(z, json).Some? { ListRoundTrip(z, ReadList(z, json).value); }
  }
}
