/**
 SAScheduleList and SalesTariff between their C structures and JSON. Enumerations are the integers
 of the C structures, so that a decoded structure may hold a value that has no name.
 */
module Schedule {
  import opened Common
  import opened EnumTable
  import opened Json
  import opened JsonFields

  const UNITS: Table := [(0, "h"), (1, "m"), (2, "s"), (3, "A"), (4, "V"), (5, "W"), (6, "Wh")]
  const COST_KINDS: Table :=
    [(0, "relativePricePercentage"), (1, "RenewableGenerationPercentage"), (2, "CarbonDioxideEmission")]

  const UINT8_MAX := 255
  const UINT32_MAX := 4294967295
  const MULTIPLIER_MIN := -3
  const MULTIPLIER_MAX := 4

  /**
   The sizes of the character arrays for an identifier and a description, of which one character is
   for a terminator, and the longest text that the printer's buffer takes. Everything below holds for
   all consistent sizes.
   */
  datatype Sizes = Sizes(id: nat, description: nat, text: nat) {
    predicate Consistent() { id <= text + 1 && description <= text + 1 }
  }

  datatype PhysicalValue = PhysicalValue(multiplier: int, unit: int, value: int)
  datatype Interval = Interval(start: int, duration: Option<int>)
  datatype Cost = Cost(kind: int, amount: int, multiplier: Option<int>)
  datatype Consumption = Consumption(startValue: PhysicalValue, costs: seq<Cost>)
  datatype TariffEntry = TariffEntry(interval: Option<Interval>, priceLevel: Option<int>, consumption: seq<Consumption>)
  datatype Tariff =
    Tariff(id: Option<string>, number: int, description: Option<string>, priceLevels: Option<int>,
           entries: seq<TariffEntry>)
  datatype PMaxEntry = PMaxEntry(interval: Option<Interval>, pmax: PhysicalValue)
  datatype ScheduleTuple = ScheduleTuple(number: int, entries: seq<PMaxEntry>, tariff: Option<Tariff>)

  // ---- What the structures may hold ----

  predicate InRange(n: int, min: int, max: int) { min <= n <= max }

  predicate OptionalInRange(n: Option<int>, min: int, max: int) { n.Some? ==> InRange(n.value, min, max) }

  predicate Text(s: Option<string>, size: nat) { s.Some? ==> |s.value| < size && '\0' !in s.value }

  predicate ValidValue(v: PhysicalValue) {
    && InRange(v.multiplier, MULTIPLIER_MIN, MULTIPLIER_MAX)
    && NameOf(UNITS, v.unit).Some? && InRange(v.value, -32768, 32767)
  }

  predicate ValidInterval(i: Interval) {
    InRange(i.start, 0, UINT32_MAX) && OptionalInRange(i.duration, 0, UINT32_MAX)
  }

  predicate ValidCost(c: Cost) {
    && NameOf(COST_KINDS, c.kind).Some? && InRange(c.amount, 0, UINT32_MAX)
    && OptionalInRange(c.multiplier, MULTIPLIER_MIN, MULTIPLIER_MAX)
  }

  predicate ValidConsumption(c: Consumption) {
    ValidValue(c.startValue) && 1 <= |c.costs| <= 3 && forall i :: 0 <= i < |c.costs| ==> ValidCost(c.costs[i])
  }

  predicate ValidTariffEntry(e: TariffEntry) {
    && e.interval.Some? && ValidInterval(e.interval.value) && OptionalInRange(e.priceLevel, 0, UINT8_MAX)
    && |e.consumption| <= 3 && forall i :: 0 <= i < |e.consumption| ==> ValidConsumption(e.consumption[i])
  }

  predicate ValidTariff(z: Sizes, t: Tariff) {
    && Text(t.id, z.id) && InRange(t.number, 0, UINT8_MAX) && Text(t.description, z.description)
    && OptionalInRange(t.priceLevels, 0, UINT8_MAX)
    && 1 <= |t.entries| <= 12 && forall i :: 0 <= i < |t.entries| ==> ValidTariffEntry(t.entries[i])
  }

  predicate ValidPMaxEntry(e: PMaxEntry) { e.interval.Some? && ValidInterval(e.interval.value) && ValidValue(e.pmax) }

  predicate ValidTuple(z: Sizes, t: ScheduleTuple) {
    && InRange(t.number, 0, UINT8_MAX)
    && 1 <= |t.entries| <= 12 && (forall i :: 0 <= i < |t.entries| ==> ValidPMaxEntry(t.entries[i]))
    && (t.tariff.Some? ==> ValidTariff(z, t.tariff.value))
  }

  predicate ValidList(z: Sizes, ts: seq<ScheduleTuple>) {
    1 <= |ts| <= 3 && forall i :: 0 <= i < |ts| ==> ValidTuple(z, ts[i])
  }

  // ---- Printing ----

  function Integer(n: int): (json: Json) { Number(n as real) }

  function OptionalInteger(n: Option<int>): (r: Option<Json>) {
    match n case None => None case Some(v) => Some(Integer(v))
  }

  /** The hexadecimal digits of `\u00xx`. */
  function HexDigit(n: nat): (c: char)
    requires n < 16
  {
    "0123456789abcdef"[n]
  }

  predicate NeedsEscape(c: char) { c < ' ' || c == '"' || c == '\\' }

  function EscapedChar(c: char): (t: string) {
    if NeedsEscape(c) then ['\\', 'u', '0', '0', HexDigit(c as int / 16), HexDigit(c as int % 16)] else [c]
  }

  /** The loop of `add_string_with_nul`. */
  function Escaped(s: string): (t: string) { if s == [] then "" else EscapedChar(s[0]) + Escaped(s[1..]) }

  /** `add_string`: a text with NUL characters becomes escaped raw text, one beyond the buffer fails. */
  function PrintText(z: Sizes, s: string): (r: Option<Json>) {
    if |s| > z.text then None
    else if '\0' in s then Some(Raw("\"" + Escaped(s) + "\"")) else Some(String(s))
  }

  /** `add_physical_value`. */
  function PrintValue(v: PhysicalValue): (r: Option<Json>) {
    match NameOf(UNITS, v.unit)
    case None => None
    case Some(unit) => Some(Build(ValueFields(v, unit)))
  }

  function ValueFields(v: PhysicalValue, unit: string): (fields: Fields) {
    [("Multiplier", Some(Integer(v.multiplier))), ("Unit", Some(String(unit))), ("Value", Some(Integer(v.value)))]
  }

  /** `add_relative_time_interval`. */
  function PrintInterval(i: Option<Interval>): (r: Option<Json>) {
    match i
    case None => None
    case Some(v) => Some(Build(IntervalFields(v)))
  }

  function IntervalFields(i: Interval): (fields: Fields) {
    [("start", Some(Integer(i.start))), ("duration", OptionalInteger(i.duration))]
  }

  function PrintCost(c: Cost): (r: Option<Json>) {
    match NameOf(COST_KINDS, c.kind)
    case None => None
    case Some(kind) => Some(Build(CostFields(c, kind)))
  }

  function CostFields(c: Cost, kind: string): (fields: Fields) {
    [("costKind", Some(String(kind))), ("amount", Some(Integer(c.amount))),
     ("amountMultiplier", OptionalInteger(c.multiplier))]
  }

  function PrintConsumption(c: Consumption): (r: Option<Json>) {
    match (PrintValue(c.startValue), All(PrintCost, c.costs))
    case (Some(v), Some(costs)) => Some(Build([("startValue", Some(v)), ("Cost", Some(Array(costs)))]))
    case _ => None
  }

  function PrintTariffEntry(e: TariffEntry): (r: Option<Json>) {
    match (PrintInterval(e.interval), All(PrintConsumption, e.consumption))
    case (Some(i), Some(costs)) => Some(Build(TariffEntryFields(e, i, costs)))
    case _ => None
  }

  /** An empty list of consumption costs is left out. */
  function TariffEntryFields(e: TariffEntry, interval: Json, costs: seq<Json>): (fields: Fields) {
    [("RelativeTimeInterval", Some(interval)), ("EPriceLevel", OptionalInteger(e.priceLevel)),
     ("ConsumptionCost", if costs == [] then None else Some(Array(costs)))]
  }

  function PrintOptionalText(z: Sizes, s: Option<string>): (r: Option<Option<Json>>) {
    match s
    case None => Some(None)
    case Some(text) => if PrintText(z, text).Some? then Some(PrintText(z, text)) else None
  }

  /** `sales_tariff_to_json`. */
  function PrintTariff(z: Sizes, t: Tariff): (r: Option<Json>) {
    match (PrintOptionalText(z, t.id), PrintOptionalText(z, t.description), All(PrintTariffEntry, t.entries))
    case (Some(id), Some(description), Some(entries)) => Some(Build(TariffFields(t, id, description, entries)))
    case _ => None
  }

  function TariffFields(t: Tariff, id: Option<Json>, description: Option<Json>, entries: seq<Json>): (fields: Fields) {
    [("Id", id), ("SalesTariffID", Some(Integer(t.number))), ("SalesTariffDescription", description),
     ("NumEPriceLevels", OptionalInteger(t.priceLevels)), ("SalesTariffEntry", Some(Array(entries)))]
  }

  function PrintPMaxEntry(e: PMaxEntry): (r: Option<Json>) {
    match (PrintInterval(e.interval), PrintValue(e.pmax))
    case (Some(i), Some(v)) => Some(Build([("RelativeTimeInterval", Some(i)), ("PMax", Some(v))]))
    case _ => None
  }

  function PrintOptionalTariff(z: Sizes, t: Option<Tariff>): (r: Option<Option<Json>>) {
    match t
    case None => Some(None)
    case Some(tariff) => if PrintTariff(z, tariff).Some? then Some(PrintTariff(z, tariff)) else None
  }

  function PrintTuple(z: Sizes, t: ScheduleTuple): (r: Option<Json>) {
    match (All(PrintPMaxEntry, t.entries), PrintOptionalTariff(z, t.tariff))
    case (Some(entries), Some(tariff)) => Some(Build(TupleFields(t, entries, tariff)))
    case _ => None
  }

  function TupleFields(t: ScheduleTuple, entries: seq<Json>, tariff: Option<Json>): (fields: Fields) {
    [("SAScheduleTupleID", Some(Integer(t.number))),
     ("PMaxSchedule", Some(Build([("PMaxScheduleEntry", Some(Array(entries)))]))), ("SalesTariff", tariff)]
  }

  function TuplePrinter(z: Sizes): (f: ScheduleTuple -> Option<Json>) { t => PrintTuple(z, t) }

  /** What `add_sa_schedule_list` adds to its parent object. */
  function PrintList(z: Sizes, ts: seq<ScheduleTuple>): (r: Option<Json>) {
    match All(TuplePrinter(z), ts)
    case None => None
    case Some(tuples) => Some(Build([("SAScheduleTuple", Some(Array(tuples)))]))
  }

  // ---- Reading ----

  function ReadInteger(json: Json, key: string, min: int, max: int): (r: Option<int>) {
    match GetItem(json, key)
    case None => None
    case Some(item) => ItemToInteger(item, min, max)
  }

  /** `None` is a failure, `Some(None)` an absent member. */
  function ReadOptionalInteger(json: Json, key: string, min: int, max: int): (r: Option<Option<int>>) {
    match GetItem(json, key)
    case None => Some(None)
    case Some(item) => if ItemToInteger(item, min, max).Some? then Some(ItemToInteger(item, min, max)) else None
  }

  /** The characters of a C string. */
  function Terminated(s: string): (t: string)
    ensures '\0' !in t
    ensures '\0' !in s ==> t == s
  {
    if s == [] || s[0] == '\0' then "" else [s[0]] + Terminated(s[1..])
  }

  /** `item_to_string`. */
  function ItemToText(item: Json, size: nat): (r: Option<string>) {
    if item.String? && |Terminated(item.text)| < size then Some(Terminated(item.text)) else None
  }

  function ReadOptionalText(json: Json, key: string, size: nat): (r: Option<Option<string>>) {
    match GetItem(json, key)
    case None => Some(None)
    case Some(item) => if ItemToText(item, size).Some? then Some(ItemToText(item, size)) else None
  }

  /** `read_enum`. */
  function ReadEnum(json: Json, key: string, table: Table): (r: Option<int>) {
    match GetItem(json, key)
    case Some(String(name)) => ValueOf(table, name)
    case _ => None
  }

  /** `get_list`. */
  function GetList(json: Json, key: string, min: nat, max: nat): (r: Option<seq<Json>>)
    ensures r.Some? ==> min <= |r.value| <= max
  {
    match GetItem(json, key)
    case Some(Array(items)) => if min <= |items| <= max then Some(items) else None
    case _ => None
  }

  function ReadItems<T>(json: Json, key: string, min: nat, max: nat, read: Json -> Option<T>): (r: Option<seq<T>>)
    ensures r.Some? ==> min <= |r.value| <= max
  {
    match GetList(json, key, min, max)
    case Some(items) => All(read, items)
    case None => None
  }

  /** `get_object` and the conversion of the object. */
  function ReadObject<T>(json: Json, key: string, read: Json -> Option<T>): (r: Option<T>) {
    match GetItem(json, key)
    case Some(item) => if item.Object? then read(item) else None
    case None => None
  }

  function ReadValue(json: Json): (r: Option<PhysicalValue>) {
    match (ReadInteger(json, "Multiplier", MULTIPLIER_MIN, MULTIPLIER_MAX), ReadEnum(json, "Unit", UNITS),
           ReadInteger(json, "Value", -32768, 32767))
    case (Some(m), Some(u), Some(v)) => Some(PhysicalValue(m, u, v))
    case _ => None
  }

  function ReadInterval(json: Json): (r: Option<Interval>) {
    match (ReadInteger(json, "start", 0, UINT32_MAX), ReadOptionalInteger(json, "duration", 0, UINT32_MAX))
    case (Some(s), Some(d)) => Some(Interval(s, d))
    case _ => None
  }

  function ReadCost(json: Json): (r: Option<Cost>) {
    match (ReadEnum(json, "costKind", COST_KINDS), ReadInteger(json, "amount", 0, UINT32_MAX),
           ReadOptionalInteger(json, "amountMultiplier", MULTIPLIER_MIN, MULTIPLIER_MAX))
    case (Some(k), Some(a), Some(m)) => Some(Cost(k, a, m))
    case _ => None
  }

  function ReadConsumption(json: Json): (r: Option<Consumption>) {
    match (ReadObject(json, "startValue", ReadValue), ReadItems(json, "Cost", 1, 3, ReadCost))
    case (Some(v), Some(costs)) => Some(Consumption(v, costs))
    case _ => None
  }

  function ReadConsumptionList(json: Json): (r: Option<seq<Consumption>>) {
    if GetItem(json, "ConsumptionCost").None? then Some([])
    else ReadItems(json, "ConsumptionCost", 1, 3, ReadConsumption)
  }

  function ReadTariffEntry(json: Json): (r: Option<TariffEntry>) {
    match (ReadObject(json, "RelativeTimeInterval", ReadInterval),
           ReadOptionalInteger(json, "EPriceLevel", 0, UINT8_MAX), ReadConsumptionList(json))
    case (Some(i), Some(p), Some(c)) => Some(TariffEntry(Some(i), p, c))
    case _ => None
  }

  /** `json_to_sales_tariff`. */
  function ReadTariff(z: Sizes, json: Json): (r: Option<Tariff>) {
    match (ReadOptionalText(json, "Id", z.id), ReadInteger(json, "SalesTariffID", 0, UINT8_MAX),
           ReadOptionalText(json, "SalesTariffDescription", z.description),
           ReadOptionalInteger(json, "NumEPriceLevels", 0, UINT8_MAX),
           ReadItems(json, "SalesTariffEntry", 1, 12, ReadTariffEntry))
    case (Some(id), Some(n), Some(d), Some(p), Some(es)) => Some(Tariff(id, n, d, p, es))
    case _ => None
  }

  function ReadPMaxEntry(json: Json): (r: Option<PMaxEntry>) {
    match (ReadObject(json, "RelativeTimeInterval", ReadInterval), ReadObject(json, "PMax", ReadValue))
    case (Some(i), Some(v)) => Some(PMaxEntry(Some(i), v))
    case _ => None
  }

  function ReadPMaxSchedule(json: Json): (r: Option<seq<PMaxEntry>>) {
    ReadItems(json, "PMaxScheduleEntry", 1, 12, ReadPMaxEntry)
  }

  function TariffReader(z: Sizes): (f: Json -> Option<Tariff>) { json => ReadTariff(z, json) }

  function ReadOptionalTariff(z: Sizes, json: Json): (r: Option<Option<Tariff>>) {
    if GetItem(json, "SalesTariff").None? then Some(None)
    else
      match ReadObject(json, "SalesTariff", TariffReader(z))
      case None => None
      case Some(t) => Some(Some(t))
  }

  function ReadTuple(z: Sizes, json: Json): (r: Option<ScheduleTuple>) {
    match (ReadInteger(json, "SAScheduleTupleID", 0, UINT8_MAX), ReadObject(json, "PMaxSchedule", ReadPMaxSchedule),
           ReadOptionalTariff(z, json))
    case (Some(n), Some(es), Some(t)) => Some(ScheduleTuple(n, es, t))
    case _ => None
  }

  function TupleReader(z: Sizes): (f: Json -> Option<ScheduleTuple>) { json => ReadTuple(z, json) }

  /** What `read_sa_schedule_list` reads from the object it finds in its parent. */
  function ReadList(z: Sizes, json: Json): (r: Option<seq<ScheduleTuple>>) {
    ReadItems(json, "SAScheduleTuple", 1, 3, TupleReader(z))
  }
}
