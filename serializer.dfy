/**
 * The row-to-document builders of Serializer.cpp (duplicated in server.cpp):
 * each walks a query result and pushes one ordered object per row onto an
 * array. A row is modelled by the typed values of the columns the builder
 * reads, after libpqxx's `as<T>` conversion.
 */
module Serializer {
  import opened Wrappers
  import opened Json

  datatype IncidentRow = IncidentRow(
    id: int, victimAddress: string, victimName: string, lossType: string,
    killerAddress: string, killerName: string, timeStamp: int,
    solarSystemId: int, solarSystemName: string)

  datatype SystemRow = SystemRow(solarSystemId: int, solarSystemName: string, x: string, y: string, z: string)

  /** A `/totals` row for one character: column `person` and the two counts. */
  datatype NameTotalsRow = NameTotalsRow(person: string, totalKills: int, totalLosses: int)

  /** A top-list row: column `name` and column `incident_count`. */
  datatype CountRow = CountRow(name: string, incidentCount: int)

  /** A top-systems row; its id column is read as text. */
  datatype SystemCountRow = SystemCountRow(solarSystemId: string, solarSystemName: string, incidentCount: int)

  const IncidentKeys: seq<string> := ["id", "victim_address", "victim_name", "loss_type", "killer_address",
                                      "killer_name", "time_stamp", "solar_system_id", "solar_system_name"]
  const SystemKeys: seq<string> := ["solar_system_id", "solar_system_name", "coordinates"]
  const CoordinateKeys: seq<string> := ["x", "y", "z"]
  const NameTotalsKeys: seq<string> := ["name", "total_kills", "total_losses"]
  const KillerKeys: seq<string> := ["name", "kills"]
  const VictimKeys: seq<string> := ["name", "losses"]
  const SystemCountKeys: seq<string> := ["solar_system_id", "solar_system_name", "incident_count"]

  // ------------------------------------------------------------------ items

  function IncidentItem(r: IncidentRow): (j: Json)
    ensures j.JObject? && Keys(j.members) == IncidentKeys
  {
    JObject([Member("id", JInt(r.id)), Member("victim_address", JString(r.victimAddress)),
             Member("victim_name", JString(r.victimName)), Member("loss_type", JString(r.lossType)),
             Member("killer_address", JString(r.killerAddress)), Member("killer_name", JString(r.killerName)),
             Member("time_stamp", JInt(r.timeStamp)), Member("solar_system_id", JInt(r.solarSystemId)),
             Member("solar_system_name", JString(r.solarSystemName))])
  }

  /** The id is written as a number; the coordinates as strings in a nested object. */
  function SystemItem(r: SystemRow): (j: Json)
    ensures j.JObject? && Keys(j.members) == SystemKeys
    ensures j.members[0].value.JInt?
    ensures j.members[2].value.JObject? && Keys(j.members[2].value.members) == CoordinateKeys
  {
    JObject([Member("solar_system_id", JInt(r.solarSystemId)),
             Member("solar_system_name", JString(r.solarSystemName)),
             Member("coordinates", JObject([Member("x", JString(r.x)), Member("y", JString(r.y)),
                                            Member("z", JString(r.z))]))])
  }

  /** Column `person` is published under the key `name`. */
  function NameTotalsItem(r: NameTotalsRow): (j: Json)
    ensures j.JObject? && Keys(j.members) == NameTotalsKeys
    ensures j.members[0].value == JString(r.person)
  {
    JObject([Member("name", JString(r.person)), Member("total_kills", JInt(r.totalKills)),
             Member("total_losses", JInt(r.totalLosses))])
  }

  /** `incident_count` is published as `kills`. */
  function KillerItem(r: CountRow): (j: Json)
    ensures j.JObject? && Keys(j.members) == KillerKeys
    ensures j.members[1].value == JInt(r.incidentCount)
  {
    JObject([Member("name", JString(r.name)), Member("kills", JInt(r.incidentCount))])
  }

  /** `incident_count` is published as `losses`. */
  function VictimItem(r: CountRow): (j: Json)
    ensures j.JObject? && Keys(j.members) == VictimKeys
    ensures j.members[1].value == JInt(r.incidentCount)
  {
    JObject([Member("name", JString(r.name)), Member("losses", JInt(r.incidentCount))])
  }

  /** Unlike `SystemItem`, the id is written as a string. */
  function SystemCountItem(r: SystemCountRow): (j: Json)
    ensures j.JObject? && Keys(j.members) == SystemCountKeys
    ensures j.members[0].value.JString?
  {
    JObject([Member("solar_system_id", JString(r.solarSystemId)),
             Member("solar_system_name", JString(r.solarSystemName)),
             Member("incident_count", JInt(r.incidentCount))])
  }

  // ---------------------------------------------------------- reading back

  function AsInt(j: Json): Option<int> {
    if j.JInt? then Some(j.i) else None
  }

  function AsString(j: Json): Option<string> {
    if j.JString? then Some(j.s) else None
  }

  /** The values of an object whose keys are exactly `keys`, in that order. */
  function Fields(j: Json, keys: seq<string>): (r: Option<seq<Json>>)
    ensures r.Some? ==> |r.value| == |keys|
  {
    if j.JObject? && Keys(j.members) == keys then
      Some(seq(|keys|, i requires 0 <= i < |keys| && i < |j.members| => j.members[i].value))
    else None
  }

  function DecodeIncident(j: Json): Option<IncidentRow> {
    match Fields(j, IncidentKeys)
    case None => None
    case Some(v) => IncidentOfValues(v)
  }

  /** The row whose columns are the values of an incident object, in key order. */
  function IncidentOfValues(v: seq<Json>): Option<IncidentRow>
    requires |v| == |IncidentKeys|
  {
    if && AsInt(v[0]).Some? && AsString(v[1]).Some? && AsString(v[2]).Some? && AsString(v[3]).Some?
       && AsString(v[4]).Some? && AsString(v[5]).Some? && AsInt(v[6]).Some? && AsInt(v[7]).Some?
       && AsString(v[8]).Some?
    then Some(IncidentRow(v[0].i, v[1].s, v[2].s, v[3].s, v[4].s, v[5].s, v[6].i, v[7].i, v[8].s))
    else None
  }

  function DecodeSystem(j: Json): Option<SystemRow> {
    match Fields(j, SystemKeys)
    case None => None
    case Some(v) =>
      match Fields(v[2], CoordinateKeys)
      case None => None
      case Some(c) =>
        if AsInt(v[0]).Some? && AsString(v[1]).Some? && AsString(c[0]).Some? && AsString(c[1]).Some?
           && AsString(c[2]).Some?
        then Some(SystemRow(v[0].i, v[1].s, c[0].s, c[1].s, c[2].s))
        else None
  }

  function DecodeNameTotals(j: Json): Option<NameTotalsRow> {
    match Fields(j, NameTotalsKeys)
    case None => None
    case Some(v) =>
      if AsString(v[0]).Some? && AsInt(v[1]).Some? && AsInt(v[2]).Some?
      then Some(NameTotalsRow(v[0].s, v[1].i, v[2].i))
      else None
  }

  function DecodeCount(j: Json, keys: seq<string>): Option<CountRow>
    requires |keys| == 2
  {
    match Fields(j, keys)
    case None => None
    case Some(v) =>
      if AsString(v[0]).Some? && AsInt(v[1]).Some? then Some(CountRow(v[0].s, v[1].i)) else None
  }

  function DecodeSystemCount(j: Json): Option<SystemCountRow> {
    match Fields(j, SystemCountKeys)
    case None => None
    case Some(v) =>
      if AsString(v[0]).Some? && AsString(v[1]).Some? && AsInt(v[2]).Some?
      then Some(SystemCountRow(v[0].s, v[1].s, v[2].i))
      else None
  }

  lemma IncidentItemRoundTrip(r: IncidentRow)
    ensures DecodeIncident(IncidentItem(r)) == Some(r)
  {
    var v := Fields(IncidentItem(r), IncidentKeys).value;
    assert v[0] == JInt(r.id) && v[6] == JInt(r.timeStamp) && v[7] == JInt(r.solarSystemId);
    assert v[1] == JString(r.victimAddress) && v[2] == JString(r.victimName) && v[3] == JString(r.lossType);
    assert v[4] == JString(r.killerAddress) && v[5] == JString(r.killerName) && v[8] == JString(r.solarSystemName);
    IncidentValuesRoundTrip(v, r);
  }

  lemma IncidentValuesRoundTrip(v: seq<Json>, r: IncidentRow)
    requires |v| == |IncidentKeys|
    requires v[0] == JInt(r.id) && v[6] == JInt(r.timeStamp) && v[7] == JInt(r.solarSystemId)
    requires v[1] == JString(r.victimAddress) && v[2] == JString(r.victimName) && v[3] == JString(r.lossType)
    requires v[4] == JString(r.killerAddress) && v[5] == JString(r.killerName) && v[8] == JString(r.solarSystemName)
    ensures IncidentOfValues(v) == Some(r)
  {
  }

  lemma SystemItemRoundTrip(r: SystemRow)
    ensures DecodeSystem(SystemItem(r)) == Some(r)
  {
    var v := Fields(SystemItem(r), SystemKeys).value;
    assert v[0] == JInt(r.solarSystemId) && v[1] == JString(r.solarSystemName);
    var c := Fields(v[2], CoordinateKeys).value;
    assert c[0] == JString(r.x) && c[1] == JString(r.y) && c[2] == JString(r.z);
  }

  lemma NameTotalsItemRoundTrip(r: NameTotalsRow)
    ensures DecodeNameTotals(NameTotalsItem(r)) == Some(r)
  {
    var v := Fields(NameTotalsItem(r), NameTotalsKeys).value;
    assert v[0] == JString(r.person) && v[1] == JInt(r.totalKills) && v[2] == JInt(r.totalLosses);
  }

  lemma KillerItemRoundTrip(r: CountRow)
    ensures DecodeCount(KillerItem(r), KillerKeys) == Some(r)
  {
    var v := Fields(KillerItem(r), KillerKeys).value;
    assert v[0] == JString(r.name) && v[1] == JInt(r.incidentCount);
  }

  lemma VictimItemRoundTrip(r: CountRow)
    ensures DecodeCount(VictimItem(r), VictimKeys) == Some(r)
  {
    var v := Fields(VictimItem(r), VictimKeys).value;
    assert v[0] == JString(r.name) && v[1] == JInt(r.incidentCount);
  }

  lemma SystemCountItemRoundTrip(r: SystemCountRow)
    ensures DecodeSystemCount(SystemCountItem(r)) == Some(r)
  {
    var v := Fields(SystemCountItem(r), SystemCountKeys).value;
    assert v[0] == JString(r.solarSystemId) && v[1] == JString(r.solarSystemName) && v[2] == JInt(r.incidentCount);
  }

  /** A killers list and a victims list of the same rows are told apart by their keys. */
  lemma KillersAndVictimsDiffer(r: CountRow)
    ensures KillerItem(r) != VictimItem(r)
    ensures DecodeCount(KillerItem(r), VictimKeys) == None
  {
    assert Keys(KillerItem(r).members)[1] == "kills";
    assert Keys(VictimItem(r).members)[1] == "losses";
  }

  // ---------------------------------------------------------------- arrays

  /** The items a builder produces: one per row, in row order. */
  function Items<R>(rows: seq<R>, item: R -> Json): (items: seq<Json>)
    ensures |items| == |rows| && forall i :: 0 <= i < |rows| ==> items[i] == item(rows[i])
  {
    seq(|rows|, i requires 0 <= i < |rows| => item(rows[i]))
  }

  /** Reads an array back row by row; fails if any item does not decode. */
  function DecodeRows<R>(items: seq<Json>, decode: Json -> Option<R>): Option<seq<R>> {
    if |items| == 0 then Some([])
    else
      match decode(items[0])
      case None => None
      case Some(r) =>
        match DecodeRows(items[1..], decode)
        case None => None
        case Some(rest) => Some([r] + rest)
  }

  lemma {:induction false} DecodeItems<R>(rows: seq<R>, item: R -> Json, decode: Json -> Option<R>)
    requires forall r :: decode(item(r)) == Some(r)
    ensures DecodeRows(Items(rows, item), decode) == Some(rows)
  {
    if |rows| > 0 {
      DecodeItems(rows[1..], item, decode);
      assert Items(rows, item)[1..] == Items(rows[1..], item);
      assert [rows[0]] + rows[1..] == rows;
    }
  }

  /**
   * The common loop of every builder: start from an empty array and push the
   * item of each row.
   */
  method PushItems<R>(rows: seq<R>, item: R -> Json) returns (arr: Json)
    ensures arr.JArray? && arr.items == Items(rows, item)
  {
    var items: seq<Json> := [];
    for k := 0 to |rows|
      invariant items == Items(rows[..k], item)
    {
      assert rows[..k + 1][..k] == rows[..k];
      items := items + [item(rows[k])];
    }
    assert rows[..|rows|] == rows;
    arr := JArray(items);
  }

  /** The readers of the two count lists, told apart by their second key. */
  function DecodeKiller(j: Json): Option<CountRow> {
    DecodeCount(j, KillerKeys)
  }

  function DecodeVictim(j: Json): Option<CountRow> {
    DecodeCount(j, VictimKeys)
  }

  lemma IncidentArrayRoundTrip(rows: seq<IncidentRow>)
    ensures DecodeRows(Items(rows, IncidentItem), DecodeIncident) == Some(rows)
  {
    forall r ensures DecodeIncident(IncidentItem(r)) == Some(r) { IncidentItemRoundTrip(r); }
    DecodeItems(rows, IncidentItem, DecodeIncident);
  }

  lemma SystemArrayRoundTrip(rows: seq<SystemRow>)
    ensures DecodeRows(Items(rows, SystemItem), DecodeSystem) == Some(rows)
  {
    forall r ensures DecodeSystem(SystemItem(r)) == Some(r) { SystemItemRoundTrip(r); }
    DecodeItems(rows, SystemItem, DecodeSystem);
  }

  lemma NameTotalsArrayRoundTrip(rows: seq<NameTotalsRow>)
    ensures DecodeRows(Items(rows, NameTotalsItem), DecodeNameTotals) == Some(rows)
  {
    forall r ensures DecodeNameTotals(NameTotalsItem(r)) == Some(r) { NameTotalsItemRoundTrip(r); }
    DecodeItems(rows, NameTotalsItem, DecodeNameTotals);
  }

  lemma KillerArrayRoundTrip(rows: seq<CountRow>)
    ensures DecodeRows(Items(rows, KillerItem), DecodeKiller) == Some(rows)
  {
    forall r ensures DecodeKiller(KillerItem(r)) == Some(r) { KillerItemRoundTrip(r); }
    DecodeItems(rows, KillerItem, DecodeKiller);
  }

  lemma VictimArrayRoundTrip(rows: seq<CountRow>)
    ensures DecodeRows(Items(rows, VictimItem), DecodeVictim) == Some(rows)
  {
    forall r ensures DecodeVictim(VictimItem(r)) == Some(r) { VictimItemRoundTrip(r); }
    DecodeItems(rows, VictimItem, DecodeVictim);
  }

  lemma SystemCountArrayRoundTrip(rows: seq<SystemCountRow>)
    ensures DecodeRows(Items(rows, SystemCountItem), DecodeSystemCount) == Some(rows)
  {
    forall r ensures DecodeSystemCount(SystemCountItem(r)) == Some(r) { SystemCountItemRoundTrip(r); }
    DecodeItems(rows, SystemCountItem, DecodeSystemCount);
  }

  method BuildIncidentJson(rows: seq<IncidentRow>) returns (arr: Json)
    ensures arr.JArray? && arr.items == Items(rows, IncidentItem)
    ensures DecodeRows(arr.items, DecodeIncident) == Some(rows)
  {
    arr := PushItems(rows, IncidentItem);
    IncidentArrayRoundTrip(rows);
  }

  method BuildSystemJson(rows: seq<SystemRow>) returns (arr: Json)
    ensures arr.JArray? && arr.items == Items(rows, SystemItem)
    ensures DecodeRows(arr.items, DecodeSystem) == Some(rows)
  {
    arr := PushItems(rows, SystemItem);
    SystemArrayRoundTrip(rows);
  }

  method FormatName(rows: seq<NameTotalsRow>) returns (arr: Json)
    ensures arr.JArray? && arr.items == Items(rows, NameTotalsItem)
    ensures DecodeRows(arr.items, DecodeNameTotals) == Some(rows)
  {
    arr := PushItems(rows, NameTotalsItem);
    NameTotalsArrayRoundTrip(rows);
  }

  method FormatTopKillers(rows: seq<CountRow>) returns (arr: Json)
    ensures arr.JArray? && arr.items == Items(rows, KillerItem)
    ensures DecodeRows(arr.items, DecodeKiller) == Some(rows)
  {
    arr := PushItems(rows, KillerItem);
    KillerArrayRoundTrip(rows);
  }

  method FormatTopVictims(rows: seq<CountRow>) returns (arr: Json)
    ensures arr.JArray? && arr.items == Items(rows, VictimItem)
    ensures DecodeRows(arr.items, DecodeVictim) == Some(rows)
  {
    arr := PushItems(rows, VictimItem);
    VictimArrayRoundTrip(rows);
  }

  method FormatSystems(rows: seq<SystemCountRow>) returns (arr: Json)
    ensures arr.JArray? && arr.items == Items(rows, SystemCountItem)
    ensures DecodeRows(arr.items, DecodeSystemCount) == Some(rows)
  {
    arr := PushItems(rows, SystemCountItem);
    SystemCountArrayRoundTrip(rows);
  }
}
