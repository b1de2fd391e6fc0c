/** `useUnitsData`: the mapping of `/unit` records to table rows with a status label. */
module Units {
  import opened Wrappers
  import Users

  /** A record of the `/unit` reply. */
  datatype ApiUnit = ApiUnit(id: int, name: string, status: bool, createdAt: string, updatedAt: string)

  /** A row of the units table: the timestamps are not carried over. */
  datatype UnitRow = UnitRow(id: int, name: string, status: string)

  /** `response.data.map(...)`: one row per record, in order, with the status as a label. */
  function MapUnits(us: seq<ApiUnit>): (r: seq<UnitRow>)
    ensures |r| == |us|
    ensures forall i :: 0 <= i < |us| ==> r[i].id == us[i].id && r[i].name == us[i].name
    ensures forall i :: 0 <= i < |us| ==> (r[i].status == Users.ActiveLabel <==> us[i].status)
    ensures forall i :: 0 <= i < |us| ==> (r[i].status == Users.InactiveLabel <==> !us[i].status)
  {
    if us == [] then [] else [UnitRow(us[0].id, us[0].name, Users.StatusLabel(us[0].status))] + MapUnits(us[1..])
  }

  /** Records that differ only in their timestamps give the same row. */
  lemma TimestampsIgnored(a: ApiUnit, b: ApiUnit)
    requires a.id == b.id && a.name == b.name && a.status == b.status
    ensures MapUnits([a]) == MapUnits([b])
  {
  }

  /** `carsQuery.data || []`. */
  function UnitsOrEmpty(data: Option<seq<UnitRow>>): (r: seq<UnitRow>)
    ensures data.None? ==> r == []
    ensures data.Some? ==> r == data.value
  {
    data.GetOr([])
  }
}
