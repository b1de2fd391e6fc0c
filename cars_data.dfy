/** `useCarsData`: the mapping of `/car` records to table rows. */
module Cars {
  import opened Wrappers

  /** A record of the `/car` reply. */
  datatype ApiCar = ApiCar(id: int, name: string)

  /** A row of the cars table. */
  datatype Car = Car(id: int, name: string)

  /** `response.data.map(...)`: one `{id, name}` row per record, in order. */
  function MapCars(cs: seq<ApiCar>): (r: seq<Car>)
    ensures |r| == |cs|
    ensures forall i :: 0 <= i < |cs| ==> r[i].id == cs[i].id && r[i].name == cs[i].name
  {
    if cs == [] then [] else [Car(cs[0].id, cs[0].name)] + MapCars(cs[1..])
  }

  /** Mapping a concatenation maps each part. */
  lemma {:induction false} MapCarsAppend(a: seq<ApiCar>, b: seq<ApiCar>)
    ensures MapCars(a + b) == MapCars(a) + MapCars(b)
  {
    if a == [] {
      assert a + b == b;
    } else {
      assert (a + b)[1..] == a[1..] + b;
      MapCarsAppend(a[1..], b);
    }
  }

  /** `carsQuery.data || []`. */
  function CarsOrEmpty(data: Option<seq<Car>>): (r: seq<Car>)
    ensures data.None? ==> r == []
    ensures data.Some? ==> r == data.value
  {
    data.GetOr([])
  }
}
