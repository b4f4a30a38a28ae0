/**
 A model of `generateRequestDeviceArgsWithServices`: given the `services` of a
 scan filter, it produces every requestDevice() options record that combines
 one filter on those services with each choice of the filter's other members
 (no name, `name`, `namePrefix`, both) and with or without `optionalServices`.
 */
module RequestDeviceArgs {
  import opened Wrappers

  /**
   An element of a `services` list. The generator only passes the list on, so an
   element may be any JavaScript value: a string such as `'heart_rate'`, or any
   other value, drawn from the type parameter `T`.
   */
  datatype Service<T> = Named(name: string) | Other(value: T)

  /** A BluetoothLEScanFilterInit as these options use it; `services` is always present. */
  datatype ScanFilter<T> = ScanFilter(services: seq<Service<T>>, name: Option<string>, namePrefix: Option<string>)

  /** A RequestDeviceOptions record: the filters and, if present, the optional services. */
  datatype RequestDeviceOptions<T> = RequestDeviceOptions(filters: seq<ScanFilter<T>>, optionalServices: Option<seq<Service<T>>>)

  /** `['heart_rate']`: the default `services` argument and the `optionalServices` value. */
  function HeartRateOnly<T>(): seq<Service<T>> {
    [Named("heart_rate")]
  }

  /** The `name` the generated filters use. */
  const FilterName: string := "Name"

  /** The `namePrefix` the generated filters use. */
  const FilterPrefix: string := "Pre"

  /** The argument after JavaScript's default-parameter rule: `undefined` becomes `['heart_rate']`. */
  function ServicesArgument<T>(services: Option<seq<Service<T>>>): (s: seq<Service<T>>)
    ensures services.Some? ==> s == services.value
    ensures services.None? ==> s == HeartRateOnly()
  {
    match services
    case Some(v) => v
    case None => HeartRateOnly()
  }

  /** The options record with one filter on `services` and the chosen extras. */
  function Options<T>(services: seq<Service<T>>, withName: bool, withPrefix: bool, withOptional: bool): RequestDeviceOptions<T> {
    var filter := ScanFilter(services,
                             if withName then Some(FilterName) else None,
                             if withPrefix then Some(FilterPrefix) else None);
    RequestDeviceOptions([filter], if withOptional then Some(HeartRateOnly()) else None)
  }

  /** `generateRequestDeviceArgsWithServices(services)`; None stands for `undefined`, passed or omitted. */
  function GenerateRequestDeviceArgsWithServices<T>(services: Option<seq<Service<T>>>): (r: seq<RequestDeviceOptions<T>>)
    ensures |r| == 8
    ensures forall i :: 0 <= i < |r| ==>
              |r[i].filters| == 1 && r[i].filters[0].services == ServicesArgument(services)
    ensures forall i :: 0 <= i < |r| ==>
              r[i].optionalServices == (if i < 4 then None else Some(HeartRateOnly()))
    ensures forall i :: 0 <= i < |r| ==>
              r[i].filters[0].name == (if i % 2 == 1 then Some(FilterName) else None)
    ensures forall i :: 0 <= i < |r| ==>
              r[i].filters[0].namePrefix == (if i % 4 >= 2 then Some(FilterPrefix) else None)
  {
    var s := ServicesArgument(services);
    [
      Options(s, false, false, false),
      Options(s, true, false, false),
      Options(s, false, true, false),
      Options(s, true, true, false),
      Options(s, false, false, true),
      Options(s, true, false, true),
      Options(s, false, true, true),
      Options(s, true, true, true)
    ]
  }

  /** The eight records are pairwise different. */
  lemma GeneratedOptionsDistinct<T>(services: Option<seq<Service<T>>>)
    ensures var r := GenerateRequestDeviceArgsWithServices(services);
            forall i, j :: 0 <= i < j < |r| ==> r[i] != r[j]
  {
    var r := GenerateRequestDeviceArgsWithServices(services);
    forall i, j | 0 <= i < j < |r| ensures r[i] != r[j] {
      if i < 4 <= j {
        assert r[i].optionalServices != r[j].optionalServices;
      } else if i % 2 != j % 2 {
        assert r[i].filters[0].name != r[j].filters[0].name;
      } else {
        assert r[i].filters[0].namePrefix != r[j].filters[0].namePrefix;
      }
    }
  }

  /**
   Every combination of name, name prefix and optional services appears among
   the eight records, so together with distinctness the result is exactly the
   cross product of the three choices.
   */
  lemma GeneratedOptionsCoverAllCombinations<T>(services: Option<seq<Service<T>>>,
                                             withName: bool, withPrefix: bool, withOptional: bool)
    ensures var r := GenerateRequestDeviceArgsWithServices(services);
            exists i :: 0 <= i < |r| && r[i] == Options(ServicesArgument(services), withName, withPrefix, withOptional)
  {
    var r := GenerateRequestDeviceArgsWithServices(services);
    var i := (if withOptional then 4 else 0) + (if withPrefix then 2 else 0) + (if withName then 1 else 0);
    assert r[i] == Options(ServicesArgument(services), withName, withPrefix, withOptional);
  }

  /** Passing `undefined`, or no argument, is the same as passing `['heart_rate']`. */
  lemma DefaultServicesArgument<T>()
    ensures GenerateRequestDeviceArgsWithServices<T>(None) == GenerateRequestDeviceArgsWithServices<T>(Some(HeartRateOnly()))
  {
  }
}
