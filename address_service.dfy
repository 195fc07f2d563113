/**
 * `AddressService.Implementation`: the metadata getters over a data service client. The
 * country getter merges the rest-of-world defaults into the fetched record, in place.
 */
module AddressService {
  import opened Wrappers
  import opened Text
  import opened Records
  import opened Service
  import opened Identifier
  import opened Validation

  /** The identifier of the global record. */
  const GlobalId := "data"
  /** The identifier of the rest-of-world defaults for countries. */
  const DefaultsId := "data/ZZ"

  class Implementation {
    const client: ServiceClient
    const validators: seq<Validator>

    constructor (client: ServiceClient, validators: seq<Validator>)
      ensures this.client == client && this.validators == validators
    {
      this.client := client;
      this.validators := validators;
    }

    /** The constructor's null guards, checked in the order the source checks them. */
    static method Create(client: ServiceClient?, validators: Option<seq<Validator>>) returns (r: Result<Implementation, Error>)
      ensures client == null ==> r == Failure(ArgumentNull("client"))
      ensures client != null && validators.None? ==> r == Failure(ArgumentNull("validators"))
      ensures client != null && validators.Some? ==>
        r.Success? && fresh(r.value) && r.value.client == client && r.value.validators == validators.value
    {
      if client == null {
        return Failure(ArgumentNull("client"));
      }
      if validators.None? {
        return Failure(ArgumentNull("validators"));
      }
      var implementation := new Implementation(client, validators.value);
      return Success(implementation);
    }

    /** The record a country query hands out, the only object `GetCountry` may change. */
    ghost function CountryRecord(countryKey: Str, language: Str): set<object>
    {
      if countryKey.None? then {} else client.Fetched(Some(BuildIdentifier(language, [countryKey.value])))
    }

    /** `GetGlobalAsync`: one query at the global identifier. */
    method GetGlobal() returns (r: Response)
      modifies client
      ensures r == client.responses(Some(GlobalId))
      ensures client.log == old(client.log) + [Some(GlobalId)]
    {
      r := client.Query(Some(GlobalId));
    }

    /**
     * `GetCountryAsync`: a null key is refused before any query; otherwise the defaults are
     * queried, then the country itself, and when both records exist every attribute the
     * country leaves null is filled from the defaults on the fetched record itself. An
     * absent country stays absent, whatever the defaults hold.
     */
    method GetCountry(countryKey: Str, language: Str) returns (r: Response)
      requires client.Valid()
      modifies client, CountryRecord(countryKey, language)
      ensures countryKey.None? ==> r == Failure(ArgumentNull("countryKey")) && client.log == old(client.log)
      ensures countryKey.Some? && client.responses(Some(DefaultsId)).Failure? ==>
        r == client.responses(Some(DefaultsId)) && client.log == old(client.log) + [Some(DefaultsId)]
      ensures countryKey.Some? && client.responses(Some(DefaultsId)).Success? ==>
        var id := Some(BuildIdentifier(language, [countryKey.value]));
        r == client.responses(id) && client.log == old(client.log) + [Some(DefaultsId), id]
      ensures r.Success? && r.value != null ==>
        client.responses(Some(DefaultsId)).Success? &&
        var defaults := client.responses(Some(DefaultsId)).value;
        r.value.Inheritable() ==
          if defaults != null then Merge(old(r.value.Inheritable()), old(defaults.Inheritable()))
          else old(r.value.Inheritable())
    {
      if countryKey.None? {
        return Failure(ArgumentNull("countryKey"));
      }
      var id := BuildIdentifier(language, [countryKey.value]);
      var defaults := client.Query(Some(DefaultsId));
      if defaults.Failure? {
        return defaults;
      }
      var result := client.Query(Some(id));
      if result.Failure? {
        return result;
      }
      var record, fallback := result.value, defaults.value;
      if record != null && fallback != null {
        record.format := Coalesce(record.format, fallback.format);
        record.required := Coalesce(record.required, fallback.required);
        record.uppercase := Coalesce(record.uppercase, fallback.uppercase);
        record.stateType := Coalesce(record.stateType, fallback.stateType);
        record.localityType := Coalesce(record.localityType, fallback.localityType);
        record.sublocalityType := Coalesce(record.sublocalityType, fallback.sublocalityType);
        record.postalCodeType := Coalesce(record.postalCodeType, fallback.postalCodeType);
      }
      return result;
    }

    /** `GetProvinceAsync`: the keys are checked in order, then one query at the full key chain. */
    method GetProvince(countryKey: Str, provinceKey: Str, language: Str) returns (r: Response)
      modifies client
      ensures countryKey.None? ==> r == Failure(ArgumentNull("countryKey")) && client.log == old(client.log)
      ensures countryKey.Some? && provinceKey.None? ==>
        r == Failure(ArgumentNull("provinceKey")) && client.log == old(client.log)
      ensures countryKey.Some? && provinceKey.Some? ==>
        var id := Some(BuildIdentifier(language, [countryKey.value, provinceKey.value]));
        r == client.responses(id) && client.log == old(client.log) + [id]
    {
      if countryKey.None? {
        return Failure(ArgumentNull("countryKey"));
      }
      if provinceKey.None? {
        return Failure(ArgumentNull("provinceKey"));
      }
      var id := BuildIdentifier(language, [countryKey.value, provinceKey.value]);
      r := client.Query(Some(id));
    }

    /** `GetLocalityAsync`: the keys are checked in order, then one query at the full key chain. */
    method GetLocality(countryKey: Str, provinceKey: Str, localityKey: Str, language: Str) returns (r: Response)
      modifies client
      ensures countryKey.None? ==> r == Failure(ArgumentNull("countryKey")) && client.log == old(client.log)
      ensures countryKey.Some? && provinceKey.None? ==>
        r == Failure(ArgumentNull("provinceKey")) && client.log == old(client.log)
      ensures countryKey.Some? && provinceKey.Some? && localityKey.None? ==>
        r == Failure(ArgumentNull("localityKey")) && client.log == old(client.log)
      ensures countryKey.Some? && provinceKey.Some? && localityKey.Some? ==>
        var id := Some(BuildIdentifier(language, [countryKey.value, provinceKey.value, localityKey.value]));
        r == client.responses(id) && client.log == old(client.log) + [id]
    {
      if countryKey.None? {
        return Failure(ArgumentNull("countryKey"));
      }
      if provinceKey.None? {
        return Failure(ArgumentNull("provinceKey"));
      }
      if localityKey.None? {
        return Failure(ArgumentNull("localityKey"));
      }
      var id := BuildIdentifier(language, [countryKey.value, provinceKey.value, localityKey.value]);
      r := client.Query(Some(id));
    }

    /** `GetSublocalityAsync`: the keys are checked in order, then one query at the full key chain. */
    method GetSublocality(countryKey: Str, provinceKey: Str, localityKey: Str, sublocalityKey: Str, language: Str)
      returns (r: Response)
      modifies client
      ensures countryKey.None? ==> r == Failure(ArgumentNull("countryKey")) && client.log == old(client.log)
      ensures countryKey.Some? && provinceKey.None? ==>
        r == Failure(ArgumentNull("provinceKey")) && client.log == old(client.log)
      ensures countryKey.Some? && provinceKey.Some? && localityKey.None? ==>
        r == Failure(ArgumentNull("localityKey")) && client.log == old(client.log)
      ensures countryKey.Some? && provinceKey.Some? && localityKey.Some? && sublocalityKey.None? ==>
        r == Failure(ArgumentNull("sublocalityKey")) && client.log == old(client.log)
      ensures countryKey.Some? && provinceKey.Some? && localityKey.Some? && sublocalityKey.Some? ==>
        var id := Some(BuildIdentifier(language, [countryKey.value, provinceKey.value, localityKey.value, sublocalityKey.value]));
        r == client.responses(id) && client.log == old(client.log) + [id]
    {
      if countryKey.None? {
        return Failure(ArgumentNull("countryKey"));
      }
      if provinceKey.None? {
        return Failure(ArgumentNull("provinceKey"));
      }
      if localityKey.None? {
        return Failure(ArgumentNull("localityKey"));
      }
      if sublocalityKey.None? {
        return Failure(ArgumentNull("sublocalityKey"));
      }
      var id := BuildIdentifier(language, [countryKey.value, provinceKey.value, localityKey.value, sublocalityKey.value]);
      r := client.Query(Some(id));
    }

    /**
     * `ValidateAsync` as far as it goes: a null address is refused before any query; otherwise
     * the global record is fetched and the operation then fails as not implemented.
     */
    method Validate(address: Option<AddressData>, language: Str) returns (r: Result<seq<ValidationFailure>, Error>)
      modifies client
      ensures address.None? ==> r == Failure(ArgumentNull("address")) && client.log == old(client.log)
      ensures address.Some? ==>
        client.log == old(client.log) + [Some(GlobalId)] &&
        r == if client.responses(Some(GlobalId)).Failure? then Failure(client.responses(Some(GlobalId)).error)
             else Failure(NotImplemented)
    {
      if address.None? {
        return Failure(ArgumentNull("address"));
      }
      var global := GetGlobal();
      if global.Failure? {
        return Failure(global.error);
      }
      return Failure(NotImplemented);
    }
  }

  /** Rest-of-world defaults with every attribute set. */
  const SampleDefaults := Inherited(Some("%N%n%O%n%A%n%C"), Some([StreetAddress, Locality]), Some([Locality]),
                                    Some("province"), Some("city"), Some("suburb"), Some("postal"))

  /** A country that sets only its format keeps it and receives every other attribute from the defaults. */
  method CountryFilledFromDefaults(format: string)
  {
    var defaults := new Metadata(Some(DefaultsId), None, None, None, None, None, None, SampleDefaults);
    var country := new Metadata(Some("data/XX"), None, None, None, None, None, None,
                                NoAttributes.(format := Some(format)));
    var client := new ServiceClient((id: Str) =>
      if id == Some(DefaultsId) then Success(defaults) else if id == Some("data/XX") then Success(country) else Success(null), {defaults, country});
    var service := new Implementation(client, [RequiredElements]);
    CountryIdentifierSamples();
    var r := service.GetCountry(Some("XX"), None);
    assert r == Success(country);
    assert client.log == [Some("data/ZZ"), Some("data/XX")];
    assert country.format == Some(format) && country.required == Some([StreetAddress, Locality]);
    assert country.stateType == Some("province") && country.postalCodeType == Some("postal");
    assert defaults.Inheritable() == SampleDefaults;
  }

  /** No record at `data/XX`: the country is absent although the defaults exist. */
  method CountryAbsentDespiteDefaults()
  {
    var defaults := new Metadata(Some(DefaultsId), None, None, None, None, None, None,
                                 NoAttributes.(stateType := Some("province")));
    var client := new ServiceClient((id: Str) => if id == Some(DefaultsId) then Success(defaults) else Success(null), {defaults});
    var service := new Implementation(client, [RequiredElements]);
    CountryIdentifierSamples();
    var r := service.GetCountry(Some("XX"), None);
    assert r == Success(null);
    assert client.log == [Some("data/ZZ"), Some("data/XX")];
  }

  /** A null key is refused before the client is asked anything. */
  method NullKeysQueryNothing(responses: Responses)
    requires forall id :: responses(id).Success? && responses(id).value == null
  {
    var client := new ServiceClient(responses, {});
    var service := new Implementation(client, []);
    var r := service.GetCountry(None, Some("abc"));
    assert r == Failure(ArgumentNull("countryKey"));
    r := service.GetSublocality(Some("XX"), Some("ZZ"), None, Some("XY"), None);
    assert r == Failure(ArgumentNull("localityKey"));
    var v := service.Validate(None, None);
    assert v == Failure(ArgumentNull("address"));
    assert client.log == [];
  }
}
