/**
 * The data the address service works on: address fields, validation failures, the
 * exceptions the core throws, and the metadata records fetched from the data service.
 */
module Records {
  import opened Wrappers
  import opened Text

  /** The address elements, in the declaration order of the `AddressField` enum. */
  datatype Field = Country | Province | Locality | Sublocality | PostalCode | SortingCode | StreetAddress | Organization | Name

  /** `AddressFieldError`; `UnkownValue` keeps the source's spelling. */
  datatype FieldError = MissingRequiredField | UnkownValue | InvalidFormat

  /** An immutable (field, error) pair. */
  datatype ValidationFailure = ValidationFailure(field: Field, error: FieldError)

  /** The exceptions the core can raise; `Transport` stands for whatever the data service client throws. */
  datatype Error = ArgumentNull(paramName: string) | NullReference | NotImplemented | Transport(message: string)

  /** `AddressData`: the caller's address, never changed by the core. */
  datatype AddressData = AddressData(
    country: Str, province: Str, locality: Str, sublocality: Str, postalCode: Str,
    sortingCode: Str, streetAddress: Str, organization: Str, name: Str, language: Str)

  /** The value the address holds for one field. */
  function Value(address: AddressData, f: Field): Str
  {
    match f
    case Country => address.country
    case Province => address.province
    case Locality => address.locality
    case Sublocality => address.sublocality
    case PostalCode => address.postalCode
    case SortingCode => address.sortingCode
    case StreetAddress => address.streetAddress
    case Organization => address.organization
    case Name => address.name
  }

  /** The seven country-level attributes that a country inherits from the rest-of-world record. */
  datatype Inherited = Inherited(
    format: Str,
    required: Option<seq<Field>>,
    uppercase: Option<seq<Field>>,
    stateType: Str,
    localityType: Str,
    sublocalityType: Str,
    postalCodeType: Str)

  /** A record with none of the inheritable attributes set. */
  const NoAttributes := Inherited(None, None, None, None, None, None, None)

  /**
   * A metadata record of the data service at any level (global, country, province, locality,
   * sublocality); fields a level does not carry are `None`. The core only ever assigns the
   * inheritable attributes, so those are the mutable fields.
   */
  class Metadata {
    const id: Str
    const childRegionKeys: Option<seq<string>>
    const childRegionNames: Option<seq<string>>
    const childRegionLatinNames: Option<seq<string>>
    const countries: Option<seq<string>>
    const languages: Option<seq<string>>
    const latinFormat: Str
    var format: Str
    var required: Option<seq<Field>>
    var uppercase: Option<seq<Field>>
    var stateType: Str
    var localityType: Str
    var sublocalityType: Str
    var postalCodeType: Str

    constructor (id: Str, childRegionKeys: Option<seq<string>>, childRegionNames: Option<seq<string>>,
                 childRegionLatinNames: Option<seq<string>>, countries: Option<seq<string>>,
                 languages: Option<seq<string>>, latinFormat: Str, attributes: Inherited)
      ensures this.id == id && this.childRegionKeys == childRegionKeys
      ensures this.childRegionNames == childRegionNames && this.childRegionLatinNames == childRegionLatinNames
      ensures this.countries == countries && this.languages == languages && this.latinFormat == latinFormat
      ensures Inheritable() == attributes
    {
      this.id := id;
      this.childRegionKeys := childRegionKeys;
      this.childRegionNames := childRegionNames;
      this.childRegionLatinNames := childRegionLatinNames;
      this.countries := countries;
      this.languages := languages;
      this.latinFormat := latinFormat;
      format := attributes.format;
      required := attributes.required;
      uppercase := attributes.uppercase;
      stateType := attributes.stateType;
      localityType := attributes.localityType;
      sublocalityType := attributes.sublocalityType;
      postalCodeType := attributes.postalCodeType;
    }

    /** The current values of the inheritable attributes. */
    function Inheritable(): Inherited
      reads this
    {
      Inherited(format, required, uppercase, stateType, localityType, sublocalityType, postalCodeType)
    }
  }

  /** Fills every absent attribute of `specific` from `defaults`, one attribute at a time. */
  function Merge(specific: Inherited, defaults: Inherited): (r: Inherited)
    ensures Extends(r, specific)
    ensures SetCount(defaults) <= SetCount(r)
  {
    Inherited(
      Coalesce(specific.format, defaults.format),
      Coalesce(specific.required, defaults.required),
      Coalesce(specific.uppercase, defaults.uppercase),
      Coalesce(specific.stateType, defaults.stateType),
      Coalesce(specific.localityType, defaults.localityType),
      Coalesce(specific.sublocalityType, defaults.sublocalityType),
      Coalesce(specific.postalCodeType, defaults.postalCodeType))
  }

  /** `a` agrees with `b` on every attribute that `a` sets. */
  predicate Extends(b: Inherited, a: Inherited)
  {
    && (a.format.Some? ==> b.format == a.format)
    && (a.required.Some? ==> b.required == a.required)
    && (a.uppercase.Some? ==> b.uppercase == a.uppercase)
    && (a.stateType.Some? ==> b.stateType == a.stateType)
    && (a.localityType.Some? ==> b.localityType == a.localityType)
    && (a.sublocalityType.Some? ==> b.sublocalityType == a.sublocalityType)
    && (a.postalCodeType.Some? ==> b.postalCodeType == a.postalCodeType)
  }

  /** The number of attributes a record sets. */
  function SetCount(a: Inherited): nat
  {
    (if a.format.Some? then 1 else 0) + (if a.required.Some? then 1 else 0) +
    (if a.uppercase.Some? then 1 else 0) + (if a.stateType.Some? then 1 else 0) +
    (if a.localityType.Some? then 1 else 0) + (if a.sublocalityType.Some? then 1 else 0) +
    (if a.postalCodeType.Some? then 1 else 0)
  }

  /**
   * What the merge promises: every attribute the specific record sets survives, every
   * attribute it leaves absent is the default's, and the defaults never override.
   */
  lemma MergeKeepsSpecificFillsDefaults(specific: Inherited, defaults: Inherited)
    ensures Extends(Merge(specific, defaults), specific)
    ensures specific.format.None? ==> Merge(specific, defaults).format == defaults.format
    ensures specific.required.None? ==> Merge(specific, defaults).required == defaults.required
    ensures specific.uppercase.None? ==> Merge(specific, defaults).uppercase == defaults.uppercase
    ensures specific.stateType.None? ==> Merge(specific, defaults).stateType == defaults.stateType
    ensures specific.localityType.None? ==> Merge(specific, defaults).localityType == defaults.localityType
    ensures specific.sublocalityType.None? ==> Merge(specific, defaults).sublocalityType == defaults.sublocalityType
    ensures specific.postalCodeType.None? ==> Merge(specific, defaults).postalCodeType == defaults.postalCodeType
    ensures SetCount(specific) <= SetCount(Merge(specific, defaults))
  {
  }

  /** Merging twice with the same defaults is merging once; merging with an empty record changes nothing. */
  lemma MergeIdempotent(specific: Inherited, defaults: Inherited)
    ensures Merge(Merge(specific, defaults), defaults) == Merge(specific, defaults)
    ensures Merge(specific, NoAttributes) == specific
    ensures Merge(NoAttributes, defaults) == defaults
    ensures Merge(specific, specific) == specific
  {
  }

  /** A record that sets every attribute is left exactly as it is. */
  lemma MergeOfCompleteRecord(specific: Inherited, defaults: Inherited)
    requires SetCount(specific) == 7
    ensures Merge(specific, defaults) == specific
  {
  }

  /** A country that sets only its format gets every other attribute from the defaults. */
  lemma MergeOnlyFormatSet(format: string, defaults: Inherited)
    ensures
      var merged := Merge(Inherited(Some(format), None, None, None, None, None, None), defaults);
      merged == defaults.(format := Some(format))
  {
  }
}
