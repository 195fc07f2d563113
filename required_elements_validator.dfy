/**
 * `RequiredElementsValidator`: reports every address field that the metadata chain requires
 * and the address leaves null or blank.
 */
module Validation {
  import opened Wrappers
  import opened Text
  import opened Records

  /** The registered validators; only the required-elements validator is part of this model. */
  datatype Validator = RequiredElements

  /** The order in which the address fields are checked. */
  const FieldOrder: seq<Field> :=
    [Country, Province, Locality, Sublocality, PostalCode, SortingCode, StreetAddress, Organization, Name]

  /** The position of a field in `FieldOrder`. */
  function Rank(f: Field): (r: nat)
    ensures r < |FieldOrder| && FieldOrder[r] == f
  {
    match f
    case Country => 0
    case Province => 1
    case Locality => 2
    case Sublocality => 3
    case PostalCode => 4
    case SortingCode => 5
    case StreetAddress => 6
    case Organization => 7
    case Name => 8
  }

  /** `Failures`: one missing-field failure per field. */
  const Failures: map<Field, ValidationFailure> :=
    map f | f in FieldOrder :: ValidationFailure(f, MissingRequiredField)

  /** Every field has an entry, and each entry reports that field as missing. */
  lemma FailuresTable(f: Field)
    ensures f in Failures && Failures[f] == ValidationFailure(f, MissingRequiredField)
  {
    assert f == FieldOrder[Rank(f)];
  }

  /** The fields a level declares required: a missing level or a null set declares only the country. */
  function Declared(required: Option<seq<Field>>): set<Field>
  {
    match required
    case None => {Country}
    case Some(fs) => set f | f in fs
  }

  /** A level's `Required` set (null when the level itself is missing). */
  function LevelRequired(level: Metadata?): Option<seq<Field>>
    reads level
  {
    if level == null then None else level.required
  }

  /** The union of the country default with what each of the four levels declares. */
  function RequiredFields(country: Option<seq<Field>>, province: Option<seq<Field>>,
                          locality: Option<seq<Field>>, sublocality: Option<seq<Field>>): (r: set<Field>)
    ensures Country in r
    ensures forall f :: f in r <==>
      f == Country || (country.Some? && f in country.value) || (province.Some? && f in province.value) ||
      (locality.Some? && f in locality.value) || (sublocality.Some? && f in sublocality.value)
  {
    {Country} + Declared(country) + Declared(province) + Declared(locality) + Declared(sublocality)
  }

  /** A requirement declared at any one level is enforced, whatever the other levels say. */
  lemma RequirementAtAnyLevel(country: Option<seq<Field>>, province: Option<seq<Field>>,
                              locality: Option<seq<Field>>, sublocality: Option<seq<Field>>, f: Field)
    requires f in Declared(country) || f in Declared(province) || f in Declared(locality) || f in Declared(sublocality)
    ensures f in RequiredFields(country, province, locality, sublocality)
  {
  }

  /** Without metadata, or with levels that declare nothing, only the country is required. */
  lemma OnlyCountryByDefault(country: Option<seq<Field>>, province: Option<seq<Field>>,
                             locality: Option<seq<Field>>, sublocality: Option<seq<Field>>)
    requires country in [None, Some([]), Some([Country])] && province in [None, Some([]), Some([Country])]
    requires locality in [None, Some([]), Some([Country])] && sublocality in [None, Some([]), Some([Country])]
    ensures RequiredFields(country, province, locality, sublocality) == {Country}
  {
  }

  /** The failure the local `validate` step adds for one field. */
  function Check(address: AddressData, required: set<Field>, f: Field): seq<ValidationFailure>
  {
    if IsNullOrWhiteSpace(Value(address, f)) && f in required then [ValidationFailure(f, MissingRequiredField)] else []
  }

  /** The failures for the given fields, in the order the fields are given. */
  function MissingFields(address: AddressData, required: set<Field>, fields: seq<Field>): (r: seq<ValidationFailure>)
    ensures |r| <= |fields|
    ensures forall i :: 0 <= i < |r| ==> r[i].field in fields && r[i] == ValidationFailure(r[i].field, MissingRequiredField)
  {
    if |fields| == 0 then []
    else
      Check(address, required, fields[0]) + MissingFields(address, required, fields[1..])
  }

  /** What the validator reports for an address and a required set. */
  function Expected(address: AddressData, required: set<Field>): seq<ValidationFailure>
  {
    MissingFields(address, required, FieldOrder)
  }

  /** A failure is reported for a listed field exactly when it is required and null or blank. */
  lemma {:induction false} MissingFieldsIff(address: AddressData, required: set<Field>, fields: seq<Field>, f: Field, e: FieldError)
    ensures ValidationFailure(f, e) in MissingFields(address, required, fields) <==>
      e == MissingRequiredField && f in fields && f in required && IsNullOrWhiteSpace(Value(address, f))
  {
    if |fields| > 0 {
      MissingFieldsIff(address, required, fields[1..], f, e);
      FailuresTable(fields[0]);
      assert f in fields <==> f == fields[0] || f in fields[1..];
    }
  }

  /** The fields are listed strictly by rank (so each at most once). */
  predicate FieldsRanked(fields: seq<Field>)
  {
    forall i, j :: 0 <= i < j < |fields| ==> Rank(fields[i]) < Rank(fields[j])
  }

  /** The failures are listed strictly by the rank of their fields. */
  predicate FailuresRanked(r: seq<ValidationFailure>)
  {
    forall i, j :: 0 <= i < j < |r| ==> Rank(r[i].field) < Rank(r[j].field)
  }

  /** `FieldOrder` lists every field once, by rank. */
  lemma FieldOrderRanked()
    ensures FieldsRanked(FieldOrder)
    ensures forall i :: 0 <= i < |FieldOrder| ==> Rank(FieldOrder[i]) == i
  {
    forall i | 0 <= i < |FieldOrder| ensures Rank(FieldOrder[i]) == i {
      if i < 3 {
        assert i == 0 || i == 1 || i == 2;
      } else if i < 6 {
        assert i == 3 || i == 4 || i == 5;
      } else {
        assert i == 6 || i == 7 || i == 8;
      }
    }
  }

  /** Failures come in the order of their fields' ranks when the fields are listed by rank. */
  lemma {:induction false} MissingFieldsOrdered(address: AddressData, required: set<Field>, fields: seq<Field>)
    requires FieldsRanked(fields)
    ensures FailuresRanked(MissingFields(address, required, fields))
  {
    if |fields| > 0 {
      assert FieldsRanked(fields[1..]);
      MissingFieldsOrdered(address, required, fields[1..]);
      var tail := MissingFields(address, required, fields[1..]);
      forall k | 0 <= k < |tail| ensures Rank(fields[0]) < Rank(tail[k].field) {
        var m :| 0 <= m < |fields[1..]| && fields[1..][m] == tail[k].field;
        assert fields[m + 1] == tail[k].field;
      }
      var c := Check(address, required, fields[0]);
      var r := c + tail;
      assert r == MissingFields(address, required, fields);
      forall i, j | 0 <= i < j < |r| ensures Rank(r[i].field) < Rank(r[j].field) {
        if i < |c| {
          assert r[i] == c[0] && r[i].field == fields[0];
          assert r[j] == tail[j - |c|];
          assert Rank(fields[0]) < Rank(tail[j - |c|].field);
        } else {
          assert r[i] == tail[i - |c|] && r[j] == tail[j - |c|];
          assert Rank(tail[i - |c|].field) < Rank(tail[j - |c|].field);
        }
      }
    }
  }

  /**
   * What the validator promises: a failure for a field exactly when the field is required
   * and its value null or blank; every failure is `MissingRequiredField`; failures follow the
   * fixed field order, each field at most once, so there are at most nine.
   */
  lemma ExpectedProperties(address: AddressData, required: set<Field>)
    ensures var r := Expected(address, required);
      && |r| <= 9
      && (forall i :: 0 <= i < |r| ==> r[i].error == MissingRequiredField)
      && FailuresRanked(r)
      && (forall f: Field, e: FieldError :: ValidationFailure(f, e) in r <==>
            e == MissingRequiredField && f in required && IsNullOrWhiteSpace(Value(address, f)))
  {
    var r := Expected(address, required);
    FieldOrderRanked();
    MissingFieldsOrdered(address, required, FieldOrder);
    forall i | 0 <= i < |r| ensures r[i].error == MissingRequiredField {
      FailuresTable(r[i].field);
    }
    forall f: Field, e: FieldError
      ensures ValidationFailure(f, e) in r <==>
              e == MissingRequiredField && f in required && IsNullOrWhiteSpace(Value(address, f))
    {
      MissingFieldsIff(address, required, FieldOrder, f, e);
      assert f == FieldOrder[Rank(f)];
    }
  }

  /** A null or blank country is always reported, whatever the metadata says. */
  lemma BlankCountryAlwaysFails(address: AddressData, country: Option<seq<Field>>, province: Option<seq<Field>>,
                                locality: Option<seq<Field>>, sublocality: Option<seq<Field>>)
    requires IsNullOrWhiteSpace(address.country)
    ensures ValidationFailure(Country, MissingRequiredField) in
            Expected(address, RequiredFields(country, province, locality, sublocality))
  {
    ExpectedProperties(address, RequiredFields(country, province, locality, sublocality));
  }

  /** An empty address checked against metadata that declares nothing extra fails on the country only. */
  lemma EmptyAddressFailsOnCountryOnly(address: AddressData)
    requires forall f :: IsNullOrWhiteSpace(Value(address, f))
    ensures Expected(address, RequiredFields(None, None, None, None)) == [ValidationFailure(Country, MissingRequiredField)]
  {
    assert RequiredFields(None, None, None, None) == {Country};
    ExpectedUnfolded(address, {Country});
  }

  /** A requirement declared only at the locality level reports a blank locality. */
  lemma LocalityRequirementFires(address: AddressData)
    requires IsNullOrWhiteSpace(address.locality)
    ensures ValidationFailure(Locality, MissingRequiredField) in
            Expected(address, RequiredFields(None, Some([]), Some([Locality]), None))
  {
    ExpectedProperties(address, RequiredFields(None, Some([]), Some([Locality]), None));
  }

  /** Appends the failure for one field, as the local `validate` function does. */
  method ValidateField(failures: seq<ValidationFailure>, address: AddressData, required: set<Field>, f: Field)
    returns (r: seq<ValidationFailure>)
    ensures r == failures + Check(address, required, f)
  {
    r := failures;
    FailuresTable(f);
    if IsNullOrWhiteSpace(Value(address, f)) && f in required {
      r := r + [Failures[f]];
    }
  }

  /**
   * `Validate`: null guards on the address and the global record; the global record's content
   * and a level's attributes other than `Required` do not affect the outcome.
   */
  method Validate(address: Option<AddressData>, global: Metadata?, country: Metadata?, province: Metadata?,
                  locality: Metadata?, sublocality: Metadata?) returns (r: Result<seq<ValidationFailure>, Error>)
    ensures address.None? ==> r == Failure(ArgumentNull("address"))
    ensures address.Some? && global == null ==> r == Failure(ArgumentNull("global"))
    ensures address.Some? && global != null ==>
      r == Success(Expected(address.value, RequiredFields(LevelRequired(country), LevelRequired(province),
                                                          LevelRequired(locality), LevelRequired(sublocality))))
  {
    if address.None? {
      return Failure(ArgumentNull("address"));
    }
    if global == null {
      return Failure(ArgumentNull("global"));
    }
    var a := address.value;
    var required := RequiredFields(LevelRequired(country), LevelRequired(province),
                                   LevelRequired(locality), LevelRequired(sublocality));
    var failures: seq<ValidationFailure> := [];
    failures := ValidateField(failures, a, required, Country);
    assert failures == Check(a, required, Country);
    failures := ValidateField(failures, a, required, Province);
    failures := ValidateField(failures, a, required, Locality);
    failures := ValidateField(failures, a, required, Sublocality);
    failures := ValidateField(failures, a, required, PostalCode);
    failures := ValidateField(failures, a, required, SortingCode);
    failures := ValidateField(failures, a, required, StreetAddress);
    failures := ValidateField(failures, a, required, Organization);
    failures := ValidateField(failures, a, required, Name);
    ExpectedUnfolded(a, required);
    r := Success(failures);
  }

  /** Checking two lists of fields one after the other. */
  lemma {:induction false} MissingFieldsAppend(address: AddressData, required: set<Field>, a: seq<Field>, b: seq<Field>)
    ensures MissingFields(address, required, a + b) == MissingFields(address, required, a) + MissingFields(address, required, b)
  {
    if |a| > 0 {
      assert (a + b)[0] == a[0] && (a + b)[1..] == a[1..] + b;
      MissingFieldsAppend(address, required, a[1..], b);
    } else {
      assert a + b == b;
    }
  }

  /** `Expected` is the nine checks in field order. */
  lemma ExpectedUnfolded(address: AddressData, required: set<Field>)
    ensures Expected(address, required) ==
      Check(address, required, Country) + Check(address, required, Province) + Check(address, required, Locality) +
      Check(address, required, Sublocality) + Check(address, required, PostalCode) +
      Check(address, required, SortingCode) + Check(address, required, StreetAddress) +
      Check(address, required, Organization) + Check(address, required, Name)
  {
    var m := (fields: seq<Field>) => MissingFields(address, required, fields);
    forall f | true ensures m([f]) == Check(address, required, f) {
      assert [f][1..] == [];
    }
    var fs := FieldOrder;
    assert fs == [Country] + [Province] + [Locality] + [Sublocality] + [PostalCode] + [SortingCode] +
                 [StreetAddress] + [Organization] + [Name];
    MissingFieldsAppend(address, required, [Country] + [Province] + [Locality] + [Sublocality] + [PostalCode] +
                        [SortingCode] + [StreetAddress] + [Organization], [Name]);
    MissingFieldsAppend(address, required, [Country] + [Province] + [Locality] + [Sublocality] + [PostalCode] +
                        [SortingCode] + [StreetAddress], [Organization]);
    MissingFieldsAppend(address, required, [Country] + [Province] + [Locality] + [Sublocality] + [PostalCode] +
                        [SortingCode], [StreetAddress]);
    MissingFieldsAppend(address, required, [Country] + [Province] + [Locality] + [Sublocality] + [PostalCode], [SortingCode]);
    MissingFieldsAppend(address, required, [Country] + [Province] + [Locality] + [Sublocality], [PostalCode]);
    MissingFieldsAppend(address, required, [Country] + [Province] + [Locality], [Sublocality]);
    MissingFieldsAppend(address, required, [Country] + [Province], [Locality]);
    MissingFieldsAppend(address, required, [Country], [Province]);
  }
}
