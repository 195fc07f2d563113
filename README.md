# Address metadata service: a Dafny model

This project models the core of Fidget.Validation.Addresses, a C# library that validates postal
addresses against a hierarchy of metadata records (global, country, province, locality,
sublocality) fetched from a data service. The model covers four parts:

- `AddressService.Implementation`:
  - `BuildIdentifier` builds the service identifiers (`data/XX/ZZ--xyz`).
  - The country getter fetches the rest-of-world defaults (`data/ZZ`) and fills the country
    record's absent attributes from them, in place.
  - The province, locality and sublocality getters guard their keys and issue one query.
  - `ValidateAsync` has a null guard.
  - Key resolution against a parent region's child lists and against the global country list.
- `RequiredElementsValidator`: the union of the required-field sets of the four levels, and the
  missing-field failures in fixed field order.
- `NullifyingServiceClientDecorator`: turns every record without an `Id` into "no record".

## Modules

- `Wrappers` (wrappers.dfy): `Option`, `Result` and `Coalesce` (the C# `??`).
- `Text` (text.dfy):
  - `Str = Option<string>` stands for a C# string reference that may be null.
  - Ordinal case-insensitive comparison.
  - `string.IsNullOrWhiteSpace`.
- `Records` (records.dfy):
  - The address fields, the failures and the exceptions.
  - `AddressData`.
  - Class `Metadata`, one class for all five metadata record types. Attributes the core never
    assigns are `const`. The seven inheritable attributes are `var` fields, because the country
    getter overwrites them.
  - The pure `Merge` of those attributes.
- `Service` (service_client.dfy): class `ServiceClient`, the data service client.
  - Its answers are a constant function from identifier to response: a record, `null`, or an
    exception.
  - A ghost log records the identifiers it was asked for, in order.
- `Nullifying` (nullifying_decorator.dfy): the decorator, pure over the inner client's answers.
- `Identifier` (identifier.dfy): `BuildIdentifier`, and a parser that inverts it on plain keys.
- `KeyResolution` (key_resolution.dfy): `TryGetChildKey` and `TryGetCountryKey`.
- `Validation` (required_elements_validator.dfy): `RequiredElementsValidator`.
- `AddressService` (address_service.dfy):
  - class `Implementation`;
  - three scenario methods that restate the service tests' setups as verified assertions: a country filled from the defaults, an
    absent country, and null keys that issue no query.

### Intended behaviour and what the code does

- A record with an empty or absent `Id` is meant to count as "no record": the decorator's own
  comment says it turns a response that "is not a valid entry" into the default value
  (src/Service/NullifyingServiceClientDecorator.cs:8). The code tests only for a null `Id`, so a
  record whose `Id` is `""` passes through. The model follows the code.
- An identifier is meant to name one key chain in one language, but `BuildIdentifier` is not
  injective in general (`Identifier.BuildIdentifierCollision`).
  - `ParseIdentifier` recovers the pair (language, keys) whenever there is at least one key and no
    key contains `/` or `-` (`Identifier.ParseBuild`).
  - A key that contains `/` or `--`, or ends in `-`, can collide with a different chain or a
    language.
  - An empty language still adds `--`.
- `TryGetCountryKey` and `TryGetChildKey` do not appear in the implementation file. Their model is
  taken from the service tests (test/AddressServiceTests.cs:317-443), together with the following
  matching rules:
  - ordinal case-insensitive matching;
  - keys first, then names, then latin names;
  - the first index wins;
  - only the country list is searched for a country.
- The tests construct the service with a validation-context factory. The implementation's
  constructor takes a client and a validator collection. The model follows the implementation.

## Model

| member | source | states |
|---|---|---|
| Wrappers.Coalesce | src/AddressService.Implementation.cs:74-80 | `a ?? b`: a non-null left operand is kept, a null one is replaced by the right operand |
| Text.EqualsIgnoreCaseIsEquivalence | test/AddressServiceTests.cs:395-442 | case-insensitive equality is reflexive, symmetric and transitive |
| Text.EqualsIgnoreCaseChangedCase | test/AddressServiceTests.cs:400-402 | a name matches its lower-cased and upper-cased spellings, as the name tests assume |
| Records.Metadata.constructor | src/Metadata/CountryMetadata.cs:11-108 | a record holds exactly the identity, child lists, languages, latin format and inheritable attributes it was built with |
| Records.Merge | src/AddressService.Implementation.cs:74-80 | the seven `??` assignments as one function: every attribute the specific record sets is kept, and the result sets at least as many attributes as the defaults do |
| Records.MergeKeepsSpecificFillsDefaults | src/AddressService.Implementation.cs:74-80 | every attribute the specific record sets survives the merge; each absent one becomes the default's; the merge never unsets an attribute |
| Records.MergeIdempotent | src/AddressService.Implementation.cs:72-83 | merging twice with the same defaults equals merging once; empty defaults, or an empty specific record, give back the other side |
| Records.MergeOfCompleteRecord | src/AddressService.Implementation.cs:74-80 | a record that sets all seven attributes is unchanged by any defaults |
| Records.MergeOnlyFormatSet | test/AddressServiceTests.cs:114-154 | a country that sets only its format keeps it and takes every other attribute from the defaults |
| Service.ServiceClient.constructor | src/AddressService.Implementation.cs:24 | a client answers with the given responses, every record it hands out is one of the given records, and it has not been asked anything yet |
| Service.ServiceClient.Query | src/AddressService.Implementation.cs:56-140 | a query answers the client's response for that identifier and appends the identifier to the log |
| Nullifying.Query | src/Service/NullifyingServiceClientDecorator.cs:35-44 | a null id fails with `ArgumentNullException("id")` whatever the inner client does; an inner exception propagates; a record with an `Id` is returned unchanged; a record without one, or no record, becomes "no record"; every answer is normalized |
| Nullifying.QueryAsWritten | src/Service/NullifyingServiceClientDecorator.cs:35-44 | as written: the same as `Query`, except that an absent inner answer throws a null-reference exception |
| Nullifying.Construct | src/Service/NullifyingServiceClientDecorator.cs:24-27 | a null client fails with `ArgumentNullException("client")`; otherwise every answer of the result is `Query` over the given client |
| Nullifying.DecoratedAnswersNormalized | src/Service/NullifyingServiceClientDecorator.cs:41-43 | a decorated client never answers with an Id-less record, and it succeeds on a non-null id exactly when the inner client does |
| Nullifying.DecorateIdempotent | src/Service/NullifyingServiceClientDecorator.cs:41-43 | decorating a decorated client changes no answer |
| Nullifying.QueryAsWrittenAgrees | src/Service/NullifyingServiceClientDecorator.cs:39-43 | the code as written and the intended behaviour agree on every inner answer except "no record" |
| Nullifying.DoubleDecorationAsWrittenThrows | src/Service/NullifyingServiceClientDecorator.cs:41 | with an inner record that has no `Id`, one decorator as written answers "no record" but a second one around it throws; the corrected decorator answers "no record" |
| Identifier.Join | src/AddressService.Implementation.cs:50 | `string.Join("/", keys)`: a single key is returned as is; otherwise the result starts with the first key, followed by the separator when more keys follow |
| Identifier.SplitJoin | src/AddressService.Implementation.cs:50 | splitting the join of a non-empty chain of keys without `/` or `-` at every `/` gives back the keys |
| Identifier.BuildIdentifier | src/AddressService.Implementation.cs:50 | an identifier starts with `data/` and ends with `--` followed by the language whenever a language is given |
| Identifier.ParseBuild | src/AddressService.Implementation.cs:50 | on a non-empty chain of keys without `/` or `-`, parsing the identifier gives back the language and the keys |
| Identifier.BuildIdentifierInjective | src/AddressService.Implementation.cs:50 | on such chains, equal identifiers have equal languages and equal keys |
| Identifier.LanguageSuffixExactlyWhenLanguage | src/AddressService.Implementation.cs:50 | for plain keys, the identifier contains a dash if and only if a language is given |
| Identifier.BuildIdentifierCollision | src/AddressService.Implementation.cs:50 | the key `XX--abc` gives the same identifier as key `XX` with language `abc`, and the key `XX/ZZ` the same as the chain `XX`, `ZZ` |
| Identifier.CountryIdentifierSamples | test/AddressServiceTests.cs:94-100 | `data/XX`, `data/XX--abc`, `data/XX--` for an empty language, and `data/ZZ` |
| Identifier.ProvinceIdentifierSample | test/AddressServiceTests.cs:179-185 | `data/XX/ZZ--xyz` |
| Identifier.LocalityIdentifierSample | test/AddressServiceTests.cs:231-237 | `data/XX/ZZ/ZY` |
| Identifier.SublocalityIdentifierSample | test/AddressServiceTests.cs:292-298 | `data/XX/ZZ/ZY/XY--xyz` |
| KeyResolution.TryGetChildKey | test/AddressServiceTests.cs:357-443 | a found key is one of the parent's child keys |
| KeyResolution.ChildKeyFoundIff | test/AddressServiceTests.cs:357-443 | a key is found if and only if parent, value and keys are present, the value is non-empty, and some index that has a key matches the value by key, name or latin name |
| KeyResolution.ChildKeySound | test/AddressServiceTests.cs:384-443 | a found key is the key at an index where the key, the name or the latin name matches the value |
| KeyResolution.ChildKeyByKey | test/AddressServiceTests.cs:384-392 | a matching key wins, and the first key that matches is returned |
| KeyResolution.ChildKeyByName | test/AddressServiceTests.cs:410-425 | with no key match, the key at the first matching name is returned, whatever the latin names hold |
| KeyResolution.ChildKeyByLatinName | test/AddressServiceTests.cs:427-442 | with no key or name match, the key at the first matching latin name is returned |
| KeyResolution.ChildKeyNotFound | test/AddressServiceTests.cs:359-382 | a null parent, a null or empty value, and null or empty keys give nothing |
| KeyResolution.ChildNotInParentSamples | test/AddressServiceTests.cs:359-382 | every combination in the tests of null, empty or `["XX","XA"]` lists with a null, empty or `XB` value gives nothing |
| KeyResolution.ChildInNamesSamples | test/AddressServiceTests.cs:395-425 | a value in the middle name slot, in any of the three spellings, resolves to `XW` |
| KeyResolution.ChildInLatinNamesSamples | test/AddressServiceTests.cs:427-442 | the same through the latin names, when no name matches |
| KeyResolution.TryGetCountryKey | test/AddressServiceTests.cs:317-355 | a found country is listed and equals the value up to case |
| KeyResolution.CountryKeyFoundIff | test/AddressServiceTests.cs:317-355 | a country is found if and only if global record, list and value are present, the value is non-empty, and it matches a listed country |
| KeyResolution.CountryKeyListed | test/AddressServiceTests.cs:345-354 | a value listed exactly, with no other spelling of it listed before, is answered with itself |
| KeyResolution.CountryNotInGlobalSamples | test/AddressServiceTests.cs:319-343 | every combination in the tests of a missing record or a null, empty or `["XW","XA"]` list with a null, empty or `XB` value gives nothing |
| KeyResolution.CountryInGlobalSample | test/AddressServiceTests.cs:345-354 | `XW` is found in `["XW","XA"]` |
| Validation.Rank | src/Validation/RequiredElementsValidator.cs:48-56 | every field has its place in the fixed checking order |
| Validation.FailuresTable | src/Validation/RequiredElementsValidator.cs:19-22 | the table has an entry for every field, and it reports that field as missing |
| Validation.RequiredFields | src/Validation/RequiredElementsValidator.cs:34-40 | a field is required if and only if it is the country or some present level's `Required` lists it; a missing level or a null set contributes only the country |
| Validation.RequirementAtAnyLevel | src/Validation/RequiredElementsValidator.cs:36-39 | a requirement declared at any single level is enforced |
| Validation.OnlyCountryByDefault | src/Validation/RequiredElementsValidator.cs:34-40 | levels that are missing or declare nothing beyond the country require only the country |
| Validation.MissingFields | src/Validation/RequiredElementsValidator.cs:42-46 | no more failures than checked fields, each for a checked field and each `MissingRequiredField` |
| Validation.MissingFieldsIff | src/Validation/RequiredElementsValidator.cs:44-45 | a failure (f, e) is reported if and only if e is `MissingRequiredField`, f is checked and required, and its value is null or blank |
| Validation.MissingFieldsOrdered | src/Validation/RequiredElementsValidator.cs:48-56 | when the checked fields are listed in rank order, the failures are in rank order, each field at most once |
| Validation.ExpectedProperties | src/Validation/RequiredElementsValidator.cs:44-58 | at most nine failures, all `MissingRequiredField`, in the fixed field order, each field at most once, and exactly the required blank fields |
| Validation.BlankCountryAlwaysFails | src/Validation/RequiredElementsValidator.cs:34-48 | a null or blank country is reported whatever the metadata declares |
| Validation.EmptyAddressFailsOnCountryOnly | src/Validation/RequiredElementsValidator.cs:34-58 | an empty address with no level metadata yields exactly one failure, for the country |
| Validation.LocalityRequirementFires | src/Validation/RequiredElementsValidator.cs:38-50 | a requirement declared only at the locality level reports a blank locality |
| Validation.ValidateField | src/Validation/RequiredElementsValidator.cs:42-46 | one step appends the failure for its field when the field is required and null or blank, and nothing otherwise |
| Validation.Validate | src/Validation/RequiredElementsValidator.cs:28-59 | a null address or a null global record fails with `ArgumentNullException` (address first); otherwise the result is exactly the failures for the required set built from the levels' `Required` sets, so the global record's content and a level's other attributes play no part |
| AddressService.Implementation.constructor | src/AddressService.Implementation.cs:38-42 | the service keeps the given client and validators |
| AddressService.Implementation.Create | src/AddressService.Implementation.cs:38-42 | a null client fails with `ArgumentNullException("client")`, then a null validator collection with `ArgumentNullException("validators")`; otherwise a new service holds both |
| AddressService.Implementation.GetGlobal | src/AddressService.Implementation.cs:56 | one query at `data`, whose answer is returned |
| AddressService.Implementation.GetCountry | src/AddressService.Implementation.cs:64-84 | a null key fails before any query; otherwise `data/ZZ` is queried, then the country identifier, and the country's answer is returned (a defaults exception propagates first); when both records exist, the returned record's attributes become the merge of its former attributes with the defaults', and only that record changes; an absent country stays absent |
| AddressService.Implementation.GetProvince | src/AddressService.Implementation.cs:93-101 | null country, then null province key, fails with that key's name before any query; otherwise one query at the identifier of the full chain plus language, answered as is |
| AddressService.Implementation.GetLocality | src/AddressService.Implementation.cs:111-120 | the same for country, province and locality keys |
| AddressService.Implementation.GetSublocality | src/AddressService.Implementation.cs:131-141 | the same for country, province, locality and sublocality keys |
| AddressService.Implementation.Validate | src/AddressService.Implementation.cs:149-156 | a null address fails before any query; otherwise the global record is queried, and the call fails with its exception or as not implemented |

## Findings

| source | as written | input that shows it | evidently intended | confidence | as-written member | corrected member |
|---|---|---|---|---|---|---|
| src/Service/NullifyingServiceClientDecorator.cs:41 | `result.Id` is read without checking `result`, so an inner client that answers `null` makes `Query` throw a null-reference exception | an inner client whose record for `data/XX` has no `Id`, wrapped in two decorators: the inner decorator answers `null`, and the outer one then throws | an absent answer stays absent (`result?.Id != null`), so decorators compose and a second one changes nothing | not executed | Nullifying.QueryAsWritten, Nullifying.DoubleDecorationAsWrittenThrows | Nullifying.Query, Nullifying.DecorateIdempotent |

## Left out

- Asynchronous execution: every `await` is a plain call, and the `Task` wrappers are gone.
- The data service transport behind `IServiceClient` is not part of this model. A client is the
  constant function of its answers: a transport failure is an exception value that propagates, and
  a record is shared by every caller that receives it.
- `Query<T>`'s type parameter: all metadata record types are one `Metadata` class, with the
  attributes of every level.
- `ValidateAsync` after its global query: the implementation throws `NotImplementedException`
  there, and the model does the same. The tests' concatenation of validator outputs goes through a
  validation-context factory that is not part of this model.
- src/Metadata/Commands/CountryMetadataQuery.cs: command-dispatch glue over collaborators that are
  not part of this model.
- The JSON attributes and converters of the record types: only the fields are modelled.
- Nullifying.Query: that the inner client is called exactly once per query is not stated. The
  decorator is modelled over the inner client's answers, which cannot count calls. The model does
  state that the answer depends only on the inner answer for the same id, and that a null id never
  consults the inner client.
- Text.EqualsIgnoreCase: case folding covers ASCII letters only, not full Unicode.
- Text.IsWhiteSpace: a fixed list of the characters .NET counts as white space, not the Unicode
  tables.
- AddressService.Implementation.GetCountry: the merge's "nothing else changes" holds by
  construction. The model does not state it as a separate clause, because `Id`, the child lists,
  the languages and the latin format are constants of `Metadata`, and the method's frame allows
  only the returned record to change.
- Records.Metadata.constructor and Service.ServiceClient.constructor: in the source, records and
  clients are built by the JSON deserializer and by dependency injection, not called directly.
