/**
 * Matching a free-form value against the keys of a region's children (`TryGetChildKey`)
 * and against the global list of countries (`TryGetCountryKey`). Matching is ordinal and
 * ignores case; an answer is always the canonical key, never the value as typed.
 */
module KeyResolution {
  import opened Wrappers
  import opened Text
  import opened Records

  /** The value matches the list entry at `i`. */
  predicate MatchesAt(list: Option<seq<string>>, i: nat, value: string)
  {
    list.Some? && i < |list.value| && EqualsIgnoreCase(list.value[i], value)
  }

  /** The first index from `start` below `limit` at which `list` matches `value`. */
  function FirstMatchFrom(list: Option<seq<string>>, value: string, limit: nat, start: nat): (r: Option<nat>)
    ensures r.Some? ==> start <= r.value < limit && MatchesAt(list, r.value, value)
    ensures r.Some? ==> forall j :: start <= j < r.value ==> !MatchesAt(list, j, value)
    ensures r.None? ==> forall j :: start <= j < limit ==> !MatchesAt(list, j, value)
    decreases limit - start
  {
    if start >= limit || list.None? || start >= |list.value| then None
    else if EqualsIgnoreCase(list.value[start], value) then Some(start)
    else FirstMatchFrom(list, value, limit, start + 1)
  }

  /** The first index below `limit` at which `list` matches `value`. */
  function FirstMatch(list: Option<seq<string>>, value: string, limit: nat): Option<nat>
  {
    FirstMatchFrom(list, value, limit, 0)
  }

  /** Some child (key, name or latin name) at index `i` matches the value. */
  predicate ChildMatchesAt(parent: Metadata, i: nat, value: string)
  {
    MatchesAt(parent.childRegionKeys, i, value) || MatchesAt(parent.childRegionNames, i, value) ||
    MatchesAt(parent.childRegionLatinNames, i, value)
  }

  /**
   * `TryGetChildKey`: `None` is the `false` answer with a null key. Keys are tried first, then
   * names, then latin names; within a list the first match wins, and a name or latin name only
   * counts where a key exists at the same index.
   */
  function TryGetChildKey(parent: Metadata?, value: Str): (r: Option<string>)
    ensures r.Some? ==> parent != null && parent.childRegionKeys.Some? && r.value in parent.childRegionKeys.value
  {
    if parent == null || value.None? || value.value == "" || parent.childRegionKeys.None? then None
    else
      var keys := parent.childRegionKeys.value;
      match FirstMatch(parent.childRegionKeys, value.value, |keys|)
      case Some(i) => Some(keys[i])
      case None =>
        match FirstMatch(parent.childRegionNames, value.value, |keys|)
        case Some(i) => Some(keys[i])
        case None =>
          match FirstMatch(parent.childRegionLatinNames, value.value, |keys|)
          case Some(i) => Some(keys[i])
          case None => None
  }

  /** A child key is found exactly when the value is non-empty and matches some child at an index that has a key. */
  lemma ChildKeyFoundIff(parent: Metadata?, value: Str)
    ensures TryGetChildKey(parent, value).Some? <==>
      parent != null && value.Some? && value.value != "" && parent.childRegionKeys.Some? &&
      exists i :: 0 <= i < |parent.childRegionKeys.value| && ChildMatchesAt(parent, i, value.value)
  {
    if parent != null && value.Some? && value.value != "" && parent.childRegionKeys.Some? {
      var keys := parent.childRegionKeys.value;
      if TryGetChildKey(parent, value).None? {
        forall i | 0 <= i < |keys| ensures !ChildMatchesAt(parent, i, value.value) {
          assert !MatchesAt(parent.childRegionKeys, i, value.value);
          assert !MatchesAt(parent.childRegionNames, i, value.value);
          assert !MatchesAt(parent.childRegionLatinNames, i, value.value);
        }
      } else {
        ChildKeySound(parent, value);
      }
    }
  }

  /** An answer is the key at an index where the key, name or latin name matches the value. */
  lemma ChildKeySound(parent: Metadata?, value: Str)
    requires TryGetChildKey(parent, value).Some?
    ensures parent != null && value.Some? && parent.childRegionKeys.Some?
    ensures exists i :: 0 <= i < |parent.childRegionKeys.value| && ChildMatchesAt(parent, i, value.value) &&
                        TryGetChildKey(parent, value).value == parent.childRegionKeys.value[i]
  {
    var keys := parent.childRegionKeys.value;
    var v := value.value;
    match FirstMatch(parent.childRegionKeys, v, |keys|)
    case Some(i) => assert ChildMatchesAt(parent, i, v);
    case None =>
      match FirstMatch(parent.childRegionNames, v, |keys|)
      case Some(i) => assert ChildMatchesAt(parent, i, v);
      case None =>
        var i := FirstMatch(parent.childRegionLatinNames, v, |keys|).value;
        assert ChildMatchesAt(parent, i, v);
  }

  /** A key match wins: the answer is the first key equal to the value up to case. */
  lemma ChildKeyByKey(parent: Metadata, value: string, i: nat)
    requires value != "" && MatchesAt(parent.childRegionKeys, i, value)
    requires forall j :: 0 <= j < i ==> !MatchesAt(parent.childRegionKeys, j, value)
    ensures TryGetChildKey(parent, Some(value)) == Some(parent.childRegionKeys.value[i])
  {
    var r := FirstMatch(parent.childRegionKeys, value, |parent.childRegionKeys.value|);
    assert r.Some? && r.value == i;
  }

  /** With no key match, the key at the first matching name wins, whatever the latin names hold. */
  lemma ChildKeyByName(parent: Metadata, value: string, i: nat)
    requires value != "" && parent.childRegionKeys.Some? && i < |parent.childRegionKeys.value|
    requires forall j :: 0 <= j < |parent.childRegionKeys.value| ==> !MatchesAt(parent.childRegionKeys, j, value)
    requires MatchesAt(parent.childRegionNames, i, value)
    requires forall j :: 0 <= j < i ==> !MatchesAt(parent.childRegionNames, j, value)
    ensures TryGetChildKey(parent, Some(value)) == Some(parent.childRegionKeys.value[i])
  {
    var keys := parent.childRegionKeys.value;
    assert FirstMatch(parent.childRegionKeys, value, |keys|).None?;
    var r := FirstMatch(parent.childRegionNames, value, |keys|);
    assert r.Some? && r.value == i;
  }

  /** With no key or name match, the key at the first matching latin name wins. */
  lemma ChildKeyByLatinName(parent: Metadata, value: string, i: nat)
    requires value != "" && parent.childRegionKeys.Some? && i < |parent.childRegionKeys.value|
    requires forall j :: 0 <= j < |parent.childRegionKeys.value| ==>
               !MatchesAt(parent.childRegionKeys, j, value) && !MatchesAt(parent.childRegionNames, j, value)
    requires MatchesAt(parent.childRegionLatinNames, i, value)
    requires forall j :: 0 <= j < i ==> !MatchesAt(parent.childRegionLatinNames, j, value)
    ensures TryGetChildKey(parent, Some(value)) == Some(parent.childRegionKeys.value[i])
  {
    var keys := parent.childRegionKeys.value;
    assert FirstMatch(parent.childRegionKeys, value, |keys|).None?;
    assert FirstMatch(parent.childRegionNames, value, |keys|).None?;
    var r := FirstMatch(parent.childRegionLatinNames, value, |keys|);
    assert r.Some? && r.value == i;
  }

  /** The value is not offered to any list when it is null or empty, or when there are no keys. */
  lemma ChildKeyNotFound(parent: Metadata?, value: Str)
    requires parent == null || value.None? || value == Some("") || parent.childRegionKeys.None? ||
             parent.childRegionKeys == Some([])
    ensures TryGetChildKey(parent, value).None?
  {
  }

  /** Parents whose three lists are all null, all empty or all `["XX", "XA"]` yield nothing for null, empty or "XB". */
  lemma ChildNotInParentSamples(parent: Metadata, value: Str)
    requires value in [None, Some(""), Some("XB")]
    requires parent.childRegionKeys in [None, Some([]), Some(["XX", "XA"])]
    requires parent.childRegionNames == parent.childRegionKeys && parent.childRegionLatinNames == parent.childRegionKeys
    ensures TryGetChildKey(parent, value).None?
  {
    if parent.childRegionKeys == Some(["XX", "XA"]) && value == Some("XB") {
      ChildKeyFoundIff(parent, value);
      forall i | 0 <= i < 2 ensures !ChildMatchesAt(parent, i, "XB") {
        assert UpperChar(parent.childRegionKeys.value[i][1]) != UpperChar('B');
      }
    }
  }

  /**
   * A value spelled in any case in the middle name slot resolves to the middle key "XW",
   * as long as it matches no key and no other name, whatever the latin names hold; and
   * the same with the roles of names and latin names exchanged.
   */
  lemma ChildInNamesSamples(parent: Metadata, value: string, name: string)
    requires |value| > 2 && name in [value, ToLower(value), ToUpper(value)]
    requires parent.childRegionKeys == Some(["XX", "XW", "XA"])
    requires parent.childRegionNames.Some? && |parent.childRegionNames.value| == 3 && parent.childRegionNames.value[1] == name
    requires !EqualsIgnoreCase(parent.childRegionNames.value[0], value)
    ensures TryGetChildKey(parent, Some(value)) == Some("XW")
  {
    EqualsIgnoreCaseChangedCase(value);
    EqualsIgnoreCaseIsEquivalence(name, value, value);
    ChildKeyByName(parent, value, 1);
  }

  lemma ChildInLatinNamesSamples(parent: Metadata, value: string, name: string)
    requires |value| > 2 && name in [value, ToLower(value), ToUpper(value)]
    requires parent.childRegionKeys == Some(["XX", "XW", "XA"])
    requires parent.childRegionLatinNames.Some? && |parent.childRegionLatinNames.value| == 3
    requires parent.childRegionLatinNames.value[1] == name
    requires !EqualsIgnoreCase(parent.childRegionLatinNames.value[0], value)
    requires forall j :: 0 <= j < 3 ==> !MatchesAt(parent.childRegionNames, j, value)
    ensures TryGetChildKey(parent, Some(value)) == Some("XW")
  {
    EqualsIgnoreCaseChangedCase(value);
    EqualsIgnoreCaseIsEquivalence(name, value, value);
    ChildKeyByLatinName(parent, value, 1);
  }

  /**
   * `TryGetCountryKey`: only the global list of countries is consulted (global records carry
   * no names); the answer is the first listed country equal to the value up to case.
   */
  function TryGetCountryKey(global: Metadata?, value: Str): (r: Option<string>)
    ensures r.Some? ==> global != null && global.countries.Some? && r.value in global.countries.value
    ensures r.Some? ==> value.Some? && EqualsIgnoreCase(r.value, value.value)
  {
    if global == null || value.None? || value.value == "" || global.countries.None? then None
    else
      match FirstMatch(global.countries, value.value, |global.countries.value|)
      case Some(i) => Some(global.countries.value[i])
      case None => None
  }

  /** A country key is found exactly when the value is non-empty and listed up to case. */
  lemma CountryKeyFoundIff(global: Metadata?, value: Str)
    ensures TryGetCountryKey(global, value).Some? <==>
      global != null && value.Some? && value.value != "" && global.countries.Some? &&
      exists i :: 0 <= i < |global.countries.value| && MatchesAt(global.countries, i, value.value)
  {
  }

  /** A value listed exactly, with no other spelling of it listed before, is answered with itself. */
  lemma CountryKeyListed(global: Metadata, value: string, i: nat)
    requires value != "" && global.countries.Some? && i < |global.countries.value| && global.countries.value[i] == value
    requires forall j :: 0 <= j < i ==> !MatchesAt(global.countries, j, value)
    ensures TryGetCountryKey(global, Some(value)) == Some(value)
  {
    EqualsIgnoreCaseIsEquivalence(value, value, value);
    assert MatchesAt(global.countries, i, value);
    var r := FirstMatch(global.countries, value, |global.countries.value|);
    assert r.Some? && r.value == i;
  }

  /** Null, empty or unlisted values and missing or empty country lists: no country. */
  lemma CountryNotInGlobalSamples(global: Metadata?, value: Str)
    requires value in [None, Some(""), Some("XB")]
    requires global == null || global.countries in [None, Some([]), Some(["XW", "XA"])]
    ensures TryGetCountryKey(global, value).None?
  {
    if global != null && global.countries == Some(["XW", "XA"]) && value == Some("XB") {
      CountryKeyFoundIff(global, value);
      forall i | 0 <= i < 2 ensures !MatchesAt(global.countries, i, "XB") {
        assert UpperChar(global.countries.value[i][1]) != UpperChar('B');
      }
    }
  }

  lemma CountryInGlobalSample(global: Metadata)
    requires global.countries == Some(["XW", "XA"])
    ensures TryGetCountryKey(global, Some("XW")) == Some("XW")
  {
    CountryKeyListed(global, "XW", 0);
  }
}
