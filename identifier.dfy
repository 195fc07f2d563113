/**
 * Data service identifiers: `data/k1/k2/...`, followed by `--lang` when a language is given.
 * `ParseIdentifier` is the inverse of `BuildIdentifier` on non-empty chains of keys that contain neither `/` nor `-`.
 */
module Identifier {
  import opened Wrappers
  import opened Text

  const Namespace := "data/"
  const KeySeparator := '/'
  const LanguageSeparator := "--"

  /** `string.Join("/", keys)`. */
  function Join(keys: seq<string>): (r: string)
    ensures |keys| >= 1 ==> |r| >= |keys[0]| && r[..|keys[0]|] == keys[0]
    ensures |keys| >= 2 ==> |r| > |keys[0]| && r[|keys[0]|] == KeySeparator
    ensures |keys| == 1 ==> r == keys[0]
  {
    if |keys| == 0 then ""
    else if |keys| == 1 then keys[0]
    else keys[0] + [KeySeparator] + Join(keys[1..])
  }

  /** `BuildIdentifier(language, keys)`: the language suffix is added whenever `language` is not null, even if empty. */
  function BuildIdentifier(language: Str, keys: seq<string>): (r: string)
    ensures |r| >= |Namespace| && r[..|Namespace|] == Namespace
    ensures language.Some? ==> |r| >= |language.value| + 2 && r[|r| - |language.value| - 2..] == LanguageSeparator + language.value
  {
    Namespace + Join(keys) + (if language.Some? then LanguageSeparator + language.value else "")
  }

  /** A key that can be recovered from an identifier: no key separator and no dash. */
  predicate PlainKey(k: string)
  {
    forall i :: 0 <= i < |k| ==> k[i] != KeySeparator && k[i] != '-'
  }

  predicate PlainKeys(keys: seq<string>)
  {
    forall j :: 0 <= j < |keys| ==> PlainKey(keys[j])
  }

  /** The first position of `c` in `s`. */
  function IndexOf(s: string, c: char): (r: Option<nat>)
    ensures r.Some? ==> r.value < |s| && s[r.value] == c && forall j :: 0 <= j < r.value ==> s[j] != c
    ensures r.None? ==> forall j :: 0 <= j < |s| ==> s[j] != c
  {
    if |s| == 0 then None
    else if s[0] == c then Some(0)
    else match IndexOf(s[1..], c)
      case None => None
      case Some(i) => Some(i + 1)
  }

  /** Splits at every key separator; the inverse of `Join` on non-empty sequences of keys without `/` or `-`. */
  function Split(s: string): (r: seq<string>)
    ensures |r| >= 1
  {
    if |s| == 0 then [""]
    else if s[0] == KeySeparator then [""] + Split(s[1..])
    else
      var rest := Split(s[1..]);
      [[s[0]] + rest[0]] + rest[1..]
  }

  /** Reads the language and key chain back out of an identifier. */
  function ParseIdentifier(id: string): Option<(Str, seq<string>)>
  {
    if |id| < |Namespace| || id[..|Namespace|] != Namespace then None
    else
      var rest := id[|Namespace|..];
      match IndexOf(rest, '-')
      case None => Some((None, Split(rest)))
      case Some(i) =>
        if i + 1 < |rest| && rest[i + 1] == '-' then Some((Some(rest[i + 2..]), Split(rest[..i])))
        else None
  }

  lemma {:induction false} SplitPlainKey(k: string)
    requires PlainKey(k)
    ensures Split(k) == [k]
  {
    if |k| > 0 {
      assert PlainKey(k[1..]);
      SplitPlainKey(k[1..]);
      assert [k[0]] + k[1..] == k;
    }
  }

  lemma {:induction false} SplitAfterKey(k: string, rest: string)
    requires PlainKey(k)
    ensures Split(k + [KeySeparator] + rest) == [k] + Split(rest)
  {
    var s := k + [KeySeparator] + rest;
    if |k| == 0 {
      assert s[0] == KeySeparator && s[1..] == rest;
    } else {
      assert PlainKey(k[1..]);
      assert s[0] == k[0] && s[1..] == k[1..] + [KeySeparator] + rest;
      SplitAfterKey(k[1..], rest);
      assert [k[0]] + k[1..] == k;
    }
  }

  /** Joining and splitting again gives back the keys. */
  lemma {:induction false} SplitJoin(keys: seq<string>)
    requires |keys| >= 1 && PlainKeys(keys)
    ensures Split(Join(keys)) == keys
  {
    if |keys| == 1 {
      SplitPlainKey(keys[0]);
    } else {
      assert PlainKeys(keys[1..]);
      SplitJoin(keys[1..]);
      SplitAfterKey(keys[0], Join(keys[1..]));
      assert [keys[0]] + keys[1..] == keys;
    }
  }

  /** A join of plain keys contains no dash. */
  lemma {:induction false} JoinHasNoDash(keys: seq<string>)
    requires PlainKeys(keys)
    ensures forall i :: 0 <= i < |Join(keys)| ==> Join(keys)[i] != '-'
  {
    if |keys| > 1 {
      assert PlainKeys(keys[1..]);
      JoinHasNoDash(keys[1..]);
      assert PlainKey(keys[0]);
    } else if |keys| == 1 {
      assert PlainKey(keys[0]);
    }
  }

  /** The first dash after a dash-free prefix is the one that follows it. */
  lemma FirstDashAfter(prefix: string, tail: string)
    requires forall i :: 0 <= i < |prefix| ==> prefix[i] != '-'
    requires |tail| > 0 && tail[0] == '-'
    ensures IndexOf(prefix + tail, '-') == Some(|prefix|)
  {
    var s := prefix + tail;
    assert s[|prefix|] == '-';
    assert forall j :: 0 <= j < |prefix| ==> s[j] == prefix[j];
  }

  /** The text after the namespace decides the parse. */
  lemma ParseAfterNamespace(id: string, rest: string)
    requires id == Namespace + rest
    ensures ParseIdentifier(id) ==
      match IndexOf(rest, '-')
      case None => Some((None, Split(rest)))
      case Some(i) => if i + 1 < |rest| && rest[i + 1] == '-' then Some((Some(rest[i + 2..]), Split(rest[..i]))) else None
  {
    assert id[..|Namespace|] == Namespace && id[|Namespace|..] == rest;
  }

  /** An identifier without a language reads back as its keys. */
  lemma ParseBuildWithoutLanguage(keys: seq<string>)
    requires |keys| >= 1 && PlainKeys(keys)
    ensures ParseIdentifier(BuildIdentifier(None, keys)) == Some((None, keys))
  {
    var joined := Join(keys);
    assert BuildIdentifier(None, keys) == Namespace + joined;
    ParseAfterNamespace(Namespace + joined, joined);
    JoinHasNoDash(keys);
    SplitJoin(keys);
  }

  /** A dash-free text followed by `--` and a language reads back as that language and the text's keys. */
  lemma ParseWithLanguageSuffix(joined: string, l: string)
    requires forall i :: 0 <= i < |joined| ==> joined[i] != '-'
    ensures ParseIdentifier(Namespace + (joined + (LanguageSeparator + l))) == Some((Some(l), Split(joined)))
  {
    var rest := joined + (LanguageSeparator + l);
    ParseAfterNamespace(Namespace + rest, rest);
    FirstDashAfter(joined, LanguageSeparator + l);
    assert rest[|joined| + 1] == '-';
    assert rest[..|joined|] == joined;
    assert rest[|joined| + 2..] == l;
  }

  /** An identifier with a language reads back as its keys and that language. */
  lemma ParseBuildWithLanguage(l: string, keys: seq<string>)
    requires |keys| >= 1 && PlainKeys(keys)
    ensures ParseIdentifier(BuildIdentifier(Some(l), keys)) == Some((Some(l), keys))
  {
    var joined := Join(keys);
    assert BuildIdentifier(Some(l), keys) == Namespace + (joined + (LanguageSeparator + l));
    JoinHasNoDash(keys);
    ParseWithLanguageSuffix(joined, l);
    SplitJoin(keys);
  }

  /** Parsing a built identifier recovers the language and the keys. */
  lemma ParseBuild(language: Str, keys: seq<string>)
    requires |keys| >= 1 && PlainKeys(keys)
    ensures ParseIdentifier(BuildIdentifier(language, keys)) == Some((language, keys))
  {
    match language
    case None => ParseBuildWithoutLanguage(keys);
    case Some(l) => ParseBuildWithLanguage(l, keys);
  }

  /** On plain keys, distinct (language, key chain) pairs give distinct identifiers. */
  lemma BuildIdentifierInjective(l1: Str, k1: seq<string>, l2: Str, k2: seq<string>)
    requires |k1| >= 1 && PlainKeys(k1) && |k2| >= 1 && PlainKeys(k2)
    requires BuildIdentifier(l1, k1) == BuildIdentifier(l2, k2)
    ensures l1 == l2 && k1 == k2
  {
    ParseBuild(l1, k1);
    ParseBuild(l2, k2);
  }

  /** On plain keys, the identifier carries the language separator exactly when a language is given. */
  lemma LanguageSuffixExactlyWhenLanguage(language: Str, keys: seq<string>)
    requires PlainKeys(keys)
    ensures (exists i :: 0 <= i < |BuildIdentifier(language, keys)| && BuildIdentifier(language, keys)[i] == '-') <==> language.Some?
  {
    var id := BuildIdentifier(language, keys);
    JoinHasNoDash(keys);
    if language.Some? {
      assert id[|Namespace| + |Join(keys)|] == '-';
    } else {
      assert id == Namespace + Join(keys);
      forall i | 0 <= i < |id| ensures id[i] != '-' {
        if i >= |Namespace| {
          assert id[i] == Join(keys)[i - |Namespace|];
        }
      }
    }
  }

  /** Without the plain-key condition identifiers collide: a key containing `--` mimics a language. */
  lemma BuildIdentifierCollision()
    ensures BuildIdentifier(None, ["XX--abc"]) == BuildIdentifier(Some("abc"), ["XX"])
    ensures BuildIdentifier(None, ["XX", "ZZ"]) == BuildIdentifier(None, ["XX/ZZ"])
  {
  }

  /** The identifiers the service queries for a sample country, with and without a language. */
  lemma CountryIdentifierSamples()
    ensures BuildIdentifier(None, ["XX"]) == "data/XX"
    ensures BuildIdentifier(Some("abc"), ["XX"]) == "data/XX--abc"
    ensures BuildIdentifier(Some(""), ["XX"]) == "data/XX--"
    ensures BuildIdentifier(None, ["ZZ"]) == "data/ZZ"
  {
  }

  /** The identifier of a sample province, with a language. */
  lemma ProvinceIdentifierSample()
    ensures BuildIdentifier(Some("xyz"), ["XX", "ZZ"]) == "data/XX/ZZ--xyz"
  {
    assert Join(["XX", "ZZ"]) == "XX/ZZ";
  }

  /** The identifier of a sample locality, without a language. */
  lemma LocalityIdentifierSample()
    ensures BuildIdentifier(None, ["XX", "ZZ", "ZY"]) == "data/XX/ZZ/ZY"
  {
    assert Join(["ZZ", "ZY"]) == "ZZ/ZY";
    assert Join(["XX", "ZZ", "ZY"]) == "XX/ZZ/ZY";
  }

  /** The identifier of a sample sublocality, with a language. */
  lemma SublocalityIdentifierSample()
    ensures BuildIdentifier(Some("xyz"), ["XX", "ZZ", "ZY", "XY"]) == "data/XX/ZZ/ZY/XY--xyz"
  {
    assert Join(["ZY", "XY"]) == "ZY/XY";
    assert Join(["ZZ", "ZY", "XY"]) == "ZZ/ZY/XY";
    assert Join(["XX", "ZZ", "ZY", "XY"]) == "XX/ZZ/ZY/XY";
    assert BuildIdentifier(Some("xyz"), ["XX", "ZZ", "ZY", "XY"]) == Namespace + "XX/ZZ/ZY/XY" + (LanguageSeparator + "xyz");
  }
}
