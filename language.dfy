/**
 * The language provider: the selected language, a loading flag, the two browser-storage
 * entries that carry the choice and its translated bundle across reloads, and what is handed
 * to the i18n library. The translator and JSON (de)serialisation are foreign; they enter as
 * parameters.
 */
module Language {
  import opened Wrappers

  /** A translation bundle: key to translated string, `None` standing for `undefined`. */
  type Bundle = map<string, Option<string>>

  const SelectedLanguage: string := "selectedLanguage"
  const TranslatedResources: string := "translatedResources"

  /** `useLanguage`: the context value, or the error thrown outside a provider. */
  function UseLanguage<C>(context: Option<C>): (r: Result<C, string>)
    ensures r.Ok? <==> context.Some?
    ensures r.Ok? ==> r.value == context.value
    ensures r.Err? ==> r.error == "useLanguage must be used within a LanguageProvider"
  {
    if context.None? then Err("useLanguage must be used within a LanguageProvider") else Ok(context.value)
  }

  // ---------------------------------------------------------------------------------------
  // The translated bundle
  // ---------------------------------------------------------------------------------------

  /** `translatedValues[index]`: `undefined` past the end of the translator's answer. */
  function ValueAt(values: seq<string>, i: nat): (r: Option<string>)
    ensures r.Some? <==> i < |values|
    ensures r.Some? ==> r.value == values[i]
  {
    if i < |values| then Some(values[i]) else None
  }

  /** The object the `forEach` over the English keys fills: key `i` set to translated value `i`,
    * a later duplicate overwriting an earlier one. */
  function BuiltBundle(keys: seq<string>, values: seq<string>): Bundle
    decreases |keys|
  {
    if keys == [] then map[]
    else BuiltBundle(keys[..|keys| - 1], values)[keys[|keys| - 1] := ValueAt(values, |keys| - 1)]
  }

  predicate Distinct(keys: seq<string>) {
    forall i, j :: 0 <= i < j < |keys| ==> keys[i] != keys[j]
  }

  /** The bundle has exactly the English keys; with distinct keys (as an object's keys are) key
    * `i` maps to translated value `i`; and when the translator answered for every key, no
    * value is `undefined`. */
  lemma BuiltBundleSpec(keys: seq<string>, values: seq<string>)
    ensures BuiltBundle(keys, values).Keys == set k | k in keys
    ensures Distinct(keys) ==>
      forall i :: 0 <= i < |keys| ==> BuiltBundle(keys, values)[keys[i]] == ValueAt(values, i)
    ensures |keys| <= |values| ==>
      forall k :: k in BuiltBundle(keys, values) ==> BuiltBundle(keys, values)[k].Some?
  {
    BuiltBundleKeys(keys, values);
    if Distinct(keys) {
      BuiltBundleValues(keys, values);
    }
    if |keys| <= |values| {
      BuiltBundleDefined(keys, values);
    }
  }

  lemma {:induction false} BuiltBundleKeys(keys: seq<string>, values: seq<string>)
    ensures BuiltBundle(keys, values).Keys == set k | k in keys
    decreases |keys|
  {
    if keys != [] {
      var n := |keys| - 1;
      BuiltBundleKeys(keys[..n], values);
      assert keys == keys[..n] + [keys[n]];
    }
  }

  lemma {:induction false} BuiltBundleValues(keys: seq<string>, values: seq<string>)
    requires Distinct(keys)
    ensures forall i :: 0 <= i < |keys| ==>
      keys[i] in BuiltBundle(keys, values) && BuiltBundle(keys, values)[keys[i]] == ValueAt(values, i)
    decreases |keys|
  {
    if keys != [] {
      var n := |keys| - 1;
      var front := keys[..n];
      assert Distinct(front) by {
        forall i, j | 0 <= i < j < n ensures front[i] != front[j] { assert keys[i] != keys[j]; }
      }
      BuiltBundleValues(front, values);
      BuiltBundleKeys(front, values);
      forall i | 0 <= i < |keys|
        ensures keys[i] in BuiltBundle(keys, values) && BuiltBundle(keys, values)[keys[i]] == ValueAt(values, i)
      {
        if i < n {
          assert keys[i] != keys[n] && front[i] == keys[i];
        }
      }
    }
  }

  lemma {:induction false} BuiltBundleDefined(keys: seq<string>, values: seq<string>)
    requires |keys| <= |values|
    ensures forall k :: k in BuiltBundle(keys, values) ==> BuiltBundle(keys, values)[k].Some?
    decreases |keys|
  {
    if keys != [] {
      BuiltBundleDefined(keys[..|keys| - 1], values);
    }
  }

  /** `keys.forEach((key, index) => { translatedObj[key] = translatedValues[index]; })`. */
  method BuildBundle(keys: seq<string>, values: seq<string>) returns (obj: Bundle)
    ensures obj == BuiltBundle(keys, values)
  {
    obj := map[];
    var i := 0;
    while i < |keys|
      invariant i <= |keys|
      invariant obj == BuiltBundle(keys[..i], values)
    {
      assert keys[..i + 1][..i] == keys[..i];
      obj := obj[keys[i] := ValueAt(values, i)];
      i := i + 1;
    }
    assert keys[..i] == keys;
  }

  /** The keys and the values of the English bundle's entries, in the bundle's key order. */
  function Keys(entries: seq<(string, string)>): (r: seq<string>)
    ensures |r| == |entries| && forall i :: 0 <= i < |entries| ==> r[i] == entries[i].0
  {
    seq(|entries|, i requires 0 <= i < |entries| => entries[i].0)
  }

  function Values(entries: seq<(string, string)>): (r: seq<string>)
    ensures |r| == |entries| && forall i :: 0 <= i < |entries| ==> r[i] == entries[i].1
  {
    seq(|entries|, i requires 0 <= i < |entries| => entries[i].1)
  }

  // ---------------------------------------------------------------------------------------
  // What is persisted, and what a reload makes of it
  // ---------------------------------------------------------------------------------------

  /** The storage after the English path: `selectedLanguage` is `en`, no translated bundle. */
  function EnglishStore(store: map<string, string>): (r: map<string, string>)
    ensures SelectedLanguage in r && r[SelectedLanguage] == "en" && TranslatedResources !in r
    ensures forall k :: k in store && k != SelectedLanguage && k != TranslatedResources ==> k in r && r[k] == store[k]
    ensures forall k :: k in r ==> k in store || k == SelectedLanguage
  {
    store[SelectedLanguage := "en"] - {TranslatedResources}
  }

  /** The storage after a successful switch to `lang` with the serialised bundle `payload`. */
  function SwitchedStore(store: map<string, string>, lang: string, payload: string): (r: map<string, string>)
    ensures SelectedLanguage in r && r[SelectedLanguage] == lang
    ensures TranslatedResources in r && r[TranslatedResources] == payload
    ensures forall k :: k in store && k != SelectedLanguage && k != TranslatedResources ==> k in r && r[k] == store[k]
    ensures forall k :: k in r ==> k in store || k == SelectedLanguage || k == TranslatedResources
  {
    store[SelectedLanguage := lang][TranslatedResources := payload]
  }

  /** `localStorage.getItem(key)` is truthy: present and non-empty. */
  predicate Stored(store: map<string, string>, key: string) {
    key in store && store[key] != ""
  }

  /** How the mount effect ends: English, a saved language with its decoded bundle, or a throw
    * from `JSON.parse`. */
  datatype Startup = StartEnglish | StartSaved(lang: string, bundle: Bundle) | StartThrew

  function RestoredFrom(store: map<string, string>, decode: string -> Option<Bundle>): (r: Startup)
    ensures r.StartEnglish? <==>
      !(Stored(store, SelectedLanguage) && Stored(store, TranslatedResources) && store[SelectedLanguage] != "en")
    ensures r.StartSaved? ==>
      && Stored(store, SelectedLanguage) && Stored(store, TranslatedResources)
      && r.lang == store[SelectedLanguage] && r.lang != "en"
      && decode(store[TranslatedResources]) == Some(r.bundle)
    ensures r.StartThrew? ==> decode(store[TranslatedResources]).None?
  {
    if Stored(store, SelectedLanguage) && Stored(store, TranslatedResources) && store[SelectedLanguage] != "en" then
      match decode(store[TranslatedResources])
      case None => StartThrew
      case Some(b) => StartSaved(store[SelectedLanguage], b)
    else StartEnglish
  }

  /** A reload after the English path starts in English. */
  lemma RestartAfterEnglish(store: map<string, string>, decode: string -> Option<Bundle>)
    ensures RestoredFrom(EnglishStore(store), decode) == StartEnglish
  {
  }

  /** A reload after switching to `lang` comes back to `lang` with the decoded bundle, unless
    * `lang` is the empty string (which reads as nothing saved) or the bundle does not decode. */
  lemma RestartAfterSwitch(store: map<string, string>, lang: string, payload: string,
                           decode: string -> Option<Bundle>)
    requires lang != "en" && payload != ""
    ensures lang == "" ==> RestoredFrom(SwitchedStore(store, lang, payload), decode) == StartEnglish
    ensures lang != "" && decode(payload).Some? ==>
      RestoredFrom(SwitchedStore(store, lang, payload), decode) == StartSaved(lang, decode(payload).value)
    ensures lang != "" && decode(payload).None? ==>
      RestoredFrom(SwitchedStore(store, lang, payload), decode) == StartThrew
  {
  }

  // ---------------------------------------------------------------------------------------
  // The provider
  // ---------------------------------------------------------------------------------------

  class LanguageProvider {
    /** The English bundle's entries, in key order, as the i18n set-up registers them. */
    const english: seq<(string, string)>
    var language: string
    var loading: bool
    /** The browser's key/value storage. */
    var store: map<string, string>
    /** The language the i18n library was last switched to. */
    var shown: string
    /** The bundle last handed to the i18n library for each language. */
    var added: map<string, Bundle>

    /** The i18n library always shows the provider's language. */
    predicate Valid()
      reads this
    {
      shown == language
    }

    /** The provider's first render: English, not loading, the storage as the browser holds it. */
    constructor (english: seq<(string, string)>, store: map<string, string>)
      ensures Valid()
      ensures this.english == english && this.store == store
      ensures language == "en" && !loading && added == map[]
    {
      this.english := english;
      this.store := store;
      language := "en";
      loading := false;
      shown := "en";
      added := map[];
    }

    /** The mount effect: restore a saved non-English language with its bundle, else English; a
      * bundle that does not decode throws and changes nothing. The storage is only read. */
    method Restore(decode: string -> Option<Bundle>) returns (threw: bool)
      requires Valid()
      modifies this`language, this`shown, this`added
      ensures Valid()
      ensures threw <==> RestoredFrom(store, decode).StartThrew?
      ensures RestoredFrom(store, decode).StartEnglish? ==> language == "en" && added == old(added)
      ensures RestoredFrom(store, decode).StartSaved? ==>
        language == RestoredFrom(store, decode).lang
        && added == old(added)[RestoredFrom(store, decode).lang := RestoredFrom(store, decode).bundle]
      ensures threw ==> language == old(language) && added == old(added)
    {
      threw := false;
      if Stored(store, SelectedLanguage) && Stored(store, TranslatedResources) && store[SelectedLanguage] != "en" {
        var resources := decode(store[TranslatedResources]);
        if resources.None? {
          threw := true;
          return;
        }
        var saved := store[SelectedLanguage];
        added := added[saved := resources.value];
        language := saved;
        shown := saved;
      } else {
        language := "en";
        shown := "en";
      }
    }

    /** The English path, shared by `setLanguage('en')` and the fallback after a failure. */
    method UseEnglish()
      modifies this`language, this`store, this`shown
      ensures Valid() && language == "en" && store == EnglishStore(old(store))
    {
      language := "en";
      store := store[SelectedLanguage := "en"];
      store := store - {TranslatedResources};
      shown := "en";
    }

    /** `setLanguage(lang)`: `translate` is the translator's answer to the English values
      * (`None` when it throws) and `encode` stands for `JSON.stringify`. */
    method SetLanguage(lang: string, translate: seq<string> -> Option<seq<string>>, encode: Bundle -> string)
      requires Valid()
      modifies this`language, this`loading, this`store, this`shown, this`added
      ensures Valid() && !loading
      ensures lang == "en" || translate(Values(english)).None? ==>
        language == "en" && store == EnglishStore(old(store)) && added == old(added)
      ensures lang != "en" && translate(Values(english)).Some? ==>
        var b := BuiltBundle(Keys(english), translate(Values(english)).value);
        language == lang && added == old(added)[lang := b] && store == SwitchedStore(old(store), lang, encode(b))
    {
      loading := true;
      if lang == "en" {
        UseEnglish();
        loading := false;
        return;
      }
      var translated := translate(Values(english));
      if translated.None? {
        UseEnglish();
      } else {
        var obj := BuildBundle(Keys(english), translated.value);
        added := added[lang := obj];
        language := lang;
        store := store[SelectedLanguage := lang];
        store := store[TranslatedResources := encode(obj)];
        shown := lang;
      }
      loading := false;
    }
  }
}
