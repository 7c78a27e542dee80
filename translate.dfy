/**
 * The `useTranslate` hook: a per-component cache of machine translations keyed by language and
 * text, and a loading flag raised while the translator is being waited for. The translator is
 * a foreign call; its answer is a parameter (`None` when it throws).
 */
module Translation {
  import opened Wrappers

  /** The cache key `${language}-${text}`. For one language it determines the text. */
  function CacheKey(language: string, text: string): (k: string)
    ensures |k| == |language| + 1 + |text|
    ensures k[..|language|] == language && k[|language|] == '-' && k[|language| + 1..] == text
  {
    language + "-" + text
  }

  /** Within one language, different texts never share a cache entry. */
  lemma CacheKeyInjective(language: string, t1: string, t2: string)
    ensures CacheKey(language, t1) == CacheKey(language, t2) <==> t1 == t2
  {
    if CacheKey(language, t1) == CacheKey(language, t2) {
      assert t1 == CacheKey(language, t1)[|language| + 1..];
    }
  }

  /** Across languages keys can collide once a language code holds a dash: `zh-TW` with `x`
    * and `zh` with `TW-x` share an entry. None of the codes the language menu offers does. */
  lemma CacheKeyAmbiguous()
    ensures CacheKey("zh-TW", "x") == CacheKey("zh", "TW-x")
    ensures "zh-TW" != "zh"
  {
  }

  /** `if (cache[cacheKey])`: a hit is a stored, non-empty translation. */
  function Cached(cache: map<string, string>, key: string): (r: Option<string>)
    ensures r.Some? <==> key in cache && cache[key] != ""
    ensures r.Some? ==> key in cache && r.value == cache[key]
  {
    if key in cache && cache[key] != "" then Some(cache[key]) else None
  }

  /** After a translation `v` is stored under `key`, the next lookup of `key` hits exactly when
    * `v` is non-empty, and the lookups of all other keys are as before. */
  lemma CachedAfterStore(cache: map<string, string>, key: string, v: string, other: string)
    ensures Cached(cache[key := v], key) == (if v != "" then Some(v) else None)
    ensures other != key ==> Cached(cache[key := v], other) == Cached(cache, other)
  {
  }

  /** Where a call stands when it reaches the `await`: answered at once, or waiting for the
    * translator with the key it will store under. */
  datatype Pending = Answered(text: string) | Awaiting(key: string)

  class Translator {
    /** The language the hook reads from the language context. */
    var language: string
    var cache: map<string, string>
    var loading: bool

    /** A freshly mounted hook: empty cache, not loading. */
    constructor (language: string)
      ensures this.language == language && cache == map[] && !loading
    {
      this.language := language;
      cache := map[];
      loading := false;
    }

    /** The context's language changes; the cache survives the re-render. */
    method LanguageChanged(lang: string)
      modifies this`language
      ensures language == lang
    {
      language := lang;
    }

    /** The synchronous part of `translate`: English and cache hits answer at once without
      * touching the loading flag; a miss raises it and waits. */
    method Begin(text: string) returns (p: Pending)
      modifies this`loading
      ensures language == "en" ==> p == Answered(text) && loading == old(loading)
      ensures language != "en" && Cached(cache, CacheKey(language, text)).Some? ==>
        p == Answered(cache[CacheKey(language, text)]) && loading == old(loading)
      ensures language != "en" && Cached(cache, CacheKey(language, text)).None? ==>
        p == Awaiting(CacheKey(language, text)) && loading
    {
      if language == "en" {
        return Answered(text);
      }
      var key := CacheKey(language, text);
      var hit := Cached(cache, key);
      if hit.Some? {
        return Answered(hit.value);
      }
      loading := true;
      p := Awaiting(key);
    }

    /** The part after the `await`: a translation is stored and returned, a failure returns the
      * original text and stores nothing; the flag is lowered either way. */
    method Finish(text: string, key: string, outcome: Option<string>) returns (r: string)
      modifies this`cache, this`loading
      ensures outcome.Some? ==> r == outcome.value && cache == old(cache)[key := outcome.value]
      ensures outcome.None? ==> r == text && cache == old(cache)
      ensures !loading
    {
      if outcome.Some? {
        cache := cache[key := outcome.value];
        r := outcome.value;
      } else {
        r := text;
      }
      loading := false;
    }

    /** One whole call of `translate(text)`, the translator answering `outcome` if asked. */
    method Translate(text: string, outcome: Option<string>) returns (r: string)
      modifies this`cache, this`loading
      ensures language == "en" ==> r == text && cache == old(cache) && loading == old(loading)
      ensures language != "en" && Cached(old(cache), CacheKey(language, text)).Some? ==>
        r == old(cache)[CacheKey(language, text)] && cache == old(cache) && loading == old(loading)
      ensures language != "en" && Cached(old(cache), CacheKey(language, text)).None? ==>
        && !loading
        && (outcome.Some? ==> r == outcome.value && cache == old(cache)[CacheKey(language, text) := outcome.value])
        && (outcome.None? ==> r == text && cache == old(cache))
    {
      var p := Begin(text);
      if p.Answered? {
        r := p.text;
      } else {
        r := Finish(text, p.key, outcome);
      }
    }
  }
}
