/** The settings kept in the browser's key/value storage: the two API keys,
    the temperature and the retry-on-error switch, each under its own
    storage key. The storage is a map from key to stored text; the
    build-time environment values are constants ("" when unset). */
module SettingsStore {
  import opened Prelude

  const OpenAIKey: string := "socr-ai-bot.openai-api-key"
  const GeminiKey: string := "socr-ai-bot.gemini-api-key"
  const TemperatureKey: string := "socr-ai-bot.temperature"
  const RetryOnErrorKey: string := "socr-ai-bot.retry-on-error"

  /** The four keys the settings own. */
  function SettingsKeys(): set<string> {
    {OpenAIKey, GeminiKey, TemperatureKey, RetryOnErrorKey}
  }

  const DefaultTemperature: real := 0.7

  /** What `getTemperature` parses: the stored text, or the default. The
      parsing itself (`parseFloat`) is not modelled. */
  datatype TemperatureSetting = DefaultSetting | StoredText(text: string)

  /** `key ? setItem(k, key) : removeItem(k)` */
  function StoreOrRemove(storage: map<string, string>, k: string, value: string): (s: map<string, string>)
    ensures value != "" ==> k in s && s[k] == value
    ensures value == "" ==> k !in s
    ensures forall k' :: k' != k ==> (k' in s <==> k' in storage) && (k' in s ==> s[k'] == storage[k'])
  {
    if value != "" then storage[k := value] else storage - {k}
  }

  /** `localStorage.getItem(k) || env || null` */
  function ApiKey(storage: map<string, string>, k: string, env: string): (r: Option<string>)
    ensures r.Some? ==> r.value != ""
    ensures k in storage && storage[k] != "" ==> r == Some(storage[k])
    ensures !(k in storage && storage[k] != "") ==> r == (if env != "" then Some(env) else None)
  {
    if k in storage && storage[k] != "" then Some(storage[k])
    else if env != "" then Some(env)
    else None
  }

  /** `getTemperature` */
  function Temperature(storage: map<string, string>): (t: TemperatureSetting)
    ensures TemperatureKey !in storage ==> t == DefaultSetting
    ensures t.StoredText? <==> TemperatureKey in storage && storage[TemperatureKey] != ""
    ensures t.StoredText? ==> t.text == storage[TemperatureKey]
  {
    if TemperatureKey in storage && storage[TemperatureKey] != "" then StoredText(storage[TemperatureKey])
    else DefaultSetting
  }

  /** `getRetryOnError`: true only for the stored text "1". */
  function RetryOnError(storage: map<string, string>): (b: bool)
    ensures RetryOnErrorKey !in storage ==> !b
    ensures RetryOnErrorKey in storage ==> (b <==> storage[RetryOnErrorKey] == "1")
  {
    RetryOnErrorKey in storage && storage[RetryOnErrorKey] == "1"
  }

  function RetryText(retry: bool): (t: string)
    ensures t == "1" <==> retry
  {
    if retry then "1" else "0"
  }

  /** Storing a key and reading it back gives the key; storing the empty
      string makes the reader fall back to the environment. */
  lemma ApiKeyRoundTrip(storage: map<string, string>, k: string, key: string, env: string)
    ensures key != "" ==> ApiKey(StoreOrRemove(storage, k, key), k, env) == Some(key)
    ensures key == "" ==> ApiKey(StoreOrRemove(storage, k, key), k, env) == (if env != "" then Some(env) else None)
  {
  }

  /** Writing one key does not change what the other readers see. */
  lemma OtherKeyUnaffected(storage: map<string, string>, k: string, value: string, k': string, env: string)
    requires k != k'
    ensures ApiKey(StoreOrRemove(storage, k, value), k', env) == ApiKey(storage, k', env)
  {
  }

  /** After storing `retry`, the reader returns `retry`. */
  lemma RetryRoundTrip(storage: map<string, string>, retry: bool)
    ensures RetryOnError(storage[RetryOnErrorKey := RetryText(retry)]) == retry
  {
  }

  /** Removing the settings keys leaves every reader at its default. */
  lemma ClearedDefaults(storage: map<string, string>, envOpenAI: string, envGemini: string)
    ensures var s := storage - SettingsKeys();
      && ApiKey(s, OpenAIKey, envOpenAI) == (if envOpenAI != "" then Some(envOpenAI) else None)
      && ApiKey(s, GeminiKey, envGemini) == (if envGemini != "" then Some(envGemini) else None)
      && Temperature(s) == DefaultSetting
      && !RetryOnError(s)
  {
  }

  /** `apiKeyStorage` over the browser storage. */
  class Store {
    var storage: map<string, string>
    const envOpenAI: string
    const envGemini: string

    constructor (storage: map<string, string>, envOpenAI: string, envGemini: string)
      ensures this.storage == storage && this.envOpenAI == envOpenAI && this.envGemini == envGemini
    {
      this.storage := storage;
      this.envOpenAI := envOpenAI;
      this.envGemini := envGemini;
    }

    method SetOpenAIApiKey(key: string)
      modifies this
      ensures storage == StoreOrRemove(old(storage), OpenAIKey, key)
    {
      if key != "" {
        storage := storage[OpenAIKey := key];
      } else {
        storage := storage - {OpenAIKey};
      }
    }

    method SetGeminiApiKey(key: string)
      modifies this
      ensures storage == StoreOrRemove(old(storage), GeminiKey, key)
    {
      if key != "" {
        storage := storage[GeminiKey := key];
      } else {
        storage := storage - {GeminiKey};
      }
    }

    function GetOpenAIApiKey(): (r: Option<string>)
      reads this
      ensures r == ApiKey(storage, OpenAIKey, envOpenAI)
    {
      ApiKey(storage, OpenAIKey, envOpenAI)
    }

    function GetGeminiApiKey(): (r: Option<string>)
      reads this
      ensures r == ApiKey(storage, GeminiKey, envGemini)
    {
      ApiKey(storage, GeminiKey, envGemini)
    }

    /** `setTemperature(temp)` with `text` the result of `temp.toString()`. */
    method SetTemperature(text: string)
      modifies this
      ensures storage == old(storage)[TemperatureKey := text]
    {
      storage := storage[TemperatureKey := text];
    }

    function GetTemperature(): (t: TemperatureSetting)
      reads this
      ensures t == Temperature(storage)
    {
      Temperature(storage)
    }

    method SetRetryOnError(retry: bool)
      modifies this
      ensures storage == old(storage)[RetryOnErrorKey := RetryText(retry)]
      ensures GetRetryOnError() == retry
    {
      storage := storage[RetryOnErrorKey := RetryText(retry)];
    }

    function GetRetryOnError(): (b: bool)
      reads this
      ensures b == RetryOnError(storage)
    {
      RetryOnError(storage)
    }

    /** `!!getOpenAIApiKey()` */
    function HasOpenAIApiKey(): (b: bool)
      reads this
      ensures b <==> GetOpenAIApiKey().Some?
      ensures b <==> (OpenAIKey in storage && storage[OpenAIKey] != "") || envOpenAI != ""
    {
      var k := GetOpenAIApiKey();
      k.Some? && k.value != ""
    }

    /** `!!getGeminiApiKey()` */
    function HasGeminiApiKey(): (b: bool)
      reads this
      ensures b <==> GetGeminiApiKey().Some?
      ensures b <==> (GeminiKey in storage && storage[GeminiKey] != "") || envGemini != ""
    {
      var k := GetGeminiApiKey();
      k.Some? && k.value != ""
    }

    /** Removes the four settings entries and nothing else. */
    method ClearAll()
      modifies this
      ensures storage == old(storage) - SettingsKeys()
      ensures forall k :: k !in SettingsKeys() ==>
        (k in storage <==> k in old(storage)) && (k in storage ==> storage[k] == old(storage)[k])
    {
      storage := storage - {OpenAIKey};
      storage := storage - {GeminiKey};
      storage := storage - {TemperatureKey};
      storage := storage - {RetryOnErrorKey};
    }
  }
}
