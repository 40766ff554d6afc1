/** The browser's durable key/value store (localStorage) as the coordinator
    uses it: a map from keys to strings. Whether a particular read or write
    throws (storage disabled, quota exceeded) is an input to the caller. */
module Storage {

  import opened Wrappers

  type Store = map<string, string>

  /** Key holding the serialized journal list. */
  const JournalKey: string := "ayah-guidance-journal"

  /** Key whose truthy value marks the onboarding tour as already shown. */
  const OnboardingKey: string := "ayah-guidance-onboarding-v1-shown"

  /** `getItem`: the stored string, or None (null) when the key is absent. */
  function GetItem(store: Store, key: string): (r: Option<string>)
    ensures r.Some? <==> key in store
    ensures r.Some? ==> r.value == store[key]
  {
    if key in store then Some(store[key]) else None
  }

  /** `setItem` under a try/catch: when the write goes through, the key holds
      the new value and every other key is untouched; when it throws, the
      store is exactly as before. */
  function SetItem(store: Store, key: string, value: string, ok: bool): (r: Store)
    ensures ok ==> key in r && r[key] == value
    ensures !ok ==> r == store
    ensures r.Keys == if ok then store.Keys + {key} else store.Keys
    ensures forall k :: k in store && k != key ==> r[k] == store[k]
  {
    if ok then store[key := value] else store
  }

  /** JavaScript truthiness of a `getItem` result: neither null nor the empty string. */
  predicate Truthy(item: Option<string>)
  {
    item.Some? && item.value != ""
  }

  /** Writing one of the two keys never changes what a read of the other
      returns, whether the write goes through or not. */
  lemma WritesDoNotInterfere(store: Store, value: string, ok: bool)
    ensures GetItem(SetItem(store, JournalKey, value, ok), OnboardingKey) == GetItem(store, OnboardingKey)
    ensures GetItem(SetItem(store, OnboardingKey, value, ok), JournalKey) == GetItem(store, JournalKey)
  {
  }
}
