/**
 * Unity's `PlayerPrefs`: a persistent key-value store shared by the whole
 * game. Only its integer entries are used by the modelled components.
 */
module Prefs {

  /** `PlayerPrefs.GetInt(key, default)` on the store's contents. */
  function GetInt(store: map<string, int>, key: string, default: int): int
  {
    if key in store then store[key] else default
  }

  class PlayerPrefs {
    var store: map<string, int>

    constructor (store: map<string, int>)
      ensures this.store == store
    {
      this.store := store;
    }

    /** `PlayerPrefs.SetInt(key, value)`. */
    method SetInt(key: string, value: int)
      modifies this
      ensures store == old(store)[key := value]
    {
      store := store[key := value];
    }

    /** `PlayerPrefs.DeleteKey(key)`; deleting an absent key does nothing. */
    method DeleteKey(key: string)
      modifies this
      ensures store == old(store) - {key}
    {
      store := store - {key};
    }
  }
}
