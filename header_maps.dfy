/**
 * The engine's string-keyed maps as the header merge uses them: a
 * `TMap<FString, FString>` compares its keys with `FString`'s `operator==`,
 * which ignores case, and `TMap::Add` replaces an entry with an equal key.
 */
module HeaderMaps {

  /**
   * Upper-cases an ASCII letter and leaves every other character alone: the
   * per-character fold of `FString`'s case-insensitive comparison.
   */
  function FoldChar(c: char): char
  {
    if 'a' <= c <= 'z' then (c as int - 32) as char else c
  }

  function FoldCase(s: string): string
  {
    seq(|s|, i requires 0 <= i < |s| => FoldChar(s[i]))
  }

  /** `FString`'s `operator==`, which a `TMap` keyed by `FString` uses: equality ignoring case. */
  predicate SameKey(a: string, b: string)
  {
    FoldCase(a) == FoldCase(b)
  }

  /** Whether a `TMap` holds `key`, in any spelling of its case. */
  predicate HasKey(m: map<string, string>, key: string)
  {
    exists k :: k in m && SameKey(k, key)
  }

  /**
   * A `TMap<FString, FString>`: it never holds two keys that differ only in
   * case.
   */
  type HeaderMap = m: map<string, string> | forall a, b :: a in m && b in m && SameKey(a, b) ==> a == b
    witness map[]

  /**
   * `TMap::Add`: an entry whose key equals `key` ignoring case is replaced,
   * key spelling included, by the new pair; every other entry is kept.
   */
  function AddHeader(m: HeaderMap, key: string, value: string): (r: HeaderMap)
    ensures r.Keys == (set k | k in m && !SameKey(k, key)) + {key}
    ensures r[key] == value
    ensures forall k :: k in m && !SameKey(k, key) ==> r[k] == m[k]
  {
    (map k | k in m && !SameKey(k, key) :: m[k])[key := value]
  }
}
