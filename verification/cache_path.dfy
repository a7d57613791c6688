/**
 * The name of the file that holds a key's entry (index.js:26-29): the key
 * followed by ".jpg", placed directly in the cache directory. The directory
 * part of the path is not modelled; the name alone identifies the slot.
 */
module CachePath {
  import opened Wrappers

  const Extension: string := ".jpg"

  /** The key followed by `.jpg`. */
  function FileName(key: string): string {
    key + Extension
  }

  /** The key whose file is called `name`, or `None` for a name without the extension. */
  function KeyOf(name: string): (key: Option<string>)
    ensures key.Some? ==> FileName(key.value) == name
  {
    if |name| >= |Extension| && name[|name| - |Extension|..] == Extension
    then Some(name[..|name| - |Extension|])
    else None
  }

  /** Every file name of the cache leads back to its key. */
  lemma KeyOfFileName(key: string)
    ensures KeyOf(FileName(key)) == Some(key)
  {
  }

  /** Distinct keys occupy distinct files. */
  lemma FileNameInjective(a: string, b: string)
    ensures FileName(a) == FileName(b) ==> a == b
  {
    KeyOfFileName(a);
    KeyOfFileName(b);
  }

  /**
   * A key without separators names a single entry of the cache directory:
   * the file name holds no '/' and is neither "." nor "..", so joining it to
   * the directory cannot leave that directory.
   */
  lemma FileNameIsDirectEntry(key: string)
    requires '/' !in key
    ensures '/' !in FileName(key)
    ensures FileName(key) != "." && FileName(key) != ".."
  {
  }
}
