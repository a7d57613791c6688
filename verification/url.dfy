/**
 * Extraction of the cache key from a request URL (index.js:39-46).
 *
 * The handler splits the raw URL on '/', drops the empty pieces
 * (`filter(Boolean)` keeps exactly the non-empty strings) and takes the
 * first remaining piece as the key. Both library calls are modelled
 * literally, and `ScanKey` gives an independent left-to-right scan that is
 * proved to agree with them.
 */
module UrlPath {
  import opened Wrappers

  const Slash: char := '/'

  /** True when every character of `s` is a separator (this includes the empty string). */
  predicate AllSlashes(s: string) {
    forall i :: 0 <= i < |s| ==> s[i] == Slash
  }

  /**
   * JavaScript's `s.split('/')`: the pieces between separators, with an
   * empty piece before a leading separator, after a trailing one and
   * between two adjacent ones.
   */
  function Split(s: string): (parts: seq<string>)
    ensures |parts| >= 1
    ensures forall i :: 0 <= i < |parts| ==> Slash !in parts[i]
    decreases |s|
  {
    if |s| == 0 then [[]]
    else
      var rest := Split(s[1..]);
      if s[0] == Slash then [[]] + rest
      else [[s[0]] + rest[0]] + rest[1..]
  }

  /** JavaScript's `parts.join('/')`, the inverse of `Split`. */
  function Join(parts: seq<string>): string
    requires |parts| >= 1
    decreases |parts|
  {
    if |parts| == 1 then parts[0]
    else parts[0] + [Slash] + Join(parts[1..])
  }

  /** `parts.filter(Boolean)`: the non-empty strings of `parts`, in order. */
  function NonEmpty(parts: seq<string>): (kept: seq<string>)
    ensures forall i :: 0 <= i < |kept| ==> kept[i] != []
    ensures forall p :: p in kept <==> p in parts && p != []
    ensures |kept| <= |parts|
  {
    if parts == [] then []
    else if parts[0] == [] then NonEmpty(parts[1..])
    else [parts[0]] + NonEmpty(parts[1..])
  }

  /** The filter works piecewise, so it keeps the order and the repetitions of the kept pieces. */
  lemma {:induction false} NonEmptyAppend(a: seq<string>, b: seq<string>)
    ensures NonEmpty(a + b) == NonEmpty(a) + NonEmpty(b)
    decreases |a|
  {
    if a == [] {
      assert a + b == b;
    } else {
      assert (a + b)[0] == a[0];
      assert (a + b)[1..] == a[1..] + b;
      NonEmptyAppend(a[1..], b);
    }
  }

  /** `urlParts[0]` of index.js:39-40, or `None` where the code sees `undefined`. */
  function ExtractKey(url: string): Option<string> {
    var parts := NonEmpty(Split(url));
    if parts == [] then None else Some(parts[0])
  }

  /** Splitting undoes joining: `Join(Split(s)) == s`. */
  lemma {:induction false} JoinSplit(s: string)
    ensures Join(Split(s)) == s
    decreases |s|
  {
    if |s| > 0 {
      var rest := Split(s[1..]);
      JoinSplit(s[1..]);
      if s[0] != Slash {
        if |rest| > 1 {
          assert Split(s)[1..] == rest[1..];
        }
      }
    }
  }

  /** Splitting a string that starts with a separator-free prefix `k` glues `k` onto the first piece. */
  lemma {:induction false} SplitPrefix(k: string, t: string)
    requires Slash !in k
    ensures Split(k + t) == [k + Split(t)[0]] + Split(t)[1..]
    decreases |k|
  {
    if k != [] {
      assert (k + t)[1..] == k[1..] + t;
      assert k[0] != Slash by { assert k[0] in k; }
      assert Slash !in k[1..] by {
        forall c | c in k[1..] ensures c != Slash { assert c in k; }
      }
      SplitPrefix(k[1..], t);
      var rest := Split(k[1..] + t);
      assert Split(k + t) == [[k[0]] + rest[0]] + rest[1..];
      assert rest[0] == k[1..] + Split(t)[0];
      assert rest[1..] == Split(t)[1..];
      assert [k[0]] + (k[1..] + Split(t)[0]) == k + Split(t)[0];
      calc {
        Split(k + t);
        [[k[0]] + rest[0]] + rest[1..];
        [[k[0]] + (k[1..] + Split(t)[0])] + Split(t)[1..];
        [k + Split(t)[0]] + Split(t)[1..];
      }
    } else {
      assert k + t == t;
      assert k + Split(t)[0] == Split(t)[0];
    }
  }

  /** Joining undoes splitting when no piece holds a separator. */
  lemma {:induction false} SplitJoin(parts: seq<string>)
    requires |parts| >= 1
    requires forall i :: 0 <= i < |parts| ==> Slash !in parts[i]
    ensures Split(Join(parts)) == parts
    decreases |parts|
  {
    if |parts| == 1 {
      SplitPrefix(parts[0], []);
      assert parts[0] + [] == parts[0];
    } else {
      var tail := Join(parts[1..]);
      SplitJoin(parts[1..]);
      assert Join(parts) == parts[0] + ([Slash] + tail);
      SplitPrefix(parts[0], [Slash] + tail);
      assert ([Slash] + tail)[1..] == tail;
      assert parts[0] + [] == parts[0];
    }
  }

  /** True when every piece is the empty string. */
  predicate AllEmpty(parts: seq<string>) {
    forall i :: 0 <= i < |parts| ==> parts[i] == []
  }

  /** Every piece of the split is empty exactly when the string holds nothing but separators. */
  lemma {:induction false} SplitAllEmpty(s: string)
    ensures AllSlashes(s) <==> AllEmpty(Split(s))
    decreases |s|
  {
    if |s| > 0 {
      SplitAllEmpty(s[1..]);
      var rest := Split(s[1..]);
      var parts := Split(s);
      if s[0] == Slash {
        assert parts == [[]] + rest;
        assert AllSlashes(s) <==> AllSlashes(s[1..]) by {
          if AllSlashes(s[1..]) {
            forall i | 0 <= i < |s| ensures s[i] == Slash {
              if i > 0 { assert s[i] == s[1..][i - 1]; }
            }
          }
          if AllSlashes(s) {
            forall i | 0 <= i < |s[1..]| ensures s[1..][i] == Slash {
              assert s[1..][i] == s[i + 1];
            }
          }
        }
        assert AllEmpty(parts) <==> AllEmpty(rest) by {
          if AllEmpty(rest) {
            forall i | 0 <= i < |parts| ensures parts[i] == [] {
              if i > 0 { assert parts[i] == rest[i - 1]; }
            }
          }
          if AllEmpty(parts) {
            forall i | 0 <= i < |rest| ensures rest[i] == [] {
              assert parts[i + 1] == rest[i];
            }
          }
        }
      } else {
        assert parts[0] == [s[0]] + rest[0];
        assert parts[0] != [];
        assert !AllEmpty(parts);
        assert !AllSlashes(s);
      }
    }
  }

  /** A separator at the front of the URL never changes the key. */
  lemma SkipSlash(s: string)
    requires |s| > 0 && s[0] == Slash
    ensures ExtractKey(s) == ExtractKey(s[1..])
  {
  }

  /** `filter(Boolean)` keeps nothing exactly when every piece is empty. */
  lemma NothingKeptIffAllEmpty(parts: seq<string>)
    ensures NonEmpty(parts) == [] <==> AllEmpty(parts)
  {
  }

  /** A URL has no key exactly when it consists of separators only (`/`, `//`, the empty URL). */
  lemma NoKeyIffAllSlashes(url: string)
    ensures ExtractKey(url).None? <==> AllSlashes(url)
  {
    SplitAllEmpty(url);
    NothingKeptIffAllEmpty(Split(url));
  }

  /** The key is the first maximal run of non-separator characters after the leading separators. */
  lemma {:induction false} KeyIsFirstSegment(lead: string, k: string, t: string)
    requires AllSlashes(lead)
    requires k != [] && Slash !in k
    requires t == [] || t[0] == Slash
    ensures ExtractKey(lead + k + t) == Some(k)
    decreases |lead|
  {
    if lead == [] {
      assert lead + k + t == k + t;
      SplitPrefix(k, t);
      assert Split(t)[0] == [];
      assert k + [] == k;
      var parts := Split(k + t);
      assert parts[0] == k;
      assert parts == [parts[0]] + parts[1..];
    } else {
      assert (lead + k + t)[1..] == lead[1..] + k + t;
      SkipSlash(lead + k + t);
      KeyIsFirstSegment(lead[1..], k, t);
    }
  }

  /** A key, when there is one, is non-empty and holds no separator. */
  lemma KeyShape(url: string)
    requires ExtractKey(url).Some?
    ensures ExtractKey(url).value != []
    ensures Slash !in ExtractKey(url).value
  {
    var parts := Split(url);
    var kept := NonEmpty(parts);
    assert kept[0] in kept;
    var i :| 0 <= i < |parts| && parts[i] == kept[0];
  }

  /**
   * The key found by scanning the URL once: skip the leading separators,
   * then take characters up to the next separator.
   */
  method ScanKey(url: string) returns (key: Option<string>)
    ensures key == ExtractKey(url)
  {
    var i := 0;
    while i < |url| && url[i] == Slash
      invariant 0 <= i <= |url|
      invariant ExtractKey(url[i..]) == ExtractKey(url)
    {
      SkipSlash(url[i..]);
      assert url[i..][1..] == url[i + 1..];
      i := i + 1;
    }
    if i == |url| {
      assert url[i..] == [];
      assert Split([]) == [[]];
      return None;
    }
    var j := i + 1;
    while j < |url| && url[j] != Slash
      invariant i < j <= |url|
      invariant Slash !in url[i..j]
    {
      j := j + 1;
    }
    KeyIsFirstSegment([], url[i..j], url[j..]);
    assert [] + url[i..j] + url[j..] == url[i..];
    key := Some(url[i..j]);
  }
}
