# Caching proxy for http.cat — request handler model

The repository is a small Node.js HTTP server. It serves cat images keyed by
an HTTP status code. On the first GET of a key it fetches the image from
`https://http.cat/<key>`, stores it as `<key>.jpg` in a cache directory, and
serves it from there afterwards. PUT writes an entry directly and DELETE
removes one.

This project models one call of `handleRequest` as a pure step:

    Handle(dir, request, env) -> Outcome(response, dir', calls)

- `dir` is the cache directory: a map from file name to bytes.
- `request` holds the method, the raw URL, and for PUT the body chunks plus a
  transport-error flag.
- `env` holds the outside world's answers. These are: whether reading the file
  faults, what the origin returns (bytes or failure), whether writing faults,
  and whether unlinking faults.
- `calls` lists the file reads, origin fetches, writes and removals made, in
  order. This makes statements like "the origin is not consulted" precise.

Modules:

- `UrlPath`: key extraction. JavaScript's `split('/')` and
  `filter(Boolean)` are modelled literally. `ScanKey` is an independent
  single-pass scan, proved to agree with them.
- `CachePath`: the file name `<key>.jpg`. It is proved invertible, hence
  injective, and proved to be a single directory entry for every key.
- `Store`: `readFile`, `writeFile` and `unlink` over the directory map.
  A missing file reports ENOENT; an injected fault reports any other error.
  Also `Buffer.concat`.
- `Handler`: `handleRequest` itself, plus one lemma per branch of the code.
- `Session`: requests handled one after another. It proves that entries
  change only through requests naming their key, and disappear only
  through DELETE.

The statuses are the integers the code sends: 200, 201, 400, 404, 405 and 500
(section 15 of RFC 9110).

Two details of the GET branch follow from where the code puts its `try` blocks:

- On a GET miss, the write of the fetched image sits in the same `try` as the
  fetch. A failed write therefore answers 404, not 500, and nothing is cached.
- On GET, every read error counts as a miss, not only ENOENT. The origin is
  then asked, even if the file exists.

## Model

| member | source | states |
|---|---|---|
| UrlPath.Split | index.js:39 | `split('/')` yields at least one piece, and no piece holds a `/` |
| UrlPath.JoinSplit | index.js:39 | joining the pieces with `/` gives back the URL exactly, so splitting loses no character |
| UrlPath.SplitJoin | index.js:39 | splitting a `/`-join of separator-free pieces gives back those pieces |
| UrlPath.NonEmpty | index.js:39 | `filter(Boolean)` keeps exactly the non-empty pieces: a string is kept iff it is a non-empty piece |
| UrlPath.ExtractKey | index.js:39-40 | `urlParts[0]` after split and filter, or none when nothing is left; described by KeyShape, KeyIsFirstSegment, NoKeyIffAllSlashes and ScanKey |
| UrlPath.NonEmptyAppend | index.js:39 | filtering a concatenation is concatenating the filtered parts, so together with the one-piece cases the filter keeps the non-empty pieces in their order, repetitions included |
| UrlPath.NothingKeptIffAllEmpty | index.js:39-42 | `filter(Boolean)` leaves nothing, and `urlParts[0]` is undefined, iff every piece of the split is empty |
| UrlPath.SplitAllEmpty | index.js:39 | every piece of the split is empty iff the URL consists only of `/` characters |
| UrlPath.NoKeyIffAllSlashes | index.js:39-46 | a URL has no key iff it consists only of `/` characters (including the empty URL) |
| UrlPath.KeyShape | index.js:39-42 | an extracted key is non-empty and contains no `/` |
| UrlPath.KeyIsFirstSegment | index.js:39-40 | for any run of leading slashes, then a separator-free word, then nothing or a `/`-led rest, the key is that word |
| UrlPath.ScanKey | index.js:39-40 | skipping leading slashes and reading up to the next `/` finds the same key as split-then-filter, or none exactly when it does |
| CachePath.FileName | index.js:26-29 | the key followed by `.jpg`; described by KeyOf, KeyOfFileName, FileNameInjective and FileNameIsDirectEntry |
| CachePath.KeyOf | index.js:26-29 | a name recognised as a cache file is `FileName` of the key it yields |
| CachePath.KeyOfFileName | index.js:26-29 | every key's file name leads back to that key |
| CachePath.FileNameInjective | index.js:26-29 | distinct keys get distinct file names, so they occupy distinct cache slots |
| CachePath.FileNameIsDirectEntry | index.js:26-29 | for a key without `/`, the file name has no `/` and is not `.` or `..`, so it names an entry directly inside the cache directory |
| Store.ReadFile | index.js:53 | a read succeeds iff there is no fault and the file exists, and then returns its contents; without a fault a failure is ENOENT |
| Store.WriteFile | index.js:65 | a write succeeds iff there is no fault, and then the file holds exactly the data; a failed write changes nothing; other files are never touched |
| Store.Unlink | index.js:103 | an unlink succeeds iff there is no fault and the file exists; it fails with ENOENT iff there is no fault and the file is absent; afterwards the file is gone unless there was a fault; other files are never touched |
| Store.WriteThenRead | index.js:53-65 | a read right after a successful write returns exactly the written bytes |
| Store.Concat | index.js:83 | `Buffer.concat` of the body chunks, in order; described by ConcatPush and ConcatLength |
| Store.ConcatPush | index.js:80-83 | collecting chunks and concatenating at the end equals appending each chunk as it arrives |
| Store.ConcatLength | index.js:83 | the concatenated body is exactly as long as all chunks together |
| Handler.HandleGet | index.js:50-76 | the GET branch: hit, miss with fetch and store, or 404; described by GetHit, GetMissFetchesAndStores, GetMissFails and GetReadFaultIsMiss |
| Handler.HandlePut | index.js:78-98 | the PUT branch: 201 on a stored body, 500 on a failed write, 400 on a broken stream; described by PutStores, PutWriteFails and PutBadBody |
| Handler.HandleDelete | index.js:100-115 | the DELETE branch: 200 on removal, 404 on ENOENT, 500 on any other error; described by DeletePresent, DeleteAbsent and DeleteFails |
| Handler.Handle | index.js:37-127 | every request ends with one status from {200, 201, 400, 404, 405, 500}; the directory changes only with a 200 or 201; only the key's own file can change; the origin is asked only by GET, and only at `https://http.cat/<key>` |
| Handler.OtherKeysUnchanged | index.js:26-29 | a change confined to one key's file leaves the entries of all other keys as they were |
| Handler.OnlyDeleteRemoves | index.js:37-127 | a request that is not a DELETE never removes a file |
| Handler.NoKeyIsBadRequest | index.js:39-46 | a URL of slashes only is answered 400 with the fixed message, whatever the method; no call is made and nothing changes |
| Handler.FilesStayInCacheDirectory | index.js:39-48 | every file the handler reads, writes or removes is a direct entry of the cache directory |
| Handler.GetHit | index.js:52-56 | GET on a readable cached key answers 200 with exactly the stored bytes; nothing changes; the only call is the read, so the origin is not asked |
| Handler.GetMissFetchesAndStores | index.js:57-69 | GET on an unreadable key, with the origin returning `b` and a good write, answers 200 with `b`; the key then maps to `b` and all other keys are unchanged; the next GET is a hit serving `b` without a fetch |
| Handler.GetMissFails | index.js:60-75 | GET on an unreadable key, where the fetch or the following write fails, answers 404 and changes nothing; an absent key stays absent, and repeating the GET asks the origin again |
| Handler.GetReadFaultIsMiss | index.js:53-59 | when the read faults, GET answers and makes the same calls as a fault-free GET on a directory without the key's file (the ENOENT path), whether or not the file exists |
| Handler.PutStores | index.js:80-88 | PUT with a complete body and a good write answers 201; the key then maps to the concatenated chunks, replacing any earlier entry; all other keys are unchanged |
| Handler.PutWriteFails | index.js:89-93 | PUT whose write fails answers 500 and changes nothing |
| Handler.PutBadBody | index.js:95-98 | PUT whose body stream errors answers 400; nothing is written and nothing changes |
| Handler.DeletePresent | index.js:102-106 | DELETE of a cached key answers 200 and removes exactly that key's file; all other keys are unchanged |
| Handler.DeleteAbsent | index.js:107-110 | DELETE of an uncached key (ENOENT) answers 404 and changes nothing |
| Handler.DeleteFails | index.js:111-114 | DELETE failing with any error other than ENOENT answers 500 and changes nothing |
| Handler.OtherMethodNotAllowed | index.js:117-121 | any method other than GET, PUT or DELETE on a keyed URL answers 405, with no call made and nothing changed |
| Handler.PutThenGet | index.js:50-88 | after a successful PUT of a key, a GET of the same key (by any URL yielding it) answers 200 with exactly the uploaded bytes and does not fetch |
| Handler.DeleteThenGet | index.js:50-115 | a fault-free DELETE answers 200 or 404; after it, a GET of the key with a failing origin answers 404 |
| Session.Run | index.js:133-135 | handling a sequence of requests sends one response per request, each with one of the six statuses |
| Session.RunAppend | index.js:133-135 | handling two request sequences one after the other equals handling their concatenation: the same final directory, and the responses of the first followed by those of the second |
| Session.RunLeavesOtherKeys | index.js:37-127 | requests that never name a key leave that key's entry as it was: entries do not expire |
| Session.RunWithoutDeleteKeepsEntries | index.js:100-115 | without DELETE requests, no file ever leaves the cache |
| Session.LastPutWins | index.js:78-88 | after a successful PUT, the key holds the uploaded bytes for as long as no later request names the key |

## Left out

- Command-line parsing with commander and `path.resolve` (index.js:13-23). These are library plumbing; the cache directory's own path is not modelled, only the file names inside it.
- Creating the cache directory and binding the listener (index.js:31-34, 130-144). These are I/O at startup.
- The HTTP fetch through superagent (index.js:61). It becomes the `Env.origin` parameter: image bytes, or a failure of any kind (an upstream 404, a network error, a parse error).
- Real file-system calls. They become map operations with a fault flag per call. Which error code a fault carries is not modelled, because the handler only distinguishes ENOENT on DELETE.
- Store.WriteFile: a failed write is modelled as atomic (nothing changes). Node's `writeFile` may leave a truncated file behind, which a later GET would serve as a hit; this is not modelled.
- Stream events of the PUT body (index.js:81-98). The body is its chunks plus an error flag. Event ordering is not modelled, nor an `error` arriving after `end`.
- Session.Run: requests are handled strictly one after another. Overlapping requests and same-key races are outside a sequential model. Every request is assumed to finish: an origin fetch that never returns and a body stream that never ends are not modelled.
- Handler.Handle: the origin fetch (index.js:61) has no timeout, and a PUT body stream may never emit `end` or `error` (index.js:82, 95); in both cases the source never answers. The model assumes the fetch always returns bytes or a failure and the stream always ends or errors, so its "one of six statuses" holds only for requests that finish.
- CachePath.FileNameInjective: assumes a case-sensitive file system. On a case-insensitive one (the default on Windows and macOS) keys such as `abc` and `ABC` share one file, so distinct keys do not always get distinct slots.
- Handler.FilesStayInCacheDirectory, CachePath.FileNameIsDirectEntry: assumes POSIX paths where `/` is the only separator. On Windows `path.join` also splits on `\`, so a key such as `..\..\x` resolves outside the cache directory.
- The outer catch answering 500 (index.js:122-126). No modelled call can throw outside the inner `try` blocks, so this branch is unreachable in the model. Failures of `res.writeHead`/`res.end` themselves are not modelled.
- Response headers, content-type strings and `console` logging. They have no effect on status or cache state. Whether a body is an image or text is kept as the `Payload` constructor.
