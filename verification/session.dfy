/**
 * A server handling requests one after another over the same cache
 * directory. Entries never expire: an entry changes only through a
 * request naming its key, and disappears only through DELETE.
 */
module Session {
  import opened Wrappers
  import opened Store
  import UrlPath
  import CachePath
  import opened Handler

  /** One handled request together with the outside world's answers for it. */
  datatype Exchange = Exchange(request: Request, env: Env)

  /** Handles the exchanges in order; returns the final directory and the responses sent. */
  function Run(dir: Dir, trace: seq<Exchange>): (r: (Dir, seq<Response>))
    ensures |r.1| == |trace|
    ensures forall i :: 0 <= i < |r.1| ==> r.1[i].status in Statuses
    decreases |trace|
  {
    if trace == [] then (dir, [])
    else
      var o := Handle(dir, trace[0].request, trace[0].env);
      var rest := Run(o.dir, trace[1..]);
      (rest.0, [o.response] + rest.1)
  }

  /** Whether some exchange of the trace addresses `key`. */
  predicate Mentions(trace: seq<Exchange>, key: string) {
    exists i :: 0 <= i < |trace| && UrlPath.ExtractKey(trace[i].request.url) == Some(key)
  }

  /** Running two traces back to back is running their concatenation. */
  lemma {:induction false} RunAppend(dir: Dir, a: seq<Exchange>, b: seq<Exchange>)
    ensures Run(dir, a + b).0 == Run(Run(dir, a).0, b).0
    ensures Run(dir, a + b).1 == Run(dir, a).1 + Run(Run(dir, a).0, b).1
    decreases |a|
  {
    if a != [] {
      var o := Handle(dir, a[0].request, a[0].env);
      assert (a + b)[0] == a[0];
      assert (a + b)[1..] == a[1..] + b;
      RunAppend(o.dir, a[1..], b);
      var tail := Run(o.dir, a[1..]);
      assert Run(dir, a) == (tail.0, [o.response] + tail.1);
      assert Run(dir, a + b) == (Run(o.dir, a[1..] + b).0, [o.response] + Run(o.dir, a[1..] + b).1);
    } else {
      assert a + b == b;
    }
  }

  /** Requests for other keys never change a key's entry. */
  lemma {:induction false} RunLeavesOtherKeys(dir: Dir, trace: seq<Exchange>, key: string)
    requires !Mentions(trace, key)
    ensures Lookup(Run(dir, trace).0, key) == Lookup(dir, key)
    decreases |trace|
  {
    if trace != [] {
      var o := Handle(dir, trace[0].request, trace[0].env);
      var name := CachePath.FileName(key);
      assert Get(o.dir, name) == Get(dir, name) by {
        if Get(o.dir, name) != Get(dir, name) {
          var k := UrlPath.ExtractKey(trace[0].request.url).value;
          CachePath.FileNameInjective(k, key);
          assert false;
        }
      }
      assert !Mentions(trace[1..], key) by {
        forall i | 0 <= i < |trace[1..]|
          ensures UrlPath.ExtractKey(trace[1..][i].request.url) != Some(key)
        {
          assert trace[1..][i] == trace[i + 1];
        }
      }
      RunLeavesOtherKeys(o.dir, trace[1..], key);
    }
  }

  /** Without DELETE requests the cache never loses an entry. */
  lemma {:induction false} RunWithoutDeleteKeepsEntries(dir: Dir, trace: seq<Exchange>)
    requires forall i :: 0 <= i < |trace| ==> trace[i].request.verb != "DELETE"
    ensures dir.Keys <= Run(dir, trace).0.Keys
    decreases |trace|
  {
    if trace != [] {
      var o := Handle(dir, trace[0].request, trace[0].env);
      OnlyDeleteRemoves(dir, trace[0].request, trace[0].env);
      RunWithoutDeleteKeepsEntries(o.dir, trace[1..]);
    }
  }

  /**
   * The last successful PUT of a key decides its entry as long as no later
   * request addresses that key.
   */
  lemma LastPutWins(dir: Dir, before: seq<Exchange>, put: Exchange, after: seq<Exchange>, key: string)
    requires Targets(put.request, "PUT", key)
    requires !put.request.body.transportError && !put.env.writeFault
    requires !Mentions(after, key)
    ensures Lookup(Run(dir, before + [put] + after).0, key) == Some(Concat(put.request.body.chunks))
  {
    var mid := Run(dir, before).0;
    RunAppend(dir, before + [put], after);
    RunAppend(dir, before, [put]);
    PutStores(mid, put.request, put.env, key);
    assert Run(mid, [put]).0 == Handle(mid, put.request, put.env).dir;
    RunLeavesOtherKeys(Run(dir, before + [put]).0, after, key);
  }
}
