// The download cache over whole runs (core/files/download.service.go,
// web/routes/metadatahandler.go): when can a download be stale?
module CacheRuns {
  import opened Rows
  import opened Text
  import opened Downloads
  import opened Machine

  // The step uploads other bytes to a path whose bytes are cached.
  predicate Rewrites(s: State, l: Label) {
    l.Upload? &&
    var path := PathOf(s.dir, l.token.resourceId, l.chunkId);
    path in s.cache && s.cache[path] != l.data
  }

  predicate NeverRewrites(s: State, labels: seq<Label>) {
    labels == [] ||
    (NeverRewrites(s, labels[..|labels| - 1]) &&
     !Rewrites(Run(s, labels[..|labels| - 1]), labels[|labels| - 1]))
  }

  // Downloads, expiries and failed cache writes never spoil the cache; an upload
  // does exactly if it rewrites a cached path.
  lemma StepKeepsFreshIff(s: State, l: Label)
    requires Fresh(s.cache, s.blobs)
    ensures Fresh(Apply(s, l).cache, Apply(s, l).blobs) <==> !Rewrites(s, l)
  {
    if l.Upload? {
      WriteKeepsFresh(s.blobs, s.cache, PathOf(s.dir, l.token.resourceId, l.chunkId), l.data);
    } else if l.Get? {
      GetIsFetch(s, l);
    } else {
      Untouched(s, l);
    }
  }

  lemma Untouched(s: State, l: Label)
    requires !l.Upload? && !l.Get?
    ensures Apply(s, l).blobs == s.blobs
    ensures forall path :: path in Apply(s, l).cache ==> path in s.cache && Apply(s, l).cache[path] == s.cache[path]
  {
  }

  // An entry that expires is read again, and no other entry goes.
  lemma ExpiryRefreshes(s: State, path: string)
    ensures FreshAt(Apply(s, Expire(path)).cache, s.blobs, path)
    ensures forall other :: other in s.cache && other != path ==>
      other in Apply(s, Expire(path)).cache && Apply(s, Expire(path)).cache[other] == s.cache[other]
  {
  }

  // With a fresh cache, a download is what the loop without a cache returns.
  lemma GetIsFetch(s: State, l: Label)
    requires Fresh(s.cache, s.blobs) && l.Get?
    ensures Fresh(GetStep(s, l).1, s.blobs)
    ensures var urls := Listing(l.rows, l.fileId, l.userId);
      GetStep(s, l).0 == if urls.Ok? && |l.io| == |urls.value| then Fetch(s.blobs, urls.value) else None
  {
    match Listing(l.rows, l.fileId, l.userId)
    case Err(_) =>
    case Ok(urls) =>
      if |l.io| == |urls| {
        CacheTransparent(s.blobs, s.cache, urls, l.io);
      }
  }

  // The cache is fresh in every state of the run.
  predicate AlwaysFresh(s: State, labels: seq<Label>) {
    Fresh(Run(s, labels).cache, Run(s, labels).blobs) &&
    (labels == [] || AlwaysFresh(s, labels[..|labels| - 1]))
  }

  lemma {:induction false} FreshIffNeverRewritten(s: State, labels: seq<Label>)
    requires Fresh(s.cache, s.blobs)
    ensures NeverRewrites(s, labels) <==> AlwaysFresh(s, labels)
  {
    if labels != [] {
      var before := labels[..|labels| - 1];
      FreshIffNeverRewritten(s, before);
      var t := Run(s, before);
      if Fresh(t.cache, t.blobs) {
        StepKeepsFreshIff(t, labels[|labels| - 1]);
      }
    }
  }

  // In every run that rewrites no cached path, each download is transparent.
  lemma CacheTransparentRuns(dir: string, labels: seq<Label>, get: Label)
    requires NeverRewrites(Init(dir), labels) && get.Get?
    requires Enabled(Run(Init(dir), labels), get)
    ensures var s, urls := Run(Init(dir), labels), Listing(get.rows, get.fileId, get.userId);
      GetStep(s, get).0 == if urls.Ok? then Fetch(s.blobs, urls.value) else None
  {
    FreshIffNeverRewritten(Init(dir), labels);
    GetIsFetch(Run(Init(dir), labels), get);
  }
}
