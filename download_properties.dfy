/**
 Properties of whole downloader runs: which cache options a run leaves behind,
 what is persisted when a run is cut short by an HTTP error, and why a second
 run against unchanged builds is a cache hit for every channel.
 */
module DownloadProperties {
  import opened FirefoxDownload

  /** The names of the channels in `cs`. */
  function ChannelNames(cs: seq<Channel>): set<string>
  {
    set c | c in cs :: c.name
  }

  /** Every fetch of the run succeeds. */
  predicate AllFetched(os: seq<Outcome>)
  {
    forall j :: 0 <= j < |os| ==> os[j].Fetched?
  }

  /** ASCII lower-casing, the folding a configuration parser applies to option names. */
  function FoldCase(name: string): string
  {
    seq(|name|, j requires 0 <= j < |name| =>
      if 'A' <= name[j] <= 'Z' then (name[j] as int - 'A' as int + 'a' as int) as char else name[j])
  }

  /**
   No two configured channels share a cache option: section names are unique,
   and they stay distinct once folded to lower case as option names are.
   */
  predicate DistinctNames(cs: seq<Channel>)
  {
    forall j, k :: 0 <= j < k < |cs| ==> FoldCase(cs[j].name) != FoldCase(cs[k].name)
  }

  /** No channel name occurs twice. */
  predicate UniqueNames(cs: seq<Channel>)
  {
    forall j, k :: 0 <= j < k < |cs| ==> cs[j].name != cs[k].name
  }

  /** Names that differ after folding differ. */
  lemma DistinctNamesAreUnique(cs: seq<Channel>)
    requires DistinctNames(cs)
    ensures UniqueNames(cs)
  {
    forall j, k | 0 <= j < k < |cs| ensures cs[j].name != cs[k].name {
      assert FoldCase(cs[j].name) != FoldCase(cs[k].name);
    }
  }

  /** The names of the channels `cs[i]` up to, not including, `cs[k]`. */
  function NamesBetween(cs: seq<Channel>, i: nat, k: nat): set<string>
    requires i <= k <= |cs|
  {
    set j | i <= j < k :: cs[j].name
  }

  lemma NamesBetweenFront(cs: seq<Channel>, i: nat, k: nat)
    requires i < k <= |cs|
    ensures NamesBetween(cs, i, k) == {cs[i].name} + NamesBetween(cs, i + 1, k)
  {
  }

  /**
   A run adds to each section exactly the channels it completed: the keys of
   `etags` and of `cached` grow by those names and by nothing else.
   */
  lemma {:induction false} RunKeys(st: State, cs: seq<Channel>, os: seq<Outcome>, i: nat)
    requires i <= |cs| == |os|
    ensures var r := Run(st, cs, os, i);
      && r.st.cache.etags.Keys == st.cache.etags.Keys + NamesBetween(cs, i, r.completed)
      && r.st.cache.cached.Keys == st.cache.cached.Keys + NamesBetween(cs, i, r.completed)
    decreases |cs| - i
  {
    var r := Run(st, cs, os, i);
    if i < |cs| {
      var s := Step(st, cs[i].name, cs[i].filename, os[i]);
      if s.term.Normal? {
        assert r == Run(s.st, cs, os, i + 1);
        RunKeys(s.st, cs, os, i + 1);
        NamesBetweenFront(cs, i, r.completed);
      } else {
        assert r.completed == i && r.st.cache == st.cache;
      }
    }
    assert r.completed == i ==> NamesBetween(cs, i, r.completed) == {};
  }

  /**
   Store completeness: a fully successful run from a freshly created cache file
   leaves exactly one `etags` option and one `cached` option per configured channel.
   */
  lemma FullRunFromEmptyStore(cs: seq<Channel>, os: seq<Outcome>, files: map<string, Bytes>)
    requires |cs| == |os|
    requires Run(State(EmptyStore(), Some(EmptyStore()), files), cs, os, 0).term.Normal?
    ensures var r := Run(State(EmptyStore(), Some(EmptyStore()), files), cs, os, 0);
      && r.st.cache.etags.Keys == ChannelNames(cs)
      && r.st.cache.cached.Keys == ChannelNames(cs)
      && r.st.cacheFile == Some(r.st.cache)
  {
    var st := State(EmptyStore(), Some(EmptyStore()), files);
    RunKeys(st, cs, os, 0);
    RunPersistsEachChannel(st, cs, os, 0);
    assert NamesBetween(cs, 0, |cs|) == ChannelNames(cs) by {
      forall n | n in ChannelNames(cs) ensures n in NamesBetween(cs, 0, |cs|) {
        var c :| c in cs && c.name == n;
        var j :| 0 <= j < |cs| && cs[j] == c;
      }
    }
  }

  /**
   The cache file lags the in-memory cache only while a channel is in
   progress: once any channel has completed, the file holds the in-memory
   cache; if none has, both are as they were.
   */
  lemma {:induction false} RunPersistsEachChannel(st: State, cs: seq<Channel>, os: seq<Outcome>, i: nat)
    requires i <= |cs| == |os|
    ensures var r := Run(st, cs, os, i);
      && (r.completed > i ==> r.st.cacheFile == Some(r.st.cache))
      && (r.completed == i ==> r.st.cacheFile == st.cacheFile && r.st.cache == st.cache)
    decreases |cs| - i
  {
    if i < |cs| {
      var s := Step(st, cs[i].name, cs[i].filename, os[i]);
      if s.term.Normal? {
        RunPersistsEachChannel(s.st, cs, os, i + 1);
      }
    }
  }

  /**
   Abort preserves prior progress: when the run exits at channel `k`, the
   caches in memory and on disk are exactly those of the successful run over
   the channels before `k`; channel `k`'s output file was only truncated.
   */
  lemma {:induction false} AbortKeepsPrefix(st: State, cs: seq<Channel>, os: seq<Outcome>, i: nat)
    requires i <= |cs| == |os|
    requires Run(st, cs, os, i).term.SysExit?
    ensures var r := Run(st, cs, os, i);
      var k := r.completed;
      var p := Run(st, cs[..k], os[..k], i);
      && p.term.Normal?
      && r.st.cache == p.st.cache
      && r.st.cacheFile == p.st.cacheFile
      && r.st.files == p.st.files[cs[k].filename := []]
    decreases |cs| - i
  {
    var r := Run(st, cs, os, i);
    var k := r.completed;
    var s := Step(st, cs[i].name, cs[i].filename, os[i]);
    var p := Run(st, cs[..k], os[..k], i);
    if s.term.Normal? {
      assert cs[..k][i] == cs[i] && os[..k][i] == os[i];
      assert p == Run(s.st, cs[..k], os[..k], i + 1);
      assert r == Run(s.st, cs, os, i + 1);
      AbortKeepsPrefix(s.st, cs, os, i + 1);
    } else {
      assert p == RunResult(st, i, Normal);
    }
  }

  /**
   No later channel is attempted: once the run exits at channel `k`, replacing
   the channels after `k` or their outcomes changes nothing.
   */
  lemma {:induction false} AbortIgnoresLaterChannels(st: State, cs: seq<Channel>, os: seq<Outcome>,
                                                     cs': seq<Channel>, os': seq<Outcome>, i: nat, k: nat)
    requires i <= |cs| == |os|
    requires Run(st, cs, os, i).term.SysExit? && Run(st, cs, os, i).completed == k
    requires k < |cs'| == |os'|
    requires forall j :: i <= j <= k ==> cs'[j] == cs[j] && os'[j] == os[j]
    ensures Run(st, cs', os', i) == Run(st, cs, os, i)
    decreases |cs| - i
  {
    var r := Run(st, cs, os, i);
    var s := Step(st, cs[i].name, cs[i].filename, os[i]);
    assert cs'[i] == cs[i] && os'[i] == os[i];
    if s.term.Normal? {
      assert r == Run(s.st, cs, os, i + 1);
      AbortIgnoresLaterChannels(s.st, cs, os, cs', os', i + 1, k);
      assert Run(st, cs', os', i) == Run(s.st, cs', os', i + 1);
    } else {
      assert Run(st, cs', os', i) == RunResult(s.st, i, s.term);
    }
  }

  /** Entries of a channel the run does not process are left untouched in both sections. */
  lemma {:induction false} RunKeepsOtherChannels(st: State, cs: seq<Channel>, os: seq<Outcome>, i: nat, name: string)
    requires i <= |cs| == |os|
    requires forall j :: i <= j < |cs| ==> cs[j].name != name
    ensures var r := Run(st, cs, os, i);
      && (name in r.st.cache.etags <==> name in st.cache.etags)
      && (name in st.cache.etags ==> r.st.cache.etags[name] == st.cache.etags[name])
      && (name in r.st.cache.cached <==> name in st.cache.cached)
      && (name in st.cache.cached ==> r.st.cache.cached[name] == st.cache.cached[name])
    decreases |cs| - i
  {
    if i < |cs| {
      var s := Step(st, cs[i].name, cs[i].filename, os[i]);
      if s.term.Normal? {
        RunKeepsOtherChannels(s.st, cs, os, i + 1, name);
      }
    }
  }

  /** Each channel from the `i`-th on is fetched, and `s` already records the ETag it is fetched with. */
  predicate EtagsCurrent(s: Store, cs: seq<Channel>, os: seq<Outcome>, i: nat)
    requires |cs| == |os|
  {
    forall j :: i <= j < |cs| ==> os[j].Fetched? && cs[j].name in s.etags && s.etags[cs[j].name] == os[j].etag
  }

  /** A fully successful run leaves each channel's freshly fetched ETag in the `etags` section. */
  lemma {:induction false} RunRecordsFetchedEtags(st: State, cs: seq<Channel>, os: seq<Outcome>, i: nat)
    requires i <= |cs| == |os|
    requires UniqueNames(cs) && AllFetched(os)
    ensures Run(st, cs, os, i).term.Normal?
    ensures EtagsCurrent(Run(st, cs, os, i).st.cache, cs, os, i)
    decreases |cs| - i
  {
    if i < |cs| {
      var s := Step(st, cs[i].name, cs[i].filename, os[i]);
      var r := Run(st, cs, os, i);
      assert r == Run(s.st, cs, os, i + 1) && s.st.cache.etags[cs[i].name] == os[i].etag by {
        assert os[i].Fetched?;
      }
      assert r.term.Normal? && EtagsCurrent(r.st.cache, cs, os, i + 1) by {
        RunRecordsFetchedEtags(s.st, cs, os, i + 1);
      }
      assert cs[i].name in r.st.cache.etags && r.st.cache.etags[cs[i].name] == os[i].etag by {
        assert forall j :: i + 1 <= j < |cs| ==> cs[j].name != cs[i].name by {
          assert UniqueNames(cs);
        }
        RunKeepsOtherChannels(s.st, cs, os, i + 1, cs[i].name);
      }
      EtagsCurrentFront(r.st.cache, cs, os, i);
    }
  }

  lemma EtagsCurrentFront(s: Store, cs: seq<Channel>, os: seq<Outcome>, i: nat)
    requires i < |cs| == |os|
    requires os[i].Fetched? && cs[i].name in s.etags && s.etags[cs[i].name] == os[i].etag
    requires EtagsCurrent(s, cs, os, i + 1)
    ensures EtagsCurrent(s, cs, os, i)
  {
  }

  /**
   When the `etags` section already holds every channel's current ETag, a run
   completes and leaves `etags` exactly as it was.
   */
  lemma {:induction false} RunWithCurrentEtagsKeepsEtags(st: State, cs: seq<Channel>, os: seq<Outcome>, i: nat)
    requires i <= |cs| == |os|
    requires EtagsCurrent(st.cache, cs, os, i)
    ensures Run(st, cs, os, i).term.Normal?
    ensures Run(st, cs, os, i).st.cache.etags == st.cache.etags
    decreases |cs| - i
  {
    if i < |cs| {
      var s := Step(st, cs[i].name, cs[i].filename, os[i]);
      assert s.st.cache.etags == st.cache.etags;
      RunWithCurrentEtagsKeepsEtags(s.st, cs, os, i + 1);
    }
  }

  /**
   When the `etags` section already holds every channel's current ETag, every
   channel is a cache hit: its `cached` flag is true after the run, and no flag
   that was true becomes false.
   */
  lemma {:induction false} RunWithCurrentEtagsFlagsHits(st: State, cs: seq<Channel>, os: seq<Outcome>, i: nat)
    requires i <= |cs| == |os|
    requires EtagsCurrent(st.cache, cs, os, i)
    ensures var r := Run(st, cs, os, i);
      && (forall j :: i <= j < |cs| ==> cs[j].name in r.st.cache.cached && r.st.cache.cached[cs[j].name])
      && (forall n :: n in st.cache.cached && st.cache.cached[n] ==> n in r.st.cache.cached && r.st.cache.cached[n])
    decreases |cs| - i
  {
    if i < |cs| {
      var s := Step(st, cs[i].name, cs[i].filename, os[i]);
      assert s.st.cache.etags == st.cache.etags;
      assert s.st.cache.cached[cs[i].name];
      RunWithCurrentEtagsFlagsHits(s.st, cs, os, i + 1);
    }
  }

  /**
   When the `etags` section already holds every channel's current ETag, no
   body is written: every channel's output file is left truncated and empty,
   and no empty file gains contents.
   */
  lemma {:induction false} RunWithCurrentEtagsWritesNothing(st: State, cs: seq<Channel>, os: seq<Outcome>, i: nat)
    requires i <= |cs| == |os|
    requires EtagsCurrent(st.cache, cs, os, i)
    ensures var r := Run(st, cs, os, i);
      && (forall j :: i <= j < |cs| ==> cs[j].filename in r.st.files && r.st.files[cs[j].filename] == [])
      && (forall f :: f in st.files && st.files[f] == [] ==> f in r.st.files && r.st.files[f] == [])
    decreases |cs| - i
  {
    if i < |cs| {
      var s := Step(st, cs[i].name, cs[i].filename, os[i]);
      assert s.st.cache.etags == st.cache.etags;
      assert s.st.files[cs[i].filename] == [];
      RunWithCurrentEtagsWritesNothing(s.st, cs, os, i + 1);
    }
  }

  /**
   Idempotence within one process: calling `download_all` twice on the same
   object against unchanged builds makes the second run a cache hit for every
   channel; it leaves `etags` as the first run left it and every output file empty.
   */
  lemma SecondRunIsAllCached(st: State, cs: seq<Channel>, os: seq<Outcome>)
    requires |cs| == |os|
    requires DistinctNames(cs) && AllFetched(os)
    ensures var r1 := Run(st, cs, os, 0);
      var r2 := Run(r1.st, cs, os, 0);
      && r1.term.Normal? && r2.term.Normal?
      && r2.st.cache.etags == r1.st.cache.etags
      && (forall j :: 0 <= j < |cs| ==> cs[j].name in r2.st.cache.cached && r2.st.cache.cached[cs[j].name])
      && (forall j :: 0 <= j < |cs| ==> cs[j].filename in r2.st.files && r2.st.files[cs[j].filename] == [])
  {
    var r1 := Run(st, cs, os, 0);
    DistinctNamesAreUnique(cs);
    RunRecordsFetchedEtags(st, cs, os, 0);
    RunWithCurrentEtagsKeepsEtags(r1.st, cs, os, 0);
    RunWithCurrentEtagsFlagsHits(r1.st, cs, os, 0);
    RunWithCurrentEtagsWritesNothing(r1.st, cs, os, 0);
  }

  /**
   A run started with the cache file holding the in-memory cache, as a freshly
   constructed downloader is, ends with the two still equal, whether it
   completes or exits.
   */
  lemma RunKeepsCacheFileInSync(st: State, cs: seq<Channel>, os: seq<Outcome>)
    requires |cs| == |os|
    requires st.cacheFile == Some(st.cache)
    ensures Run(st, cs, os, 0).st.cacheFile == Some(Run(st, cs, os, 0).st.cache)
  {
    RunPersistsEachChannel(st, cs, os, 0);
  }

  /**
   Idempotence across processes: a downloader constructed from the cache file
   and output files a first run left behind, against unchanged builds, hits the
   cache for every channel; `etags` stays as the first run left it, and every
   output file is empty.
   */
  lemma NextProcessIsAllCached(loaded: Store, files: map<string, Bytes>, cs: seq<Channel>, os: seq<Outcome>)
    requires |cs| == |os|
    requires DistinctNames(cs) && AllFetched(os)
    ensures var r1 := Run(State(loaded, Some(loaded), files), cs, os, 0);
      && r1.term.Normal?
      && r1.st.cacheFile.Some?
      && var reloaded := r1.st.cacheFile.value;
         var r2 := Run(State(reloaded, Some(reloaded), r1.st.files), cs, os, 0);
         && r2.term.Normal?
         && r2.st.cacheFile == Some(r2.st.cache)
         && r2.st.cache.etags == reloaded.etags
         && (forall j :: 0 <= j < |cs| ==> cs[j].name in r2.st.cache.cached && r2.st.cache.cached[cs[j].name])
         && (forall j :: 0 <= j < |cs| ==> cs[j].filename in r2.st.files && r2.st.files[cs[j].filename] == [])
  {
    var st := State(loaded, Some(loaded), files);
    var r1 := Run(st, cs, os, 0);
    DistinctNamesAreUnique(cs);
    RunRecordsFetchedEtags(st, cs, os, 0);
    RunKeepsCacheFileInSync(st, cs, os);
    var st2 := State(r1.st.cacheFile.value, r1.st.cacheFile, r1.st.files);
    assert st2 == r1.st;
    RunWithCurrentEtagsKeepsEtags(st2, cs, os, 0);
    RunWithCurrentEtagsFlagsHits(st2, cs, os, 0);
    RunWithCurrentEtagsWritesNothing(st2, cs, os, 0);
    RunKeepsCacheFileInSync(st2, cs, os);
  }

  /** Processing a channel twice with the same fetched ETag: the second call is a hit and the ETag stays. */
  lemma SameEtagTwiceIsHit(st: State, channel: string, outFile: string, etag: Option<string>, body1: Bytes, body2: Bytes)
    ensures var s1 := Step(st, channel, outFile, Fetched(etag, body1));
      var s2 := Step(s1.st, channel, outFile, Fetched(etag, body2));
      && s2.st.cache.cached[channel]
      && s2.st.cache.etags == s1.st.cache.etags
      && s2.st.files[outFile] == []
  {
    var s1 := Step(st, channel, outFile, Fetched(etag, body1));
    assert s1.st.cache.etags[channel := etag] == s1.st.cache.etags;
  }

  /**
   A changed ETag triggers a download: the channel is not a hit, the new body
   is written and the new ETag replaces the old one.
   */
  lemma ChangedEtagIsDownloaded(st: State, channel: string, outFile: string, etag: Option<string>, body: Bytes)
    requires channel in st.cache.etags && st.cache.etags[channel] != etag
    ensures var s := Step(st, channel, outFile, Fetched(etag, body));
      && !s.st.cache.cached[channel]
      && s.st.files[outFile] == body
      && s.st.cache.etags[channel] == etag
  {
  }
}
