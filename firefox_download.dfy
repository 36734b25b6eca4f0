/**
 A model of the ETag-based download cache of `FirefoxDownload`.

 The cache INI file holds two sections: `etags` (channel -> last ETag seen) and
 `cached` (channel -> whether the last download of that channel was a cache hit).
 For every configured channel the downloader truncates the channel's output file,
 fetches the build, decides whether the fetched ETag matches the stored one,
 records the new ETag and the hit flag, writes the body only on a miss, and then
 rewrites the whole cache file.  An HTTP error ends the process before that rewrite.

 The network is abstracted as an `Outcome` per fetch; the file system as the
 `cacheFile` (absent until created) and the `files` of the output directory.
 */
module FirefoxDownload {

  datatype Option<T> = None | Some(value: T)

  newtype byte = x: int | 0 <= x < 256

  type Bytes = seq<byte>

  /** The cache INI file's two sections. */
  datatype Store = Store(etags: map<string, Option<string>>, cached: map<string, bool>)

  /** A cache file just created: both section headers, no options. */
  function EmptyStore(): Store
  {
    Store(map[], map[])
  }

  /** A section of the configuration: the channel name with its DOWNLOAD_URL and DOWNLOAD_FILENAME. */
  datatype Channel = Channel(name: string, url: string, filename: string)

  /**
   What fetching a channel's DOWNLOAD_URL yields: a response with its `etag`
   header (absent: None) and its body, or an HTTP error with its message.
   */
  datatype Outcome = Fetched(etag: Option<string>, body: Bytes) | HttpError(reason: string)

  /** How the process ends: normally, or through `sys.exit` with a message. */
  datatype Termination = Normal | SysExit(message: string)

  /** Everything the downloader can change: the in-memory cache, the cache file, the output files. */
  datatype State = State(cache: Store, cacheFile: Option<Store>, files: map<string, Bytes>)

  datatype StepResult = StepResult(st: State, term: Termination)

  /** The state after a run, how many channels completed, and how the run ended. */
  datatype RunResult = RunResult(st: State, completed: nat, term: Termination)

  /**
   The cache decision: a hit exactly when the `etags` section already has an
   option for the channel and it equals the freshly fetched ETag.
   */
  function WasCached(s: Store, channel: string, etag: Option<string>): (hit: bool)
    ensures hit <==> channel in s.etags && s.etags[channel] == etag
    ensures channel !in s.etags ==> !hit
  {
    if channel in s.etags then
      etag == s.etags[channel]
    else
      false
  }

  /** Upsert of one channel in both sections; every other option is left as it was. */
  function Record(s: Store, channel: string, etag: Option<string>, hit: bool): (r: Store)
    ensures r.etags.Keys == s.etags.Keys + {channel}
    ensures r.cached.Keys == s.cached.Keys + {channel}
    ensures r.etags[channel] == etag && r.cached[channel] == hit
    ensures forall n :: n in s.etags && n != channel ==> r.etags[n] == s.etags[n]
    ensures forall n :: n in s.cached && n != channel ==> r.cached[n] == s.cached[n]
  {
    Store(s.etags[channel := etag], s.cached[channel := hit])
  }

  /** Recording a fetched ETag makes a later fetch of that same ETag a cache hit. */
  lemma RecordedEtagIsHit(s: Store, channel: string, etag: Option<string>, hit: bool)
    ensures WasCached(Record(s, channel, etag, hit), channel, etag)
    ensures forall e :: WasCached(Record(s, channel, etag, hit), channel, e) <==> e == etag
  {
  }

  /**
   A cache hit changes nothing in `etags`, and a miss always changes the
   channel's option there: it adds one or replaces a different ETag.
   */
  lemma HitKeepsEtags(s: Store, channel: string, etag: Option<string>)
    ensures WasCached(s, channel, etag) <==> Record(s, channel, etag, WasCached(s, channel, etag)).etags == s.etags
  {
    var r := Record(s, channel, etag, WasCached(s, channel, etag));
    if WasCached(s, channel, etag) {
      assert r.etags == s.etags;
    } else if channel in s.etags {
      assert r.etags[channel] != s.etags[channel];
    } else {
      assert channel in r.etags;
    }
  }

  /**
   One call of `download_file_from_url` for `channel`, writing to `outFile`,
   when the fetch yields `o`.
   */
  function Step(st: State, channel: string, outFile: string, o: Outcome): (r: StepResult)
    ensures r.term.Normal? <==> o.Fetched?
    // the output file is opened for writing (and so truncated) before the fetch
    ensures r.st.files.Keys == st.files.Keys + {outFile}
    ensures forall f :: f in st.files && f != outFile ==> r.st.files[f] == st.files[f]
    // an HTTP error exits before anything else changes: the file stays empty, no flush
    ensures o.HttpError? ==>
      && r.term == SysExit("ERROR: " + o.reason)
      && r.st.cache == st.cache
      && r.st.cacheFile == st.cacheFile
      && r.st.files[outFile] == []
    // a fetch records the ETag and the hit flag, writes the body only on a miss, and flushes
    ensures o.Fetched? ==>
      var hit := channel in st.cache.etags && st.cache.etags[channel] == o.etag;
      && r.st.cache == Record(st.cache, channel, o.etag, hit)
      && r.st.files[outFile] == (if hit then [] else o.body)
      && r.st.cacheFile == Some(r.st.cache)
  {
    var truncated := st.files[outFile := []];
    match o
    case HttpError(reason) =>
      StepResult(State(st.cache, st.cacheFile, truncated), SysExit("ERROR: " + reason))
    case Fetched(etag, body) =>
      var hit := WasCached(st.cache, channel, etag);
      var cache := Record(st.cache, channel, etag, hit);
      var files := if hit then truncated else truncated[outFile := body];
      StepResult(State(cache, Some(cache), files), Normal)
  }

  /**
   `download_all` from the `i`-th configured channel on, with `os[j]` the
   outcome of fetching channel `cs[j]`.  Channels run in order; the first HTTP
   error ends the run.
   */
  function Run(st: State, cs: seq<Channel>, os: seq<Outcome>, i: nat): (r: RunResult)
    requires i <= |cs| == |os|
    ensures i <= r.completed <= |cs|
    ensures r.term.Normal? <==> r.completed == |cs|
    ensures forall j :: i <= j < r.completed ==> os[j].Fetched?
    ensures r.term.SysExit? ==> os[r.completed].HttpError?
    ensures r.term.SysExit? ==> r.term.message == "ERROR: " + os[r.completed].reason
    decreases |cs| - i
  {
    if i == |cs| then
      RunResult(st, i, Normal)
    else
      var s := Step(st, cs[i].name, cs[i].filename, os[i]);
      if s.term.SysExit? then
        RunResult(s.st, i, s.term)
      else
        Run(s.st, cs, os, i + 1)
  }

  /** The `FirefoxDownload` object: its configuration, its loaded cache and the files it owns. */
  class Downloader {
    const config: seq<Channel>
    var cache: Store
    var cacheFile: Option<Store>
    var files: map<string, Bytes>

    /**
     Between channels the cache file holds exactly the in-memory cache: it is
     loaded from the file and flushed after every channel that completes.
     */
    predicate Valid()
      reads this
    {
      cacheFile == Some(cache)
    }

    function Snapshot(): State
      reads this
    {
      State(cache, cacheFile, files)
    }

    /** Create the cache file if it is missing, then load it into memory. */
    constructor (config: seq<Channel>, cacheFile: Option<Store>, files: map<string, Bytes>)
      ensures Valid()
      ensures this.config == config && this.files == files
      ensures this.cacheFile == (if cacheFile.Some? then cacheFile else Some(EmptyStore()))
    {
      this.config := config;
      this.cacheFile := cacheFile;
      this.files := files;
      new;
      CreateCacheFile();
      cache := this.cacheFile.value;
    }

    /** A no-op when the cache file exists; otherwise it writes one with empty `etags` and `cached` sections. */
    method CreateCacheFile()
      modifies this`cacheFile
      ensures cacheFile.Some?
      ensures old(cacheFile).Some? ==> cacheFile == old(cacheFile)
      ensures old(cacheFile).None? ==> cacheFile == Some(EmptyStore())
    {
      if cacheFile.None? {
        cacheFile := Some(Store(map[], map[]));
      }
    }

    /** Download one channel's build into `outFile`, using the ETag cache; `o` is what the fetch yields. */
    method DownloadFileFromUrl(outFile: string, channel: string, o: Outcome) returns (term: Termination)
      requires Valid()
      modifies this`cache, this`cacheFile, this`files
      ensures Valid()
      ensures StepResult(Snapshot(), term) == Step(old(Snapshot()), channel, outFile, o)
    {
      files := files[outFile := []];
      match o {
        case HttpError(reason) =>
          term := SysExit("ERROR: " + reason);
          return;
        case Fetched(etag, body) =>
          var wasCached := false;
          if channel in cache.etags {
            if etag == cache.etags[channel] {
              wasCached := true;
            }
          }
          cache := cache.(etags := cache.etags[channel := etag]);
          cache := cache.(cached := cache.cached[channel := wasCached]);
          if !wasCached {
            files := files[outFile := body];
          }
          cacheFile := Some(cache);
          term := Normal;
      }
    }

    /** Resolve the channel's output file from the configuration and download it. */
    method DownloadChannel(c: Channel, o: Outcome) returns (term: Termination)
      requires Valid()
      modifies this`cache, this`cacheFile, this`files
      ensures Valid()
      ensures StepResult(Snapshot(), term) == Step(old(Snapshot()), c.name, c.filename, o)
    {
      term := DownloadFileFromUrl(c.filename, c.name, o);
    }

    /**
     Download every configured channel in order; `outcomes[j]` is what fetching
     `config[j]` yields.  Returns how many channels completed and how the run ended.
     */
    method DownloadAll(outcomes: seq<Outcome>) returns (completed: nat, term: Termination)
      requires Valid()
      requires |outcomes| == |config|
      modifies this`cache, this`cacheFile, this`files
      ensures Valid()
      ensures RunResult(Snapshot(), completed, term) == Run(old(Snapshot()), config, outcomes, 0)
    {
      var i := 0;
      while i < |config|
        invariant Valid()
        invariant i <= |config|
        invariant Run(old(Snapshot()), config, outcomes, 0) == Run(Snapshot(), config, outcomes, i)
      {
        term := DownloadChannel(config[i], outcomes[i]);
        if term.SysExit? {
          return i, term;
        }
        i := i + 1;
      }
      return i, Normal;
    }
  }
}
