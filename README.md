# ETag download cache of `FirefoxDownload`, modelled in Dafny

`FirefoxDownload` downloads one Firefox build per release channel (nightly, aurora,
beta, ...) listed in an INI configuration. It keeps a cache INI file, `cache.ini`,
with two sections: `etags` maps a channel to the last `ETag` header seen for its
download, and `cached` maps a channel to whether its last download was a cache hit.
For each channel, in configuration order, the downloader:

1. opens the output file for writing, which truncates it;
2. fetches the channel's `DOWNLOAD_URL`;
3. decides `was_cached`: the `etags` section has an option for the channel and it
   equals the fetched ETag;
4. records the fetched ETag and `was_cached` for the channel;
5. writes the body to the output file only if `was_cached` is false;
6. rewrites the whole cache file.

An HTTP error ends the process (`sys.exit("ERROR: ...")`) before step 6.

The model has two modules:

- `FirefoxDownload` (`firefox_download.dfy`) holds the data model and the
  operations. The network becomes an `Outcome` per fetch: `Fetched(etag, body)`,
  where the ETag may be absent, or `HttpError(reason)`. The cache is a `Store`
  value with two maps. The pure functions `WasCached`, `Record`, `Step` (one call of
  `download_file_from_url`) and `Run` (`download_all` from a given channel on)
  specify the class `Downloader`. Its fields are the in-memory cache, the cache
  file (absent until created) and the output files, keyed by `DOWNLOAD_FILENAME`.
  Its methods update those fields in place. `DownloadAll` is a loop whose
  invariant ties the state so far to `Run`.
- `DownloadProperties` (`download_properties.dfy`) proves properties of whole
  runs. These cover which options a run leaves in each section, what is persisted
  when a run aborts, and why a second run against unchanged builds is a cache hit
  everywhere.

The output file is truncated before the fetch, and that is modelled as written.
One consequence is proved in `SecondRunIsAllCached` and `NextProcessIsAllCached`:
a second run against unchanged builds leaves every output file empty. Because the ETag still matches,
each later run is a cache hit again, so the build is never downloaded again.

## Model

| member | source | states |
|---|---|---|
| `FirefoxDownload.RecordedEtagIsHit` | _utils/firefox_download.py:97-103 | after the channel's fetched ETag is recorded, a fetch of that same ETag is a cache hit, and a fetch of any other ETag is not |
| `FirefoxDownload.HitKeepsEtags` | _utils/firefox_download.py:97-103 | the fetch is a cache hit exactly when recording its ETag leaves the `etags` section unchanged; a miss always adds or changes the channel's option |
| `FirefoxDownload.Record` | _utils/firefox_download.py:103-104 | both sections gain the channel as a key; `etags[channel]` is the fetched ETag and `cached[channel]` the hit flag; every other option keeps its value |
| `FirefoxDownload.Step` | _utils/firefox_download.py:84-122 | the output file is truncated whatever happens, and other files are unchanged. On an HTTP error, the process exits with `"ERROR: " + reason`, the cache and cache file are unchanged, and the file is left empty. On a fetch, the cache records the ETag and the hit decision, the file holds the body on a miss and is empty on a hit, and the cache file equals the new in-memory cache |
| `FirefoxDownload.Run` | _utils/firefox_download.py:61-69 | channels are processed in order; the run ends normally exactly when every channel completed; every completed channel was fetched; an exit happens only at an HTTP error, with that error's message |
| `FirefoxDownload.Downloader.constructor` | _utils/firefox_download.py:40-41 | the cache file is created if missing, and the in-memory cache is loaded from it, which establishes the class invariant `Valid()`: the cache file equals the in-memory cache |
| `FirefoxDownload.Downloader.CreateCacheFile` | _utils/firefox_download.py:43-58 | an existing cache file is left as it is; a missing one is created with empty `etags` and `cached` sections |
| `FirefoxDownload.Downloader.DownloadFileFromUrl` | _utils/firefox_download.py:84-122 | the cache decision of lines 93-100, written as nested `if`s, and the resulting new cache, cache file, output files and termination are exactly those given by `Step`; `Valid()` is preserved, so after the call the cache file again equals the in-memory cache |
| `FirefoxDownload.Downloader.DownloadChannel` | _utils/firefox_download.py:71-82 | downloads the channel into its configured output file, as `Step` gives |
| `FirefoxDownload.Downloader.DownloadAll` | _utils/firefox_download.py:61-69 | the final state, the number of completed channels and the termination equal those of `Run` over the configured channels |
| `DownloadProperties.RunKeys` | _utils/firefox_download.py:68-104 | after a run, the keys of `etags` and of `cached` are the keys from before plus the names of the channels that completed, and nothing else |
| `DownloadProperties.FullRunFromEmptyStore` | _utils/firefox_download.py:53-122 | a fully successful run from a freshly created cache file leaves exactly one `etags` option and one `cached` option per configured channel, and the cache file equals the in-memory cache |
| `DownloadProperties.RunPersistsEachChannel` | _utils/firefox_download.py:114-122 | once any channel has completed, the cache file equals the in-memory cache; if none has, both are unchanged |
| `DownloadProperties.AbortKeepsPrefix` | _utils/firefox_download.py:114-122 | when the run exits at channel k, the in-memory cache and the cache file equal those of the successful run over the channels before k; only channel k's output file is changed, and it is truncated |
| `DownloadProperties.AbortIgnoresLaterChannels` | _utils/firefox_download.py:68-117 | after an exit at channel k, changing the channels after k or their fetch outcomes does not change the run's result, so no later channel is processed |
| `DownloadProperties.RunKeepsOtherChannels` | _utils/firefox_download.py:103-104 | a run leaves the options of every channel it does not process unchanged in both sections |
| `DownloadProperties.RunRecordsFetchedEtags` | _utils/firefox_download.py:97-103 | when every fetch succeeds and channel names are distinct, the run completes and `etags` holds each channel's fetched ETag |
| `DownloadProperties.RunWithCurrentEtagsKeepsEtags` | _utils/firefox_download.py:97-103 | if `etags` already holds every channel's current ETag, the run completes and `etags` is unchanged |
| `DownloadProperties.RunWithCurrentEtagsFlagsHits` | _utils/firefox_download.py:97-104 | if `etags` already holds every channel's current ETag, every channel's `cached` flag is true after the run, and no true flag becomes false |
| `DownloadProperties.RunWithCurrentEtagsWritesNothing` | _utils/firefox_download.py:89-112 | if `etags` already holds every channel's current ETag, every channel's output file is empty after the run, and no empty file gains contents |
| `DownloadProperties.SecondRunIsAllCached` | _utils/firefox_download.py:68-112 | idempotence within one process: after one successful run, a second `download_all` on the same object with the same fetched ETags completes, leaves `etags` unchanged, flags every channel cached and leaves every output file empty |
| `DownloadProperties.RunKeepsCacheFileInSync` | _utils/firefox_download.py:114-122 | a run that starts with the cache file equal to the in-memory cache ends with them equal, whether it completes or exits |
| `DownloadProperties.NextProcessIsAllCached` | _utils/firefox_download.py:125-128 | idempotence across processes: a new downloader built from the cache file and output files a first successful run left behind, with the same fetched ETags, completes; it leaves `etags` as loaded, flags every channel cached, leaves every output file empty and keeps the cache file equal to its in-memory cache |
| `DownloadProperties.SameEtagTwiceIsHit` | _utils/firefox_download.py:97-104 | processing one channel twice with the same fetched ETag makes the second call a hit, keeps the stored ETag and leaves the file empty |
| `DownloadProperties.ChangedEtagIsDownloaded` | _utils/firefox_download.py:97-108 | a stored ETag that differs from the fetched one means a miss: the body is written and the new ETag is stored |

## Left out

- The network fetch (`urllib.request.urlopen`, reading headers and body) is replaced by an `Outcome` given for each channel. `DownloadAll` receives one per configured channel, in order. The channel's URL is kept in `Channel` but plays no part beyond naming what was fetched.
- Only `urlopen` can fail in the model. An error while reading the body, or any exception other than `HTTPError` (such as `URLError`), propagates uncaught in the source. Each would also end the process before the cache file is rewritten. The model does not separate these cases: every failure is an `HttpError` that exits with `"ERROR: " + reason` before the cache is updated.
- `sys.exit` becomes the returned `Termination.SysExit(message)`. `DownloadAll` returns at once, so no later channel is processed. Process exit codes are not modelled.
- The `IniHandler` class in `firefox_env_handler` is not part of this model. That leaves out configuration loading, `sections`, the INI text format, `banner` and `clean_folder`. The configuration is a sequence of `Channel(name, url, filename)`, and the cache file is a `Store` value.
- `IniHandler.set`/`get` may turn values into strings, and that is not modelled. `cached` is stored as a boolean, and an absent ETag is stored as `None` and compared by equality. If `IniHandler` stores `None` as the string `"None"`, a channel whose response has no ETag would never be a cache hit. That cannot be decided without `IniHandler`.
- The constructor's `clean` flag (`IniHandler.clean_folder`) and its type checks on `config` are not modelled. The constructor takes the configuration, the existing cache file (if any) and the existing output files.
- `os.makedirs`, `os.path.join` with the output directory, the `print` progress messages and `main()` are not modelled. Output files are keyed by their `DOWNLOAD_FILENAME`.
- Cache options are keyed by the exact channel name. A configuration parser lower-cases option names by default (`optionxform`), so in the source two sections such as `Beta` and `beta` would share one option in each cache section; `IniHandler` is not part of this model, so whether it keeps that default cannot be decided. The idempotence lemmas therefore assume channel names that stay distinct after ASCII lower-casing (`DistinctNames`). Case folding beyond ASCII, which Python's `str.lower` also does, is not modelled.
- Output files and the cache file are kept apart. A channel whose `DOWNLOAD_FILENAME` is `cache.ini` would in the source truncate and overwrite the cache file itself (line 89 and line 120 open the same path); the model does not capture that aliasing.
- Closing file handles is not modelled, and neither is a crash while a file is being written. The cache file is rewritten atomically in the model.
