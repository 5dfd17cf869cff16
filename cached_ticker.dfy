/** A ticker whose market data is cached in one JSON file per symbol
    (`cached_ticker.CachedTicker`); the cached data is used only when it
    was fetched today. */
module CachedTickers {
  import opened Wrappers
  import opened Dates
  import opened Stocks

  /** The contents of a cache file: the snapshot and its `date` entry, which
      a hand-edited or foreign file may lack. */
  datatype CachedData = CachedData(snapshot: Snapshot, date: Option<Date>)

  const FileSuffix: string := "_ticker_data.json"

  /** `f'{symbol}_ticker_data.json'`. */
  function FileName(symbol: string): (f: string)
    ensures |f| == |symbol| + |FileSuffix|
    ensures f[..|symbol|] == symbol && f[|symbol|..] == FileSuffix
  {
    symbol + FileSuffix
  }

  /** Distinct symbols use distinct files, so each symbol has exactly one
      record and a later write replaces only that symbol's. */
  lemma FileNameInjective(a: string, b: string)
    requires FileName(a) == FileName(b)
    ensures a == b
  {
    assert |a| == |b|;
    assert a == FileName(a)[..|a|];
  }

  /** What `load_cached_data` finds in the files: the stored data when the
      file exists and its date is today. */
  function CacheHit(files: map<string, CachedData>, name: string, today: Date): (r: Option<CachedData>)
    ensures r.Some? <==> name in files && files[name].date == Some(today)
    ensures r.Some? ==> r.value == files[name]
  {
    if name in files && files[name].date == Some(today) then Some(files[name]) else None
  }

  /** Writing one symbol's cache file leaves every other symbol's lookup as
      it was. */
  lemma OtherSymbolKeepsHit(files: map<string, CachedData>, a: string, b: string, d: CachedData, today: Date)
    requires a != b
    ensures CacheHit(files[FileName(b) := d], FileName(a), today) == CacheHit(files, FileName(a), today)
  {
    if FileName(a) == FileName(b) {
      FileNameInjective(a, b);
    }
  }

  /** The directory holding the cache files. */
  class FileSystem {
    var files: map<string, CachedData>

    constructor (files: map<string, CachedData>)
      ensures this.files == files
    {
      this.files := files;
    }

    method Write(name: string, d: CachedData)
      modifies this
      ensures files == old(files)[name := d]
    {
      files := files[name := d];
    }
  }

  class CachedTicker {
    const symbol: string
    const filename: string
    const fs: FileSystem
    var loadedFromCache: bool
    var data: CachedData

    /** `__init__`: the cached data when it is today's, otherwise a fetch
        (which happens only on a miss). */
    constructor (symbol: string, fs: FileSystem, today: Date, fetch: string -> Snapshot)
      modifies fs
      ensures this.symbol == symbol && this.fs == fs && filename == FileName(symbol)
      ensures loadedFromCache <==> CacheHit(old(fs.files), FileName(symbol), today).Some?
      ensures loadedFromCache ==> data == old(fs.files)[FileName(symbol)] && fs.files == old(fs.files)
      ensures !loadedFromCache ==>
        data == CachedData(fetch(symbol), Some(today)) &&
        fs.files == old(fs.files)[FileName(symbol) := data]
    {
      this.symbol := symbol;
      this.filename := FileName(symbol);
      this.fs := fs;
      loadedFromCache := false;
      data := CachedData(Snapshot("", "", ""), None);
      new;
      var cached := LoadCachedData(today);
      if cached.Some? {
        data := cached.value;
      } else {
        data := FetchAndCacheData(today, fetch);
      }
    }

    /** `load_cached_data`: on a hit the flag is raised; a miss leaves it as
        it was. */
    method LoadCachedData(today: Date) returns (r: Option<CachedData>)
      modifies this
      ensures r == CacheHit(fs.files, filename, today)
      ensures loadedFromCache == (r.Some? || old(loadedFromCache))
      ensures data == old(data)
    {
      r := CacheHit(fs.files, filename, today);
      if r.Some? {
        loadedFromCache := true;
      }
    }

    /** `fetch_and_cache_data`: writes data dated today over the symbol's
        file, so a later load on the same day hits it. */
    method FetchAndCacheData(today: Date, fetch: string -> Snapshot) returns (d: CachedData)
      modifies this, fs
      ensures d == CachedData(fetch(symbol), Some(today))
      ensures fs.files == old(fs.files)[filename := d]
      ensures CacheHit(fs.files, filename, today) == Some(d)
      ensures !loadedFromCache && data == old(data)
    {
      d := CachedData(fetch(symbol), Some(today));
      fs.Write(filename, d);
      loadedFromCache := false;
    }
  }
}
