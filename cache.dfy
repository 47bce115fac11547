/** The single-slot brief cache of intel/cache.go over an abstract file
    system: a map from path to file contents, plus the faults the operating
    system may report. JSON encoding is abstract: a file holds either a
    well-formed cachedBrief record or something that does not decode. */
module Cache {
  import opened Wrappers
  import opened Intel

  /** The on-disk record: the five fields of a Brief. */
  datatype CachedBrief = CachedBrief(
    summary: string,
    keyThreats: seq<string>,
    countryRisks: seq<CountryRisk>,
    generatedAt: int,
    model: string)

  /** The record SaveCachedBrief writes for a brief. */
  function ToRecord(b: Brief): CachedBrief {
    CachedBrief(b.summary, b.keyThreats, b.countryRisks, b.generatedAt, b.model)
  }

  /** The brief LoadCachedBrief builds from a record, field for field. */
  function FromRecord(cb: CachedBrief): Brief {
    Brief(cb.summary, cb.keyThreats, cb.countryRisks, cb.generatedAt, cb.model)
  }

  /** The two conversions are inverse: no field is lost either way. */
  lemma RecordRoundTrip(b: Brief, cb: CachedBrief)
    ensures FromRecord(ToRecord(b)) == b
    ensures ToRecord(FromRecord(cb)) == cb
  {
  }

  /** What a file holds: an encoded record, or bytes json.Unmarshal rejects. */
  datatype FileData = Json(record: CachedBrief) | Unparsable

  /** The faults the operating system can report to the cache code. */
  datatype Faults = Faults(
    homeFails: bool,    // os.UserHomeDir fails
    mkdirFails: bool,   // os.MkdirAll of the cache directory fails
    readFails: bool,    // os.ReadFile of an existing file fails
    encodeFails: bool,  // json.MarshalIndent fails
    writeFails: bool,   // os.WriteFile of the temporary file fails
    renameFails: bool,  // os.Rename onto the cache path fails
    removeFails: bool)  // os.Remove of an existing file fails

  const NoFaults := Faults(false, false, false, false, false, false, false)

  datatype FsError = HomeUnavailable | MkdirFailed | ReadFailed | RemoveFailed

  /** ~/.cache/watchtower/brief.json */
  function CachePath(home: string): string {
    home + "/.cache/watchtower/brief.json"
  }

  function TmpPath(path: string): (tmp: string)
    ensures tmp != path
  {
    path + ".tmp"
  }

  /** cacheFilePath: the cache path, or the error that stops every operation. */
  function PathOf(home: string, faults: Faults): (r: Result<string, FsError>)
    ensures r.Err? <==> faults.homeFails || faults.mkdirFails
    ensures r.Ok? ==> r.value == CachePath(home)
  {
    if faults.homeFails then Err(HomeUnavailable)
    else if faults.mkdirFails then Err(MkdirFailed)
    else Ok(CachePath(home))
  }

  /** Is a record older than maxAge at time `now`? maxAge <= 0 turns the check off. */
  predicate Stale(cb: CachedBrief, maxAge: int, now: int) {
    maxAge > 0 && now - cb.generatedAt > maxAge
  }

  /** LoadCachedBrief's result as a value: Ok(None) is Go's (nil, nil). */
  function LoadOf(files: map<string, FileData>, home: string, faults: Faults, maxAge: int, now: int)
    : Result<Option<Brief>, FsError>
  {
    var p := PathOf(home, faults);
    if p.Err? then Err(p.error)
    else if p.value !in files then Ok(None)
    else if faults.readFails then Err(ReadFailed)
    else match files[p.value]
      case Unparsable => Ok(None)
      case Json(cb) => if Stale(cb, maxAge, now) then Ok(None) else Ok(Some(FromRecord(cb)))
  }

  /** The files after SaveCachedBrief: the record goes to the temporary
      path, which is then renamed onto the cache path. */
  function SavedFiles(files: map<string, FileData>, home: string, faults: Faults, b: Option<Brief>)
    : map<string, FileData>
  {
    var p := PathOf(home, faults);
    if b.None? || p.Err? || faults.encodeFails || faults.writeFails then files
    else
      var tmp := TmpPath(p.value);
      var written := files[tmp := Json(ToRecord(b.value))];
      if faults.renameFails then written
      else (written - {tmp})[p.value := written[tmp]]
  }

  /** ClearBriefCache as a value: its error, if any, and the files after it. */
  function ClearOf(files: map<string, FileData>, home: string, faults: Faults)
    : (Option<FsError>, map<string, FileData>)
  {
    var p := PathOf(home, faults);
    if p.Err? then (Some(p.error), files)
    else if p.value !in files then (None, files)
    else if faults.removeFails then (Some(RemoveFailed), files)
    else (None, files - {p.value})
  }

  // ---------------------------------------------------------------------------
  // Load
  // ---------------------------------------------------------------------------

  /** An absent cache file is a miss, not an error. */
  lemma AbsentIsMiss(files: map<string, FileData>, home: string, faults: Faults, maxAge: int, now: int)
    requires PathOf(home, faults).Ok? && CachePath(home) !in files
    ensures LoadOf(files, home, faults, maxAge, now) == Ok(None)
  {
  }

  /** A file that does not decode is a miss, not an error. */
  lemma CorruptIsMiss(files: map<string, FileData>, home: string, faults: Faults, maxAge: int, now: int)
    requires PathOf(home, faults).Ok? && !faults.readFails
    requires CachePath(home) in files && files[CachePath(home)] == Unparsable
    ensures LoadOf(files, home, faults, maxAge, now) == Ok(None)
  {
  }

  /** Load fails only for a missing home or cache directory, or a read error
      on a file that is there. */
  lemma LoadErrors(files: map<string, FileData>, home: string, faults: Faults, maxAge: int, now: int)
    ensures LoadOf(files, home, faults, maxAge, now).Err? <==>
      faults.homeFails || faults.mkdirFails || (CachePath(home) in files && faults.readFails)
  {
  }

  /** With maxAge > 0 a record strictly older than maxAge is rejected, and one
      exactly maxAge old is returned; maxAge <= 0 returns any record. */
  lemma StaleRule(files: map<string, FileData>, home: string, maxAge: int, now: int, cb: CachedBrief)
    requires CachePath(home) in files && files[CachePath(home)] == Json(cb)
    ensures maxAge > 0 && now - cb.generatedAt > maxAge ==> LoadOf(files, home, NoFaults, maxAge, now) == Ok(None)
    ensures now - cb.generatedAt == maxAge ==> LoadOf(files, home, NoFaults, maxAge, now) == Ok(Some(FromRecord(cb)))
    ensures maxAge <= 0 ==> LoadOf(files, home, NoFaults, maxAge, now) == Ok(Some(FromRecord(cb)))
  {
  }

  // ---------------------------------------------------------------------------
  // Save
  // ---------------------------------------------------------------------------

  /** Path `p` is present in both or neither, with the same contents. */
  predicate SameAt(a: map<string, FileData>, b: map<string, FileData>, p: string) {
    (p in a <==> p in b) && (p in a ==> a[p] == b[p])
  }

  /** Saving nil changes nothing. */
  lemma SaveNilIsNoop(files: map<string, FileData>, home: string, faults: Faults)
    ensures SavedFiles(files, home, faults, None) == files
  {
  }

  /** Saving touches only the cache path and its temporary file. */
  lemma SaveTouchesOnlyCacheFiles(files: map<string, FileData>, home: string, faults: Faults, b: Option<Brief>, q: string)
    requires q != CachePath(home) && q != TmpPath(CachePath(home))
    ensures SameAt(SavedFiles(files, home, faults, b), files, q)
  {
  }

  /** The cache path holds, after a save, what it held before or the complete
      new record; never a partial write. */
  lemma SavePathIsOldOrComplete(files: map<string, FileData>, home: string, faults: Faults, b: Brief)
    ensures var after := SavedFiles(files, home, faults, Some(b)); var path := CachePath(home);
      || (path in after && after[path] == Json(ToRecord(b)))
      || SameAt(after, files, path)
  {
  }

  /** A failed save leaves the cache path as it was. */
  lemma FailedSaveKeepsPath(files: map<string, FileData>, home: string, faults: Faults, b: Option<Brief>)
    requires faults.homeFails || faults.mkdirFails || faults.encodeFails || faults.writeFails || faults.renameFails
    ensures SameAt(SavedFiles(files, home, faults, b), files, CachePath(home))
  {
  }

  /** A successful save is found by the next load, field for field, while the
      record is not older than maxAge. */
  lemma SaveThenLoad(files: map<string, FileData>, home: string, b: Brief, maxAge: int, now: int)
    requires maxAge <= 0 || now - b.generatedAt <= maxAge
    ensures LoadOf(SavedFiles(files, home, NoFaults, Some(b)), home, NoFaults, maxAge, now) == Ok(Some(b))
  {
    var path := CachePath(home);
    var after := SavedFiles(files, home, NoFaults, Some(b));
    assert path in after && after[path] == Json(ToRecord(b));
  }

  // ---------------------------------------------------------------------------
  // Clear
  // ---------------------------------------------------------------------------

  /** Clearing an absent cache succeeds and changes nothing. */
  lemma ClearAbsentSucceeds(files: map<string, FileData>, home: string, faults: Faults)
    requires PathOf(home, faults).Ok? && CachePath(home) !in files
    ensures ClearOf(files, home, faults) == (None, files)
  {
  }

  /** A successful clear removes the cache file and nothing else; the next
      load is a miss. */
  lemma ClearThenLoad(files: map<string, FileData>, home: string, maxAge: int, now: int)
    ensures ClearOf(files, home, NoFaults).0 == None
    ensures ClearOf(files, home, NoFaults).1 == files - {CachePath(home)}
    ensures LoadOf(ClearOf(files, home, NoFaults).1, home, NoFaults, maxAge, now) == Ok(None)
  {
  }

  // ---------------------------------------------------------------------------
  // The file system as mutable state
  // ---------------------------------------------------------------------------

  class Disk {
    var files: map<string, FileData>
    const home: string
    const faults: Faults

    constructor(home: string, files: map<string, FileData>, faults: Faults)
      ensures this.home == home && this.files == files && this.faults == faults
    {
      this.home := home;
      this.files := files;
      this.faults := faults;
    }

    method CacheFilePath() returns (r: Result<string, FsError>)
      ensures r == PathOf(home, faults)
    {
      if faults.homeFails {
        return Err(HomeUnavailable);
      }
      if faults.mkdirFails {
        return Err(MkdirFailed);
      }
      return Ok(CachePath(home));
    }

    /** LoadCachedBrief: read, decode, age check; the file system is only read. */
    method LoadCachedBrief(maxAge: int, now: int) returns (r: Result<Option<Brief>, FsError>)
      ensures r == LoadOf(files, home, faults, maxAge, now)
    {
      var path := CacheFilePath();
      if path.Err? {
        return Err(path.error);
      }
      if path.value !in files {
        return Ok(None);
      }
      if faults.readFails {
        return Err(ReadFailed);
      }
      var data := files[path.value];
      if data.Unparsable? {
        return Ok(None);
      }
      var cb := data.record;
      if maxAge > 0 && now - cb.generatedAt > maxAge {
        return Ok(None);
      }
      return Ok(Some(FromRecord(cb)));
    }

    /** SaveCachedBrief: write the temporary file, then rename it onto the
        cache path; every failure is silent. */
    method SaveCachedBrief(b: Option<Brief>)
      modifies this
      ensures files == SavedFiles(old(files), home, faults, b)
    {
      if b.None? {
        return;
      }
      var path := CacheFilePath();
      if path.Err? {
        return;
      }
      var cb := ToRecord(b.value);
      if faults.encodeFails {
        return;
      }
      var tmp := TmpPath(path.value);
      if faults.writeFails {
        return;
      }
      files := files[tmp := Json(cb)];
      if !faults.renameFails {
        var data := files[tmp];
        files := files - {tmp};
        files := files[path.value := data];
      }
    }

    /** ClearBriefCache: remove the cache file; an absent file is success. */
    method ClearBriefCache() returns (err: Option<FsError>)
      modifies this
      ensures (err, files) == ClearOf(old(files), home, faults)
    {
      var path := CacheFilePath();
      if path.Err? {
        return Some(path.error);
      }
      if path.value !in files {
        return None;
      }
      if faults.removeFails {
        return Some(RemoveFailed);
      }
      files := files - {path.value};
      return None;
    }
  }
}
