/** The cache of JSON files by modification time, among any number of loads, saves and other writers. */
module FileCache {
  import opened Options

  type Path = string

  /** A JSON value. */
  datatype Data = Data(text: string)

  /** A file: what it parses to, none when it is not JSON. */
  datatype File = File(content: Option<Data>, mtime: int)

  // ------------------------------------------------------------ the cache

  datatype Cache = Cache(files: map<Path, Data>, mtimes: map<Path, int>)

  /** The cached value is served for this modification time. */
  predicate Hits(c: Cache, path: Path, mtime: int) {
    path in c.mtimes && c.mtimes[path] == mtime && path in c.files
  }

  function Dropped(c: Cache, path: Path): Cache {
    Cache(c.files - {path}, c.mtimes - {path})
  }

  function Stored(c: Cache, path: Path, data: Data, mtime: int): Cache {
    Cache(c.files[path := data], c.mtimes[path := mtime])
  }

  /** A save's entry; a modification time that could not be read leaves the one there was. */
  function Recorded(c: Cache, path: Path, data: Data, mtime: Option<int>): Cache {
    Cache(c.files[path := data], if mtime.Some? then c.mtimes[path := mtime.value] else c.mtimes)
  }

  datatype Load = Loaded(data: Data) | NotFound | Unreadable

  /** What a load answers and the cache it leaves, from the time it found and what the file then held. */
  function Answer(c: Cache, path: Path, stat: Option<int>, content: Option<Data>): Load {
    match stat
    case None => NotFound
    case Some(m) =>
      if Hits(c, path, m) then Loaded(c.files[path])
      else if content.Some? then Loaded(content.value) else Unreadable
  }

  function Kept(c: Cache, path: Path, stat: Option<int>, content: Option<Data>): Cache {
    match stat
    case None => Dropped(c, path)
    case Some(m) => if Hits(c, path, m) || content.None? then c else Stored(c, path, content.value, m)
  }

  class FileCache {
    var fileCache: map<Path, Data>
    var mtimeCache: map<Path, int>

    constructor ()
      ensures View() == Cache(map[], map[])
    {
      fileCache, mtimeCache := map[], map[];
    }

    ghost function View(): Cache
      reads this
    {
      Cache(fileCache, mtimeCache)
    }

    /** cached_json_load with nothing else at the cache meanwhile: 'stat' is the modification time it
        found, none for no file, and 'content' what reading the file would give it after that. */
    method CachedJsonLoad(path: Path, stat: Option<int>, content: Option<Data>) returns (r: Load)
      modifies this
      ensures r == Answer(old(View()), path, stat, content)
      ensures View() == Kept(old(View()), path, stat, content)
    {
      if stat.None? {
        fileCache := fileCache - {path};
        mtimeCache := mtimeCache - {path};
        return NotFound;
      }
      if path in mtimeCache && mtimeCache[path] == stat.value && path in fileCache {
        return Loaded(fileCache[path]);
      }
      if content.None? {
        return Unreadable;
      }
      var data := content.value;
      fileCache := fileCache[path := data];
      mtimeCache := mtimeCache[path := stat.value];
      return Loaded(data);
    }

    /** invalidate_file_cache: one file, or all of them. */
    method InvalidateFileCache(path: Option<Path>)
      modifies this
      ensures View() == if path.Some? then old(Dropped(View(), path.value)) else Cache(map[], map[])
    {
      if path.None? {
        fileCache, mtimeCache := map[], map[];
      } else {
        fileCache := fileCache - {path.value};
        mtimeCache := mtimeCache - {path.value};
      }
    }

    /** cached_json_save, once the file is replaced; 'stat' is the modification time it then finds. */
    method RecordSave(path: Path, data: Data, stat: Option<int>)
      modifies this
      ensures View() == old(Recorded(View(), path, data, stat))
    {
      fileCache := fileCache[path := data];
      if stat.Some? {
        mtimeCache := mtimeCache[path := stat.value];
      }
    }
  }

  // ------------------------------------------------------------ loads and saves side by side

  /** Where one load or save stands. */
  datatype Phase =
    | Statted(path: Path, stat: Option<int>)
    | Missed(path: Path, mtime: int)
    | HasRead(path: Path, mtime: int, data: Data)
    | Replaced(path: Path, data: Data, mtime: int)
    | Over(path: Path, since: Option<int>, answer: Load)

  /** 'versions' is what every file held at each modification time it ever had. */
  datatype World = World(
    disk: map<Path, File>,
    versions: map<(Path, int), Option<Data>>,
    clock: int,
    cache: Cache,
    phases: map<nat, Phase>)

  datatype Event =
    | Write(path: Path, content: Option<Data>)
    | Delete(path: Path)
    | Invalidate(path: Path)
    | InvalidateAll
    | Stat(id: nat, path: Path)
    | Look(id: nat)
    | ReadFile(id: nat)
    | Keep(id: nat)
    | Replace(id: nat, path: Path, data: Data)
    | Record(id: nat)

  /** Every write of a file gives it a modification time no file had before. */
  function Written(w: World, path: Path, content: Option<Data>): World {
    var m := w.clock + 1;
    w.(disk := w.disk[path := File(content, m)], versions := w.versions[(path, m) := content], clock := m)
  }

  function MtimeOf(w: World, path: Path): Option<int> {
    if path in w.disk then Some(w.disk[path].mtime) else None
  }

  predicate Enabled(w: World, e: Event) {
    match e
    case Stat(id, _) => id !in w.phases
    case Look(id) => id in w.phases && w.phases[id].Statted?
    case ReadFile(id) => id in w.phases && w.phases[id].Missed?
    case Keep(id) => id in w.phases && w.phases[id].HasRead?
    case Replace(id, _, _) => id !in w.phases
    case Record(id) => id in w.phases && w.phases[id].Replaced?
    case _ => true
  }

  function Next(w: World, e: Event): World
    requires Enabled(w, e)
  {
    match e
    case Write(path, content) => Written(w, path, content)
    case Delete(path) => w.(disk := w.disk - {path})
    case Invalidate(path) => w.(cache := Dropped(w.cache, path))
    case InvalidateAll => w.(cache := Cache(map[], map[]))
    case Stat(id, path) => w.(phases := w.phases[id := Statted(path, MtimeOf(w, path))])
    case Look(id) =>
      var (path, stat) := (w.phases[id].path, w.phases[id].stat);
      if stat.None? then
        w.(cache := Dropped(w.cache, path), phases := w.phases[id := Over(path, stat, NotFound)])
      else if Hits(w.cache, path, stat.value) then
        w.(phases := w.phases[id := Over(path, stat, Loaded(w.cache.files[path]))])
      else w.(phases := w.phases[id := Missed(path, stat.value)])
    case ReadFile(id) =>
      var (path, m) := (w.phases[id].path, w.phases[id].mtime);
      if path in w.disk && w.disk[path].content.Some? then
        w.(phases := w.phases[id := HasRead(path, m, w.disk[path].content.value)])
      else w.(phases := w.phases[id := Over(path, Some(m), Unreadable)])
    case Keep(id) =>
      var (path, m, data) := (w.phases[id].path, w.phases[id].mtime, w.phases[id].data);
      w.(cache := Stored(w.cache, path, data, m), phases := w.phases[id := Over(path, Some(m), Loaded(data))])
    case Replace(id, path, data) =>
      var after := Written(w, path, Some(data));
      after.(phases := w.phases[id := Replaced(path, data, after.clock)])
    case Record(id) =>
      var (path, data) := (w.phases[id].path, w.phases[id].data);
      w.(cache := Recorded(w.cache, path, data, MtimeOf(w, path)), phases := w.phases - {id})
  }

  /** No other writer got in between a save's replacing the file and its reading the time of it. */
  predicate Undisturbed(w: World, e: Event)
    requires Enabled(w, e)
  {
    e.Record? ==> MtimeOf(w, w.phases[e.id].path) == Some(w.phases[e.id].mtime)
  }

  predicate Run(w: World, events: seq<Event>)
    decreases |events|
  {
    events == [] || (Enabled(w, events[0]) && Undisturbed(w, events[0]) && Run(Next(w, events[0]), events[1..]))
  }

  function After(w: World, events: seq<Event>): World
    requires Run(w, events)
    decreases |events|
  {
    if events == [] then w else After(Next(w, events[0]), events[1..])
  }

  /** A process that has cached nothing yet, over any files. */
  predicate Fresh(w: World) {
    w.cache == Cache(map[], map[]) && w.phases == map[] && DiskWell(w)
  }

  // ------------------------------------------------------------ what holds throughout

  /** The file held this at that time or at a later one. */
  ghost predicate HeldSince(w: World, path: Path, mtime: int, data: Data) {
    exists m :: mtime <= m && (path, m) in w.versions && w.versions[(path, m)] == Some(data)
  }

  /** The disk shows each file's latest version. */
  predicate DiskWell(w: World) {
    && (forall path :: path in w.disk ==>
          w.disk[path].mtime <= w.clock && (path, w.disk[path].mtime) in w.versions &&
          w.versions[(path, w.disk[path].mtime)] == w.disk[path].content)
    && (forall v :: v in w.versions ==> v.1 <= w.clock && (v.0 in w.disk ==> v.1 <= w.disk[v.0].mtime))
  }

  ghost predicate CacheWell(w: World) {
    forall path :: path in w.cache.files && path in w.cache.mtimes ==>
      HeldSince(w, path, w.cache.mtimes[path], w.cache.files[path])
  }

  ghost predicate PhaseWell(w: World, p: Phase) {
    match p
    case Statted(_, _) => true
    case Missed(path, m) => (path, m) in w.versions
    case HasRead(path, m, data) => HeldSince(w, path, m, data)
    case Replaced(path, data, m) => (path, m) in w.versions && w.versions[(path, m)] == Some(data)
    case Over(path, since, answer) => answer.Loaded? ==> since.Some? && HeldSince(w, path, since.value, answer.data)
  }

  /** What a load found at its stat is a version there has been. */
  predicate StatWell(w: World, p: Phase) {
    p.Statted? && p.stat.Some? ==> (p.path, p.stat.value) in w.versions
  }

  ghost predicate Well(w: World) {
    && DiskWell(w) && CacheWell(w)
    && (forall id :: id in w.phases ==> PhaseWell(w, w.phases[id]) && StatWell(w, w.phases[id]))
  }

  lemma StillHeld(w: World, next: World, path: Path, mtime: int, data: Data)
    requires HeldSince(w, path, mtime, data)
    requires forall v :: v in w.versions ==> v in next.versions && next.versions[v] == w.versions[v]
    ensures HeldSince(next, path, mtime, data)
  {
    var m :| mtime <= m && (path, m) in w.versions && w.versions[(path, m)] == Some(data);
    assert next.versions[(path, m)] == Some(data);
  }

  lemma WrittenIsWell(w: World, path: Path, content: Option<Data>)
    requires DiskWell(w)
    ensures DiskWell(Written(w, path, content))
    ensures forall v :: v in w.versions ==> v in Written(w, path, content).versions && Written(w, path, content).versions[v] == w.versions[v]
  {
  }

  lemma OnlyWritesReachTheDisk(w: World, e: Event)
    requires Enabled(w, e) && !e.Write? && !e.Replace? && !e.Delete?
    ensures var next := Next(w, e); next.disk == w.disk && next.versions == w.versions && next.clock == w.clock
  {
  }

  lemma VersionsStay(w: World, e: Event)
    requires DiskWell(w) && Enabled(w, e)
    ensures DiskWell(Next(w, e))
    ensures forall v :: v in w.versions ==> v in Next(w, e).versions && Next(w, e).versions[v] == w.versions[v]
  {
    match e
    case Write(path, content) => WrittenIsWell(w, path, content);
    case Replace(_, path, data) => WrittenIsWell(w, path, Some(data));
    case Delete(_) =>
    case _ => OnlyWritesReachTheDisk(w, e);
  }

  lemma HeldNow(w: World, path: Path, mtime: int)
    requires DiskWell(w) && path in w.disk && w.disk[path].content.Some? && (path, mtime) in w.versions
    ensures HeldSince(w, path, mtime, w.disk[path].content.value)
  {
  }

  lemma CacheStaysWell(w: World, e: Event)
    requires Well(w) && Enabled(w, e) && Undisturbed(w, e)
    ensures CacheWell(Next(w, e))
  {
    var next := Next(w, e);
    VersionsStay(w, e);
    forall path | path in next.cache.files && path in next.cache.mtimes
      ensures HeldSince(next, path, next.cache.mtimes[path], next.cache.files[path])
    {
      if e.Keep? && path == w.phases[e.id].path {
        StillHeld(w, next, path, w.phases[e.id].mtime, w.phases[e.id].data);
      } else if e.Record? && path == w.phases[e.id].path {
        assert w.versions[(path, w.phases[e.id].mtime)] == Some(w.phases[e.id].data);
      } else {
        StillHeld(w, next, path, w.cache.mtimes[path], w.cache.files[path]);
      }
    }
  }

  lemma PhaseStaysWell(w: World, next: World, p: Phase)
    requires PhaseWell(w, p) && StatWell(w, p)
    requires forall v :: v in w.versions ==> v in next.versions && next.versions[v] == w.versions[v]
    ensures PhaseWell(next, p) && StatWell(next, p)
  {
    match p
    case HasRead(path, m, data) => StillHeld(w, next, path, m, data);
    case Over(path, since, answer) =>
      if answer.Loaded? {
        StillHeld(w, next, path, since.value, answer.data);
      }
    case _ =>
  }

  lemma MovedIsWell(w: World, e: Event, id: nat)
    requires Well(w) && Enabled(w, e) && id in Next(w, e).phases
    requires id !in w.phases || Next(w, e).phases[id] != w.phases[id]
    ensures PhaseWell(Next(w, e), Next(w, e).phases[id]) && StatWell(Next(w, e), Next(w, e).phases[id])
  {
    match e
    case Look(_) => LookedIsWell(w, id);
    case ReadFile(_) => ReadIsWell(w, id);
    case Keep(_) => assert PhaseWell(w, w.phases[id]);
    case _ => VersionsStay(w, e);
  }

  lemma LookedIsWell(w: World, id: nat)
    requires Well(w) && Enabled(w, Look(id))
    ensures var next := Next(w, Look(id)); PhaseWell(next, next.phases[id]) && StatWell(next, next.phases[id])
  {
    var p := w.phases[id];
    assert StatWell(w, p);
    if p.stat.Some? && Hits(w.cache, p.path, p.stat.value) {
      assert HeldSince(w, p.path, p.stat.value, w.cache.files[p.path]);
      StillHeld(w, Next(w, Look(id)), p.path, p.stat.value, w.cache.files[p.path]);
    }
  }

  lemma ReadIsWell(w: World, id: nat)
    requires Well(w) && Enabled(w, ReadFile(id))
    ensures var next := Next(w, ReadFile(id)); PhaseWell(next, next.phases[id]) && StatWell(next, next.phases[id])
  {
    var p := w.phases[id];
    assert PhaseWell(w, p);
    if p.path in w.disk && w.disk[p.path].content.Some? {
      HeldNow(w, p.path, p.mtime);
      StillHeld(w, Next(w, ReadFile(id)), p.path, p.mtime, w.disk[p.path].content.value);
    }
  }

  lemma WellIsKept(w: World, e: Event)
    requires Well(w) && Enabled(w, e) && Undisturbed(w, e)
    ensures Well(Next(w, e))
  {
    var next := Next(w, e);
    VersionsStay(w, e);
    CacheStaysWell(w, e);
    forall id | id in next.phases ensures PhaseWell(next, next.phases[id]) && StatWell(next, next.phases[id]) {
      if id !in w.phases || next.phases[id] != w.phases[id] {
        MovedIsWell(w, e, id);
      } else {
        PhaseStaysWell(w, next, w.phases[id]);
      }
    }
  }

  lemma {:induction false} RunsStayWell(w: World, events: seq<Event>)
    requires Well(w) && Run(w, events)
    ensures Well(After(w, events))
    decreases |events|
  {
    if events != [] {
      WellIsKept(w, events[0]);
      RunsStayWell(Next(w, events[0]), events[1..]);
    }
  }

  // ------------------------------------------------------------ what the cache promises

  /** Whenever the cached time is the file's, the cached data is what the file holds. */
  ghost predicate Coherent(w: World) {
    forall path :: path in w.disk && Hits(w.cache, path, w.disk[path].mtime) ==>
      w.disk[path].content == Some(w.cache.files[path])
  }

  lemma WellIsCoherent(w: World)
    requires Well(w)
    ensures Coherent(w)
  {
    forall path | path in w.disk && Hits(w.cache, path, w.disk[path].mtime)
      ensures w.disk[path].content == Some(w.cache.files[path])
    {
      assert HeldSince(w, path, w.cache.mtimes[path], w.cache.files[path]);
    }
  }

  /** In every run in which no writer gets between a save's replace and its stat, the cache is coherent. */
  lemma CacheIsCoherent(w: World, events: seq<Event>)
    requires Fresh(w) && Run(w, events)
    ensures Coherent(After(w, events))
  {
    RunsStayWell(w, events);
    WellIsCoherent(After(w, events));
  }

  /** And every load that answers, from the cache or not, answers what its file held at its stat or at
      some later time. */
  lemma LoadsAnswerWhatTheFileHeld(w: World, events: seq<Event>, id: nat)
    requires Fresh(w) && Run(w, events)
    requires var after := After(w, events); id in after.phases && after.phases[id].Over? && after.phases[id].answer.Loaded?
    ensures var (after, load) := (After(w, events), After(w, events).phases[id]);
      load.since.Some? && HeldSince(after, load.path, load.since.value, load.answer.data)
  {
    RunsStayWell(w, events);
    assert PhaseWell(After(w, events), After(w, events).phases[id]);
  }

  /** A whole load, with nothing else between. */
  function LoadAt(w: World, id: nat, path: Path): World
    requires id !in w.phases
  {
    var looked := Next(Next(w, Stat(id, path)), Look(id));
    if looked.phases[id].Over? then looked
    else
      var done := Next(looked, ReadFile(id));
      if done.phases[id].Over? then done else Next(done, Keep(id))
  }

  /** Those steps, on their own, are the whole of cached_json_load. */
  lemma LoadIsItsSteps(w: World, id: nat, path: Path)
    requires id !in w.phases
    ensures var (stat, content) := (MtimeOf(w, path), if path in w.disk then w.disk[path].content else None);
      && LoadAt(w, id, path).phases[id] == Over(path, stat, Answer(w.cache, path, stat, content))
      && LoadAt(w, id, path).cache == Kept(w.cache, path, stat, content)
      && LoadAt(w, id, path).disk == w.disk
  {
  }

  /** What reading the file anew gives. */
  function OnDisk(w: World, path: Path): Load {
    if path !in w.disk then NotFound
    else if w.disk[path].content.None? then Unreadable
    else Loaded(w.disk[path].content.value)
  }

  predicate Answers(w: World, id: nat, path: Path, answer: Load)
    requires id !in w.phases
  {
    var p := LoadAt(w, id, path).phases[id];
    p.Over? && p.answer == answer
  }

  /** A load that nothing gets in the way of answers as reading the file anew would, whatever ran before. */
  lemma CoherentLoadsAreFresh(w: World, id: nat, path: Path)
    requires Coherent(w) && id !in w.phases
    ensures Answers(w, id, path, OnDisk(w, path))
  {
  }

  /** A save leaves a cache that loads its file afresh exactly when the file still holds what the save wrote
      or is gone; a writer who gets in between with anything else is hidden from the next load. */
  lemma SaveMayHideAWrite(w: World, id: nat, other: nat)
    requires Well(w) && Enabled(w, Record(id)) && other !in w.phases
    ensures var (path, data) := (w.phases[id].path, w.phases[id].data);
      Answers(Next(w, Record(id)), other, path, OnDisk(w, path)) <==>
      path !in w.disk || w.disk[path].content == Some(data)
  {
  }

  /** A save, and another process's write between its replace and its stat: the next load answers the
      save's data, though the file holds the other's. */
  lemma AWriteBetweenIsHidden(path: Path, mine: Data, theirs: Data)
    requires mine != theirs
    ensures var start := World(map[], map[], 0, Cache(map[], map[]), map[]);
      var end := Next(Next(Next(start, Replace(0, path, mine)), Write(path, Some(theirs))), Record(0));
      Fresh(start) && !Coherent(end) && Answers(end, 1, path, Loaded(mine)) && OnDisk(end, path) == Loaded(theirs)
  {
  }

  /** A load of a file the cache does not have reads the file anew. */
  lemma UncachedIsReadAnew(w: World, id: nat, path: Path)
    requires id !in w.phases && path !in w.cache.files
    ensures Answers(w, id, path, OnDisk(w, path))
  {
    LoadIsItsSteps(w, id, path);
  }

  /** After an invalidation, of the file or of all of them, the next load reads the file anew, whatever was
      cached. */
  lemma InvalidatedIsReadAnew(w: World, id: nat, path: Path)
    requires id !in w.phases
    ensures Answers(Next(w, Invalidate(path)), id, path, OnDisk(w, path))
    ensures Answers(Next(w, InvalidateAll), id, path, OnDisk(w, path))
  {
    UncachedIsReadAnew(Next(w, Invalidate(path)), id, path);
    UncachedIsReadAnew(Next(w, InvalidateAll), id, path);
  }

  /** A file that a load answered is answered from the cache until its time changes: the next load is over
      without reading it. */
  lemma LoadedIsCached(w: World, id: nat, other: nat, path: Path)
    requires Coherent(w) && id !in w.phases && other !in w.phases && other != id && OnDisk(w, path).Loaded?
    ensures var after := LoadAt(w, id, path);
      && after.phases[id].Over? && other !in after.phases
      && var looked := Next(Next(after, Stat(other, path)), Look(other));
         looked.phases[other].Over? && looked.phases[other].answer == OnDisk(w, path)
  {
  }

  /** A load of a file that is gone forgets it. */
  lemma AGoneFileIsForgotten(w: World, id: nat, path: Path)
    requires id !in w.phases && path !in w.disk
    ensures var after := LoadAt(w, id, path).cache; path !in after.files && path !in after.mtimes
    ensures Answers(w, id, path, NotFound)
  {
  }
}
