/** One person's memory for one agent: their own tree laid over the agent's, and saves into either. */
module MemoryOverlay {
  import opened Options

  /** A stored value: an object, or anything else (a list, a string, a number, null). */
  datatype Json = Obj(fields: map<string, Json>) | Leaf(text: string)

  const EMPTY: Json := Obj(map[])

  /** The parts of a key, split at its dots; never none. */
  type Path = p: seq<string> | p != [] witness [""]

  function FieldOr(j: Json, key: string, missing: Json): Json {
    if j.Obj? && key in j.fields then j.fields[key] else missing
  }

  // ------------------------------------------------------------ the overlay

  /** One field of 'own' laid over the same field of 'shared'. */
  predicate Merges(shared: Json, own: Json, key: string)
    requires shared.Obj? && own.Obj?
  {
    key in own.fields && own.fields[key].Obj? && key in shared.fields && shared.fields[key].Obj?
  }

  /** _overlay */
  function Overlay(shared: Json, own: Json): (view: Json)
    requires shared.Obj? && own.Obj?
    ensures view.Obj? && view.fields.Keys == shared.fields.Keys + own.fields.Keys
    decreases own
  {
    Obj(map k | k in shared.fields.Keys + own.fields.Keys ::
      if k !in own.fields then shared.fields[k]
      else if Merges(shared, own, k) then Overlay(shared.fields[k], own.fields[k])
      else own.fields[k])
  }

  /** The loop over own's fields that builds the view. */
  method OverlayOf(shared: Json, own: Json) returns (view: Json)
    requires shared.Obj? && own.Obj?
    ensures view == Overlay(shared, own)
    decreases own
  {
    var fields := shared.fields;
    var left := own.fields.Keys;
    while left != {}
      invariant left <= own.fields.Keys
      invariant fields.Keys == shared.fields.Keys + (own.fields.Keys - left)
      invariant forall k :: k in fields ==>
        fields[k] == if k in left then shared.fields[k] else Overlay(shared, own).fields[k]
      decreases left
    {
      var k :| k in left;
      var value := own.fields[k];
      assert k in fields <==> k in shared.fields;
      if value.Obj? && k in fields && fields[k].Obj? {
        value := OverlayOf(fields[k], value);
      }
      fields := fields[k := value];
      left := left - {k};
    }
    assert fields == Overlay(shared, own).fields;
    view := Obj(fields);
  }

  // ------------------------------------------------------------ reading and saving

  function Read(j: Json, path: seq<string>): Option<Json> {
    if path == [] then Some(j)
    else if j.Obj? && path[0] in j.fields then Read(j.fields[path[0]], path[1..])
    else None
  }

  /** The path runs through a value that is no object. */
  predicate Blocked(j: Json, path: seq<string>) {
    path != [] && (j.Leaf? || (path[0] in j.fields && Blocked(j.fields[path[0]], path[1..])))
  }

  datatype Written = Written(tree: Json, ok: bool)

  /** The save's descent, making the objects that are missing, and its assignment at the end; 'ok' is
      whether no step was refused. The tree is the one left behind either way. */
  function SaveAt(j: Json, path: Path, value: Json): Written
    decreases |path|
  {
    if j.Leaf? then Written(j, false)
    else if |path| == 1 then Written(Obj(j.fields[path[0] := value]), true)
    else
      var below := SaveAt(FieldOr(j, path[0], EMPTY), path[1..], value);
      Written(Obj(j.fields[path[0] := below.tree]), below.ok)
  }

  /** Neither path is at or under the other. */
  predicate Apart(p: seq<string>, q: seq<string>) {
    !(p <= q) && !(q <= p)
  }

  /** A save is refused exactly when its path runs through a non-object, and then it leaves everything as
      it was: no object it made on the way stays behind. */
  lemma {:induction false} RefusedSaveChangesNothing(j: Json, path: Path, value: Json)
    ensures SaveAt(j, path, value).ok <==> !Blocked(j, path)
    ensures !SaveAt(j, path, value).ok ==> SaveAt(j, path, value).tree == j
    decreases |path|
  {
    if j.Obj? && |path| > 1 {
      var next := FieldOr(j, path[0], EMPTY);
      RefusedSaveChangesNothing(next, path[1..], value);
      if path[0] !in j.fields {
        assert !Blocked(EMPTY, path[1..]);
      } else if !SaveAt(j, path, value).ok {
        assert j.fields[path[0] := j.fields[path[0]]] == j.fields;
      }
    }
  }

  /** What was saved is what is read back at its path, and nothing blocks the path any more. */
  lemma {:induction false} SavedIsReadBack(j: Json, path: Path, value: Json)
    requires SaveAt(j, path, value).ok
    ensures Read(SaveAt(j, path, value).tree, path) == Some(value)
    ensures !Blocked(SaveAt(j, path, value).tree, path)
    decreases |path|
  {
    if |path| > 1 {
      SavedIsReadBack(FieldOr(j, path[0], EMPTY), path[1..], value);
    } else {
      assert path[1..] == [];
    }
  }

  /** A path apart from the saved one reads as it did, and is blocked as it was. */
  lemma {:induction false} ApartIsUntouched(j: Json, path: Path, value: Json, q: seq<string>)
    requires Apart(path, q)
    ensures Read(SaveAt(j, path, value).tree, q) == Read(j, q)
    ensures Blocked(SaveAt(j, path, value).tree, q) <==> Blocked(j, q)
    decreases |path|
  {
    assert q[0] == path[0] ==> |path| > 1;
    if j.Obj? && q[0] == path[0] {
      assert path == [path[0]] + path[1..] && q == [q[0]] + q[1..];
      ApartIsUntouched(FieldOr(j, path[0], EMPTY), path[1..], value, q[1..]);
    }
  }

  // ------------------------------------------------------------ what the view reads

  /** The entry the view shows where the agent holds 'shared' and the person 'own'. */
  function Merged(shared: Option<Json>, own: Option<Json>): Option<Json> {
    if own.None? then shared
    else if shared.Some? && shared.value.Obj? && own.value.Obj? then Some(Overlay(shared.value, own.value))
    else own
  }

  lemma OverlayWithNothing(shared: Json)
    requires shared.Obj?
    ensures Overlay(shared, EMPTY) == shared
  {
    assert Overlay(shared, EMPTY).fields == shared.fields;
  }

  /** Every read of the view, at any path: the person's entry over the agent's, merged where both are
      objects, the agent's where the person holds nothing; a non-object of the person's hides everything
      the agent keeps under it. */
  lemma {:induction false} ViewReads(shared: Json, own: Json, path: seq<string>)
    requires shared.Obj? && own.Obj?
    ensures Read(Overlay(shared, own), path) ==
      if Blocked(own, path) then None else Merged(Read(shared, path), Read(own, path))
    decreases |path|
  {
    if path != [] {
      var k := path[0];
      if Merges(shared, own, k) {
        ViewReads(shared.fields[k], own.fields[k], path[1..]);
      } else if k in own.fields {
        NothingUnder(own.fields[k], path[1..]);
        if k in shared.fields && own.fields[k].Obj? {
          NothingUnder(shared.fields[k], path[1..]);
        }
      }
    }
  }

  /** A blocked path reads nothing; under a non-object there is nothing to read. */
  lemma {:induction false} NothingUnder(j: Json, path: seq<string>)
    ensures Blocked(j, path) ==> Read(j, path).None?
    ensures j.Leaf? && path != [] ==> Read(j, path).None? && Blocked(j, path)
    decreases |path|
  {
    if path != [] && j.Obj? && path[0] in j.fields {
      NothingUnder(j.fields[path[0]], path[1..]);
    }
  }

  /** Laying the same entries over the view again changes nothing. */
  lemma {:induction false} OverlayIsIdempotent(shared: Json, own: Json)
    requires shared.Obj? && own.Obj?
    ensures Overlay(Overlay(shared, own), own) == Overlay(shared, own)
    decreases own
  {
    var view := Overlay(shared, own);
    forall k | k in view.fields ensures Overlay(view, own).fields[k] == view.fields[k] {
      if Merges(shared, own, k) {
        OverlayIsIdempotent(shared.fields[k], own.fields[k]);
      } else if k in own.fields && own.fields[k].Obj? {
        OverlayOfItself(own.fields[k]);
      }
    }
    assert Overlay(view, own).fields == view.fields;
  }

  lemma {:induction false} OverlayOfItself(j: Json)
    requires j.Obj?
    ensures Overlay(j, j) == j
    decreases j
  {
    forall k | k in j.fields ensures Overlay(j, j).fields[k] == j.fields[k] {
      if j.fields[k].Obj? {
        OverlayOfItself(j.fields[k]);
      }
    }
    assert Overlay(j, j).fields == j.fields;
  }

  // ------------------------------------------------------------ the stores

  function StoreOf(stores: map<string, Json>, id: string): Json {
    if id in stores then stores[id] else EMPTY
  }

  /** A store that is no object counts as empty. */
  function Entries(j: Json): (r: Json)
    ensures r.Obj?
  {
    if j.Obj? then j else EMPTY
  }

  /** memory_view: the agent's store under the person's own. */
  function MemoryView(stores: map<string, Json>, agent: string, person: string): Json {
    Overlay(Entries(StoreOf(stores, agent)), Entries(StoreOf(stores, person)))
  }

  function Saved(stores: map<string, Json>, id: string, path: Path, value: Json): map<string, Json> {
    stores[id := SaveAt(StoreOf(stores, id), path, value).tree]
  }

  /** The stores after a save: it goes to the agent's only when its creator asks for that while building. */
  function AfterSave(stores: map<string, Json>, agent: string, person: string, path: Path, value: Json,
                     wantsShared: bool, building: bool, creator: bool): map<string, Json>
  {
    Saved(stores, if wantsShared && building && creator then agent else person, path, value)
  }

  class AgentData {
    var stores: map<string, Json>

    constructor ()
      ensures stores == map[]
    {
      stores := map[];
    }

    /** save_data_in_memory, from the parts of the key on; false when a step of the path was refused. */
    method SaveDataInMemory(agent: string, person: string, keys: Path, value: Json,
                            wantsShared: bool, building: bool, creator: bool) returns (ok: bool)
      modifies this
      ensures stores == AfterSave(old(stores), agent, person, keys, value, wantsShared, building, creator)
      ensures ok <==> !Blocked(StoreOf(old(stores), if wantsShared && building && creator then agent else person), keys)
      ensures !ok ==> forall j :: StoreOf(stores, j) == StoreOf(old(stores), j)
    {
      var shared := wantsShared && building && creator;
      var storeKey := if shared then agent else person;
      if storeKey !in stores {
        stores := stores[storeKey := EMPTY];
      }
      RefusedSaveChangesNothing(stores[storeKey], keys, value);
      var written := SaveAt(stores[storeKey], keys, value);
      stores := stores[storeKey := written.tree];
      ok := written.ok;
    }

    /** _read_saved, without its fallback: the value in the person's view, or none. */
    method ReadSaved(agent: string, person: string, keys: Path) returns (found: Option<Json>)
      ensures found == Read(MemoryView(stores, agent, person), keys)
    {
      var shared := Entries(StoreOf(stores, agent));
      var own := Entries(StoreOf(stores, person));
      var d := OverlayOf(shared, own);
      var i := 0;
      while i < |keys|
        invariant 0 <= i <= |keys|
        invariant Read(MemoryView(stores, agent, person), keys) == Read(d, keys[i..])
      {
        if d.Leaf? || keys[i] !in d.fields {
          return None;
        }
        d := d.fields[keys[i]];
        assert keys[i..][1..] == keys[i + 1..];
        i := i + 1;
      }
      return Some(d);
    }
  }

  /** A person reads back what they saved, merged over the agent's entry when both are objects. */
  lemma PersonalSaveIsReadBack(stores: map<string, Json>, agent: string, person: string, path: Path, value: Json)
    requires agent != person && !Blocked(StoreOf(stores, person), path)
    ensures Read(MemoryView(Saved(stores, person, path, value), agent, person), path) ==
      Merged(Read(Entries(StoreOf(stores, agent)), path), Some(value))
  {
    var own := StoreOf(stores, person);
    RefusedSaveChangesNothing(own, path, value);
    SavedIsReadBack(own, path, value);
    ViewReads(Entries(StoreOf(stores, agent)), SaveAt(own, path, value).tree, path);
  }

  /** A personal save leaves the person's view alone at every path apart from the saved one, and leaves
      everyone else's view of every agent as it was, at every path. */
  lemma PersonalSaveTouchesNothingElse(stores: map<string, Json>, agent: string, person: string, path: Path, value: Json, q: seq<string>)
    requires agent != person && Apart(path, q)
    ensures Read(MemoryView(Saved(stores, person, path, value), agent, person), q) ==
      Read(MemoryView(stores, agent, person), q)
    ensures forall a, other :: a != person && other != person ==>
      MemoryView(Saved(stores, person, path, value), a, other) == MemoryView(stores, a, other)
  {
    var shared, own := Entries(StoreOf(stores, agent)), StoreOf(stores, person);
    ApartIsUntouched(own, path, value, q);
    ViewReads(shared, Entries(own), q);
    ViewReads(shared, Entries(SaveAt(own, path, value).tree), q);
  }

  /** A save for everyone shows in each person's view under their own entries, and is not read back at all
      exactly by those whose own memory blocks its path; paths apart from it read as they did. */
  lemma SharedSaveShowsUnderOwn(stores: map<string, Json>, agent: string, person: string, path: Path, value: Json, q: seq<string>)
    requires agent != person && !Blocked(StoreOf(stores, agent), path) && Apart(path, q)
    ensures var own := Entries(StoreOf(stores, person));
      Read(MemoryView(Saved(stores, agent, path, value), agent, person), path) ==
        if Blocked(own, path) then None else Merged(Some(value), Read(own, path))
    ensures Read(MemoryView(Saved(stores, agent, path, value), agent, person), q) ==
      Read(MemoryView(stores, agent, person), q)
  {
    var shared, own := StoreOf(stores, agent), Entries(StoreOf(stores, person));
    RefusedSaveChangesNothing(shared, path, value);
    SavedIsReadBack(shared, path, value);
    ApartIsUntouched(shared, path, value, q);
    ViewReads(SaveAt(shared, path, value).tree, own, path);
    ViewReads(SaveAt(shared, path, value).tree, own, q);
    ViewReads(Entries(shared), own, q);
  }

  /** A null the person keeps where the agent's form goes hides its title, saved for everyone, from them
      alone. */
  lemma AnOwnValueHidesASharedSave(title: Json)
    ensures var stores := map["ann" := Obj(map["form" := Leaf("null")])];
      var after := Saved(stores, "agent", ["form", "title"], title);
      && SaveAt(StoreOf(stores, "agent"), ["form", "title"], title).ok
      && Read(MemoryView(after, "agent", "ann"), ["form", "title"]) == None
      && Read(MemoryView(after, "agent", "bob"), ["form", "title"]) == Some(title)
  {
    var stores := map["ann" := Obj(map["form" := Leaf("null")])];
    var path := ["form", "title"];
    assert path[1..] == ["title"] && path[0] == "form";
    assert !Blocked(EMPTY, path) && Blocked(Leaf("null"), path[1..]);
    RefusedSaveChangesNothing(EMPTY, path, title);
    assert Apart(path, ["other"]);
    SharedSaveShowsUnderOwn(stores, "agent", "ann", path, title, ["other"]);
    SharedSaveShowsUnderOwn(stores, "agent", "bob", path, title, ["other"]);
  }

  /** Whom a save reaches, by its three flags.  With all of them it is the agent's own, and what everyone who
      keeps nothing there reads; without one it is the saver's alone: they read it back, and the agent's store
      and everyone else's view are as they were. */
  lemma WhomASaveReaches(stores: map<string, Json>, agent: string, person: string, other: string, path: Path, value: Json,
                         wantsShared: bool, building: bool, creator: bool)
    requires agent != person && person != other && agent != other
    ensures var after := AfterSave(stores, agent, person, path, value, wantsShared, building, creator);
      && (wantsShared && building && creator && !Blocked(StoreOf(stores, agent), path) && other !in stores ==>
            Read(MemoryView(after, agent, other), path) == Some(value))
      && (wantsShared && building && creator ==> StoreOf(after, person) == StoreOf(stores, person))
      && (!(wantsShared && building && creator) ==>
            StoreOf(after, agent) == StoreOf(stores, agent) && MemoryView(after, agent, other) == MemoryView(stores, agent, other))
      && (!(wantsShared && building && creator) && !Blocked(StoreOf(stores, person), path) ==>
            Read(MemoryView(after, agent, person), path) == Merged(Read(Entries(StoreOf(stores, agent)), path), Some(value)))
  {
    if wantsShared && building && creator {
      if !Blocked(StoreOf(stores, agent), path) {
        RefusedSaveChangesNothing(StoreOf(stores, agent), path, value);
        SavedIsReadBack(StoreOf(stores, agent), path, value);
        OverlayWithNothing(Entries(SaveAt(StoreOf(stores, agent), path, value).tree));
      }
    } else if !Blocked(StoreOf(stores, person), path) {
      PersonalSaveIsReadBack(stores, agent, person, path, value);
    }
  }

  /** Only the agent's creator, while building it, changes what another person reads. */
  lemma OnlyTheCreatorReachesOthers(stores: map<string, Json>, agent: string, person: string, other: string, path: Path, value: Json,
                                    wantsShared: bool, building: bool, creator: bool)
    requires agent != person && person != other
    ensures MemoryView(AfterSave(stores, agent, person, path, value, wantsShared, building, creator), agent, other) !=
              MemoryView(stores, agent, other) ==>
        wantsShared && building && creator
  {
  }

  // ------------------------------------------------------------ runs of saves

  /** A save by anyone, with the store it goes to. */
  datatype Save = Save(id: string, path: Path, value: Json)

  function AfterSaves(stores: map<string, Json>, saves: seq<Save>): map<string, Json>
    decreases |saves|
  {
    if saves == [] then stores
    else AfterSaves(Saved(stores, saves[0].id, saves[0].path, saves[0].value), saves[1..])
  }

  /** The saves that went to one of these two stores. */
  function Reaching(saves: seq<Save>, agent: string, person: string): seq<Save>
    decreases |saves|
  {
    if saves == [] then []
    else (if saves[0].id == agent || saves[0].id == person then [saves[0]] else []) + Reaching(saves[1..], agent, person)
  }

  /** Over any run of saves by anyone, a person reads what they would read had nobody else saved anything
      of their own. */
  lemma OthersSavesAreInvisible(stores: map<string, Json>, agent: string, person: string, saves: seq<Save>)
    ensures MemoryView(AfterSaves(stores, saves), agent, person) ==
      MemoryView(AfterSaves(stores, Reaching(saves, agent, person)), agent, person)
  {
    SameTwoStores(stores, stores, agent, person, saves);
  }

  lemma {:induction false} SameTwoStores(stores: map<string, Json>, without: map<string, Json>, agent: string, person: string, saves: seq<Save>)
    requires StoreOf(stores, agent) == StoreOf(without, agent) && StoreOf(stores, person) == StoreOf(without, person)
    ensures var alone := Reaching(saves, agent, person);
      && StoreOf(AfterSaves(stores, saves), agent) == StoreOf(AfterSaves(without, alone), agent)
      && StoreOf(AfterSaves(stores, saves), person) == StoreOf(AfterSaves(without, alone), person)
    decreases |saves|
  {
    if saves != [] {
      var (s, alone) := (saves[0], Reaching(saves, agent, person));
      var next := Saved(stores, s.id, s.path, s.value);
      if s.id == agent || s.id == person {
        assert alone[1..] == Reaching(saves[1..], agent, person);
        SameTwoStores(next, Saved(without, s.id, s.path, s.value), agent, person, saves[1..]);
      } else {
        assert alone == Reaching(saves[1..], agent, person);
        SameTwoStores(next, without, agent, person, saves[1..]);
      }
    }
  }
}
