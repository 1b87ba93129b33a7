/** The codebase index store: registered files, a numbered and compacted event log saved with them, and
    listeners woken through a channel of capacity one. */
module CodebaseIndex {
  import opened Common

  const MAX_EVENTS: nat := 2000

  const DEFAULT_STAGE := "indexed"

  datatype FileRecord = FileRecord(path: string, hash: string, stage: string, order: int, createdAt: nat,
                                   updatedAt: nat)

  datatype Event = Event(id: int, indexId: string, request: string, file: FileRecord)

  /** What is saved. */
  datatype Saved = Saved(files: map<string, map<string, FileRecord>>, events: seq<Event>)

  datatype State = State(nextEventId: int, saved: Saved)

  // ---------------------------------------------------------------- registering

  function FilesOf(saved: Saved, indexId: string): map<string, FileRecord> {
    if indexId in saved.files then saved.files[indexId] else map[]
  }

  function Entry(files: map<string, FileRecord>, file: FileRecord, now: nat): FileRecord {
    var known := file.path in files;
    file.(createdAt := if known then files[file.path].createdAt else now,
          stage := if file.stage == "" then DEFAULT_STAGE else file.stage,
          order := if file.order != 0 then file.order
                   else if known && files[file.path].order != 0 then files[file.path].order
                   else |files| + 1,
          updatedAt := now)
  }

  function Compacted(events: seq<Event>): seq<Event> {
    if |events| <= MAX_EVENTS then events else events[|events| - MAX_EVENTS..]
  }

  function NewEvent(s: State, indexId: string, request: string, file: FileRecord, now: nat): Event {
    Event(s.nextEventId, indexId, request, Entry(FilesOf(s.saved, indexId), file, now))
  }

  function Registered(s: State, indexId: string, request: string, file: FileRecord, now: nat): State {
    var files := FilesOf(s.saved, indexId);
    State(s.nextEventId + 1,
          Saved(s.saved.files[indexId := files[file.path := Entry(files, file, now)]],
                Compacted(s.saved.events + [NewEvent(s, indexId, request, file, now)])))
  }

  function MaxId(events: seq<Event>): int {
    if events == [] then 0
    else
      var m, id := MaxId(events[..|events| - 1]), events[|events| - 1].id;
      if id > m then id else m
  }

  /** What a fresh process makes of the file. */
  function FromDisk(disk: Option<Saved>): State {
    match disk
    case None => State(1, Saved(map[], []))
    case Some(saved) => State(MaxId(saved.events) + 1, saved)
  }

  function Signalled(subscribers: map<string, map<string, bool>>, indexId: string): map<string, map<string, bool>> {
    if indexId in subscribers then
      subscribers[indexId := map id | id in subscribers[indexId] :: true]
    else subscribers
  }

  /** The events of an index after a given one, in order. */
  function Matching(events: seq<Event>, indexId: string, after: int): seq<Event> {
    if events == [] then []
    else
      var last := events[|events| - 1];
      Matching(events[..|events| - 1], indexId, after)
      + if last.id > after && last.indexId == indexId then [last] else []
  }

  // ---------------------------------------------------------------- the listing order

  /** Text order, character by character. */
  predicate Before(a: string, b: string)
    decreases |a|
  {
    if b == [] then false
    else if a == [] then true
    else a[0] < b[0] || (a[0] == b[0] && Before(a[1..], b[1..]))
  }

  predicate Precedes(a: FileRecord, b: FileRecord) {
    a.order < b.order || (a.order == b.order && Before(a.path, b.path))
  }

  lemma {:induction false} BeforeTransitive(a: string, b: string, c: string)
    requires Before(a, b) && Before(b, c)
    ensures Before(a, c)
    decreases |a|
  {
    if a != [] && a[0] == b[0] && b[0] == c[0] { BeforeTransitive(a[1..], b[1..], c[1..]); }
  }

  lemma {:induction false} BeforeTotal(a: string, b: string)
    ensures a != b ==> Before(a, b) != Before(b, a)
    ensures a == b ==> !Before(a, b)
    decreases |a|
  {
    if a != [] && b != [] && a[0] == b[0] {
      BeforeTotal(a[1..], b[1..]);
      assert a == [a[0]] + a[1..] && b == [b[0]] + b[1..];
    }
  }

  predicate Sorted(s: seq<FileRecord>) {
    forall i, j :: 0 <= i < j < |s| ==> Precedes(s[i], s[j])
  }

  /** The files that precede all the others. */
  method Least(files: map<string, FileRecord>, paths: set<string>) returns (least: string)
    requires paths != {} && paths <= files.Keys
    requires forall p :: p in files ==> files[p].path == p
    ensures least in paths
    ensures forall p :: p in paths && p != least ==> Precedes(files[least], files[p])
  {
    least :| least in paths;
    var rest := paths - {least};
    while rest != {}
      invariant rest <= paths && least in paths - rest
      invariant forall p :: p in paths - rest && p != least ==> Precedes(files[least], files[p])
      decreases rest
    {
      var p :| p in rest;
      rest := rest - {p};
      BeforeTotal(p, least);
      if Precedes(files[p], files[least]) {
        forall q | q in paths - rest && q != p ensures Precedes(files[p], files[q]) {
          if q != least && files[p].order == files[least].order && files[least].order == files[q].order {
            BeforeTransitive(p, least, q);
          }
        }
        least := p;
      }
    }
  }

  /** The listing of an index: each file once, by order and then by path. */
  ghost predicate IsListing(files: map<string, FileRecord>, listing: seq<FileRecord>) {
    && |listing| == |files| && Sorted(listing)
    && (forall r :: r in listing ==> r.path in files && files[r.path] == r)
    && (forall p :: p in files ==> files[p] in listing)
  }

  method SortFiles(files: map<string, FileRecord>) returns (listing: seq<FileRecord>)
    requires forall p :: p in files ==> files[p].path == p
    ensures IsListing(files, listing)
  {
    listing := [];
    var rest := files.Keys;
    while rest != {}
      invariant rest <= files.Keys && |listing| + |rest| == |files.Keys| && Sorted(listing)
      invariant forall r :: r in listing ==> r.path in files && r.path !in rest && files[r.path] == r
      invariant forall p :: p in files && p !in rest ==> files[p] in listing
      invariant forall r, p :: r in listing && p in rest ==> Precedes(r, files[p])
      decreases rest
    {
      var p := Least(files, rest);
      rest := rest - {p};
      listing := listing + [files[p]];
    }
    assert |files.Keys| == |files|;
  }

  // ---------------------------------------------------------------- the store

  class CodebaseIndexStore {
    var loaded: bool
    var nextEventId: int
    var files: map<string, map<string, FileRecord>>
    var events: seq<Event>
    var subscribers: map<string, map<string, bool>>
    /** The file the store saves to. */
    var disk: Option<Saved>

    /** The state the store has, or will have once it loads. */
    ghost function Current(): State
      reads this
    {
      if loaded then State(nextEventId, Saved(files, events)) else FromDisk(disk)
    }

    constructor (disk: Option<Saved>)
      ensures !loaded && this.disk == disk && subscribers == map[]
    {
      loaded, nextEventId, files, events, subscribers := false, 0, map[], [], map[];
      this.disk := disk;
    }

    /** loadLocked. */
    method Load(readFails: bool) returns (ok: bool)
      modifies this`loaded, this`nextEventId, this`files, this`events
      ensures Current() == old(Current())
      ensures ok == loaded == (old(loaded) || disk.None? || !readFails)
    {
      if loaded { return true; }
      match disk {
        case None =>
          files, events, nextEventId := map[], [], 1;
        case Some(saved) =>
          if readFails { return false; }
          var maxEventId := 0;
          for i := 0 to |saved.events|
            invariant maxEventId == MaxId(saved.events[..i])
          {
            assert saved.events[..i + 1][..i] == saved.events[..i];
            if saved.events[i].id > maxEventId { maxEventId := saved.events[i].id; }
          }
          assert saved.events[..|saved.events|] == saved.events;
          files, events, nextEventId := saved.files, saved.events, maxEventId + 1;
      }
      loaded := true;
      ok := true;
    }

    /** compactEventsLocked. */
    method CompactEvents()
      modifies this`events
      ensures events == Compacted(old(events))
    {
      if |events| > MAX_EVENTS { events := events[|events| - MAX_EVENTS..]; }
    }

    /** notifyIndexSubscribersLocked: a full channel stays as it is. */
    method NotifyIndexSubscribers(indexId: string)
      modifies this`subscribers
      ensures subscribers == Signalled(old(subscribers), indexId)
    {
      if indexId !in subscribers { return; }
      var rest := subscribers[indexId].Keys;
      ghost var all := rest;
      while rest != {}
        invariant indexId in subscribers && subscribers.Keys == old(subscribers).Keys
        invariant forall x :: x in subscribers && x != indexId ==> subscribers[x] == old(subscribers)[x]
        invariant subscribers[indexId].Keys == all && rest <= all
        invariant forall id :: id in all - rest ==> subscribers[indexId][id]
        invariant forall id :: id in rest ==> subscribers[indexId][id] == old(subscribers)[indexId][id]
        decreases rest
      {
        var id :| id in rest;
        rest := rest - {id};
        if !subscribers[indexId][id] {
          subscribers := subscribers[indexId := subscribers[indexId][id := true]];
        }
      }
      assert subscribers[indexId] == map id | id in old(subscribers)[indexId] :: true;
    }

    /** The record a registration makes of what it is given. */
    static method MakeEntry(registered: map<string, FileRecord>, file: FileRecord, now: nat) returns (entry: FileRecord)
      ensures entry == Entry(registered, file, now)
    {
      entry := file;
      if file.path in registered {
        entry := entry.(createdAt := registered[file.path].createdAt);
      } else {
        entry := entry.(createdAt := now);
      }
      if entry.stage == "" { entry := entry.(stage := DEFAULT_STAGE); }
      if entry.order == 0 {
        if file.path in registered && registered[file.path].order != 0 {
          entry := entry.(order := registered[file.path].order);
        } else {
          entry := entry.(order := |registered| + 1);
        }
      }
      entry := entry.(updatedAt := now);
    }

    /** The registration in memory. */
    method Record(indexId: string, request: string, file: FileRecord, now: nat) returns (event: Event)
      requires loaded
      modifies this`nextEventId, this`files, this`events
      ensures event == NewEvent(old(Current()), indexId, request, file, now)
      ensures Current() == Registered(old(Current()), indexId, request, file, now)
    {
      var registered := if indexId in files then files[indexId] else map[];
      var entry := MakeEntry(registered, file, now);
      files := files[indexId := registered[file.path := entry]];
      event := Event(nextEventId, indexId, request, entry);
      nextEventId := nextEventId + 1;
      events := events + [event];
      CompactEvents();
    }

    /** RegisterFileWithRequest.  When the save fails the caller gets an error, but the file and the event
        stay in memory and nobody is told. */
    method RegisterFile(readFails: bool, saveFails: bool, indexId: string, request: string, file: FileRecord, now: nat)
      returns (event: Option<Event>)
      modifies this
      ensures var refused := (readFails && !old(loaded) && old(disk).Some?) || indexId == "" || file.path == "";
              && (refused ==> event.None? && Current() == old(Current()))
              && (!refused ==> Current() == Registered(old(Current()), indexId, request, file, now))
              && (refused || saveFails ==> event.None? && disk == old(disk) && subscribers == old(subscribers))
              && (!refused && !saveFails
                  ==> && event == Some(NewEvent(old(Current()), indexId, request, file, now))
                      && disk == Some(Current().saved) && subscribers == Signalled(old(subscribers), indexId))
    {
      var ok := Load(readFails);
      if !ok || indexId == "" { return None; }
      if file.path == "" { return None; }
      var e := Record(indexId, request, file, now);
      if saveFails { return None; }
      disk := Some(Saved(files, events));
      NotifyIndexSubscribers(indexId);
      event := Some(e);
    }

    /** ListFiles. */
    method ListFiles(readFails: bool, indexId: string) returns (listing: Option<seq<FileRecord>>)
      requires forall p :: p in FilesOf(Current().saved, indexId) ==> FilesOf(Current().saved, indexId)[p].path == p
      modifies this`loaded, this`nextEventId, this`files, this`events
      ensures Current() == old(Current())
      ensures listing.None? <==> readFails && !old(loaded) && disk.Some?
      ensures listing.Some? ==> IsListing(FilesOf(Current().saved, indexId), listing.value)
    {
      var ok := Load(readFails);
      if !ok { return None; }
      if indexId !in files || |files[indexId]| == 0 { return Some([]); }
      assert files[indexId] == FilesOf(old(Current()).saved, indexId);
      var sorted := SortFiles(files[indexId]);
      listing := Some(sorted);
    }

    /** ListEvents. */
    method ListEvents(readFails: bool, indexId: string, after: int) returns (found: Option<seq<Event>>)
      modifies this`loaded, this`nextEventId, this`files, this`events
      ensures Current() == old(Current())
      ensures found.None? <==> (readFails && !old(loaded) && disk.Some?) || indexId == ""
      ensures found.Some? ==> found.value == Matching(Current().saved.events, indexId, after)
    {
      var ok := Load(readFails);
      if !ok || indexId == "" { return None; }
      var out := [];
      for i := 0 to |events|
        invariant out == Matching(events[..i], indexId, after)
      {
        assert events[..i + 1][..i] == events[..i];
        if !(events[i].id <= after || events[i].indexId != indexId) { out := out + [events[i]]; }
      }
      assert events[..|events|] == events;
      found := Some(out);
    }

    /** Subscribe, under a fresh id. */
    method Subscribe(readFails: bool, indexId: string, id: string) returns (ok: bool)
      modifies this`loaded, this`nextEventId, this`files, this`events, this`subscribers
      ensures Current() == old(Current())
      ensures !ok ==> subscribers == old(subscribers)
      ensures ok ==> var others := if indexId in old(subscribers) then old(subscribers)[indexId] else map[];
                     subscribers == old(subscribers)[indexId := others[id := false]]
    {
      ok := Load(readFails);
      if !ok || indexId == "" { return false; }
      if indexId !in subscribers { subscribers := subscribers[indexId := map[]]; }
      subscribers := subscribers[indexId := subscribers[indexId][id := false]];
    }

    /** Unsubscribe. */
    method Unsubscribe(indexId: string, id: string)
      modifies this`subscribers
      ensures indexId == "" || id == "" || indexId !in old(subscribers) ==> subscribers == old(subscribers)
      ensures indexId != "" && id != "" && indexId in old(subscribers)
              ==> var rest := old(subscribers)[indexId] - {id};
                  subscribers == if rest == map[] then old(subscribers) - {indexId}
                                 else old(subscribers)[indexId := rest]
    {
      if indexId == "" || id == "" || indexId !in subscribers { return; }
      subscribers := subscribers[indexId := subscribers[indexId] - {id}];
      if |subscribers[indexId]| == 0 { subscribers := subscribers - {indexId}; }
    }
  }

  // ---------------------------------------------------------------- numbering

  /** The ids are consecutive and end just below the next one. */
  predicate Numbered(events: seq<Event>, next: int) {
    forall i :: 0 <= i < |events| ==> events[i].id == next - |events| + i
  }

  predicate WellNumbered(s: State) {
    && Numbered(s.saved.events, s.nextEventId) && |s.saved.events| < s.nextEventId
    && (s.saved.events == [] ==> s.nextEventId == 1)
  }

  lemma RegisterKeepsNumbering(s: State, indexId: string, request: string, file: FileRecord, now: nat)
    requires WellNumbered(s)
    ensures WellNumbered(Registered(s, indexId, request, file, now))
  {
    var all := s.saved.events + [NewEvent(s, indexId, request, file, now)];
    assert Numbered(all, s.nextEventId + 1);
    var d := |all| - |Compacted(all)|;
    assert forall i :: 0 <= i < |Compacted(all)| ==> Compacted(all)[i] == all[d + i];
  }

  lemma {:induction false} MaxIsLast(events: seq<Event>, next: int)
    requires Numbered(events, next) && |events| < next
    ensures MaxId(events) == if events == [] then 0 else next - 1
  {
    if events != [] {
      var init := events[..|events| - 1];
      assert forall i :: 0 <= i < |init| ==> init[i] == events[i];
      MaxIsLast(init, next - 1);
    }
  }

  /** A restart after a save is invisible: what was saved loads as the state that was saved. */
  lemma RestartResumes(s: State)
    requires WellNumbered(s)
    ensures FromDisk(Some(s.saved)) == s
  {
    MaxIsLast(s.saved.events, s.nextEventId);
  }

  // ---------------------------------------------------------------- files in order of registration

  /** With automatic orders only, `paths` is the order of first registration. */
  ghost predicate RegisteredInOrder(files: map<string, FileRecord>, paths: seq<string>) {
    && (forall i, j :: 0 <= i < j < |paths| ==> paths[i] != paths[j])
    && (forall p :: p in files <==> p in paths)
    && (forall i :: 0 <= i < |paths| ==> files[paths[i]].order == i + 1 && files[paths[i]].path == paths[i])
    && |files| == |paths|
  }

  lemma AutoOrderKeepsOrder(files: map<string, FileRecord>, paths: seq<string>, file: FileRecord, now: nat)
    requires RegisteredInOrder(files, paths) && file.order == 0
    ensures RegisteredInOrder(files[file.path := Entry(files, file, now)],
                              if file.path in files then paths else paths + [file.path])
  {
    var after := files[file.path := Entry(files, file, now)];
    assert after.Keys == files.Keys + {file.path};
    if file.path in files {
      assert after.Keys == files.Keys;
      assert |after| == |after.Keys| && |files| == |files.Keys|;
      var i :| 0 <= i < |paths| && paths[i] == file.path;
      assert after[file.path].order == i + 1;
    } else {
      assert |after| == |after.Keys| && |files| == |files.Keys|;
    }
  }

  lemma {:induction false} OrdersAreBounds(listing: seq<FileRecord>, i: nat)
    requires Sorted(listing) && i < |listing|
    requires forall a, b :: 0 <= a < b < |listing| ==> listing[a].order != listing[b].order
    requires forall k :: 0 <= k < |listing| ==> 1 <= listing[k].order
    ensures listing[i].order >= i + 1
  {
    if i > 0 {
      OrdersAreBounds(listing, i - 1);
      assert Precedes(listing[i - 1], listing[i]);
    }
  }

  lemma {:induction false} OrdersAreBoundsAbove(listing: seq<FileRecord>, i: nat)
    requires Sorted(listing) && i < |listing|
    requires forall a, b :: 0 <= a < b < |listing| ==> listing[a].order != listing[b].order
    requires forall k :: 0 <= k < |listing| ==> listing[k].order <= |listing|
    ensures listing[i].order <= i + 1
    decreases |listing| - i
  {
    if i + 1 < |listing| {
      OrdersAreBoundsAbove(listing, i + 1);
      assert Precedes(listing[i], listing[i + 1]);
    }
  }

  /** The listing is the order of first registration, numbered from 1. */
  lemma ListingIsRegistrationOrder(files: map<string, FileRecord>, paths: seq<string>, listing: seq<FileRecord>, i: nat)
    requires RegisteredInOrder(files, paths) && IsListing(files, listing) && i < |paths|
    ensures |listing| == |paths| && listing[i].path == paths[i] && listing[i].order == i + 1
  {
    forall k | 0 <= k < |listing| ensures 1 <= listing[k].order <= |listing| {
      assert listing[k] in listing;
      var m :| 0 <= m < |paths| && paths[m] == listing[k].path;
    }
    forall a, b | 0 <= a < b < |listing| ensures listing[a].order != listing[b].order {
      assert listing[a] in listing && listing[b] in listing && Precedes(listing[a], listing[b]);
      var m :| 0 <= m < |paths| && paths[m] == listing[a].path;
      var n :| 0 <= n < |paths| && paths[n] == listing[b].path;
      BeforeTotal(listing[a].path, listing[b].path);
    }
    OrdersAreBounds(listing, i);
    OrdersAreBoundsAbove(listing, i);
    assert listing[i] in listing;
    var m :| 0 <= m < |paths| && paths[m] == listing[i].path;
  }

  // ---------------------------------------------------------------- any list of registrations

  datatype Registration = Registration(indexId: string, request: string, file: FileRecord, now: nat)

  function RegisterAll(s: State, list: seq<Registration>): State {
    if list == [] then s
    else
      var r := list[|list| - 1];
      Registered(RegisterAll(s, list[..|list| - 1]), r.indexId, r.request, r.file, r.now)
  }

  /** The paths registered for an index, each where it came first. */
  function FirstSeen(list: seq<Registration>, indexId: string): seq<string> {
    if list == [] then []
    else
      var r, seen := list[|list| - 1], FirstSeen(list[..|list| - 1], indexId);
      if r.indexId != indexId || r.file.path in seen then seen else seen + [r.file.path]
  }

  /** What was last registered for a path. */
  function LastHash(list: seq<Registration>, indexId: string, path: string): string {
    if list == [] then ""
    else
      var r := list[|list| - 1];
      if r.indexId == indexId && r.file.path == path then r.file.hash else LastHash(list[..|list| - 1], indexId, path)
  }

  /** The files are those registered, in order of first registration, as last registered. */
  ghost predicate Reflects(files: map<string, FileRecord>, list: seq<Registration>, indexId: string) {
    && RegisteredInOrder(files, FirstSeen(list, indexId))
    && forall p :: p in files ==> files[p].hash == LastHash(list, indexId, p)
  }

  lemma OneMoreReflects(files: map<string, FileRecord>, front: seq<Registration>, r: Registration, indexId: string)
    requires Reflects(files, front, indexId) && r.file.order == 0
    ensures Reflects(if r.indexId == indexId then files[r.file.path := Entry(files, r.file, r.now)] else files,
                     front + [r], indexId)
  {
    assert (front + [r])[..|front|] == front;
    if r.indexId == indexId {
      AutoOrderKeepsOrder(files, FirstSeen(front, indexId), r.file, r.now);
      assert r.file.path in files <==> r.file.path in FirstSeen(front, indexId);
    }
  }

  lemma {:induction false} RegistrationsReflect(list: seq<Registration>, indexId: string)
    requires forall r :: r in list ==> r.file.order == 0
    ensures Reflects(FilesOf(RegisterAll(FromDisk(None), list).saved, indexId), list, indexId)
  {
    if list != [] {
      var front, r := list[..|list| - 1], list[|list| - 1];
      assert forall x :: x in front ==> x in list;
      RegistrationsReflect(front, indexId);
      OneMoreReflects(FilesOf(RegisterAll(FromDisk(None), front).saved, indexId), front, r, indexId);
      assert list == front + [r];
      RegisteredFiles(RegisterAll(FromDisk(None), front), r, indexId);
    }
  }

  lemma RegisteredFiles(s: State, r: Registration, indexId: string)
    ensures var files := FilesOf(s.saved, indexId);
            FilesOf(Registered(s, r.indexId, r.request, r.file, r.now).saved, indexId)
            == if r.indexId == indexId then files[r.file.path := Entry(files, r.file, r.now)] else files
  {
  }

  /** After any registrations with automatic orders, ListFiles gives each path once, in the order in which it
      was first registered, numbered from 1, and as it was last registered. */
  lemma ListingFollowsRegistrations(list: seq<Registration>, indexId: string, listing: seq<FileRecord>, i: nat)
    requires forall r :: r in list ==> r.file.order == 0
    requires IsListing(FilesOf(RegisterAll(FromDisk(None), list).saved, indexId), listing)
    requires i < |FirstSeen(list, indexId)|
    ensures |listing| == |FirstSeen(list, indexId)|
    ensures listing[i].path == FirstSeen(list, indexId)[i] && listing[i].order == i + 1
    ensures listing[i].hash == LastHash(list, indexId, listing[i].path)
  {
    RegistrationsReflect(list, indexId);
    var files := FilesOf(RegisterAll(FromDisk(None), list).saved, indexId);
    ListingIsRegistrationOrder(files, FirstSeen(list, indexId), listing, i);
    assert listing[i] in listing;
  }
}
