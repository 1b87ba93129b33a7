/** The codebase index after any registrations: the records of its files, the events it retains, and what a
    listing can miss. */
module IndexHistory {
  import opened Common
  import opened CodebaseIndex
  import opened IndexListener

  /** A registration leaves a signal for every subscriber of its index and for no other. */
  lemma EverySubscriberIsTold(subscribers: map<string, map<string, bool>>, indexId: string, other: string, id: string)
    requires other in subscribers && id in subscribers[other]
    ensures var after := Signalled(subscribers, indexId);
            && after.Keys == subscribers.Keys && after[other].Keys == subscribers[other].Keys
            && after[other][id] == (other == indexId || subscribers[other][id])
  {
    assert indexId in subscribers ==> Signalled(subscribers, indexId).Keys == subscribers.Keys;
  }

  // ---------------------------------------------------------------- the record of a registered file

  predicate IsFor(r: Registration, indexId: string, path: string) { r.indexId == indexId && r.file.path == path }

  /** The last registration of a path. */
  function LastOf(list: seq<Registration>, indexId: string, path: string): Option<Registration> {
    if list == [] then None
    else if IsFor(list[|list| - 1], indexId, path) then Some(list[|list| - 1])
    else LastOf(list[..|list| - 1], indexId, path)
  }

  /** The time of its first registration. */
  function FirstTime(list: seq<Registration>, indexId: string, path: string): nat {
    if list == [] then 0
    else if IsFor(list[0], indexId, path) then list[0].now
    else FirstTime(list[1..], indexId, path)
  }

  /** The last order that was given for it, or 0. */
  function GivenOrder(list: seq<Registration>, indexId: string, path: string): int {
    if list == [] then 0
    else
      var r := list[|list| - 1];
      if IsFor(r, indexId, path) && r.file.order != 0 then r.file.order
      else GivenOrder(list[..|list| - 1], indexId, path)
  }

  function IndexOf(paths: seq<string>, path: string): nat {
    if paths == [] then 0
    else if paths[|paths| - 1] == path && path !in paths[..|paths| - 1] then |paths| - 1
    else IndexOf(paths[..|paths| - 1], path)
  }

  /** What was registered last, from the first time on, with the last order given for it or else its place
      among the paths as they were first seen. */
  function RecordOf(list: seq<Registration>, indexId: string, path: string): FileRecord
    requires LastOf(list, indexId, path).Some?
  {
    var last, given := LastOf(list, indexId, path).value, GivenOrder(list, indexId, path);
    FileRecord(path, last.file.hash, if last.file.stage == "" then DEFAULT_STAGE else last.file.stage,
               if given != 0 then given else IndexOf(FirstSeen(list, indexId), path) + 1,
               FirstTime(list, indexId, path), last.now)
  }

  ghost predicate Records(files: map<string, FileRecord>, list: seq<Registration>, indexId: string) {
    && (forall p :: p in files <==> p in FirstSeen(list, indexId))
    && (forall p :: p in files <==> LastOf(list, indexId, p).Some?)
    && (forall p :: p in files ==> files[p] == RecordOf(list, indexId, p))
    && |files| == |FirstSeen(list, indexId)|
  }

  lemma {:induction false} FirstTimeStays(list: seq<Registration>, r: Registration, indexId: string, path: string)
    ensures FirstTime(list + [r], indexId, path)
         == if LastOf(list, indexId, path).Some? then FirstTime(list, indexId, path)
            else if IsFor(r, indexId, path) then r.now else 0
    decreases |list|
  {
    if list == [] {
      assert [r][1..] == [];
      assert list + [r] == [r];
    } else {
      assert (list + [r])[1..] == list[1..] + [r];
      FirstTimeStays(list[1..], r, indexId, path);
      LastOfTail(list, indexId, path);
    }
  }

  lemma {:induction false} LastOfTail(list: seq<Registration>, indexId: string, path: string)
    requires list != []
    ensures LastOf(list, indexId, path).Some?
            <==> IsFor(list[0], indexId, path) || LastOf(list[1..], indexId, path).Some?
  {
    if |list| > 1 {
      LastOfTail(list[..|list| - 1], indexId, path);
      assert list[..|list| - 1][1..] == list[1..][..|list| - 2];
    }
  }

  lemma FirstSeenAdds(list: seq<Registration>, r: Registration, indexId: string)
    ensures var seen := FirstSeen(list, indexId);
            FirstSeen(list + [r], indexId)
            == if r.indexId != indexId || r.file.path in seen then seen else seen + [r.file.path]
  {
    assert (list + [r])[..|list|] == list;
  }

  lemma LastOfAdds(list: seq<Registration>, r: Registration, indexId: string, path: string)
    ensures LastOf(list + [r], indexId, path)
         == if IsFor(r, indexId, path) then Some(r) else LastOf(list, indexId, path)
    ensures GivenOrder(list + [r], indexId, path)
         == if IsFor(r, indexId, path) && r.file.order != 0 then r.file.order else GivenOrder(list, indexId, path)
  {
    assert (list + [r])[..|list|] == list;
  }

  lemma IndexStays(paths: seq<string>, more: string, path: string)
    ensures path in paths ==> IndexOf(paths + [more], path) == IndexOf(paths, path)
    ensures more !in paths ==> IndexOf(paths + [more], more) == |paths|
  {
    assert (paths + [more])[..|paths|] == paths;
  }

  /** A registration of another path, or of another index, leaves a record as it is. */
  lemma OtherRecordStays(list: seq<Registration>, r: Registration, indexId: string, path: string)
    requires LastOf(list, indexId, path).Some? && path in FirstSeen(list, indexId) && !IsFor(r, indexId, path)
    ensures LastOf(list + [r], indexId, path).Some?
    ensures RecordOf(list + [r], indexId, path) == RecordOf(list, indexId, path)
  {
    LastOfAdds(list, r, indexId, path);
    FirstTimeStays(list, r, indexId, path);
    FirstSeenAdds(list, r, indexId);
    IndexStays(FirstSeen(list, indexId), r.file.path, path);
  }

  /** Whether an order was never given, the record tells by its place. */
  lemma EntryIsRecord(files: map<string, FileRecord>, list: seq<Registration>, r: Registration)
    requires Records(files, list, r.indexId)
    ensures LastOf(list + [r], r.indexId, r.file.path).Some?
    ensures Entry(files, r.file, r.now) == RecordOf(list + [r], r.indexId, r.file.path)
  {
    var indexId, path := r.indexId, r.file.path;
    LastOfAdds(list, r, indexId, path);
    FirstTimeStays(list, r, indexId, path);
    FirstSeenAdds(list, r, indexId);
    IndexStays(FirstSeen(list, indexId), path, path);
    if path !in files { NeverGiven(list, indexId, path); }
  }

  lemma {:induction false} NeverGiven(list: seq<Registration>, indexId: string, path: string)
    requires LastOf(list, indexId, path).None?
    ensures GivenOrder(list, indexId, path) == 0
  {
    if list != [] { NeverGiven(list[..|list| - 1], indexId, path); }
  }

  lemma OneMoreRecord(files: map<string, FileRecord>, list: seq<Registration>, r: Registration)
    requires Records(files, list, r.indexId)
    ensures Records(files[r.file.path := Entry(files, r.file, r.now)], list + [r], r.indexId)
  {
    var after := files[r.file.path := Entry(files, r.file, r.now)];
    EntryIsRecord(files, list, r);
    FirstSeenAdds(list, r, r.indexId);
    assert after.Keys == files.Keys + {r.file.path};
    assert |after| == |after.Keys| && |files| == |files.Keys|;
    if r.file.path in files { assert after.Keys == files.Keys; }
    forall p ensures p in after <==> LastOf(list + [r], r.indexId, p).Some? { LastOfAdds(list, r, r.indexId, p); }
    forall p | p in after ensures after[p] == RecordOf(list + [r], r.indexId, p) {
      if p != r.file.path { OtherRecordStays(list, r, r.indexId, p); }
    }
  }

  lemma OtherIndexStays(files: map<string, FileRecord>, list: seq<Registration>, r: Registration, indexId: string)
    requires Records(files, list, indexId) && r.indexId != indexId
    ensures Records(files, list + [r], indexId)
  {
    FirstSeenAdds(list, r, indexId);
    forall p ensures p in files <==> LastOf(list + [r], indexId, p).Some? { LastOfAdds(list, r, indexId, p); }
    forall p | p in files ensures files[p] == RecordOf(list + [r], indexId, p) {
      OtherRecordStays(list, r, indexId, p);
    }
  }

  /** After any registrations, with given or automatic orders, an index holds exactly the paths registered for
      it, each with the record its registrations tell. */
  lemma {:induction false} FilesAreRecords(list: seq<Registration>, indexId: string)
    ensures Records(FilesOf(RegisterAll(FromDisk(None), list).saved, indexId), list, indexId)
  {
    if list != [] {
      var front, r := list[..|list| - 1], list[|list| - 1];
      var s := RegisterAll(FromDisk(None), front);
      FilesAreRecords(front, indexId);
      assert list == front + [r];
      RegisteredFiles(s, r, indexId);
      if r.indexId == indexId {
        OneMoreRecord(FilesOf(s.saved, indexId), front, r);
      } else {
        OtherIndexStays(FilesOf(s.saved, indexId), front, r, indexId);
      }
    }
  }

  // ---------------------------------------------------------------- what compaction retains

  /** An event for each registration, with the record it made, numbered from 1. */
  function AllEvents(list: seq<Registration>): seq<Event> {
    if list == [] then []
    else
      var r := list[|list| - 1];
      AllEvents(list[..|list| - 1])
      + [Event(|list|, r.indexId, r.request, RecordOf(list, r.indexId, r.file.path))]
  }

  function Excess(n: nat): nat { if n > 2000 then n - 2000 else 0 }

  lemma SuffixOfMore(all: seq<Event>, e: Event, kept: seq<Event>)
    requires kept == all[Excess(|all|)..]
    ensures Compacted(kept + [e]) == (all + [e])[Excess(|all| + 1)..]
  {
    assert kept + [e] == (all + [e])[Excess(|all|)..];
  }

  /** The last 2000 events are retained, or all of them. */
  ghost predicate RetainsLast(s: State, list: seq<Registration>) {
    && |AllEvents(list)| == |list| && s.nextEventId == |list| + 1
    && s.saved.events == AllEvents(list)[Excess(|list|)..]
  }

  lemma OneMoreRetained(s: State, front: seq<Registration>, r: Registration)
    requires RetainsLast(s, front) && Records(FilesOf(s.saved, r.indexId), front, r.indexId)
    ensures RetainsLast(Registered(s, r.indexId, r.request, r.file, r.now), front + [r])
  {
    var e := NewEvent(s, r.indexId, r.request, r.file, r.now);
    EntryIsRecord(FilesOf(s.saved, r.indexId), front, r);
    assert (front + [r])[..|front|] == front;
    assert AllEvents(front + [r]) == AllEvents(front) + [e];
    SuffixOfMore(AllEvents(front), e, s.saved.events);
  }

  /** After any registrations the retained events are the last 2000, or all of them. */
  lemma {:induction false} RetainedAreTheLast(list: seq<Registration>)
    ensures RetainsLast(RegisterAll(FromDisk(None), list), list)
  {
    if list != [] {
      var front, r := list[..|list| - 1], list[|list| - 1];
      RetainedAreTheLast(front);
      FilesAreRecords(front, r.indexId);
      OneMoreRetained(RegisterAll(FromDisk(None), front), front, r);
      assert list == front + [r];
    }
  }

  // ---------------------------------------------------------------- how much a listing can miss

  /** The event is for the index, later than `after`, and followed by 2000 or more. */
  predicate DroppedFor(log: seq<Event>, i: nat, indexId: string, after: int)
    requires i < |log|
  {
    log[i].indexId == indexId && log[i].id > after && |log| - 1 - i >= 2000
  }

  lemma {:induction false} MatchingIsEmptyIff(events: seq<Event>, indexId: string, after: int)
    ensures Matching(events, indexId, after) == []
            <==> forall i :: 0 <= i < |events| ==> !(events[i].id > after && events[i].indexId == indexId)
  {
    if events != [] {
      var front := events[..|events| - 1];
      MatchingIsEmptyIff(front, indexId, after);
      assert forall i :: 0 <= i < |front| ==> front[i] == events[i];
    }
  }

  lemma LastEventsAreCompleteIff(log: seq<Event>, kept: seq<Event>, indexId: string, after: int)
    requires kept == log[Excess(|log|)..]
    ensures Matching(kept, indexId, after) == Matching(log, indexId, after)
            <==> !exists i :: 0 <= i < |log| && DroppedFor(log, i, indexId, after)
  {
    var dropped := log[..Excess(|log|)];
    assert log == dropped + kept;
    MatchingAdd(dropped, kept, indexId, after);
    MatchingIsEmptyIff(dropped, indexId, after);
    assert Matching(kept, indexId, after) == Matching(log, indexId, after) <==> Matching(dropped, indexId, after) == [];
    assert forall i :: 0 <= i < |dropped| ==> dropped[i] == log[i];
    assert forall i :: 0 <= i < |log| && DroppedFor(log, i, indexId, after) ==> i < |dropped|;
    assert forall i :: 0 <= i < |dropped| && dropped[i].id > after && dropped[i].indexId == indexId
                       ==> DroppedFor(log, i, indexId, after);
  }

  /** After any registrations on an empty disk, ListEvents gives every event of an index with a later id
      exactly if none of them has 2000 or more events behind it. */
  lemma ListEventsIsCompleteIff(list: seq<Registration>, indexId: string, after: int)
    ensures Matching(RegisterAll(FromDisk(None), list).saved.events, indexId, after)
              == Matching(AllEvents(list), indexId, after)
            <==> !exists i :: 0 <= i < |AllEvents(list)| && DroppedFor(AllEvents(list), i, indexId, after)
  {
    RetainedAreTheLast(list);
    LastEventsAreCompleteIff(AllEvents(list), RegisterAll(FromDisk(None), list).saved.events, indexId, after);
  }

  /** Over every run that starts with 2000 events or fewer, as the store itself saves them, compaction has
      dropped what was dropped before and all but the last 2000. */
  lemma {:induction false} HorizonIs(states: seq<System>, steps: seq<Step>, k: nat)
    requires Run(states, steps) && Started(states[0]) && k <= |steps| && |states[0].store.saved.events| <= 2000
    ensures |states[k].store.saved.events| <= 2000
    ensures Horizon(states[k].store) == Max(Horizon(states[0].store), states[k].store.nextEventId - 1 - 2000)
    ensures states[k].store.nextEventId - states[0].store.nextEventId == |states[k].log| - |states[0].log|
  {
    if k > 0 { HorizonIs(states, steps, k - 1); }
  }

  /** So on an empty disk the store has the last 2000 events of the log, and a listing is complete exactly if
      no event it should give has 2000 or more behind it. */
  lemma ListingIsCompleteIff(states: seq<System>, steps: seq<Step>, k: nat, indexId: string, after: int)
    requires Run(states, steps) && Started(states[0]) && k <= |steps| && states[0].store == FromDisk(None)
    ensures states[k].store.saved.events == states[k].log[Excess(|states[k].log|)..]
    ensures Matching(states[k].store.saved.events, indexId, after) == Matching(states[k].log, indexId, after)
            <==> !exists i :: 0 <= i < |states[k].log| && DroppedFor(states[k].log, i, indexId, after)
  {
    EveryRunKeepsInv(states, steps, k);
    HorizonIs(states, steps, k);
    LastEventsAreCompleteIff(states[k].log, states[k].store.saved.events, indexId, after);
  }
}
