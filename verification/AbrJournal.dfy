/** The ABR workload journal: what a checkpoint may record and what a load accepts. */
module AbrJournal {
  import opened Basics
  import opened AbrContract
  import opened Paths
  import opened Text

  datatype Prepared = Prepared(
    name: string,
    playlistPath: string,
    streamPath: string,
    playlistSha256: string,
    streamSha256: string,
    video: Option<Video>,
    fileSize: uint64)

  datatype PreparedArtifact = PreparedArtifact(path: string, sha256: string)

  /** The event name is the constructor. */
  datatype Body =
    | Progress(phase: string, percent: real, rendition: string, frames: uint64)
    | ResultBody(result: TerminalResult)
    | ErrorBody(failure: TerminalError)

  datatype StoredEvent = StoredEvent(sequence: uint64, body: Body)

  datatype JournalState = InProgress | Succeeded | Failed

  datatype Journal = Journal(
    workloadId: string,
    requestSha256: string,
    state: JournalState,
    phase: string,
    nextSequence: uint64,
    prepared: map<string, Prepared>,
    delivered: map<string, RenditionResult>,
    manifestPrepared: Option<PreparedArtifact>,
    manifestDelivered: string,
    progress: seq<StoredEvent>,
    terminal: Option<StoredEvent>)

  const PROGRESS_WINDOW := 256

  const PHASES: set<string> := { "accepted", "downloading", "probing", "encoding", "packaging", "uploading" }

  predicate Matches(p: Prepared, r: RenditionResult)
  {
    p.name == r.name && p.fileSize == r.fileSize && p.video == r.video
  }

  // --------------------------------------------------------------- validation

  predicate PreparedAccepted(p: Prepared)
  {
    SafePath(p.playlistPath) && SafePath(p.streamPath) && IsSha256Hex(p.playlistSha256) && IsSha256Hex(p.streamSha256)
  }

  predicate CheckpointsAccepted(j: Journal)
  {
    && (forall name <- j.prepared :: j.prepared[name].name == name && PreparedAccepted(j.prepared[name]))
    && (forall name <- j.delivered ::
          j.delivered[name].name == name && name in j.prepared && Matches(j.prepared[name], j.delivered[name]))
  }

  predicate ManifestAccepted(j: Journal)
  {
    && (j.manifestPrepared.Some? ==> SafePath(j.manifestPrepared.value.path) && IsSha256Hex(j.manifestPrepared.value.sha256))
    && (j.manifestDelivered != "" ==> j.manifestPrepared.Some? && ArtifactUri(j.manifestDelivered))
  }

  predicate OutcomeAccepted(j: Journal)
  {
    && j.nextSequence != 0
    && (!j.state.InProgress? <==> j.terminal.Some?)
    && (j.terminal.Some? ==> j.terminal.value.sequence < j.nextSequence && !j.terminal.value.body.Progress?)
  }

  /** loadLocked's identity check and validateJournalLocked. */
  predicate JournalAccepted(j: Journal, id: string)
  {
    && OpaqueId(id) && j.workloadId == id && IsSha256Hex(j.requestSha256)
    && OutcomeAccepted(j) && CheckpointsAccepted(j) && ManifestAccepted(j)
  }

  // -------------------------------------------------------------- mutations

  datatype Fault = NotFound | Corrupt | Refused | SaveFailed

  datatype Verdict = Refuse | Save(next: Journal)

  function Fresh(id: string, requestSha256: string): (j: Journal)
  {
    Journal(id, requestSha256, InProgress, "accepted", 1, map[], map[], None, "", [], None)
  }

  function LastWindow(events: seq<StoredEvent>): (kept: seq<StoredEvent>)
  {
    if |events| > PROGRESS_WINDOW then events[|events| - PROGRESS_WINDOW..] else events
  }

  /** NextSequence is incremented without an overflow check. */
  function AppendProgress(j: Journal, body: Body): (v: Verdict)
    requires body.Progress?
  {
    if !j.state.InProgress? || j.nextSequence == 0 || body.phase !in PHASES || !(0.0 <= body.percent <= 100.0) then Refuse
    else
      Save(j.(nextSequence := Wrap64(j.nextSequence + 1), phase := body.phase,
              progress := LastWindow(j.progress + [StoredEvent(j.nextSequence, body)])))
  }

  predicate NonZero(video: Option<Video>)
  {
    video.Some? ==> video.value.frames != 0 && video.value.width != 0 && video.value.height != 0
  }

  function SavePrepared(j: Journal, p: Prepared): (v: Verdict)
  {
    if !j.state.InProgress? || p.name == "" || p.playlistPath == "" || p.streamPath == "" || !PreparedAccepted(p) || !NonZero(p.video) then Refuse
    else if p.name in j.delivered then Refuse
    else Save(j.(prepared := j.prepared[p.name := p]))
  }

  function SaveDelivered(j: Journal, r: RenditionResult): (v: Verdict)
  {
    if !j.state.InProgress? || r.name !in j.prepared || !Matches(j.prepared[r.name], r)
       || !ArtifactUri(r.playlistUri) || !ArtifactUri(r.streamUri) then Refuse
    else Save(j.(delivered := j.delivered[r.name := r]))
  }

  function SavePreparedManifest(j: Journal, a: PreparedArtifact): (v: Verdict)
  {
    if !j.state.InProgress? || j.manifestDelivered != "" || !SafePath(a.path) || !IsSha256Hex(a.sha256) then Refuse
    else Save(j.(manifestPrepared := Some(a)))
  }

  function SaveDeliveredManifest(j: Journal, uri: string): (v: Verdict)
  {
    if !j.state.InProgress? || j.manifestPrepared.None? || !ArtifactUri(uri) then Refuse
    else Save(j.(manifestDelivered := uri))
  }

  function Closed(j: Journal, state: JournalState, phase: string, body: Body): (next: Journal)
  {
    j.(nextSequence := Wrap64(j.nextSequence + 1), state := state, phase := phase,
       terminal := Some(StoredEvent(j.nextSequence, body)))
  }

  /** The result names the delivered checkpoints, all of them, unchanged. */
  predicate ReportsCheckpoints(j: Journal, result: TerminalResult)
  {
    && result.manifestUri == j.manifestDelivered
    && |result.renditions| == |j.delivered|
    && forall i :: 0 <= i < |result.renditions| ==>
         result.renditions[i].name in j.delivered && j.delivered[result.renditions[i].name] == result.renditions[i]
  }

  ghost function RecordResult(j: Journal, result: TerminalResult): (v: Verdict)
  {
    if !ResultAccepted(result) || !j.state.InProgress?
       || result.workloadId != j.workloadId || result.requestSha256 != j.requestSha256
       || !ReportsCheckpoints(j, result) then Refuse
    else Save(Closed(j, Succeeded, "succeeded", ResultBody(result)))
  }

  ghost function RecordError(j: Journal, failure: TerminalError): (v: Verdict)
  {
    if !ErrorAccepted(failure) || !j.state.InProgress?
       || failure.workloadId != j.workloadId || failure.requestSha256 != j.requestSha256
       || CheckpointUnits(j.delivered) != Some(failure.units) then Refuse
    else Save(Closed(j, JournalState.Failed, "failed", ErrorBody(failure)))
  }

  // ------------------------------------------------- usage of the checkpoints

  /** Some order in which to list a map's values. */
  ghost function Listing(m: map<string, RenditionResult>): (list: seq<RenditionResult>)
    decreases |m|
  {
    if m == map[] then []
    else
      var name :| name in m;
      Listing(m - {name}) + [m[name]]
  }

  ghost function CheckpointUnits(m: map<string, RenditionResult>): (units: Option<uint64>)
  {
    Units(Listing(m))
  }

  /** `names` lists the keys, each once, in any order. */
  ghost predicate Enumerates(names: seq<string>, m: map<string, RenditionResult>)
  {
    && |names| == |m| && (forall name :: name in names <==> name in m)
    && (forall i, j :: 0 <= i < j < |names| ==> names[i] != names[j])
  }

  function Values(names: seq<string>, m: map<string, RenditionResult>): (list: seq<RenditionResult>)
    requires forall name <- names :: name in m
    ensures |list| == |names|
  {
    seq(|names|, i requires 0 <= i < |names| => m[names[i]])
  }

  lemma {:induction false} ListingHolds(m: map<string, RenditionResult>, names: seq<string>)
    requires Enumerates(names, m)
    ensures multiset(Listing(m)) == multiset(Values(names, m))
    decreases |m|
  {
    hide Enumerates, Values;
    if m == map[] {
      assert names == [] && Values(names, m) == [] by { NoNames(names); }
    } else {
      var name :| name in m && Listing(m) == Listing(m - {name}) + [m[name]];
      var rest := WithoutName(names, m, name);
      ListingHolds(m - {name}, rest);
    }
  }

  lemma NoNames(names: seq<string>)
    requires Enumerates(names, map[])
    ensures names == [] && Values(names, map[]) == []
  {
  }

  lemma WithoutName(names: seq<string>, m: map<string, RenditionResult>, name: string) returns (rest: seq<string>)
    requires Enumerates(names, m) && name in m
    ensures Enumerates(rest, m - {name})
    ensures multiset(Values(names, m)) == multiset(Values(rest, m - {name})) + multiset{m[name]}
  {
    var i :| 0 <= i < |names| && names[i] == name;
    rest := names[..i] + names[i + 1..];
    RestEnumerates(names, m, i);
    assert (forall x <- names :: x in m) && (forall x <- rest :: x in m - {name});
    hide Enumerates;
    ValuesWithout(names, m, i);
    MultisetWithout(Values(names, m), i);
  }

  lemma ValuesWithout(names: seq<string>, m: map<string, RenditionResult>, i: nat)
    requires i < |names| && (forall x <- names :: x in m) && forall x <- names[..i] + names[i + 1..] :: x in m - {names[i]}
    ensures var values := Values(names, m);
            Values(names[..i] + names[i + 1..], m - {names[i]}) == values[..i] + values[i + 1..]
  {
  }

  lemma RestEnumerates(names: seq<string>, m: map<string, RenditionResult>, i: nat)
    requires Enumerates(names, m) && i < |names|
    ensures Enumerates(names[..i] + names[i + 1..], m - {names[i]})
    ensures forall k :: 0 <= k < |names| ==> names[k] in m
  {
    var rest, smaller := names[..i] + names[i + 1..], m - {names[i]};
    assert names[i] in names;
    assert smaller.Keys == m.Keys - {names[i]};
    assert |smaller| == |smaller.Keys| == |m.Keys| - 1 == |m| - 1;
    forall other ensures other in rest <==> other in smaller {
      RestHolds(names, i, other);
    }
    RestIsDistinct(names, i);
  }

  lemma RestIsDistinct(names: seq<string>, i: nat)
    requires i < |names| && forall a, b :: 0 <= a < b < |names| ==> names[a] != names[b]
    ensures var rest := names[..i] + names[i + 1..];
            forall a, b :: 0 <= a < b < |rest| ==> rest[a] != rest[b]
  {
    var rest := names[..i] + names[i + 1..];
    forall a, b | 0 <= a < b < |rest| ensures rest[a] != rest[b] {
      assert rest[a] == names[if a < i then a else a + 1] && rest[b] == names[if b < i then b else b + 1];
    }
  }

  lemma RestHolds(names: seq<string>, i: nat, other: string)
    requires i < |names| && forall a, b :: 0 <= a < b < |names| ==> names[a] != names[b]
    ensures other in names[..i] + names[i + 1..] <==> other in names && other != names[i]
  {
    var rest := names[..i] + names[i + 1..];
    if other in names && other != names[i] {
      var k :| 0 <= k < |names| && names[k] == other;
      assert other == if k < i then rest[k] else rest[k - 1];
    }
    if other in rest {
      var k :| 0 <= k < |rest| && rest[k] == other;
      assert other == if k < i then names[k] else names[k + 1];
    }
  }

  /** Sorted order, map order, or any other: the same claim. */
  lemma AnyOrderGivesCheckpointUnits(m: map<string, RenditionResult>, names: seq<string>)
    requires Enumerates(names, m)
    ensures Units(Values(names, m)) == CheckpointUnits(m)
  {
    ListingHolds(m, names);
    UnitsAreOrderFree(Values(names, m), Listing(m));
  }

  // -------------------------------------------- more checkpoints, more pixels

  ghost function MapPixels(m: map<string, RenditionResult>): (pixels: nat) { TotalPixels(Listing(m)) }

  lemma {:induction false} PixelsWithout(m: map<string, RenditionResult>, name: string)
    requires name in m
    ensures MapPixels(m) == MapPixels(m - {name}) + Pixels(m[name])
    decreases |m|
  {
    hide Pixels;
    var first :| first in m && Listing(m) == Listing(m - {first}) + [m[first]];
    var rest := m - {first};
    assert Listing(m)[..|Listing(m)| - 1] == Listing(rest);
    if first != name {
      PixelsWithout(rest, name);
      PixelsWithout(m - {name}, first);
      assert rest - {name} == m - {name} - {first};
    }
  }

  /** Every checkpoint of `a` is one of `b` with the same video. */
  predicate Covered(a: map<string, RenditionResult>, b: map<string, RenditionResult>)
  {
    forall name <- a :: name in b && b[name].video == a[name].video
  }

  lemma {:induction false} PixelsGrow(a: map<string, RenditionResult>, b: map<string, RenditionResult>)
    requires Covered(a, b)
    ensures MapPixels(a) <= MapPixels(b)
    decreases |a|
  {
    if a != map[] {
      var name :| name in a;
      PixelsWithout(a, name);
      PixelsWithout(b, name);
      hide MapPixels;
      PixelsGrow(a - {name}, b - {name});
    }
  }

  lemma {:induction false} ListingLists(m: map<string, RenditionResult>, r: RenditionResult)
    ensures r in Listing(m) <==> exists name :: name in m && m[name] == r
    decreases |m|
  {
    if m != map[] {
      var first :| first in m && Listing(m) == Listing(m - {first}) + [m[first]];
      ListingLists(m - {first}, r);
      if r in Listing(m - {first}) {
        var name :| name in m - {first} && (m - {first})[name] == r;
        assert name in m && m[name] == r;
      }
      if name :| name in m && m[name] == r && name != first {
        assert name in m - {first} && (m - {first})[name] == r;
      }
    }
  }

  /** An overflow is for good: further checkpoints cannot undo it. */
  lemma OverflowStays(a: map<string, RenditionResult>, b: map<string, RenditionResult>)
    requires Covered(a, b) && CheckpointUnits(a).None?
    ensures CheckpointUnits(b).None?
  {
    PixelsGrow(a, b);
    if MapPixels(a) <= MAX_UINT64 {
      var i :| 0 <= i < |Listing(a)| && !Countable(Listing(a)[i]);
      ListingLists(a, Listing(a)[i]);
      var name :| name in a && a[name] == Listing(a)[i];
      ListingLists(b, b[name]);
      var k :| 0 <= k < |Listing(b)| && Listing(b)[k] == b[name];
      assert !Countable(Listing(b)[k]);
    }
  }
}
