/** What a subscriber is sent: each read of the journal continues where the last one stopped. */
module AbrStream {
  import opened Basics
  import opened AbrContract
  import opened AbrJournal
  import opened AbrCheckpoints
  import opened AbrRuns

  /** Stored events numbered above `after`, in stored order. */
  function Above(events: seq<StoredEvent>, after: nat): (kept: seq<StoredEvent>)
  {
    if events == [] then []
    else
      var init := Above(events[..|events| - 1], after);
      if events[|events| - 1].sequence > after then init + [events[|events| - 1]] else init
  }

  function News(j: Journal, after: nat): (events: seq<StoredEvent>)
  {
    Above(j.progress, after) + if j.terminal.Some? && j.terminal.value.sequence > after then [j.terminal.value] else []
  }

  function LastSequence(events: seq<StoredEvent>, after: nat): (last: nat)
  {
    if events == [] then after else events[|events| - 1].sequence
  }

  /** Writes what is new; the client may go away after `room` events. */
  method WriteJournalEvents(j: Journal, after: uint64, room: nat)
    returns (written: seq<StoredEvent>, last: uint64, terminal: bool, ok: bool)
    ensures ok <==> |News(j, after)| <= room
    ensures ok ==> written == News(j, after) && last == LastSequence(written, after) && (terminal <==> j.terminal.Some?)
    ensures !ok ==> written == News(j, after)[..room] && !terminal
  {
    written, last := [], after;
    for k := 0 to |j.progress|
      invariant written == Above(j.progress[..k], after) && |written| <= room
      invariant last == LastSequence(written, after)
    {
      var event := j.progress[k];
      AboveStep(j.progress, after, k);
      if event.sequence <= after {
        continue;
      }
      if |written| == room {
        AboveGrows(j.progress, after, k + 1);
        return written, last, false, false;
      }
      written := written + [event];
      last := event.sequence;
    }
    assert j.progress[..|j.progress|] == j.progress;
    if j.terminal.Some? && j.terminal.value.sequence > after {
      if |written| == room {
        return written, last, false, false;
      }
      return written + [j.terminal.value], j.terminal.value.sequence, true, true;
    }
    return written, last, j.terminal.Some?, true;
  }

  lemma AboveStep(events: seq<StoredEvent>, after: nat, k: nat)
    requires k < |events|
    ensures Above(events[..k + 1], after) == Above(events[..k], after) + if events[k].sequence > after then [events[k]] else []
  {
    assert events[..k + 1][..k] == events[..k];
  }

  lemma {:induction false} AboveGrows(events: seq<StoredEvent>, after: nat, k: nat)
    requires k <= |events|
    ensures Above(events[..k], after) <= Above(events, after)
  {
    if k == |events| {
      assert events[..k] == events;
    } else {
      AboveGrows(events[..|events| - 1], after, k);
      assert events[..|events| - 1][..k] == events[..k];
    }
  }

  // ------------------------------------------------------------- one snapshot

  /** Consecutive numbers from `first` on. */
  predicate NumberedFrom(events: seq<StoredEvent>, first: nat)
  {
    forall i :: 0 <= i < |events| ==> events[i].sequence == first + i
  }

  lemma {:induction false} AboveOfNumbered(events: seq<StoredEvent>, first: nat, after: nat)
    requires NumberedFrom(events, first)
    ensures Above(events, after) == events[if after < first then 0 else if after - first < |events| then after - first + 1 else |events|..]
  {
    if events != [] {
      AboveOfNumbered(events[..|events| - 1], first, after);
    }
  }

  /** The oldest sequence the stored window still holds. */
  function Oldest(j: Journal): (n: int) { Top(j) - |j.progress| }

  /** The stored progress a read still sends. */
  lemma KeptProgress(j: Journal, after: nat)
    requires Windowed(j) && after < Top(j)
    ensures var kept, first := Above(j.progress, after), if after < Oldest(j) then Oldest(j) else after + 1;
            && |kept| == Top(j) - first
            && forall i :: 0 <= i < |kept| ==> kept[i].sequence == first + i && kept[i].body.Progress?
  {
    AboveOfNumbered(j.progress, Oldest(j), after);
    hide Above;
  }

  /** What a read sends is consecutive, starts right after what was sent before or
      at the oldest stored event, and ends with the newest event there is. */
  lemma NewsIsConsecutive(j: Journal, after: nat)
    requires Windowed(j) && after < Top(j)
    ensures var news, first := News(j, after), if after < Oldest(j) then Oldest(j) else after + 1;
            && NumberedFrom(news, first)
            && |news| == Top(j) - first + (if j.terminal.Some? then 1 else 0)
            && (forall i :: 0 <= i < |news| && !news[i].body.Progress? ==> i == |news| - 1 && j.terminal == Some(news[i]))
  {
    KeptProgress(j, after);
    hide Above, Windowed;
  }

  // ------------------------------------------------------------ a whole stream

  /** A subscription: the events sent, the last sequence, and whether it is over. */
  datatype Stream = Stream(sent: seq<StoredEvent>, last: nat, done: bool)

  /** The handler's loop over the journals it happens to load. */
  function Follow(loads: seq<Journal>): (s: Stream)
  {
    if loads == [] then Stream([], 0, false)
    else
      var before, j := Follow(loads[..|loads| - 1]), loads[|loads| - 1];
      if before.done then before
      else
        var news := News(j, before.last);
        Stream(before.sent + news, LastSequence(news, before.last), j.terminal.Some?)
  }

  /** Any number of writes may fall between two reads. */
  ghost predicate Snapshots(loads: seq<Journal>)
  {
    && (forall k :: 0 <= k < |loads| ==> Windowed(loads[k]))
    && (forall k :: 0 <= k < |loads| - 1 ==> Extends(loads[k], loads[k + 1]))
  }

  predicate Increasing(events: seq<StoredEvent>)
  {
    forall i, j :: 0 <= i < j < |events| ==> events[i].sequence < events[j].sequence
  }

  predicate TerminalLast(events: seq<StoredEvent>)
  {
    forall i :: 0 <= i < |events| && !events[i].body.Progress? ==> i == |events| - 1
  }

  predicate Caught(s: Stream, j: Journal)
  {
    && Increasing(s.sent) && TerminalLast(s.sent)
    && (forall i :: 0 <= i < |s.sent| ==> s.sent[i].sequence <= s.last)
    && (if s.done then j.terminal.Some? && s.sent != [] && Some(s.sent[|s.sent| - 1]) == j.terminal
        else s.last == Top(j) - 1 && j.terminal.None? && forall i :: 0 <= i < |s.sent| ==> s.sent[i].body.Progress?)
  }

  lemma {:induction false} SnapshotsAreOrdered(loads: seq<Journal>)
    requires Snapshots(loads) && loads != []
    ensures Caught(Follow(loads), loads[|loads| - 1])
  {
    var init, j := loads[..|loads| - 1], loads[|loads| - 1];
    if init == [] {
      FirstRead(j);
      assert Follow(init) == Stream([], 0, false);
    } else {
      SnapshotsAreOrdered(init);
      assert Extends(loads[|init| - 1], loads[|init|]);
      NextRead(Follow(init), init[|init| - 1], j);
    }
  }

  function ReadOne(s: Stream, j: Journal): (next: Stream)
  {
    if s.done then s else Stream(s.sent + News(j, s.last), LastSequence(News(j, s.last), s.last), j.terminal.Some?)
  }

  lemma FirstRead(j: Journal)
    requires Windowed(j)
    ensures Caught(ReadOne(Stream([], 0, false), j), j)
  {
    NewsIsConsecutive(j, 0);
    hide News, Windowed;
    NewsExtends(Stream([], 0, false), j, News(j, 0), if 0 < Oldest(j) then Oldest(j) else 1);
  }

  lemma NextRead(s: Stream, r: Journal, j: Journal)
    requires Caught(s, r) && Windowed(r) && Windowed(j) && Extends(r, j)
    ensures Caught(ReadOne(s, j), j)
  {
    if !s.done {
      NewsIsConsecutive(j, s.last);
      hide News, Windowed, Extends;
      NewsExtends(s, j, News(j, s.last), if s.last < Oldest(j) then Oldest(j) else s.last + 1);
    }
  }

  lemma NewsExtends(s: Stream, j: Journal, news: seq<StoredEvent>, first: nat)
    requires !s.done && Increasing(s.sent) && s.last < first
    requires forall i :: 0 <= i < |s.sent| ==> s.sent[i].sequence <= s.last && s.sent[i].body.Progress?
    requires NumberedFrom(news, first) && |news| == Top(j) - first + (if j.terminal.Some? then 1 else 0)
    requires forall i :: 0 <= i < |news| && !news[i].body.Progress? ==> i == |news| - 1 && j.terminal == Some(news[i])
    requires j.terminal.Some? ==> news != [] && Some(news[|news| - 1]) == j.terminal
    requires s.last < Top(j) && (news == [] ==> s.last == Top(j) - 1)
    ensures Caught(Stream(s.sent + news, LastSequence(news, s.last), j.terminal.Some?), j)
  {
  }

  /** Nothing is missing up to the last event sent. */
  predicate GapFree(s: Stream, j: Journal)
  {
    NumberedFrom(s.sent, 1) && |s.sent| == Top(j) - (if s.done then 0 else 1)
  }

  lemma ReadIsGapFree(s: Stream, r: Journal, j: Journal)
    requires Caught(s, r) && GapFree(s, r) && Windowed(r) && Windowed(j) && Extends(r, j)
    requires Top(j) <= Top(r) + 256
    ensures GapFree(ReadOne(s, j), j)
  {
    if !s.done {
      NewsIsConsecutive(j, s.last);
      hide News, Windowed, Increasing, TerminalLast, Extends;
    }
  }

  lemma FirstReadIsGapFree(j: Journal)
    requires Windowed(j) && Top(j) <= 257
    ensures GapFree(ReadOne(Stream([], 0, false), j), j)
  {
    NewsIsConsecutive(j, 0);
    hide News;
  }

  /** A read that comes too late starts above what it missed. */
  lemma LateReadLeavesGap(s: Stream, r: Journal, j: Journal)
    requires Caught(s, r) && GapFree(s, r) && Windowed(r) && Windowed(j) && Extends(r, j)
    requires Top(j) > Top(r) + 256
    ensures !NumberedFrom(ReadOne(s, j).sent, 1)
  {
    assert !s.done;
    NewsIsConsecutive(j, s.last);
    hide News, Increasing, TerminalLast;
    assert ReadOne(s, j).sent[|s.sent|].sequence == Oldest(j);
  }

  lemma LateFirstReadLeavesGap(j: Journal)
    requires Windowed(j) && Top(j) > 257
    ensures !NumberedFrom(ReadOne(Stream([], 0, false), j).sent, 1)
  {
    NewsIsConsecutive(j, 0);
    hide News;
    assert ReadOne(Stream([], 0, false), j).sent[0] == News(j, 0)[0] && News(j, 0)[0].sequence == Oldest(j);
  }

  /** Never more than 256 progress events since the read before. */
  predicate Prompt(loads: seq<Journal>)
  {
    && (loads != [] ==> Top(loads[0]) <= 257)
    && forall k :: 0 <= k < |loads| - 1 ==> Top(loads[k + 1]) <= Top(loads[k]) + 256
  }

  lemma PromptStep(loads: seq<Journal>)
    requires |loads| >= 2
    ensures var init := loads[..|loads| - 1];
            Prompt(loads) <==> Prompt(init) && Top(loads[|init|]) <= Top(init[|init| - 1]) + 256
  {
    hide Top;
    var init := loads[..|loads| - 1];
    if Prompt(init) && Top(loads[|init|]) <= Top(init[|init| - 1]) + 256 {
      forall k | 0 <= k < |loads| - 1 ensures Top(loads[k + 1]) <= Top(loads[k]) + 256 {
        assert loads[k] == init[k];
        assert k < |init| - 1 ==> Top(init[k + 1]) <= Top(init[k]) + 256;
      }
    }
    if Prompt(loads) {
      forall k | 0 <= k < |init| - 1 ensures Top(init[k + 1]) <= Top(init[k]) + 256 {
        assert Top(loads[k + 1]) <= Top(loads[k]) + 256;
      }
      assert Top(loads[|init| - 1 + 1]) <= Top(loads[|init| - 1]) + 256;
    }
  }

  lemma GapsStay(s: Stream, j: Journal)
    ensures NumberedFrom(ReadOne(s, j).sent, 1) ==> NumberedFrom(s.sent, 1)
    ensures s.done ==> ReadOne(s, j) == s
  {
    hide News;
    if !s.done && NumberedFrom(ReadOne(s, j).sent, 1) {
      forall i | 0 <= i < |s.sent| ensures s.sent[i].sequence == 1 + i {
        assert ReadOne(s, j).sent[i] == s.sent[i];
      }
    }
  }

  lemma {:induction false} SnapshotsAreGapFreeIff(loads: seq<Journal>)
    requires Snapshots(loads) && loads != []
    ensures NumberedFrom(Follow(loads).sent, 1) <==> Prompt(loads)
    ensures Prompt(loads) ==> GapFree(Follow(loads), loads[|loads| - 1])
  {
    var init, j := loads[..|loads| - 1], loads[|loads| - 1];
    hide Windowed, Top, Caught, News, Extends, NumberedFrom;
    if init == [] {
      assert Follow(init) == Stream([], 0, false);
      FirstReadGaps(j);
    } else {
      var s, r := Follow(init), init[|init| - 1];
      SnapshotsAreGapFreeIff(init);
      SnapshotsAreOrdered(init);
      assert Extends(loads[|init| - 1], loads[|init|]) && loads[|init| - 1] == r;
      PromptStep(loads);
      GapsStay(s, j);
      hide Prompt, Snapshots, Follow;
      if Prompt(init) {
        ReadGaps(s, r, j);
      }
    }
  }

  lemma FirstReadGaps(j: Journal)
    requires Windowed(j)
    ensures var s := ReadOne(Stream([], 0, false), j);
            && (NumberedFrom(s.sent, 1) <==> Top(j) <= 257)
            && (Top(j) <= 257 ==> GapFree(s, j))
  {
    if Top(j) <= 257 {
      FirstReadIsGapFree(j);
    } else {
      LateFirstReadLeavesGap(j);
    }
    hide News, Windowed, Top;
  }

  lemma ReadGaps(s: Stream, r: Journal, j: Journal)
    requires Caught(s, r) && GapFree(s, r) && Windowed(r) && Windowed(j) && Extends(r, j)
    ensures NumberedFrom(ReadOne(s, j).sent, 1) <==> Top(j) <= Top(r) + 256
    ensures Top(j) <= Top(r) + 256 ==> GapFree(ReadOne(s, j), j)
  {
    if Top(j) <= Top(r) + 256 {
      ReadIsGapFree(s, r, j);
    } else {
      LateReadLeavesGap(s, r, j);
    }
    hide News, Windowed, Top, Caught, Extends;
  }

  // ------------------------------------------------- reads of a real history

  /** The handler reads the journal at these moments of its history. */
  predicate Moments(picks: seq<nat>, count: nat)
  {
    && (forall k :: 0 <= k < |picks| ==> picks[k] < count)
    && (forall k :: 0 <= k < |picks| - 1 ==> picks[k] <= picks[k + 1])
  }

  function Loads(states: seq<Journal>, picks: seq<nat>): (loads: seq<Journal>)
    requires Moments(picks, |states|)
    ensures |loads| == |picks|
  {
    seq(|picks|, k requires 0 <= k < |picks| => states[picks[k]])
  }

  lemma ReadsAreSnapshots(states: seq<Journal>, writes: seq<Write>, picks: seq<nat>)
    requires History(states, writes) && Moments(picks, |states|)
    ensures Snapshots(Loads(states, picks))
  {
    hide History, Extends, Windowed;
    var loads := Loads(states, picks);
    forall k | 0 <= k < |loads| ensures Windowed(loads[k]) {
      HistoriesKeepInv(states, writes, picks[k]);
      InvIsWindowed(states[picks[k]]);
    }
    forall k | 0 <= k < |loads| - 1 ensures Extends(loads[k], loads[k + 1]) {
      assert picks[k] <= picks[k + 1];
      HistoriesExtend(states, writes, picks[k], picks[k + 1]);
    }
  }

  lemma InvIsWindowed(j: Journal)
    requires Inv(j)
    ensures Windowed(j)
  {
  }

  /** However the handler's reads fall into the history of the journal: sequence
      numbers strictly increase, the terminal event comes at most once and last,
      and a stream that has read an open journal has caught up with it. */
  lemma StreamIsOrdered(states: seq<Journal>, writes: seq<Write>, picks: seq<nat>)
    requires History(states, writes) && Moments(picks, |states|) && picks != []
    ensures Caught(Follow(Loads(states, picks)), states[picks[|picks| - 1]])
  {
    hide History, Snapshots, Caught;
    ReadsAreSnapshots(states, writes, picks);
    SnapshotsAreOrdered(Loads(states, picks));
  }

  /** The stream has no gap if and only if no read comes more than 256 progress
      events after the one before it, or after the start. */
  lemma StreamIsGapFreeIff(states: seq<Journal>, writes: seq<Write>, picks: seq<nat>)
    requires History(states, writes) && Moments(picks, |states|) && picks != []
    ensures NumberedFrom(Follow(Loads(states, picks)).sent, 1) <==> Prompt(Loads(states, picks))
    ensures Prompt(Loads(states, picks)) ==> GapFree(Follow(Loads(states, picks)), states[picks[|picks| - 1]])
  {
    hide History, Snapshots, NumberedFrom, GapFree, Prompt;
    ReadsAreSnapshots(states, writes, picks);
    SnapshotsAreGapFreeIff(Loads(states, picks));
  }
}
