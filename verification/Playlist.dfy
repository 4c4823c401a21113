/** Finalized segments of an HLS media playlist: EXTINF/URI pairs, as in
    section 4.3.2.1 of RFC 8216. */
module Playlist {
  import opened Basics
  import opened LiveContract
  import opened SessionSteps
  import opened Text

  const EXTINF := "#EXTINF:"
  const HEADER := "#EXTM3U"

  // ---------------------------------------------------------------- durations

  const SECONDS_LIMIT: nat := 0x400_0000_0000_0000

  /** strconv.ParseUint in base 10 with a value limit. */
  function ParseUint(s: string, limit: nat): (n: Option<nat>)
  {
    if s == "" || !AllDigits(s) || DecimalValue(s) >= limit then None else Some(DecimalValue(s))
  }

  function Zeros(n: nat): (s: string)
    ensures |s| == n && AllDigits(s)
  {
    seq(n, i => '0')
  }

  predicate Trimmed(s: string) { s != "" && !IsSpace(s[0]) && !IsSpace(s[|s| - 1]) }

  predicate Signed(s: string) { s != "" && (s[0] == '-' || s[0] == '+') }

  /** seconds * 1_000_000 + fraction in wrapping 64-bit arithmetic. */
  function ParseMicroseconds(raw: string): (d: Option<uint64>)
  {
    var parts := Split(raw, '.');
    if !Trimmed(raw) || Signed(raw) then None
    else if |parts| > 2 || parts[0] == "" || (|parts| == 2 && (parts[1] == "" || |parts[1]| > 6)) then None
    else
      var seconds := ParseUint(parts[0], SECONDS_LIMIT);
      var fraction := if |parts| == 2 then ParseUint(parts[1] + Zeros(6 - |parts[1]|), MAX_UINT64 + 1) else Some(0);
      if seconds.None? || fraction.None? then None
      else
        var duration := Wrap64(Wrap64(seconds.value * 1_000_000) + fraction.value);
        if duration == 0 then None else Some(duration)
  }

  /** Plain decimal seconds with at most six fractional digits. */
  predicate DecimalSeconds(raw: string)
  {
    var parts := Split(raw, '.');
    && |parts| <= 2 && parts[0] != "" && AllDigits(parts[0]) && DecimalValue(parts[0]) < SECONDS_LIMIT
    && (|parts| == 2 ==> 1 <= |parts[1]| <= 6 && AllDigits(parts[1]))
  }

  /** The duration the text denotes, in microseconds, over unbounded integers. */
  function Denoted(raw: string): (micros: nat)
    requires DecimalSeconds(raw)
  {
    var parts := Split(raw, '.');
    DecimalValue(parts[0]) * 1_000_000 + if |parts| == 2 then DecimalValue(parts[1] + Zeros(6 - |parts[1]|)) else 0
  }

  function Pow10(k: nat): (p: nat)
    ensures p > 0
  {
    if k == 0 then 1 else 10 * Pow10(k - 1)
  }

  lemma {:induction false} DecimalValueBound(s: string)
    requires AllDigits(s)
    ensures DecimalValue(s) < Pow10(|s|)
  {
    if s != "" {
      DecimalValueBound(s[..|s| - 1]);
    }
  }

  lemma SixDigitsBound(s: string)
    requires AllDigits(s) && |s| == 6
    ensures DecimalValue(s) < 1_000_000
  {
    DecimalValueBound(s);
    assert Pow10(2) == 100 && Pow10(4) == 10_000 && Pow10(6) == 1_000_000;
  }

  lemma DigitsAreTrimmed(raw: string)
    requires DecimalSeconds(raw)
    ensures Trimmed(raw) && !Signed(raw)
  {
    JoinOfSplit(raw, '.');
    var parts := Split(raw, '.');
    if |parts| == 2 {
      assert parts[..1] == [parts[0]];
      assert raw == parts[0] + ['.'] + parts[1];
    }
  }

  /** What the 58-bit limit does not prevent: the product may wrap. The parse is
      exact precisely when the denoted duration is positive and fits 64 bits. */
  lemma ExactIffItFits(raw: string)
    requires DecimalSeconds(raw)
    ensures ParseMicroseconds(raw) == Some(Denoted(raw)) <==> 0 < Denoted(raw) <= MAX_UINT64
  {
    DigitsAreTrimmed(raw);
    var parts := Split(raw, '.');
    if |parts| == 2 {
      SixDigitsBound(parts[1] + Zeros(6 - |parts[1]|));
    }
  }

  /** Every duration up to 18446744073708 seconds is exact, fraction and all. */
  lemma ShortDurationsAreExact(raw: string)
    requires DecimalSeconds(raw) && Denoted(raw) > 0
    requires DecimalValue(Split(raw, '.')[0]) <= 18_446_744_073_708
    ensures ParseMicroseconds(raw) == Some(Denoted(raw))
  {
    var parts := Split(raw, '.');
    if |parts| == 2 {
      SixDigitsBound(parts[1] + Zeros(6 - |parts[1]|));
    }
    ExactIffItFits(raw);
  }

  /** From two seconds further on, every whole number of seconds the limit still
      lets through is accepted as some other duration, or refused. */
  lemma LongDurationsWrap(seconds: nat)
    requires 18_446_744_073_710 <= seconds < SECONDS_LIMIT
    ensures ParseMicroseconds(Decimal(seconds)) != Some(seconds * 1_000_000)
    ensures seconds == 18_446_744_073_710 ==> ParseMicroseconds(Decimal(seconds)) == Some(448_384)
  {
    var raw := Decimal(seconds);
    DecimalRoundTrip(seconds);
    SplitOfAppend("", '.', raw);
    assert "" + raw == raw;
    assert Split(raw, '.') == [raw];
    DigitsAreTrimmed(raw);
  }

  /** The printed form: whole seconds, a point, six digits. */
  function Print(micros: uint64): (s: string)
  {
    Decimal(micros / 1_000_000) + "." + Digits(micros % 1_000_000, 6)
  }

  function Digits(n: nat, k: nat): (s: string)
    ensures |s| == k && AllDigits(s)
  {
    if k == 0 then "" else Digits(n / 10, k - 1) + [DigitChar(n % 10)]
  }

  lemma {:induction false} DigitsValue(n: nat, k: nat)
    requires n < Pow10(k)
    ensures DecimalValue(Digits(n, k)) == n
  {
    if k > 0 {
      DigitsValue(n / 10, k - 1);
      assert Digits(n, k)[..k - 1] == Digits(n / 10, k - 1);
    }
  }

  lemma PrintRoundTrip(micros: uint64)
    requires micros > 0
    ensures ParseMicroseconds(Print(micros)) == Some(micros)
  {
    var whole, part := Decimal(micros / 1_000_000), Digits(micros % 1_000_000, 6);
    DecimalRoundTrip(micros / 1_000_000);
    assert Pow10(2) == 100 && Pow10(4) == 10_000 && Pow10(6) == 1_000_000;
    DigitsValue(micros % 1_000_000, 6);
    assert Join([whole, part], '.') == Print(micros) by { assert [whole, part][..1] == [whole]; }
    SplitOfJoin([whole, part], '.');
    assert part + Zeros(0) == part;
    ExactIffItFits(Print(micros));
  }

  // ------------------------------------------------------------------ scanning

  function DropCR(line: string): (s: string)
  {
    if line != "" && line[|line| - 1] == '\r' then line[..|line| - 1] else line
  }

  function DropBOM(line: string): (s: string)
  {
    if line != "" && line[0] as int == 0xFEFF then line[1..] else line
  }

  predicate Uri(line: string)
  {
    ByteLength(line) <= 2048 && forall i :: 0 <= i < |line| ==> line[i] !in "\r\n" && line[i] as int != 0
  }

  /** The parser's variables after some lines, or its failure. */
  datatype Scan = Scan(pending: Option<uint64>, media: bool, segments: seq<Segment>) | Bad

  function Find(segments: seq<Segment>, uri: string): (micros: Option<uint64>)
  {
    if segments == [] then None
    else
      var last := segments[|segments| - 1];
      if last.uri == uri then Some(last.micros) else Find(segments[..|segments| - 1], uri)
  }

  /** A URI seen before must come back with the same duration. */
  function Add(segments: seq<Segment>, s: Segment): (added: Option<seq<Segment>>)
  {
    match Find(segments, s.uri)
    case None => Some(segments + [s])
    case Some(micros) => if micros == s.micros then Some(segments) else None
  }

  function ScanLine(s: Scan, text: string): (n: Scan)
  {
    var line := DropCR(text);
    if s.Bad? then Bad
    else if line == "" then s
    else if EXTINF <= line then
      if s.pending.Some? then Bad
      else
        var duration := ParseMicroseconds(Before(line[|EXTINF|..], ','));
        if duration.None? then Bad else s.(pending := duration, media := true)
    else if line[0] == '#' || s.pending.None? then s
    else if !Uri(line) then Bad
    else
      match Add(s.segments, Segment(line, s.pending.value))
      case None => Bad
      case Some(segments) => s.(pending := None, segments := segments)
  }

  function ScanFrom(s: Scan, lines: seq<string>): (n: Scan)
  {
    if lines == [] then s else ScanLine(ScanFrom(s, lines[..|lines| - 1]), lines[|lines| - 1])
  }

  const EMPTY := Scan(None, false, [])

  function Parsed(lines: seq<string>): (segments: Option<seq<Segment>>)
  {
    if lines == [] || DropBOM(DropCR(lines[0])) != HEADER then None
    else
      var s := ScanFrom(EMPTY, lines[1..]);
      if s.Bad? || !s.media || s.pending.Some? then None else Some(s.segments)
  }

  lemma {:induction false} ScanConcat(s: Scan, a: seq<string>, b: seq<string>)
    ensures ScanFrom(s, a + b) == ScanFrom(ScanFrom(s, a), b)
  {
    if b == [] {
      assert a + b == a;
    } else {
      ScanConcat(s, a, b[..|b| - 1]);
      assert (a + b)[..|a + b| - 1] == a + b[..|b| - 1];
    }
  }

  lemma {:induction false} BadStaysBad(s: Scan, lines: seq<string>)
    requires s.Bad?
    ensures ScanFrom(s, lines).Bad?
  {
    if lines != [] {
      BadStaysBad(s, lines[..|lines| - 1]);
    }
  }

  lemma ScanStep(lines: seq<string>, k: nat)
    requires 0 < k < |lines|
    ensures ScanFrom(EMPTY, lines[1..k + 1]) == ScanLine(ScanFrom(EMPTY, lines[1..k]), lines[k])
    ensures ScanFrom(EMPTY, lines[1..k + 1]).Bad? ==> Parsed(lines).None?
  {
    var head := lines[1..k + 1];
    assert head[..|head| - 1] == lines[1..k];
    assert lines[1..] == head + lines[k + 1..];
    ScanConcat(EMPTY, head, lines[k + 1..]);
    if ScanFrom(EMPTY, head).Bad? {
      BadStaysBad(Bad, lines[k + 1..]);
    }
  }

  method ExtinfDuration(line: string) returns (duration: Option<uint64>)
    requires EXTINF <= line
    ensures duration == ParseMicroseconds(Before(line[|EXTINF|..], ','))
  {
    var raw := line[|EXTINF|..];
    var comma := IndexOf(raw, ',');
    if comma >= 0 {
      raw := raw[..comma];
    }
    duration := ParseMicroseconds(raw);
  }

  /** The parser's `seen` map against the list it goes with. */
  ghost predicate Indexes(seen: map<string, uint64>, segments: seq<Segment>)
  {
    && (forall uri :: uri in seen <==> Find(segments, uri).Some?)
    && (forall uri <- seen :: seen[uri] == Find(segments, uri).value)
  }

  lemma IndexFinds(seen: map<string, uint64>, segments: seq<Segment>, uri: string)
    requires Indexes(seen, segments)
    ensures Find(segments, uri) == if uri in seen then Some(seen[uri]) else None
  {
  }

  lemma IndexGrows(seen: map<string, uint64>, segments: seq<Segment>, s: Segment)
    requires Indexes(seen, segments)
    ensures Indexes(seen[s.uri := s.micros], segments + [s])
  {
    assert (segments + [s])[..|segments|] == segments;
  }

  /** A repeated URI must agree on its duration; a new one is listed. */
  method Note(seen: map<string, uint64>, segments: seq<Segment>, s: Segment)
    returns (agrees: bool, seen': map<string, uint64>, segments': seq<Segment>)
    requires Indexes(seen, segments)
    ensures Indexes(seen', segments') && Add(segments, s) == if agrees then Some(segments') else None
  {
    hide Indexes, Find;
    IndexFinds(seen, segments, s.uri);
    if s.uri in seen {
      return seen[s.uri] == s.micros, seen, segments;
    }
    IndexGrows(seen, segments, s);
    return true, seen[s.uri := s.micros], segments + [s];
  }

  /** `lines` are what the scanner yields; `failed` is its own error. */
  method ParseFinalizedHLSSegments(lines: seq<string>, failed: bool) returns (res: Option<seq<Segment>>)
    ensures res == if failed then None else Parsed(lines)
  {
    var media, pending: uint64, hasPending := false, 0, false;
    var seen: map<string, uint64> := map[];
    var segments: seq<Segment> := [];
    if |lines| == 0 {
      return None;
    }
    if DropBOM(DropCR(lines[0])) != HEADER {
      return None;
    }
    assert lines[1..1] == [];
    for k := 1 to |lines|
      invariant ScanFrom(EMPTY, lines[1..k]) == Scan(if hasPending then Some(pending) else None, media, segments)
      invariant Indexes(seen, segments)
    {
      ScanStep(lines, k);
      var line := DropCR(lines[k]);
      hide ScanFrom, Parsed, ParseMicroseconds, Uri, Indexes, Add, Before, DropCR, DropBOM, Find, Trimmed;
      if line == "" {
        continue;
      }
      if EXTINF <= line {
        if hasPending {
          return None;
        }
        var duration := ExtinfDuration(line);
        if duration.None? {
          return None;
        }
        media := true;
        pending, hasPending := duration.value, true;
        continue;
      }
      if line[0] == '#' {
        continue;
      }
      if !hasPending {
        continue;
      }
      if !Uri(line) {
        return None;
      }
      var agrees;
      agrees, seen, segments := Note(seen, segments, Segment(line, pending));
      if !agrees {
        return None;
      }
      hasPending := false;
    }
    assert lines[1..|lines|] == lines[1..];
    if failed || !media || hasPending {
      return None;
    }
    return Some(segments);
  }

  // ---------------------------------------------------------------- round trip

  /** One EXTINF/URI pair with whatever a playlist may put around it. */
  datatype Entry = Entry(before: seq<string>, title: string, between: seq<string>, segment: Segment)

  /** A line the parser passes over while no duration is pending. */
  predicate Skipped(text: string)
  {
    var line := DropCR(text); line == "" || !("#EXTINF:" <= line)
  }

  /** A line the parser passes over even between a duration and its URI. */
  predicate OtherTag(text: string)
  {
    var line := DropCR(text); line == "" || (line[0] == '#' && !("#EXTINF:" <= line))
  }

  /** A URI line that reads back as itself. */
  predicate PlainUri(uri: string) { uri != "" && uri[0] != '#' && Uri(uri) }

  predicate WellFormedEntry(e: Entry)
  {
    && (forall line <- e.before :: Skipped(line)) && (forall line <- e.between :: OtherTag(line))
    && PlainUri(e.segment.uri) && e.segment.micros > 0
  }

  function EntryLines(e: Entry): (lines: seq<string>)
  {
    e.before + ["#EXTINF:" + Print(e.segment.micros) + "," + e.title] + e.between + [e.segment.uri]
  }

  function Lines(entries: seq<Entry>): (lines: seq<string>)
  {
    if entries == [] then [] else Lines(entries[..|entries| - 1]) + EntryLines(entries[|entries| - 1])
  }

  function Rendered(entries: seq<Entry>, after: seq<string>): (lines: seq<string>)
  {
    ["#EXTM3U"] + Lines(entries) + after
  }

  function Segments(entries: seq<Entry>): (segments: seq<Segment>)
    ensures |segments| == |entries|
  {
    seq(|entries|, i requires 0 <= i < |entries| => entries[i].segment)
  }

  lemma {:induction false} PassesOver(s: Scan, lines: seq<string>)
    requires s.Scan?
    requires forall line <- lines :: if s.pending.None? then Skipped(line) else OtherTag(line)
    ensures ScanFrom(s, lines) == s
  {
    if lines != [] {
      PassesOver(s, lines[..|lines| - 1]);
      assert lines[|lines| - 1] in lines;
      hide ParseMicroseconds, Uri;
    }
  }

  lemma PrintHasNoComma(micros: uint64)
    ensures Free(Print(micros), ',')
  {
    var whole := Decimal(micros / 1_000_000);
    assert forall i :: 0 <= i < |whole| ==> IsDigit(whole[i]);
  }

  lemma DurationOfExtinf(micros: uint64, rest: string)
    requires micros > 0
    ensures ParseMicroseconds(Before(Print(micros) + "," + rest, ',')) == Some(micros)
  {
    PrintRoundTrip(micros);
    PrintHasNoComma(micros);
    BeforeOfJoined(Print(micros), ',', rest);
    hide Print, ParseMicroseconds, Before;
    assert [','] == ",";
  }

  lemma ExtinfLine(s: Scan, micros: uint64, title: string)
    requires s.Scan? && s.pending.None? && micros > 0
    ensures ScanLine(s, EXTINF + Print(micros) + "," + title) == s.(pending := Some(micros), media := true)
  {
    DurationOfExtinf(micros, DropCR(title));
    hide Print, ParseMicroseconds, Uri, Before, DropCR, ScanLine;
    TimedLine(s, Print(micros), title, micros);
  }

  lemma TimedLine(s: Scan, seconds: string, title: string, micros: uint64)
    requires s.Scan? && s.pending.None? && ParseMicroseconds(Before(seconds + "," + DropCR(title), ',')) == Some(micros)
    ensures ScanLine(s, EXTINF + seconds + "," + title) == s.(pending := Some(micros), media := true)
  {
    hide ParseMicroseconds, Uri, Before, Add;
    DropFromTail(EXTINF + seconds + ",", title);
    var raw := seconds + "," + DropCR(title);
    assert EXTINF + seconds + "," + DropCR(title) == EXTINF + raw;
    assert (EXTINF + raw)[|EXTINF|..] == raw;
    hide DropCR;
  }

  lemma DropFromTail(head: string, tail: string)
    requires head != "" && head[|head| - 1] != '\r'
    ensures DropCR(head + tail) == head + DropCR(tail)
  {
    if tail == "" {
      assert head + tail == head;
    } else {
      assert (head + tail)[..|head + tail| - 1] == head + tail[..|tail| - 1];
    }
  }

  lemma UriLine(s: Scan, uri: string)
    requires s.Scan? && s.pending.Some? && PlainUri(uri)
    ensures ScanLine(s, uri) ==
              match Add(s.segments, Segment(uri, s.pending.value))
              case None => Bad
              case Some(segments) => s.(pending := None, segments := segments)
  {
    assert DropCR(uri) == uri;
    hide Add, ParseMicroseconds;
    assert uri[0] != EXTINF[0];
  }

  lemma ScanSingle(s: Scan, line: string)
    ensures ScanFrom(s, [line]) == ScanLine(s, line)
  {
    hide ScanLine;
    assert [line][..0] == [];
  }

  lemma EntryScans(s: Scan, e: Entry)
    requires s.Scan? && s.pending.None? && WellFormedEntry(e)
    ensures ScanFrom(s, EntryLines(e)) ==
              match Add(s.segments, e.segment)
              case None => Bad
              case Some(segments) => s.(media := true, segments := segments)
  {
    var extinf := EXTINF + Print(e.segment.micros) + "," + e.title;
    var timed := s.(pending := Some(e.segment.micros), media := true);
    PassesOver(s, e.before);
    ExtinfLine(s, e.segment.micros, e.title);
    PassesOver(timed, e.between);
    UriLine(timed, e.segment.uri);
    hide ScanFrom, ScanLine, Add, Print, PlainUri, Skipped, OtherTag;
    ScanConcat(s, e.before, [extinf]);
    ScanSingle(s, extinf);
    ScanConcat(s, e.before + [extinf], e.between);
    ScanSingle(timed, e.segment.uri);
    ScanConcat(s, e.before + [extinf] + e.between, [e.segment.uri]);
  }

  /** The listing without repeats, or None when a URI changes its duration. */
  function Deduplicated(segments: seq<Segment>): (list: Option<seq<Segment>>)
  {
    if segments == [] then Some([])
    else match Deduplicated(segments[..|segments| - 1])
         case None => None
         case Some(list) => Add(list, segments[|segments| - 1])
  }

  lemma {:induction false} EntriesScan(entries: seq<Entry>)
    requires forall e <- entries :: WellFormedEntry(e)
    ensures ScanFrom(EMPTY, Lines(entries)) ==
              match Deduplicated(Segments(entries))
              case None => Bad
              case Some(list) => Scan(None, entries != [], list)
  {
    if entries != [] {
      var init, last := entries[..|entries| - 1], entries[|entries| - 1];
      EntriesScan(init);
      ScanConcat(EMPTY, Lines(init), EntryLines(last));
      assert Segments(entries)[..|init|] == Segments(init);
      hide ScanLine, Add, WellFormedEntry;
      if ScanFrom(EMPTY, Lines(init)).Bad? {
        BadStaysBad(Bad, EntryLines(last));
      } else {
        assert last in entries;
        EntryScans(ScanFrom(EMPTY, Lines(init)), last);
      }
    }
  }

  /** Same URI, same duration. */
  ghost predicate Consistent(segments: seq<Segment>)
  {
    forall i, j :: 0 <= i < j < |segments| && segments[i].uri == segments[j].uri ==> segments[i].micros == segments[j].micros
  }

  ghost predicate DistinctUris(list: seq<Segment>)
  {
    forall i, j :: 0 <= i < j < |list| ==> list[i].uri != list[j].uri
  }

  lemma {:induction false} FindIsMembership(list: seq<Segment>, uri: string)
    ensures Find(list, uri).None? <==> forall s <- list :: s.uri != uri
    ensures Find(list, uri).Some? ==> Segment(uri, Find(list, uri).value) in list
  {
    if list != [] {
      FindIsMembership(list[..|list| - 1], uri);
      assert list == list[..|list| - 1] + [list[|list| - 1]];
    }
  }

  /** What the deduplication is: defined exactly when durations are consistent,
      with distinct URIs, and holding just the segments it was given. */
  lemma {:induction false} DeduplicationIsExact(segments: seq<Segment>)
    ensures Deduplicated(segments).Some? <==> Consistent(segments)
    ensures Deduplicated(segments).Some? ==>
              var list := Deduplicated(segments).value;
              DistinctUris(list) && (forall s :: s in list <==> s in segments)
  {
    if segments != [] {
      var init, last := segments[..|segments| - 1], segments[|segments| - 1];
      DeduplicationIsExact(init);
      assert segments == init + [last];
      if Deduplicated(init).Some? {
        var list := Deduplicated(init).value;
        FindIsMembership(list, last.uri);
        LastIsConsistent(init, last);
      }
    }
  }

  lemma LastIsConsistent(init: seq<Segment>, last: Segment)
    requires Consistent(init)
    ensures Consistent(init + [last]) <==> forall s <- init :: s.uri == last.uri ==> s.micros == last.micros
  {
    var all := init + [last];
    if forall s <- init :: s.uri == last.uri ==> s.micros == last.micros {
      forall i, j | 0 <= i < j < |all| && all[i].uri == all[j].uri ensures all[i].micros == all[j].micros {
        assert all[i] in init;
      }
    } else {
      var s :| s in init && s.uri == last.uri && s.micros != last.micros;
      var i :| 0 <= i < |init| && init[i] == s;
      assert all[i].uri == all[|init|].uri && all[i].micros != all[|init|].micros;
    }
  }

  /** Printing segments as EXTINF/URI pairs, with any other tag lines around and
      between, and parsing them gives back the list without repeats; and it fails
      only when one URI is given two durations. */
  lemma PlaylistRoundTrip(entries: seq<Entry>, after: seq<string>)
    requires entries != [] && (forall e <- entries :: WellFormedEntry(e)) && forall line <- after :: Skipped(line)
    ensures Parsed(Rendered(entries, after)) == Deduplicated(Segments(entries))
    ensures Parsed(Rendered(entries, after)).Some? <==> Consistent(Segments(entries))
  {
    EntriesScan(entries);
    DeduplicationIsExact(Segments(entries));
    hide Lines, Deduplicated, Consistent, WellFormedEntry;
    TrailerIsIgnored(Lines(entries), after);
  }

  lemma TrailerIsIgnored(body: seq<string>, after: seq<string>)
    requires forall line <- after :: Skipped(line)
    requires var s := ScanFrom(EMPTY, body); s.Scan? ==> s.pending.None? && s.media
    ensures var s := ScanFrom(EMPTY, body);
            Parsed([HEADER] + body + after) == if s.Bad? then None else Some(s.segments)
  {
    var lines, s := [HEADER] + body + after, ScanFrom(EMPTY, body);
    assert lines[1..] == body + after && lines[0] == HEADER;
    ScanConcat(EMPTY, body, after);
    if s.Bad? {
      BadStaysBad(s, after);
    } else {
      PassesOver(s, after);
    }
    hide ScanFrom, Skipped;
  }
}
