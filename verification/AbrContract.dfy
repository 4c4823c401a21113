/** The ABR workload contract: delivered renditions, terminal claims and billing. */
module AbrContract {
  import opened Basics

  datatype Video = Video(frames: uint64, width: uint32, height: uint32)

  datatype RenditionResult = RenditionResult(
    name: string,
    playlistUri: string,
    streamUri: string,
    video: Option<Video>,
    fileSize: uint64)

  /** Schema, outcome and work unit are constants of the two claim types. */
  datatype TerminalResult = TerminalResult(
    workloadId: string,
    requestSha256: string,
    manifestUri: string,
    renditions: seq<RenditionResult>,
    units: uint64)

  datatype TerminalError = TerminalError(
    workloadId: string,
    requestSha256: string,
    code: string,
    message: string,
    retryable: bool,
    units: uint64)

  datatype Disposition = ResumeExisting | ReplayTerminal | RejectIdReuse

  function ClassifyReplay(existing: string, incoming: string, terminal: bool): (d: Disposition)
    ensures d.ReplayTerminal? <==> terminal && existing == incoming
    ensures d.RejectIdReuse? <==> existing != incoming
  {
    if existing != incoming then RejectIdReuse else if terminal then ReplayTerminal else ResumeExisting
  }

  predicate ArtifactUri(raw: string)
  {
    && (exists i :: 0 <= i < |raw| && !IsSpace(raw[i]))
    && ByteLength(raw) <= 1024
    && forall i :: 0 <= i < |raw| ==> raw[i] !in "?\r\n"
  }

  // ------------------------------------------------------------------ billing

  function VideoPixels(v: Video): (pixels: nat) { v.frames * v.width * v.height }

  function Pixels(r: RenditionResult): (pixels: nat)
  {
    if r.video.None? then 0 else VideoPixels(r.video.value)
  }

  function TotalPixels(renditions: seq<RenditionResult>): (pixels: nat)
  {
    if renditions == [] then 0 else TotalPixels(renditions[..|renditions| - 1]) + Pixels(renditions[|renditions| - 1])
  }

  /** Both partial products of one rendition stay inside 64 bits. */
  predicate Countable(r: RenditionResult)
  {
    r.video.Some? ==> r.video.value.frames * r.video.value.width <= MAX_UINT64 && VideoPixels(r.video.value) <= MAX_UINT64
  }

  predicate Billable(renditions: seq<RenditionResult>)
  {
    (forall i :: 0 <= i < |renditions| ==> Countable(renditions[i])) && TotalPixels(renditions) <= MAX_UINT64
  }

  function CeilMegapixels(pixels: nat): (units: nat)
    ensures (units as int - 1) * 1_000_000 < pixels <= units * 1_000_000
  {
    (pixels + 999_999) / 1_000_000
  }

  /** The product's billing decision over unbounded integers, with the failures
      of 64-bit arithmetic made explicit. */
  function Units(renditions: seq<RenditionResult>): (units: Option<uint64>)
  {
    if Billable(renditions) then Some(CeilMegapixels(TotalPixels(renditions))) else None
  }

  /** math/bits.Mul64. */
  function Mul64(a: uint64, b: uint64): (product: (uint64, uint64))
    ensures product.0 * (MAX_UINT64 + 1) + product.1 == a * b
  {
    WideProduct(a, b);
    (a * b / (MAX_UINT64 + 1), a * b % (MAX_UINT64 + 1))
  }

  lemma WideProduct(a: uint64, b: uint64)
    ensures 0 <= a * b / (MAX_UINT64 + 1) <= MAX_UINT64
  {
    assert 0 <= a * b <= MAX_UINT64 * b;
    assert MAX_UINT64 * b <= MAX_UINT64 * (MAX_UINT64 + 1);
  }

  lemma Mul64Fits(a: uint64, b: uint64)
    ensures Mul64(a, b).0 == 0 <==> a * b <= MAX_UINT64
    ensures a * b <= MAX_UINT64 ==> Mul64(a, b).1 == a * b
  {
  }

  /** math/bits.Add64 without a carry in. */
  function Add64(a: uint64, b: uint64): (sum: (uint64, uint64))
    ensures sum.0 + sum.1 * (MAX_UINT64 + 1) == a + b
  {
    if a + b > MAX_UINT64 then (a + b - MAX_UINT64 - 1, 1) else (a + b, 0)
  }

  lemma TotalGrows(renditions: seq<RenditionResult>, k: nat)
    requires k <= |renditions|
    ensures TotalPixels(renditions[..k]) <= TotalPixels(renditions)
  {
    if k == |renditions| {
      assert renditions[..k] == renditions;
    } else {
      TotalGrows(renditions[..|renditions| - 1], k);
      assert renditions[..|renditions| - 1][..k] == renditions[..k];
    }
  }

  /** Two widening products, each of which has to fit. */
  method CountPixels(video: Video) returns (pixels: Option<uint64>)
    ensures pixels == if video.frames * video.width <= MAX_UINT64 && VideoPixels(video) <= MAX_UINT64 then Some(VideoPixels(video)) else None
  {
    Mul64Fits(video.frames, video.width);
    var (overflow, frameWidth) := Mul64(video.frames, video.width);
    if overflow != 0 {
      return None;
    }
    Mul64Fits(frameWidth, video.height);
    var (overflow', product) := Mul64(frameWidth, video.height);
    hide Mul64;
    return if overflow' != 0 then None else Some(product);
  }

  /** None is a 64-bit overflow somewhere along the way. */
  method CalculateFrameMegapixelUnits(renditions: seq<RenditionResult>) returns (units: Option<uint64>)
    ensures units == Units(renditions)
  {
    var pixels: uint64 := 0;
    for k := 0 to |renditions|
      invariant pixels == TotalPixels(renditions[..k])
      invariant forall i :: 0 <= i < k ==> Countable(renditions[i])
    {
      assert renditions[..k + 1][..k] == renditions[..k];
      TotalGrows(renditions, k + 1);
      if renditions[k].video.None? {
        continue;
      }
      var counted := CountPixels(renditions[k].video.value);
      hide VideoPixels;
      if counted.None? {
        assert !Countable(renditions[k]);
        return None;
      }
      var (sum, carry) := Add64(pixels, counted.value);
      if carry != 0 {
        return None;
      }
      pixels := sum;
    }
    assert renditions[..|renditions|] == renditions;
    hide TotalPixels, Countable, Mul64, Add64;
    var whole: uint64 := pixels / 1_000_000;
    if pixels % 1_000_000 != 0 {
      whole := whole + 1;
    }
    return Some(whole);
  }

  /** A rendition is billed by its frames times its area, and audio not at all: one
      more rendition adds exactly that before the total is rounded up. */
  lemma OneMoreIsBilled(renditions: seq<RenditionResult>, r: RenditionResult)
    ensures r.video.None? ==> Units(renditions + [r]) == Units(renditions)
    ensures r.video.Some? && Units(renditions + [r]).Some? ==>
              var v := r.video.value;
              var pixels := TotalPixels(renditions) + v.frames * v.width * v.height;
              Units(renditions + [r]) == Some((pixels + 999_999) / 1_000_000) && Units(renditions).Some?
    ensures TotalPixels([]) == 0
  {
    AppendedTotal(renditions, r);
    if r.video.Some? {
      VideoIsCounted(r);
    }
    BillableStep(renditions, r);
    hide *;
    BillOfTotal(renditions);
    BillOfTotal(renditions + [r]);
  }

  lemma VideoIsCounted(r: RenditionResult)
    requires r.video.Some?
    ensures Pixels(r) == r.video.value.frames * r.video.value.width * r.video.value.height
  {
  }

  lemma AppendedTotal(renditions: seq<RenditionResult>, r: RenditionResult)
    ensures TotalPixels(renditions + [r]) == TotalPixels(renditions) + Pixels(r)
    ensures TotalPixels([]) == 0
    ensures r.video.None? ==> Countable(r) && Pixels(r) == 0
  {
    assert (renditions + [r])[..|renditions|] == renditions;
    hide VideoPixels;
  }

  lemma BillOfTotal(renditions: seq<RenditionResult>)
    ensures Units(renditions) == if Billable(renditions) then Some((TotalPixels(renditions) + 999_999) / 1_000_000) else None
  {
    hide Billable, TotalPixels;
  }

  lemma BillableStep(renditions: seq<RenditionResult>, r: RenditionResult)
    requires TotalPixels(renditions + [r]) == TotalPixels(renditions) + Pixels(r)
    ensures Billable(renditions + [r]) ==> Billable(renditions) && Countable(r)
    ensures Billable(renditions) && Countable(r) && Pixels(r) == 0 ==> Billable(renditions + [r])
  {
    var longer := renditions + [r];
    assert forall i :: 0 <= i < |renditions| ==> longer[i] == renditions[i];
    assert longer[|renditions|] == r;
    hide Countable, TotalPixels, Pixels;
  }

  // ---------------------------------------------------- order does not matter

  lemma {:induction false} TotalOfConcat(a: seq<RenditionResult>, b: seq<RenditionResult>)
    ensures TotalPixels(a + b) == TotalPixels(a) + TotalPixels(b)
  {
    if b == [] {
      assert a + b == a;
    } else {
      assert (a + b)[..|a + b| - 1] == a + b[..|b| - 1];
      TotalOfConcat(a, b[..|b| - 1]);
    }
  }

  lemma TotalWithout(b: seq<RenditionResult>, i: nat)
    requires i < |b|
    ensures TotalPixels(b) == TotalPixels(b[..i] + b[i + 1..]) + Pixels(b[i])
  {
    assert b == b[..i + 1] + b[i + 1..] && b[..i + 1][..i] == b[..i];
    TotalOfConcat(b[..i + 1], b[i + 1..]);
    TotalOfConcat(b[..i], b[i + 1..]);
  }

  lemma MultisetWithout<T>(s: seq<T>, i: nat)
    requires i < |s|
    ensures multiset(s) == multiset(s[..i] + s[i + 1..]) + multiset{s[i]}
  {
    assert s == s[..i] + [s[i]] + s[i + 1..];
  }

  /** The other list without one occurrence of the last element of this one. */
  lemma WithoutLast(a: seq<RenditionResult>, b: seq<RenditionResult>) returns (i: nat)
    requires a != [] && multiset(a) == multiset(b)
    ensures i < |b| && b[i] == a[|a| - 1] && multiset(a[..|a| - 1]) == multiset(b[..i] + b[i + 1..])
  {
    var init, last := a[..|a| - 1], a[|a| - 1];
    assert a == init + [last];
    assert last in multiset(b);
    i :| 0 <= i < |b| && b[i] == last;
    MultisetWithout(b, i);
    assert multiset(a) == multiset(init) + multiset{last};
    assert multiset(b[..i] + b[i + 1..]) == multiset(b) - multiset{last} == multiset(init);
  }

  lemma {:induction false} TotalIsOrderFree(a: seq<RenditionResult>, b: seq<RenditionResult>)
    requires multiset(a) == multiset(b)
    ensures TotalPixels(a) == TotalPixels(b)
    decreases |a|
  {
    hide Pixels;
    if a == [] {
      assert |multiset(b)| == 0;
    } else {
      var i := WithoutLast(a, b);
      TotalWithout(b, i);
      TotalIsOrderFree(a[..|a| - 1], b[..i] + b[i + 1..]);
    }
  }

  /** The claim computed in sorted order and the recomputation in map order agree,
      on the amount and on whether there is one at all. */
  lemma UnitsAreOrderFree(a: seq<RenditionResult>, b: seq<RenditionResult>)
    requires multiset(a) == multiset(b)
    ensures Units(a) == Units(b)
  {
    TotalIsOrderFree(a, b);
    forall x | x in a ensures x in b { assert x in multiset(b); }
    forall x | x in b ensures x in a { assert x in multiset(a); }
    assert (forall i :: 0 <= i < |a| ==> Countable(a[i])) <==> forall x :: x in a ==> Countable(x);
    assert (forall i :: 0 <= i < |b| ==> Countable(b[i])) <==> forall x :: x in b ==> Countable(x);
  }

  // ---------------------------------------------------------- terminal results

  predicate RenditionAccepted(r: RenditionResult)
  {
    && r.name != "" && ArtifactUri(r.playlistUri) && ArtifactUri(r.streamUri)
    && (r.video.Some? ==> r.video.value.frames != 0 && r.video.value.width != 0 && r.video.value.height != 0)
  }

  predicate DistinctNames(renditions: seq<RenditionResult>)
  {
    forall i, j :: 0 <= i < j < |renditions| ==> renditions[i].name != renditions[j].name
  }

  /** ValidateABRTerminalResultV2 as one condition. */
  ghost predicate ResultAccepted(result: TerminalResult)
  {
    && OpaqueId(result.workloadId) && IsSha256Hex(result.requestSha256)
    && ArtifactUri(result.manifestUri)
    && result.renditions != []
    && (forall i :: 0 <= i < |result.renditions| ==> RenditionAccepted(result.renditions[i]))
    && DistinctNames(result.renditions)
    && Units(result.renditions) == Some(result.units)
  }

  method ValidateTerminalResult(result: TerminalResult) returns (ok: bool)
    ensures ok <==> ResultAccepted(result)
  {
    hide ArtifactUri, OpaqueId, IsSha256Hex, Units;
    if !OpaqueId(result.workloadId) || !IsSha256Hex(result.requestSha256) || !ArtifactUri(result.manifestUri) {
      return false;
    }
    if |result.renditions| == 0 {
      return false;
    }
    var seen: set<string> := {};
    for k := 0 to |result.renditions|
      invariant forall i :: 0 <= i < k ==> RenditionAccepted(result.renditions[i])
      invariant DistinctNames(result.renditions[..k])
      invariant forall i :: 0 <= i < k ==> result.renditions[i].name in seen
      invariant forall name :: name in seen ==> exists i :: 0 <= i < k && result.renditions[i].name == name
    {
      var rendition := result.renditions[k];
      if rendition.name == "" || !ArtifactUri(rendition.playlistUri) || !ArtifactUri(rendition.streamUri) {
        assert !RenditionAccepted(result.renditions[k]);
        return false;
      }
      if rendition.name in seen {
        return false;
      }
      seen := seen + {rendition.name};
      if rendition.video.Some? && (rendition.video.value.frames == 0 || rendition.video.value.width == 0 || rendition.video.value.height == 0) {
        assert !RenditionAccepted(result.renditions[k]);
        return false;
      }
    }
    assert result.renditions[..|result.renditions|] == result.renditions;
    var units := CalculateFrameMegapixelUnits(result.renditions);
    return units == Some(result.units);
  }

  predicate Contains(haystack: string, needle: string)
  {
    exists i :: 0 <= i <= |haystack| - |needle| && StartsAt(haystack, needle, i)
  }

  predicate StartsAt(haystack: string, needle: string, i: nat)
  {
    i + |needle| <= |haystack| && haystack[i..i + |needle|] == needle
  }

  /** strings.ToLower as far as its result is ASCII: the two letters beyond ASCII
      with an ASCII lower case are the dotted capital I and the Kelvin sign. */
  function Lower(s: string): (t: string)
    ensures |t| == |s|
  {
    seq(|s|, i requires 0 <= i < |s| =>
      if 'A' <= s[i] <= 'Z' then (s[i] as int + 32) as char
      else if s[i] as int == 0x130 then 'i'
      else if s[i] as int == 0x212A then 'k'
      else s[i])
  }

  predicate Redacted(message: string)
  {
    && ByteLength(message) <= 512
    && !Contains(Lower(message), "http://") && !Contains(Lower(message), "https://") && !Contains(Lower(message), "sig=")
  }

  /** No message that leaves the runner holds a URL or a signature, in any case of
      the letters, and it stays short. */
  lemma RedactedHidesCredentials(message: string, i: nat)
    requires Redacted(message) && i <= |message|
    ensures |message| <= 512
    ensures i + 7 <= |message| ==> Lower(message[i..i + 7]) != "http://"
    ensures i + 8 <= |message| ==> Lower(message[i..i + 8]) != "https://"
    ensures i + 4 <= |message| ==> Lower(message[i..i + 4]) != "sig="
  {
    var lower := Lower(message);
    if i + 7 <= |message| {
      assert Lower(message[i..i + 7]) == lower[i..i + 7];
      assert !StartsAt(lower, "http://", i);
    }
    if i + 8 <= |message| {
      assert Lower(message[i..i + 8]) == lower[i..i + 8];
      assert !StartsAt(lower, "https://", i);
    }
    if i + 4 <= |message| {
      assert Lower(message[i..i + 4]) == lower[i..i + 4];
      assert !StartsAt(lower, "sig=", i);
    }
  }

  lemma ContainsShows(haystack: string, needle: string, i: nat)
    requires i < |needle| && Contains(haystack, needle)
    ensures exists k :: 0 <= k < |haystack| && haystack[k] == needle[i]
  {
    var at :| 0 <= at <= |haystack| - |needle| && StartsAt(haystack, needle, at);
    assert haystack[at..at + |needle|][i] == haystack[at + i];
  }

  lemma NotContained(haystack: string, needle: string, i: nat)
    requires i < |needle| && forall k :: 0 <= k < |haystack| ==> haystack[k] != needle[i]
    ensures !Contains(haystack, needle)
  {
    if Contains(haystack, needle) {
      ContainsShows(haystack, needle, i);
    }
  }

  lemma FallbackIsRedacted()
    ensures Redacted("ABR execution failed")
  {
    var lower := Lower("ABR execution failed");
    NotContained(lower, "http://", 4);
    NotContained(lower, "https://", 5);
    NotContained(lower, "sig=", 3);
  }

  lemma UsageFailureIsRedacted()
    ensures Redacted("usage measurement failed")
  {
    var lower := Lower("usage measurement failed");
    NotContained(lower, "http://", 4);
    NotContained(lower, "https://", 5);
    NotContained(lower, "sig=", 3);
  }

  predicate ErrorAccepted(failure: TerminalError)
  {
    && OpaqueId(failure.workloadId) && IsSha256Hex(failure.requestSha256)
    && failure.code != "" && failure.message != "" && Redacted(failure.message)
  }
}
