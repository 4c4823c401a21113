/** Splitting and joining text, as strings.Split and strings.Join do. */
module Text {

  predicate Free(s: string, c: char) { forall i :: 0 <= i < |s| ==> s[i] != c }

  /** strings.Split with a one-character separator: always at least one part. */
  function Split(s: string, sep: char): (parts: seq<string>)
    ensures |parts| >= 1
    ensures forall i :: 0 <= i < |parts| ==> Free(parts[i], sep)
  {
    if s == "" then [""]
    else
      var parts := Split(s[..|s| - 1], sep);
      if s[|s| - 1] == sep then parts + [""]
      else parts[|parts| - 1 := parts[|parts| - 1] + [s[|s| - 1]]]
  }

  function Join(parts: seq<string>, sep: char): (s: string)
    requires parts != []
  {
    if |parts| == 1 then parts[0] else Join(parts[..|parts| - 1], sep) + [sep] + parts[|parts| - 1]
  }

  lemma {:induction false} JoinExtendsLast(parts: seq<string>, sep: char, c: char)
    requires parts != []
    ensures Join(parts[|parts| - 1 := parts[|parts| - 1] + [c]], sep) == Join(parts, sep) + [c]
  {
    var longer := parts[|parts| - 1 := parts[|parts| - 1] + [c]];
    if |parts| > 1 {
      assert longer[..|parts| - 1] == parts[..|parts| - 1];
    }
  }

  /** Joining what was split restores the text. */
  lemma {:induction false} JoinOfSplit(s: string, sep: char)
    ensures Join(Split(s, sep), sep) == s
  {
    if s != "" {
      var init, c := s[..|s| - 1], s[|s| - 1];
      JoinOfSplit(init, sep);
      var parts := Split(init, sep);
      assert s == init + [c];
      if c == sep {
        assert (parts + [""])[..|parts|] == parts;
      } else {
        JoinExtendsLast(parts, sep, c);
      }
    }
  }

  lemma {:induction false} SplitOfAppend(s: string, sep: char, tail: string)
    requires Free(tail, sep)
    ensures Split(s + tail, sep) == var parts := Split(s, sep); parts[|parts| - 1 := parts[|parts| - 1] + tail]
  {
    if tail == "" {
      var parts := Split(s, sep);
      assert s + tail == s && parts[|parts| - 1] + tail == parts[|parts| - 1];
    } else {
      var init, c := tail[..|tail| - 1], tail[|tail| - 1];
      SplitOfAppend(s, sep, init);
      assert (s + tail)[..|s + tail| - 1] == s + init && (s + tail)[|s + tail| - 1] == c;
      var parts := Split(s, sep);
      assert tail == init + [c] && parts[|parts| - 1] + tail == parts[|parts| - 1] + init + [c];
    }
  }

  /** Splitting what was joined from separator-free parts restores the parts. */
  lemma {:induction false} SplitOfJoin(parts: seq<string>, sep: char)
    requires parts != [] && forall i :: 0 <= i < |parts| ==> Free(parts[i], sep)
    ensures Split(Join(parts, sep), sep) == parts
  {
    var last := parts[|parts| - 1];
    if |parts| == 1 {
      SplitOfAppend("", sep, last);
      assert "" + last == last;
    } else {
      var init := parts[..|parts| - 1];
      SplitOfJoin(init, sep);
      var head := Join(init, sep) + [sep];
      assert head[..|head| - 1] == Join(init, sep);
      assert Split(head, sep) == init + [""];
      SplitOfAppend(head, sep, last);
      assert "" + last == last && (init + [""])[|init| := last] == parts;
    }
  }

  /** Everything up to the first `c`, or all of it. */
  function Before(s: string, c: char): (t: string)
    ensures Free(t, c) && t <= s
    ensures t == s <==> Free(s, c)
    ensures t != s ==> s[|t|] == c
  {
    if s == "" || s[0] == c then "" else [s[0]] + Before(s[1..], c)
  }

  lemma {:induction false} BeforeOfJoined(s: string, c: char, rest: string)
    requires Free(s, c)
    ensures Before(s + [c] + rest, c) == s
  {
    if s == "" {
      assert "" + [c] + rest == [c] + rest;
    } else {
      assert s + [c] + rest == [s[0]] + (s[1..] + [c] + rest);
      BeforeOfJoined(s[1..], c, rest);
      assert s == [s[0]] + s[1..];
    }
  }

  /** strings.IndexByte. */
  method IndexOf(s: string, c: char) returns (at: int)
    ensures at < 0 <==> Free(s, c)
    ensures at >= 0 ==> at < |s| && Before(s, c) == s[..at]
  {
    at := 0;
    while at < |s| && s[at] != c
      invariant 0 <= at <= |s| && Free(s[..at], c)
    {
      at := at + 1;
    }
    if at == |s| {
      assert s[..at] == s;
      return -1;
    }
    BeforeOfJoined(s[..at], c, s[at + 1..]);
    assert s == s[..at] + [c] + s[at + 1..];
  }
}
