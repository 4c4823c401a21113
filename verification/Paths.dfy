/** filepath.Clean on slash-separated paths, and the paths a journal may name. */
module Paths {
  import opened Text

  /** One element of the path against what is left of those before it. */
  function Walk(stack: seq<string>, part: string, rooted: bool): (next: seq<string>)
  {
    if part == "" || part == "." then stack
    else if part != ".." then stack + [part]
    else if stack != [] && stack[|stack| - 1] != ".." then stack[..|stack| - 1]
    else if rooted then stack
    else stack + [".."]
  }

  function Reduce(parts: seq<string>, rooted: bool): (stack: seq<string>)
  {
    if parts == [] then [] else Walk(Reduce(parts[..|parts| - 1], rooted), parts[|parts| - 1], rooted)
  }

  function Clean(path: string): (cleaned: string)
  {
    var rooted := path != "" && path[0] == '/';
    var stack := Reduce(Split(path, '/'), rooted);
    if stack == [] then if rooted then "/" else "."
    else if rooted then "/" + Join(stack, '/')
    else Join(stack, '/')
  }

  /** A relative path that Clean leaves alone and that does not climb. */
  predicate SafePath(path: string)
  {
    && path != "" && path == Clean(path) && path[0] != '/'
    && Clean(path) != ".." && !("../" <= Clean(path))
  }

  /** No empty or "." element, and ".." only at the start. */
  predicate Tidy(stack: seq<string>)
  {
    && (forall i :: 0 <= i < |stack| ==> stack[i] != "" && stack[i] != "." && Free(stack[i], '/'))
    && (forall i, j :: 0 <= i < j < |stack| && stack[j] == ".." ==> stack[i] == "..")
  }

  lemma {:induction false} ReduceIsTidy(parts: seq<string>, rooted: bool)
    requires forall i :: 0 <= i < |parts| ==> Free(parts[i], '/')
    ensures Tidy(Reduce(parts, rooted))
  {
    if parts != [] {
      ReduceIsTidy(parts[..|parts| - 1], rooted);
      var stack, part := Reduce(parts[..|parts| - 1], rooted), parts[|parts| - 1];
      if part == ".." && (stack == [] || stack[|stack| - 1] == "..") && !rooted {
        assert forall i :: 0 <= i < |stack| ==> stack[i] == "..";
      }
    }
  }

  /** A name below the directory it is looked up in. */
  predicate Normal(part: string) { part != "" && part != "." && part != ".." }

  lemma {:induction false} NormalPartsStay(parts: seq<string>, rooted: bool)
    requires forall i :: 0 <= i < |parts| ==> Normal(parts[i])
    ensures Reduce(parts, rooted) == parts
  {
    if parts != [] {
      NormalPartsStay(parts[..|parts| - 1], rooted);
      assert parts == parts[..|parts| - 1] + [parts[|parts| - 1]];
    }
  }

  lemma {:induction false} JoinStartsWithFirst(parts: seq<string>, sep: char)
    requires parts != []
    ensures if |parts| == 1 then Join(parts, sep) == parts[0] else parts[0] + [sep] <= Join(parts, sep)
  {
    if |parts| > 1 {
      JoinStartsWithFirst(parts[..|parts| - 1], sep);
    }
  }

  /** The paths accepted are exactly those that only name things below the
      directory, or that directory itself: no element is empty, "." or "..". */
  lemma SafePathsStayInside(path: string)
    ensures SafePath(path) <==> path == "." || forall part <- Split(path, '/') :: part !in {"", ".", ".."}
  {
    hide SafePath, Split;
    var parts := Split(path, '/');
    if path == "." {
      DotIsSafe();
    } else if forall part <- parts :: part !in {"", ".", ".."} {
      OnlyNormalIsSafe(path, parts);
    } else if SafePath(path) {
      SafeIsOnlyNormal(path);
    }
  }

  lemma DotIsSafe()
    ensures SafePath(".")
  {
    SplitOfJoin(["."], '/');
    assert Split(".", '/') == ["."];
    hide Split;
    assert Reduce(["."], false) == Walk(Reduce([], false), ".", false);
  }

  lemma OnlyNormalIsSafe(path: string, parts: seq<string>)
    requires parts == Split(path, '/') && forall part <- parts :: part !in {"", ".", ".."}
    ensures SafePath(path)
  {
    hide Reduce, Join, Split;
    forall i | 0 <= i < |parts| ensures Normal(parts[i]) {
      assert parts[i] in parts;
    }
    JoinOfSplit(path, '/');
    NormalPartsStay(parts, false);
    StartsNormal(parts, path);
  }

  lemma StartsNormal(parts: seq<string>, path: string)
    requires parts != [] && path == Join(parts, '/') && Normal(parts[0])
    requires forall i :: 0 <= i < |parts| ==> Free(parts[i], '/')
    ensures path != "" && path[0] != '/' && !("../" <= path)
    ensures |parts| == 1 ==> path == parts[0]
    ensures |parts| > 1 ==> parts[0] + "/" <= path
    ensures path != ".."
  {
    JoinStartsWithFirst(parts, '/');
    hide Join;
    assert path[0] == parts[0][0];
    assert |parts| > 1 ==> path[|parts[0]|] == '/';
    if "../" <= path {
      FirstUpToSlash(parts[0], path);
    }
  }

  lemma FirstUpToSlash(first: string, path: string)
    requires Free(first, '/') && "../" <= path && (path == first || first + "/" <= path)
    ensures first == ".."
  {
    assert path[0] == '.' && path[1] == '.' && path[2] == '/';
    assert first == path[..|first|];
    assert first == [path[0], path[1]];
  }

  lemma SafeIsOnlyNormal(path: string)
    requires SafePath(path) && path != "."
    ensures forall part <- Split(path, '/') :: part !in {"", ".", ".."}
  {
    var stack := Reduce(Split(path, '/'), false);
    ReduceIsTidy(Split(path, '/'), false);
    SplitOfJoin(stack, '/');
    JoinStartsWithFirst(stack, '/');
    assert stack[0] != "..";
    assert forall i :: 0 <= i < |stack| ==> stack[i] != "..";
  }

  lemma NameIsSafe(name: string)
    requires Normal(name) && Free(name, '/')
    ensures SafePath(name)
  {
    SplitOfJoin([name], '/');
    SafePathsStayInside(name);
    hide SafePath;
  }
}
