/** Attribute lists with quoted commas, as in section 4.2 of RFC 8216. */
module HlsAttributes {
  import opened Basics
  import opened Text

  /** Inside a quoted string after reading s. */
  predicate Quoted(s: string)
  {
    s != "" && (if s[|s| - 1] == '"' then !Quoted(s[..|s| - 1]) else Quoted(s[..|s| - 1]))
  }

  /** Cut at every comma outside quotes. */
  function Pieces(s: string): (pieces: seq<string>)
    ensures |pieces| >= 1
  {
    if s == "" then [""]
    else
      var init, c := s[..|s| - 1], s[|s| - 1];
      var pieces := Pieces(init);
      if c == ',' && !Quoted(init) then pieces + [""] else pieces[|pieces| - 1 := pieces[|pieces| - 1] + [c]]
  }

  predicate OneLine(s: string) { forall i :: 0 <= i < |s| ==> s[i] !in "\r\n" }

  function Key(piece: string): (key: string) { Before(piece, '=') }

  function Value(piece: string): (value: string)
  {
    if |Key(piece)| < |piece| then piece[|Key(piece)| + 1..] else ""
  }

  /** An attribute needs a name, a value on one line, and a name not used before. */
  function AddPiece(m: map<string, string>, piece: string): (n: Option<map<string, string>>)
  {
    if Free(piece, '=') || Key(piece) == "" || Value(piece) == "" || Key(piece) in m || !OneLine(Value(piece)) then None
    else Some(m[Key(piece) := Value(piece)])
  }

  function Collect(pieces: seq<string>): (m: Option<map<string, string>>)
  {
    if pieces == [] then Some(map[])
    else match Collect(pieces[..|pieces| - 1])
         case None => None
         case Some(m) => AddPiece(m, pieces[|pieces| - 1])
  }

  function Parsed(raw: string): (m: Option<map<string, string>>)
  {
    if Quoted(raw) then None else Collect(Pieces(raw))
  }

  lemma {:induction false} CollectFails(a: seq<string>, b: seq<string>)
    requires Collect(a).None?
    ensures Collect(a + b).None?
  {
    if b == [] {
      assert a + b == a;
    } else {
      CollectFails(a, b[..|b| - 1]);
      assert (a + b)[..|a + b| - 1] == a + b[..|b| - 1];
    }
  }

  /** Pieces of a longer text extend those of a prefix, whose last one is still open. */
  lemma {:induction false} PiecesGrow(s: string, k: nat)
    requires k <= |s|
    ensures var head, all := Pieces(s[..k]), Pieces(s);
            |head| <= |all| && all[..|head| - 1] == head[..|head| - 1] && head[|head| - 1] <= all[|head| - 1]
  {
    if k == |s| {
      assert s[..k] == s;
    } else {
      PiecesGrow(s[..|s| - 1], k);
      assert s[..|s| - 1][..k] == s[..k];
    }
  }

  /** strings.Cut at the first equals sign. */
  method CutAtEquals(piece: string) returns (key: string, value: string, ok: bool)
    ensures ok <==> !Free(piece, '=')
    ensures ok ==> key == Key(piece) && value == Value(piece)
  {
    var at := IndexOf(piece, '=');
    if at < 0 {
      return piece, "", false;
    }
    return piece[..at], piece[at + 1..], true;
  }

  /** The scan's variables before character i. */
  ghost predicate Scanning(raw: string, i: nat, start: nat, quoted: bool, out: map<string, string>)
  {
    && start <= i <= |raw| && quoted == Quoted(raw[..i])
    && var pieces := Pieces(raw[..i]);
       pieces[|pieces| - 1] == raw[start..i] && Collect(pieces[..|pieces| - 1]) == Some(out)
  }

  lemma ScanOn(raw: string, i: nat, start: nat, quoted: bool, out: map<string, string>, after: bool)
    requires Scanning(raw, i, start, quoted, out) && i < |raw|
    requires after == if raw[i] == '"' then !quoted else quoted
    requires raw[i] != ',' || after
    ensures Scanning(raw, i + 1, start, after, out)
  {
    var pieces := Pieces(raw[..i]);
    var grown := pieces[|pieces| - 1 := pieces[|pieces| - 1] + [raw[i]]];
    assert Pieces(raw[..i + 1]) == grown && Quoted(raw[..i + 1]) == after by {
      assert raw[..i + 1][..i] == raw[..i];
      hide Collect;
    }
    hide Pieces, Quoted, Collect;
    assert grown[..|grown| - 1] == pieces[..|pieces| - 1];
    assert raw[start..i + 1] == raw[start..i] + [raw[i]];
  }

  lemma ScanCut(raw: string, i: nat, start: nat, out: map<string, string>)
    requires Scanning(raw, i, start, false, out) && i < |raw| && raw[i] == ','
    ensures match AddPiece(out, raw[start..i])
            case Some(more) => Scanning(raw, i + 1, i + 1, false, more)
            case None => Parsed(raw).None?
  {
    hide AddPiece;
    assert raw[..i + 1][..i] == raw[..i];
    var pieces := Pieces(raw[..i]);
    assert Pieces(raw[..i + 1]) == pieces + [""];
    assert (pieces + [""])[..|pieces|] == pieces;
    if AddPiece(out, raw[start..i]).None? {
      PrefixFails(raw, i + 1);
    }
  }

  lemma ScanEnd(raw: string, start: nat, quoted: bool, out: map<string, string>)
    requires Scanning(raw, |raw|, start, quoted, out)
    ensures Parsed(raw) == if quoted then None else AddPiece(out, raw[start..|raw|])
  {
    hide AddPiece;
    assert raw[..|raw|] == raw;
  }

  /** The scan with its start index and quote flag. */
  method ParseAttributes(raw: string) returns (res: Option<map<string, string>>)
    ensures res == Parsed(raw)
  {
    hide Scanning, Parsed, Key, Value, OneLine;
    var out: map<string, string> := map[];
    var start, quoted := 0, false;
    assert Scanning(raw, 0, 0, false, map[]) by { ScanBegins(raw); }
    for i := 0 to |raw|
      invariant start <= i && Scanning(raw, i, start, quoted, out)
    {
      ghost var before := quoted;
      if raw[i] == '"' {
        quoted := !quoted;
      }
      if raw[i] != ',' || quoted {
        ScanOn(raw, i, start, before, out, quoted);
        continue;
      }
      ScanCut(raw, i, start, out);
      var key, value, ok := CutAtEquals(raw[start..i]);
      if !ok || key == "" || value == "" || key in out || quoted || !OneLine(value) {
        return None;
      }
      out := out[key := value];
      start := i + 1;
    }
    ScanEnd(raw, start, quoted, out);
    var key, value, ok := CutAtEquals(raw[start..|raw|]);
    if !ok || key == "" || value == "" || key in out || quoted || !OneLine(value) {
      return None;
    }
    return Some(out[key := value]);
  }

  lemma ScanBegins(raw: string)
    ensures Scanning(raw, 0, 0, false, map[])
  {
    assert raw[..0] == "";
    assert [""][..0] == [];
  }

  lemma PrefixFails(raw: string, k: nat)
    requires k <= |raw| && var head := Pieces(raw[..k]); Collect(head[..|head| - 1]).None?
    ensures Parsed(raw).None?
  {
    PiecesGrow(raw, k);
    var head, all := Pieces(raw[..k]), Pieces(raw);
    assert all == head[..|head| - 1] + all[|head| - 1..];
    CollectFails(head[..|head| - 1], all[|head| - 1..]);
  }

  // ------------------------------------------------------- the accepted language

  datatype Attribute = Attribute(key: string, value: string)

  function Piece(a: Attribute): (s: string) { a.key + "=" + a.value }

  /** Balanced quotes, and no comma outside them. */
  predicate Whole(s: string) { !Quoted(s) && Pieces(s) == [s] }

  predicate WellFormed(a: Attribute)
  {
    a.key != "" && Free(a.key, '=') && a.value != "" && OneLine(a.value) && Whole(Piece(a))
  }

  predicate DistinctKeys(list: seq<Attribute>)
  {
    forall i, j :: 0 <= i < j < |list| ==> list[i].key != list[j].key
  }

  function Texts(list: seq<Attribute>): (pieces: seq<string>)
    ensures |pieces| == |list|
  {
    seq(|list|, i requires 0 <= i < |list| => Piece(list[i]))
  }

  function ToMap(list: seq<Attribute>): (m: map<string, string>)
  {
    if list == [] then map[] else ToMap(list[..|list| - 1])[list[|list| - 1].key := list[|list| - 1].value]
  }

  ghost predicate AttributeList(list: seq<Attribute>)
  {
    list != [] && DistinctKeys(list) && forall i :: 0 <= i < |list| ==> WellFormed(list[i])
  }

  lemma {:induction false} KeysOfMap(list: seq<Attribute>, key: string)
    ensures key in ToMap(list) <==> exists i :: 0 <= i < |list| && list[i].key == key
  {
    if list != [] {
      var init := list[..|list| - 1];
      KeysOfMap(init, key);
      if key in ToMap(init) {
        var i :| 0 <= i < |init| && init[i].key == key;
        assert list[i].key == key;
      }
      if exists i :: 0 <= i < |list| && list[i].key == key {
        var i :| 0 <= i < |list| && list[i].key == key;
        assert i < |init| ==> init[i].key == key;
      }
    }
  }

  lemma PieceOfAttribute(a: Attribute, m: map<string, string>)
    requires WellFormed(a)
    ensures AddPiece(m, Piece(a)) == if a.key in m then None else Some(m[a.key := a.value])
  {
    BeforeOfJoined(a.key, '=', a.value);
    assert a.key + ['='] + a.value == Piece(a);
    hide Whole, Before;
    assert Key(Piece(a)) == a.key && Value(Piece(a)) == a.value;
  }

  lemma {:induction false} CollectAttributes(list: seq<Attribute>)
    requires DistinctKeys(list) && forall i :: 0 <= i < |list| ==> WellFormed(list[i])
    ensures Collect(Texts(list)) == Some(ToMap(list))
  {
    if list != [] {
      var init, last := list[..|list| - 1], list[|list| - 1];
      CollectAttributes(init);
      assert Texts(list)[..|init|] == Texts(init);
      KeysOfMap(init, last.key);
      PieceOfAttribute(last, ToMap(init));
    }
  }

  lemma {:induction false} QuotedConcat(s: string, t: string)
    requires !Quoted(s)
    ensures Quoted(s + t) == Quoted(t)
  {
    if t == "" {
      assert s + t == s;
    } else {
      QuotedConcat(s, t[..|t| - 1]);
      assert (s + t)[..|s + t| - 1] == s + t[..|t| - 1];
    }
  }

  /** After balanced text, cutting goes on as from the start. */
  lemma {:induction false} PiecesConcat(s: string, t: string)
    requires !Quoted(s)
    ensures var a, b := Pieces(s), Pieces(t);
            Pieces(s + t) == a[..|a| - 1] + [a[|a| - 1] + b[0]] + b[1..]
  {
    var a, b := Pieces(s), Pieces(t);
    if t == "" {
      assert s + t == s && a[|a| - 1] + "" == a[|a| - 1];
    } else {
      var init, c := t[..|t| - 1], t[|t| - 1];
      PiecesConcat(s, init);
      QuotedConcat(s, init);
      assert (s + t)[..|s + t| - 1] == s + init && (s + t)[|s + t| - 1] == c;
      var d := Pieces(init);
      var joined := a[..|a| - 1] + [a[|a| - 1] + d[0]] + d[1..];
      assert Pieces(s + init) == joined;
      if c == ',' && !Quoted(init) {
        assert joined + [""] == a[..|a| - 1] + [a[|a| - 1] + b[0]] + b[1..];
      } else if |d| == 1 {
        assert a[|a| - 1] + (d[0] + [c]) == a[|a| - 1] + d[0] + [c];
        assert joined[|joined| - 1 := joined[|joined| - 1] + [c]] == a[..|a| - 1] + [a[|a| - 1] + b[0]] + b[1..];
      } else {
        assert joined[|joined| - 1 := joined[|joined| - 1] + [c]] == a[..|a| - 1] + [a[|a| - 1] + b[0]] + b[1..];
      }
    }
  }

  lemma {:induction false} PiecesOfJoin(pieces: seq<string>)
    requires pieces != [] && forall i :: 0 <= i < |pieces| ==> Whole(pieces[i])
    ensures Pieces(Join(pieces, ',')) == pieces && !Quoted(Join(pieces, ','))
  {
    var last := pieces[|pieces| - 1];
    if |pieces| > 1 {
      var init := pieces[..|pieces| - 1];
      PiecesOfJoin(init);
      var head := Join(init, ',') + [','];
      assert head[..|head| - 1] == Join(init, ',');
      assert Pieces(head) == init + [""] && !Quoted(head);
      PiecesConcat(head, last);
      QuotedConcat(head, last);
      assert "" + last == last && (init + [""])[..|init|] + [last] + [last][1..] == pieces;
    } else {
      assert pieces == [last];
    }
  }

  lemma {:induction false} PiecesRejoin(s: string)
    ensures Join(Pieces(s), ',') == s
  {
    if s != "" {
      var init, c := s[..|s| - 1], s[|s| - 1];
      PiecesRejoin(init);
      var pieces := Pieces(init);
      assert s == init + [c];
      if c == ',' && !Quoted(init) {
        assert (pieces + [""])[..|pieces|] == pieces;
      } else {
        JoinExtendsLast(pieces, ',', c);
      }
    }
  }

  /** A piece that is still open. */
  predicate Uncut(s: string) { Pieces(s) == [s] }

  lemma UncutGrows(last: string, c: char)
    requires Uncut(last) && (c != ',' || Quoted(last))
    ensures Uncut(last + [c]) && Quoted(last + [c]) == if c == '"' then !Quoted(last) else Quoted(last)
  {
    assert (last + [c])[..|last|] == last;
    assert [last][0 := last + [c]] == [last + [c]];
  }

  /** All pieces but an open last one are whole. */
  lemma {:induction false} PiecesAreWhole(s: string)
    ensures var pieces := Pieces(s);
            && (forall i :: 0 <= i < |pieces| - 1 ==> Whole(pieces[i]))
            && Uncut(pieces[|pieces| - 1]) && Quoted(pieces[|pieces| - 1]) == Quoted(s)
  {
    if s != "" {
      var init, c := s[..|s| - 1], s[|s| - 1];
      PiecesAreWhole(init);
      var pieces := Pieces(init);
      if c != ',' || Quoted(init) {
        UncutGrows(pieces[|pieces| - 1], c);
      }
    }
  }

  /** The attribute a piece of accepted text denotes. */
  function FromPiece(piece: string): (a: Attribute) { Attribute(Key(piece), Value(piece)) }

  lemma PieceIsAttribute(m: map<string, string>, piece: string)
    requires AddPiece(m, piece).Some? && Whole(piece)
    ensures var a := FromPiece(piece);
            WellFormed(a) && Piece(a) == piece && a.key !in m && AddPiece(m, piece) == Some(m[a.key := a.value])
  {
    var key := Key(piece);
    assert piece == key + "=" + Value(piece);
  }

  lemma {:induction false} AttributesOfPieces(pieces: seq<string>) returns (list: seq<Attribute>)
    requires Collect(pieces).Some? && forall i :: 0 <= i < |pieces| ==> Whole(pieces[i])
    ensures |list| == |pieces| && Texts(list) == pieces && Collect(pieces) == Some(ToMap(list))
    ensures DistinctKeys(list) && forall i :: 0 <= i < |list| ==> WellFormed(list[i])
  {
    list := [];
    if pieces != [] {
      var init, last := pieces[..|pieces| - 1], pieces[|pieces| - 1];
      var before := AttributesOfPieces(init);
      PieceIsAttribute(ToMap(before), last);
      AppendAttribute(before, FromPiece(last));
      hide WellFormed, AddPiece, Texts, ToMap, DistinctKeys, FromPiece;
      list := before + [FromPiece(last)];
      assert pieces == init + [last];
    }
  }

  lemma AppendAttribute(list: seq<Attribute>, a: Attribute)
    ensures Texts(list + [a]) == Texts(list) + [Piece(a)]
    ensures ToMap(list + [a]) == ToMap(list)[a.key := a.value]
    ensures DistinctKeys(list) && a.key !in ToMap(list) ==> DistinctKeys(list + [a])
  {
    assert (list + [a])[..|list|] == list;
    KeysOfMap(list, a.key);
  }

  /** Joining well-formed attributes and parsing the text gives back exactly them. */
  lemma AttributesRoundTrip(list: seq<Attribute>)
    requires AttributeList(list)
    ensures Parsed(Join(Texts(list), ',')) == Some(ToMap(list))
  {
    PiecesOfJoin(Texts(list));
    CollectAttributes(list);
  }

  /** Conversely, every accepted text is the join of the attributes it yields, so
      these texts are the whole accepted language. */
  lemma AcceptedTextRejoins(raw: string) returns (list: seq<Attribute>)
    requires Parsed(raw).Some?
    ensures AttributeList(list) && Join(Texts(list), ',') == raw && Parsed(raw) == Some(ToMap(list))
  {
    PiecesRejoin(raw);
    PiecesAreWhole(raw);
    list := AttributesOfPieces(Pieces(raw));
  }

  /** The familiar case: plain keys, and values whose commas are all quoted. */
  lemma PlainAttributeIsWellFormed(a: Attribute)
    requires a.key != "" && Free(a.key, '=') && Free(a.key, ',') && Free(a.key, '"')
    requires a.value != "" && OneLine(a.value) && Whole(a.value)
    ensures WellFormed(a)
  {
    var head := a.key + "=";
    PlainIsWhole(head);
    PiecesConcat(head, a.value);
    QuotedConcat(head, a.value);
    assert [head][..0] + [head + a.value] + [a.value][1..] == [head + a.value];
  }

  lemma {:induction false} PlainIsWhole(s: string)
    requires Free(s, ',') && Free(s, '"')
    ensures Whole(s)
  {
    if s != "" {
      PlainIsWhole(s[..|s| - 1]);
      assert s == s[..|s| - 1] + [s[|s| - 1]];
      assert [s[..|s| - 1]][0 := s] == [s];
    }
  }
}
