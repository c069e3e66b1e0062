/**
 * The logger's `String.split(by:separator:)`: cut a message into pieces of
 * at most `length` characters and, when a separator is given and there is
 * more than one piece, mark every cut with it.
 */
module Chunking {
  import opened Text

  /** The consecutive pieces of `s`, each `n` characters long except a shorter last one. */
  function Chunks(s: string, n: nat): seq<string>
    requires n > 0
    decreases |s|
  {
    if s == [] then []
    else if |s| <= n then [s]
    else [s[..n]] + Chunks(s[n..], n)
  }

  /** Piece `i` of `pieces` with the separator after it unless it is last, and before it unless it is first. */
  function DecoratedAt(pieces: seq<string>, sep: string, i: nat): string
    requires i < |pieces|
  {
    (if i > 0 then sep else "") + pieces[i] + (if i < |pieces| - 1 then sep else "")
  }

  function Decorate(pieces: seq<string>, sep: string): (r: seq<string>)
    ensures |r| == |pieces|
  {
    seq(|pieces|, i requires 0 <= i < |pieces| => DecoratedAt(pieces, sep, i))
  }

  /** What `split(by: length, separator: separator)` returns. */
  function SplitSpec(s: string, length: int, separator: Option<string>): seq<string> {
    if length <= 0 then [s]
    else
      var pieces := Chunks(s, length);
      if separator.Some? && |pieces| > 1 then Decorate(pieces, separator.value)
      else if pieces == [] && s == [] then [""]
      else pieces
  }

  /** The chunking loop: advance a start index by `length` characters at a time. */
  method ChunkLoop(s: string, length: nat) returns (results: seq<string>)
    requires length > 0
    ensures results == Chunks(s, length)
  {
    var startIndex := 0;
    results := [];
    while startIndex < |s|
      invariant 0 <= startIndex <= |s|
      invariant results + Chunks(s[startIndex..], length) == Chunks(s, length)
      decreases |s| - startIndex
    {
      var endIndex := if startIndex + length <= |s| then startIndex + length else |s|;
      assert Chunks(s[startIndex..], length) == [s[startIndex..endIndex]] + Chunks(s[endIndex..], length) by {
        var rest := s[startIndex..];
        if |rest| <= length {
          assert rest == s[startIndex..endIndex] && s[endIndex..] == [];
        } else {
          assert rest[..length] == s[startIndex..endIndex];
          assert rest[length..] == s[endIndex..];
        }
      }
      results := results + [s[startIndex..endIndex]];
      startIndex := endIndex;
    }
    assert s[startIndex..] == [];
  }

  /** The decoration step: edit the first and last pieces, then every middle piece, in place. */
  method DecorateInPlace(pieces: seq<string>, sep: string) returns (results: seq<string>)
    requires |pieces| > 1
    ensures results == Decorate(pieces, sep)
  {
    results := pieces;
    results := results[0 := results[0] + sep];
    var last := |results| - 1;
    results := results[last := sep + results[last]];
    for index := 1 to last
      invariant |results| == |pieces|
      invariant results[0] == pieces[0] + sep && results[last] == sep + pieces[last]
      invariant forall k :: 1 <= k < index ==> results[k] == sep + pieces[k] + sep
      invariant forall k :: index <= k < last ==> results[k] == pieces[k]
    {
      results := results[index := sep + results[index] + sep];
    }
    assert forall k :: 0 <= k < |results| ==> results[k] == DecoratedAt(pieces, sep, k);
  }

  /** `split(by:separator:)`: the whole string when the length is not positive, else the chunks, decorated when a separator is given and there is more than one. */
  method Split(s: string, length: int, separator: Option<string>) returns (results: seq<string>)
    ensures results == SplitSpec(s, length, separator)
  {
    if length <= 0 {
      return [s];
    }
    results := ChunkLoop(s, length);
    if separator.None? || |results| <= 1 {
      return if results == [] && s == [] then [""] else results;
    }
    results := DecorateInPlace(results, separator.value);
  }

  /** Every piece but the last has exactly `n` characters, the last between 1 and `n`. */
  lemma {:induction false} ChunkLengths(s: string, n: nat)
    requires n > 0
    ensures var pieces := Chunks(s, n);
      && (forall i :: 0 <= i < |pieces| - 1 ==> |pieces[i]| == n)
      && (pieces != [] ==> 1 <= |pieces[|pieces| - 1]| <= n)
    decreases |s|
  {
    if |s| > n {
      ChunkLengths(s[n..], n);
      var rest := Chunks(s[n..], n);
      assert Chunks(s, n) == [s[..n]] + rest;
    }
  }

  /** Gluing the pieces back together gives the original string. */
  lemma {:induction false} ChunksConcat(s: string, n: nat)
    requires n > 0
    ensures Concat(Chunks(s, n)) == s
    decreases |s|
  {
    var pieces := Chunks(s, n);
    if |s| > n {
      var rest := Chunks(s[n..], n);
      assert pieces == [s[..n]] + rest;
      assert pieces[0] == s[..n] && pieces[1..] == rest;
      ChunksConcat(s[n..], n);
      assert Concat(pieces) == s[..n] + Concat(rest);
      assert s[..n] + s[n..] == s;
    } else if s != [] {
      assert pieces == [s] && pieces[1..] == [];
    }
  }

  /** A non-empty string of `|s|` characters falls into ceil(|s| / n) pieces, the empty string into none. */
  lemma {:induction false} ChunkCount(s: string, n: nat)
    requires n > 0
    ensures var k := |Chunks(s, n)|; s != [] ==> (k - 1) * n < |s| <= k * n
    ensures Chunks(s, n) == [] <==> s == []
    decreases |s|
  {
    if |s| > n {
      ChunkCount(s[n..], n);
      var k := |Chunks(s[n..], n)|;
      assert |Chunks(s, n)| == k + 1;
      assert (k - 1) * n == k * n - n;
      assert (k + 1) * n == k * n + n;
    }
  }

  /** A non-positive length returns the string unchanged as the only piece. */
  lemma NonPositiveLengthIsIdentity(s: string, length: int, separator: Option<string>)
    requires length <= 0
    ensures SplitSpec(s, length, separator) == [s]
  {
  }

  /** The empty string is returned as one empty piece, whatever the length and separator. */
  lemma EmptyStringSplit(length: int, separator: Option<string>)
    ensures SplitSpec("", length, separator) == [""]
  {
  }

  /** With more than one piece and a separator, the first piece gets it appended, the last prepended, the middle ones both. */
  lemma DecoratedShape(s: string, length: int, sep: string)
    requires length > 0 && |Chunks(s, length)| > 1
    ensures var pieces, r := Chunks(s, length), SplitSpec(s, length, Some(sep));
      && |r| == |pieces|
      && r[0] == pieces[0] + sep
      && r[|r| - 1] == sep + pieces[|r| - 1]
      && (forall i :: 0 < i < |r| - 1 ==> r[i] == sep + pieces[i] + sep)
  {
  }

  /** A separator with a single piece leaves it undecorated. */
  lemma SinglePieceNotDecorated(s: string, length: int, sep: string)
    requires length > 0 && |Chunks(s, length)| == 1
    ensures SplitSpec(s, length, Some(sep)) == Chunks(s, length) == [s]
  {
  }

  function DropPrefix(p: string, sep: string): string {
    if IsPrefix(sep, p) then p[|sep|..] else p
  }

  function DropSuffix(p: string, sep: string): string {
    if IsSuffix(sep, p) then p[..|p| - |sep|] else p
  }

  /** Piece `i` without the separator `split` put before it (unless first) and after it (unless last). */
  function StripAt(pieces: seq<string>, sep: string, i: nat): string
    requires i < |pieces|
  {
    var p := if i > 0 then DropPrefix(pieces[i], sep) else pieces[i];
    if i < |pieces| - 1 then DropSuffix(p, sep) else p
  }

  /** Removes the separators that `split` adds: none when there is at most one piece. */
  function StripSeparators(pieces: seq<string>, separator: Option<string>): (r: seq<string>)
    ensures |r| == |pieces|
  {
    if separator.None? || |pieces| <= 1 then pieces
    else seq(|pieces|, i requires 0 <= i < |pieces| => StripAt(pieces, separator.value, i))
  }

  /** Dropping the separators put around one piece gives the piece back. */
  lemma DropAround(x: string, sep: string, before: bool, after: bool)
    ensures var w := (if before then sep else "") + x + (if after then sep else "");
      var p := if before then DropPrefix(w, sep) else w;
      (if after then DropSuffix(p, sep) else p) == x
  {
    var w := (if before then sep else "") + x + (if after then sep else "");
    if before {
      assert w[..|sep|] == sep;
      assert w[|sep|..] == x + (if after then sep else "");
    }
    if after {
      var q := x + sep;
      assert q[|q| - |sep|..] == sep;
      assert q[..|q| - |sep|] == x;
    }
  }

  lemma StripDecorated(pieces: seq<string>, sep: string)
    requires |pieces| > 1
    ensures StripSeparators(Decorate(pieces, sep), Some(sep)) == pieces
  {
    var d := Decorate(pieces, sep);
    var r := StripSeparators(d, Some(sep));
    forall i | 0 <= i < |pieces|
      ensures r[i] == pieces[i]
    {
      assert d[i] == DecoratedAt(pieces, sep, i);
      DropAround(pieces[i], sep, i > 0, i < |pieces| - 1);
      assert r[i] == StripAt(d, sep, i);
    }
  }

  /** Stripping the added separators and concatenating the pieces gives back the original string. */
  lemma SplitRoundTrip(s: string, length: int, separator: Option<string>)
    ensures Concat(StripSeparators(SplitSpec(s, length, separator), separator)) == s
  {
    if length <= 0 {
      assert Concat([s]) == s + Concat([]);
    } else {
      var pieces := Chunks(s, length);
      ChunksConcat(s, length);
      if separator.Some? && |pieces| > 1 {
        StripDecorated(pieces, separator.value);
      } else if pieces == [] && s == [] {
        assert Concat([""]) == "" + Concat([]);
      }
    }
  }

  /** "Hello World" in pieces of 5, without and with a separator, as the unit tests expect. */
  lemma SplitHelloWorld()
    ensures SplitSpec("Hello World", 5, None) == ["Hello", " Worl", "d"]
    ensures SplitSpec("Hello World", 5, Some("|")) == ["Hello|", "| Worl|", "|d"]
  {
    assert Chunks("d", 5) == ["d"];
    assert " World"[..5] == " Worl" && " World"[5..] == "d";
    assert Chunks(" World", 5) == [" Worl", "d"];
    assert "Hello World"[..5] == "Hello" && "Hello World"[5..] == " World";
    var w := Chunks("Hello World", 5);
    assert w == ["Hello", " Worl", "d"];
    var dw := Decorate(w, "|");
    assert dw[0] == "Hello|" && dw[1] == "| Worl|" && dw[2] == "|d";
  }

  /** "Hello" one character at a time with a separator: every middle piece is wrapped on both sides. */
  lemma SplitHelloByOne()
    ensures SplitSpec("Hello", 1, Some("+")) == ["H+", "+e+", "+l+", "+l+", "+o"]
  {
    assert Chunks("o", 1) == ["o"];
    assert "lo"[..1] == "l" && "lo"[1..] == "o";
    assert Chunks("lo", 1) == ["l", "o"];
    assert "llo"[..1] == "l" && "llo"[1..] == "lo";
    assert Chunks("llo", 1) == ["l", "l", "o"];
    assert "ello"[..1] == "e" && "ello"[1..] == "llo";
    assert Chunks("ello", 1) == ["e", "l", "l", "o"];
    assert "Hello"[..1] == "H" && "Hello"[1..] == "ello";
    var h := Chunks("Hello", 1);
    assert h == ["H", "e", "l", "l", "o"];
    var dh := Decorate(h, "+");
    assert dh[0] == "H+" && dh[1] == "+e+" && dh[2] == "+l+" && dh[3] == "+l+" && dh[4] == "+o";
  }

  /** A length beyond the string, or a negative one, leaves "Hello" whole. */
  lemma SplitHelloWhole()
    ensures SplitSpec("Hello", 10, None) == ["Hello"]
    ensures SplitSpec("Hello", -5, None) == ["Hello"]
  {
    assert Chunks("Hello", 10) == ["Hello"];
  }
}
