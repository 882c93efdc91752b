/** Text form of tile lists: "1m2m3m" is three plain tiles, a tile wrapped
    in brackets ("[5p]") is a red bonus tile, and the older form "5p]" is
    read as red too.  The parser never fails: characters it cannot use are
    skipped.  Building a tile from a suit letter is done by the tile module
    and is not part of this model, so the parser yields the arguments it
    hands over (suit letter, rank, red flag). */
module TileStrings {

  /** The arguments the parser passes to the tile constructor. */
  datatype TileSpec = TileSpec(suit: char, rank: nat, red: bool)

  predicate IsDigit(c: char)
  {
    '0' <= c <= '9'
  }

  function DigitValue(c: char): (d: nat)
    requires IsDigit(c)
    ensures d <= 9
  {
    c as int - '0' as int
  }

  function DigitChar(d: nat): (c: char)
    requires d <= 9
    ensures IsDigit(c) && DigitValue(c) == d
  {
    ('0' as int + d) as char
  }

  /** Number of decimal digits in s[i..]. */
  function DigitsFrom(s: string, i: nat): nat
    requires i <= |s|
    decreases |s| - i
  {
    if i == |s| then 0 else (if IsDigit(s[i]) then 1 else 0) + DigitsFrom(s, i + 1)
  }

  /** One scanning step at index i: the tiles it yields (none or one) and
      the index where scanning resumes. */
  function ScanAt(s: string, i: nat): (r: (seq<TileSpec>, nat))
    requires i < |s|
    ensures i < r.1 <= |s| && |r.0| <= 1
  {
    if s[i] == '[' then
      if i + 1 < |s| && IsDigit(s[i + 1]) then
        if i + 2 < |s| then
          if i + 3 < |s| && s[i + 3] == ']' then ([TileSpec(s[i + 2], DigitValue(s[i + 1]), true)], i + 4)
          else ([TileSpec(s[i + 2], DigitValue(s[i + 1]), false)], i + 3)
        else ([], i + 2)
      else ([], i + 1)
    else if IsDigit(s[i]) then
      if i + 1 < |s| then
        if i + 2 < |s| && s[i + 2] == ']' then ([TileSpec(s[i + 1], DigitValue(s[i]), true)], i + 3)
        else ([TileSpec(s[i + 1], DigitValue(s[i]), false)], i + 2)
      else ([], i + 1)
    else ([], i + 1)
  }

  /** The tiles denoted by s[i..], scanning left to right. */
  function ParseFrom(s: string, i: nat): seq<TileSpec>
    requires i <= |s|
    decreases |s| - i
  {
    if i == |s| then []
    else
      var step := ScanAt(s, i);
      step.0 + ParseFrom(s, step.1)
  }

  function Parse(s: string): seq<TileSpec>
  {
    ParseFrom(s, 0)
  }

  /** The parser as the library runs it: one pass with an index. */
  method ParseTiles(s: string) returns (tiles: seq<TileSpec>)
    ensures tiles == Parse(s)
  {
    tiles := [];
    var i := 0;
    while i < |s|
      invariant 0 <= i <= |s|
      invariant tiles + ParseFrom(s, i) == Parse(s)
      decreases |s| - i
    {
      var found, next := ScanStep(s, i);
      tiles := tiles + found;
      i := next;
    }
  }

  /** One pass of the parser's loop body from index i: the tiles it
      appends and the index it leaves behind. */
  method ScanStep(s: string, start: nat) returns (found: seq<TileSpec>, i: nat)
    requires start < |s|
    ensures (found, i) == ScanAt(s, start)
  {
    found := [];
    i := start;
    if s[i] == '[' {
      i := i + 1;
      if i < |s| && IsDigit(s[i]) {
        var rank := DigitValue(s[i]);
        i := i + 1;
        if i < |s| {
          var suit := s[i];
          i := i + 1;
          if i < |s| && s[i] == ']' {
            found := [TileSpec(suit, rank, true)];
            i := i + 1;
          } else {
            found := [TileSpec(suit, rank, false)];
          }
        }
      }
    } else if IsDigit(s[i]) {
      var rank := DigitValue(s[i]);
      i := i + 1;
      if i < |s| {
        var suit := s[i];
        var red := false;
        if i + 1 < |s| && s[i + 1] == ']' {
          red := true;
          i := i + 1;
        }
        found := [TileSpec(suit, rank, red)];
        i := i + 1;
      }
    } else {
      i := i + 1;
    }
  }

  /** Every tile read consumes one digit, so a string never yields more
      tiles than it has digits. */
  lemma {:induction false} ParseFromBound(s: string, i: nat)
    requires i <= |s|
    ensures |ParseFrom(s, i)| <= DigitsFrom(s, i)
    decreases |s| - i
  {
    if i < |s| {
      var j := ScanAt(s, i).1;
      ParseFromBound(s, j);
      DigitsMonotone(s, i + 1, j);
      if s[i] == '[' && j > i + 1 {
        DigitsMonotone(s, i + 2, j);
      }
    }
  }

  lemma {:induction false} DigitsMonotone(s: string, i: nat, j: nat)
    requires i <= j <= |s|
    ensures DigitsFrom(s, j) <= DigitsFrom(s, i)
    decreases j - i
  {
    if i < j {
      DigitsMonotone(s, i + 1, j);
    }
  }

  lemma ParseBound(s: string)
    ensures |Parse(s)| <= DigitsFrom(s, 0)
  {
    ParseFromBound(s, 0);
  }

  /** Every rank the parser reads is a single decimal digit. */
  lemma {:induction false} ParseFromRanks(s: string, i: nat)
    requires i <= |s|
    ensures forall k :: 0 <= k < |ParseFrom(s, i)| ==> ParseFrom(s, i)[k].rank <= 9
    decreases |s| - i
  {
    if i < |s| {
      ParseFromRanks(s, ScanAt(s, i).1);
    }
  }

  /** The text of one tile in the bracketed form. */
  function TileText(t: TileSpec): (s: string)
    requires t.rank <= 9
    ensures s != [] && s[0] != ']'
    ensures |s| == if t.red then 4 else 2
  {
    if t.red then ['[', DigitChar(t.rank), t.suit, ']']
    else [DigitChar(t.rank), t.suit]
  }

  predicate Renderable(ts: seq<TileSpec>)
  {
    forall i :: 0 <= i < |ts| ==> ts[i].rank <= 9
  }

  /** The tiles' texts joined without separators. */
  function FormatTiles(ts: seq<TileSpec>): (s: string)
    requires Renderable(ts)
    ensures ts == [] <==> s == []
    ensures s != [] ==> s[0] != ']'
  {
    if ts == [] then [] else TileText(ts[0]) + FormatTiles(ts[1..])
  }

  lemma RenderableConcat(a: seq<TileSpec>, b: seq<TileSpec>)
    requires Renderable(a) && Renderable(b)
    ensures Renderable(a + b)
  {
    var c := a + b;
    forall i | 0 <= i < |c|
      ensures c[i].rank <= 9
    {
      if i < |a| {
        assert c[i] == a[i];
      } else {
        assert c[i] == b[i - |a|];
      }
    }
  }

  lemma {:induction false} FormatConcat(a: seq<TileSpec>, b: seq<TileSpec>)
    requires Renderable(a) && Renderable(b)
    ensures Renderable(a + b)
    ensures FormatTiles(a + b) == FormatTiles(a) + FormatTiles(b)
    decreases |a|
  {
    var c := a + b;
    RenderableConcat(a, b);
    if a == [] {
      assert c == b;
    } else {
      assert c[0] == a[0];
      assert c[1..] == a[1..] + b;
      FormatConcat(a[1..], b);
      var x := TileText(a[0]);
      assert FormatTiles(c) == x + FormatTiles(a[1..] + b);
      assert FormatTiles(a) == x + FormatTiles(a[1..]);
      assert x + (FormatTiles(a[1..]) + FormatTiles(b)) == (x + FormatTiles(a[1..])) + FormatTiles(b);
    }
  }

  lemma {:induction false} ScanTileText(p: string, t: TileSpec, rest: string)
    requires t.rank <= 9
    requires rest == [] || rest[0] != ']'
    ensures ScanAt(p + TileText(t) + rest, |p|) == ([t], |p| + |TileText(t)|)
  {
    var s := p + TileText(t) + rest;
    var x := TileText(t);
    assert forall k :: 0 <= k < |x| ==> s[|p| + k] == x[k];
    if |rest| > 0 {
      assert s[|p| + |x|] == rest[0];
    }
  }

  /** Reading the formatted text of ts, after any prefix, yields ts. */
  lemma {:induction false} ParseFromFormat(p: string, ts: seq<TileSpec>)
    requires Renderable(ts)
    ensures ParseFrom(p + FormatTiles(ts), |p|) == ts
    decreases |ts|
  {
    if ts != [] {
      var x := TileText(ts[0]);
      var rest := FormatTiles(ts[1..]);
      assert p + FormatTiles(ts) == p + x + rest;
      ScanTileText(p, ts[0], rest);
      ParseFromFormat(p + x, ts[1..]);
      assert (p + x) + rest == p + x + rest;
    }
  }

  /** Formatting then parsing gives back the same tiles. */
  lemma ParseFormat(ts: seq<TileSpec>)
    requires Renderable(ts)
    ensures Parse(FormatTiles(ts)) == ts
  {
    ParseFromFormat([], ts);
    assert [] + FormatTiles(ts) == FormatTiles(ts);
  }

  /** Whatever text is parsed, formatting the result and parsing again
      gives the same tiles: the formatted text is canonical. */
  lemma FormatParseFixpoint(s: string)
    ensures Renderable(Parse(s))
    ensures Parse(FormatTiles(Parse(s))) == Parse(s)
  {
    ParseFromRanks(s, 0);
    ParseFormat(Parse(s));
  }
}
