/** Strings as the Go library sees them: splitting, joining, trimming, lower-casing. */
module Text {

  datatype Option<+T> = None | Some(value: T)

  type Int32 = x: int | -0x8000_0000 <= x < 0x8000_0000

  /** RestartCount++ on an int32. */
  function Increment(n: Int32): (r: Int32)
    ensures r == if n == 0x7FFF_FFFF then -0x8000_0000 else n + 1
  {
    (n + 1 + 0x8000_0000) % 0x1_0000_0000 - 0x8000_0000
  }

  /** The Unicode tables behind strings.ToLower and unicode.IsSpace, rune by rune. */
  datatype Unicode = Unicode(lower: char -> char, space: char -> bool)

  predicate LowerAlnum(c: char) {
    'a' <= c <= 'z' || '0' <= c <= '9'
  }

  /** What every Unicode table says about ASCII, and that lower-casing settles in one step. */
  ghost predicate Standard(u: Unicode) {
    && (forall c :: LowerAlnum(c) || c in "-." ==> u.lower(c) == c && !u.space(c))
    && (forall c :: u.lower(u.lower(c)) == u.lower(c))
    && (forall c :: u.space(u.lower(c)) == u.space(c))
    && (forall c :: u.lower(c) == '.' <==> c == '.')
    && (forall c :: u.lower(c) == '\n' <==> c == '\n')
    && (forall c :: !('A' <= u.lower(c) <= 'Z'))
    && (forall c :: 'A' <= c <= 'Z' ==> !u.space(c))
    && u.space('\n')
  }

  function Lower(u: Unicode, s: string): (r: string)
    ensures |r| == |s|
    ensures forall i :: 0 <= i < |s| ==> r[i] == u.lower(s[i])
  {
    seq(|s|, i requires 0 <= i < |s| => u.lower(s[i]))
  }

  /** strings.TrimLeftFunc */
  function TrimLeft(s: string, cut: char -> bool): (r: string)
    ensures |r| <= |s| && r == s[|s| - |r|..]
    ensures r != "" ==> !cut(r[0])
    ensures forall i :: 0 <= i < |s| - |r| ==> cut(s[i])
  {
    if s != "" && cut(s[0]) then
      var r := TrimLeft(s[1..], cut);
      assert forall i :: 0 < i < |s| - |r| ==> s[i] == s[1..][i - 1];
      r
    else s
  }

  /** strings.TrimRightFunc */
  function TrimRight(s: string, cut: char -> bool): (r: string)
    ensures |r| <= |s| && r == s[..|r|]
    ensures r != "" ==> !cut(r[|r| - 1])
    ensures forall i :: |r| <= i < |s| ==> cut(s[i])
  {
    if s != "" && cut(s[|s| - 1]) then TrimRight(s[..|s| - 1], cut) else s
  }

  function Trim(s: string, cut: char -> bool): string {
    TrimRight(TrimLeft(s, cut), cut)
  }

  /** strings.Split on a one-character separator: always at least one part. */
  function Split(s: string, sep: char): (parts: seq<string>)
    ensures |parts| >= 1
    ensures forall p :: p in parts ==> sep !in p
  {
    if s == "" then [""]
    else
      var rest := Split(s[1..], sep);
      if s[0] == sep then [""] + rest else [[s[0]] + rest[0]] + rest[1..]
  }

  /** strings.Join with a one-character separator. */
  function Join(parts: seq<string>, sep: char): string {
    if parts == [] then ""
    else if |parts| == 1 then parts[0]
    else parts[0] + [sep] + Join(parts[1..], sep)
  }

  lemma {:induction false} JoinSplit(s: string, sep: char)
    ensures Join(Split(s, sep), sep) == s
  {
    if s != "" {
      JoinSplit(s[1..], sep);
      var rest := Split(s[1..], sep);
      if s[0] != sep && |rest| > 1 {
        assert ([[s[0]] + rest[0]] + rest[1..])[1..] == rest[1..];
      }
    }
  }

  lemma {:induction false} SplitPrefix(p: string, s: string, sep: char)
    requires sep !in p
    ensures Split(p + [sep] + s, sep) == [p] + Split(s, sep)
  {
    if p == "" {
      assert (p + [sep] + s)[1..] == s;
    } else {
      assert p[0] in p;
      SplitPrefix(p[1..], s, sep);
      assert (p + [sep] + s)[1..] == p[1..] + [sep] + s;
      assert [p[0]] + p[1..] == p;
    }
  }

  lemma {:induction false} SplitWithout(p: string, sep: char)
    requires sep !in p
    ensures Split(p, sep) == [p]
  {
    if p != "" {
      assert p[0] in p;
      SplitWithout(p[1..], sep);
      assert [p[0]] + p[1..] == p;
    }
  }

  lemma {:induction false} SplitJoin(parts: seq<string>, sep: char)
    requires parts != [] && forall p :: p in parts ==> sep !in p
    ensures Split(Join(parts, sep), sep) == parts
  {
    if |parts| == 1 {
      SplitWithout(parts[0], sep);
    } else {
      SplitJoin(parts[1..], sep);
      SplitPrefix(parts[0], Join(parts[1..], sep), sep);
    }
  }

  lemma JoinStep(parts: seq<string>, sep: char)
    requires |parts| > 1
    ensures Join(parts, sep) == parts[0] + [sep] + Join(parts[1..], sep)
  {
  }

  lemma {:induction false} JoinAppend(parts: seq<string>, last: string, sep: char)
    ensures Join(parts + [last], sep) == if parts == [] then last else Join(parts, sep) + [sep] + last
  {
    if parts != [] {
      var rest := parts[1..];
      JoinAppend(rest, last, sep);
      JoinStep(parts + [last], sep);
      assert (parts + [last])[1..] == rest + [last];
      if rest != [] {
        JoinStep(parts, sep);
        hide Join;
        assert parts[0] + [sep] + (Join(rest, sep) + [sep] + last) == parts[0] + [sep] + Join(rest, sep) + [sep] + last;
      }
    }
  }

  /** Trimming finds nothing at an edge that is not cut. */
  lemma TrimFixed(s: string, cut: char -> bool)
    requires s == "" || (!cut(s[0]) && !cut(s[|s| - 1]))
    ensures Trim(s, cut) == s
  {
  }

  /** A trimmed string has neither edge cut. */
  lemma TrimEdges(s: string, cut: char -> bool)
    ensures var r := Trim(s, cut); r != "" ==> !cut(r[0]) && !cut(r[|r| - 1])
  {
    var left := TrimLeft(s, cut);
    var r := TrimRight(left, cut);
    if r != "" { assert r[0] == left[0]; }
  }
}
