/** The default Node name derived from the local hostname. */
module NodeNames {
  import opened Text

  const MAX_LABEL := 63
  const MAX_NAME := 253

  // ---- What a Kubernetes Node name may look like -------------------------------------------

  /** Letters, digits and single hyphens, alphanumeric at both ends. */
  ghost predicate Hyphenated(l: string) {
    && l != ""
    && LowerAlnum(l[0]) && LowerAlnum(l[|l| - 1])
    && (forall i :: 0 <= i < |l| ==> LowerAlnum(l[i]) || l[i] == '-')
    && (forall i :: 0 <= i < |l| - 1 ==> LowerAlnum(l[i]) || LowerAlnum(l[i + 1]))
  }

  /** A DNS label (section 2.1 of RFC 1123, section 2.3.4 of RFC 1035) without a doubled hyphen. */
  ghost predicate CanonicalLabel(l: string) {
    Hyphenated(l) && |l| <= MAX_LABEL
  }

  ghost predicate CanonicalLabels(labels: seq<string>) {
    forall l :: l in labels ==> CanonicalLabel(l)
  }

  /** A DNS subdomain: at most 253 characters of dot-separated labels. */
  ghost predicate CanonicalName(name: string) {
    |name| <= MAX_NAME && CanonicalLabels(Split(name, '.'))
  }

  // ---- The normalizer's meaning ------------------------------------------------------------

  ghost predicate IsWord(w: string) {
    w != "" && forall i :: 0 <= i < |w| ==> LowerAlnum(w[i])
  }

  ghost predicate AllWords(ws: seq<string>) {
    forall i :: 0 <= i < |ws| ==> IsWord(ws[i])
  }

  /** The maximal alphanumeric runs of a hostname label, left to right. */
  function Words(s: string): (ws: seq<string>)
    ensures AllWords(ws)
    ensures s != "" && LowerAlnum(s[|s| - 1]) ==> ws != []
  {
    if s == "" then []
    else
      var init, c := s[..|s| - 1], s[|s| - 1];
      var ws := Words(init);
      if !LowerAlnum(c) then ws
      else if init != "" && LowerAlnum(init[|init| - 1]) then ws[..|ws| - 1] + [ws[|ws| - 1] + [c]]
      else ws + [[c]]
  }

  function LabelOf(raw: string): string {
    var value := Join(Words(raw), '-');
    if |value| > MAX_LABEL then TrimRight(value[..MAX_LABEL], c => c == '-') else value
  }

  function LabelsOf(raws: seq<string>): seq<string> {
    if raws == [] then []
    else
      var last := LabelOf(raws[|raws| - 1]);
      LabelsOf(raws[..|raws| - 1]) + if last == "" then [] else [last]
  }

  function CutName(name: string): string {
    if |name| > MAX_NAME then TrimRight(name[..MAX_NAME], c => c in ".-") else name
  }

  function NodeName(u: Unicode, hostname: string): string {
    CutName(Join(LabelsOf(Split(Lower(u, Trim(hostname, u.space)), '.')), '.'))
  }

  // ---- The code ----------------------------------------------------------------------------

  /** The inner loop: every run of other characters becomes one hyphen, none at the edges. */
  method NormalizeLabel(u: Unicode, raw: string) returns (value: string)
    ensures value == LabelOf(raw)
  {
    hide Built, Pending, Words, Join, Trim, TrimRight;
    NothingBuilt();
    var kept, lastSeparator := "", false;
    for i := 0 to |raw|
      invariant kept == Built(raw[..i])
      invariant lastSeparator <==> Pending(raw[..i])
    {
      var c := raw[i];
      BuiltSnoc(raw[..i], c);
      assert raw[..i + 1] == raw[..i] + [c];
      if LowerAlnum(c) {
        kept := kept + [c];
        lastSeparator := false;
      } else if c == '-' || c == '_' || u.space(c) {
        if |kept| > 0 && !lastSeparator {
          kept := kept + "-";
          lastSeparator := true;
        }
      } else {
        if |kept| > 0 && !lastSeparator {
          kept := kept + "-";
          lastSeparator := true;
        }
      }
    }
    assert raw[..|raw|] == raw;
    BuiltTrimmed(raw);
    value := Trim(kept, c => c == '-');
    if value == "" { return; }
    if |value| > MAX_LABEL {
      value := TrimRight(value[..MAX_LABEL], c => c == '-');
    }
  }

  method NodeNameFromHostname(u: Unicode, hostname: string) returns (name: string)
    ensures name == NodeName(u, hostname)
    ensures name == "" || CanonicalName(name)
    ensures Standard(u) ==> (Alnums(name) == Alnums(Lower(u, hostname)) <==> Uncut(u, hostname))
    ensures Standard(u) && |hostname| <= MAX_LABEL ==> Uncut(u, hostname)
  {
    hide Alnums, Uncut, Standard;
    var labels := Split(Lower(u, Trim(hostname, u.space)), '.');
    var normalized := [];
    for i := 0 to |labels|
      invariant normalized == LabelsOf(labels[..i])
    {
      assert labels[..i + 1][..i] == labels[..i];
      var value := NormalizeLabel(u, labels[i]);
      if value != "" {
        normalized := normalized + [value];
      }
    }
    assert labels[..|labels|] == labels;
    name := Join(normalized, '.');
    if |name| > MAX_NAME {
      name := TrimRight(name[..MAX_NAME], c => c in ".-");
    }
    NodeNameValid(u, hostname);
    if Standard(u) { NodeNameKeepsLetters(u, hostname); }
  }

  // ---- Labels ------------------------------------------------------------------------------

  lemma {:induction false} JoinedWordsHyphenated(ws: seq<string>)
    requires AllWords(ws)
    ensures if ws == [] then Join(ws, '-') == "" else Hyphenated(Join(ws, '-'))
  {
    if |ws| > 0 {
      assert IsWord(ws[0]);
      if |ws| > 1 { JoinedWordsHyphenated(ws[1..]); }
    }
  }

  lemma {:induction false} JoinExtend(ws: seq<string>, w: string, c: char)
    ensures Join(ws + [w + [c]], '-') == Join(ws + [w], '-') + [c]
  {
    JoinAppend(ws, w, '-');
    JoinAppend(ws, w + [c], '-');
  }

  lemma WordsSnoc(s: string, c: char)
    ensures var ws := Words(s);
            Words(s + [c]) ==
              if !LowerAlnum(c) then ws
              else if s != "" && LowerAlnum(s[|s| - 1]) then ws[..|ws| - 1] + [ws[|ws| - 1] + [c]]
              else ws + [[c]]
  {
    assert (s + [c])[..|s + [c]| - 1] == s;
  }

  lemma WordsGrow(s: string, c: char)
    requires LowerAlnum(c) && s != "" && LowerAlnum(s[|s| - 1])
    ensures Join(Words(s + [c]), '-') == Join(Words(s), '-') + [c]
  {
    var ws := Words(s);
    WordsSnoc(s, c);
    JoinExtend(ws[..|ws| - 1], ws[|ws| - 1], c);
    assert ws[..|ws| - 1] + [ws[|ws| - 1]] == ws;
  }

  lemma WordsStart(s: string, c: char)
    requires LowerAlnum(c) && (s == "" || !LowerAlnum(s[|s| - 1]))
    ensures var ws := Words(s);
            Join(Words(s + [c]), '-') == if ws == [] then [c] else Join(ws, '-') + "-" + [c]
  {
    WordsSnoc(s, c);
    JoinAppend(Words(s), [c], '-');
  }

  /** The builder after the characters of s: the words so far and at most one pending hyphen. */
  ghost predicate Pending(s: string) {
    s != "" && !LowerAlnum(s[|s| - 1]) && Words(s) != []
  }

  ghost function Built(s: string): string {
    if Pending(s) then Join(Words(s), '-') + "-" else Join(Words(s), '-')
  }

  lemma BuiltSnoc(s: string, c: char)
    ensures Pending(s + [c]) <==> !LowerAlnum(c) && Words(s) != []
    ensures Words(s) == [] <==> Built(s) == ""
    ensures Pending(s) ==> Built(s) != ""
    ensures Built(s + [c]) ==
              if LowerAlnum(c) then Built(s) + [c]
              else if Built(s) != "" && !Pending(s) then Built(s) + "-" else Built(s)
  {
    WordsSnoc(s, c);
    JoinedWordsHyphenated(Words(s));
    if LowerAlnum(c) {
      if s != "" && LowerAlnum(s[|s| - 1]) { WordsGrow(s, c); } else { WordsStart(s, c); }
    }
  }

  lemma TrimHyphen(value: string)
    requires value == "" || (LowerAlnum(value[0]) && LowerAlnum(value[|value| - 1]))
    ensures var cut := (c: char) => c == '-';
            Trim(value, cut) == value && (value != "" ==> Trim(value + "-", cut) == value)
  {
    var cut := (c: char) => c == '-';
    TrimFixed(value, cut);
    if value != "" {
      assert TrimLeft(value + "-", cut) == value + "-";
      assert (value + "-")[..|value + "-"| - 1] == value;
      assert TrimRight(value, cut) == value;
    }
  }

  lemma BuiltTrimmed(s: string)
    ensures Trim(Built(s), c => c == '-') == Join(Words(s), '-')
  {
    hide Join, Words, Trim;
    JoinedWordsHyphenated(Words(s));
    TrimHyphen(Join(Words(s), '-'));
  }

  lemma NothingBuilt()
    ensures Built("") == "" && !Pending("")
  {
  }

  lemma TruncatedHyphenated(v: string, n: nat)
    requires Hyphenated(v) && 1 <= n <= |v|
    ensures Hyphenated(TrimRight(v[..n], c => c == '-'))
  {
  }

  lemma LabelOfCanonical(raw: string)
    ensures LabelOf(raw) == "" || CanonicalLabel(LabelOf(raw))
  {
    JoinedWordsHyphenated(Words(raw));
    var value := Join(Words(raw), '-');
    if |value| > MAX_LABEL { TruncatedHyphenated(value, MAX_LABEL); }
  }

  lemma {:induction false} LabelsOfCanonical(raws: seq<string>)
    ensures CanonicalLabels(LabelsOf(raws))
  {
    if raws != [] {
      LabelsOfCanonical(raws[..|raws| - 1]);
      LabelOfCanonical(raws[|raws| - 1]);
    }
  }

  /** The words of an already hyphenated text are what its hyphens separate. */
  lemma {:induction false} WordsOfHyphenated(s: string)
    requires s != "" && LowerAlnum(s[0])
    requires forall i :: 0 <= i < |s| ==> LowerAlnum(s[i]) || s[i] == '-'
    requires forall i :: 0 <= i < |s| - 1 ==> LowerAlnum(s[i]) || LowerAlnum(s[i + 1])
    ensures Words(s) != []
    ensures s == Join(Words(s), '-') + if LowerAlnum(s[|s| - 1]) then "" else "-"
  {
    if |s| == 1 {
      assert s == [s[0]] && s[..0] == "";
    } else {
      var init, c := s[..|s| - 1], s[|s| - 1];
      assert s == init + [c];
      WordsOfHyphenated(init);
      WordsSnoc(init, c);
      if LowerAlnum(c) {
        if LowerAlnum(init[|init| - 1]) { WordsGrow(init, c); } else { WordsStart(init, c); }
      }
    }
  }

  // ---- Names -------------------------------------------------------------------------------

  lemma {:induction false} TrimRightAppend(a: string, b: string, cut: char -> bool)
    requires TrimRight(b, cut) != ""
    ensures TrimRight(a + b, cut) == a + TrimRight(b, cut)
  {
    if b != "" && cut(b[|b| - 1]) {
      assert (a + b)[..|a + b| - 1] == a + b[..|b| - 1];
      TrimRightAppend(a, b[..|b| - 1], cut);
    }
  }

  lemma {:induction false} TrimNoDots(l: string)
    requires '.' !in l
    ensures TrimRight(l, c => c in ".-") == TrimRight(l, c => c == '-')
  {
    if l != "" {
      assert l[|l| - 1] in l;
      TrimNoDots(l[..|l| - 1]);
    }
  }

  lemma TrimDot(l: string)
    requires CanonicalLabel(l)
    ensures TrimRight(l + ".", c => c in ".-") == l
  {
    assert (l + ".")[..|l + "."| - 1] == l;
  }

  lemma NoDots(l: string)
    requires CanonicalLabel(l)
    ensures '.' !in l && l != ""
  {
  }

  /** A cut inside a label leaves a label. */
  lemma CutLabel(l: string, n: nat)
    requires CanonicalLabel(l) && 1 <= n <= |l|
    ensures var r := TrimRight(l[..n], c => c in ".-"); CanonicalLabel(r) && Split(r, '.') == [r]
  {
    NoDots(l);
    TrimNoDots(l[..n]);
    TruncatedHyphenated(l, n);
    var r := TrimRight(l[..n], c => c in ".-");
    NoDots(r);
    SplitWithout(r, '.');
  }

  /** Cutting a name anywhere and trimming the cut edge leaves canonical labels. */
  lemma {:induction false} CutCanonical(labels: seq<string>, n: nat)
    requires labels != [] && CanonicalLabels(labels)
    requires 1 <= n <= |Join(labels, '.')|
    ensures var r := TrimRight(Join(labels, '.')[..n], c => c in ".-");
            r != "" && CanonicalLabels(Split(r, '.'))
  {
    hide CanonicalLabel, TrimRight, Split;
    var cut := (c: char) => c in ".-";
    var l, name := labels[0], Join(labels, '.');
    assert l in labels;
    NoDots(l);
    if n <= |l| {
      assert name[..n] == l[..n];
      CutLabel(l, n);
      NoDots(TrimRight(l[..n], c => c in ".-"));
    } else {
      var rest := Join(labels[1..], '.');
      var m := n - |l| - 1;
      assert name[..n] == l + "." + rest[..m];
      if m == 0 {
        assert l + "." + rest[..m] == l + ".";
        TrimDot(l);
        SplitWithout(l, '.');
      } else {
        CutCanonical(labels[1..], m);
        TrimRightAppend(l + ".", rest[..m], c => c in ".-");
        SplitPrefix(l, TrimRight(rest[..m], c => c in ".-"), '.');
      }
    }
  }

  /** Every hostname yields nothing or a valid Kubernetes name, despite both truncations. */
  lemma NodeNameValid(u: Unicode, hostname: string)
    ensures var name := NodeName(u, hostname); name == "" || CanonicalName(name)
  {
    var raws := Split(Lower(u, Trim(hostname, u.space)), '.');
    var labels := LabelsOf(raws);
    LabelsOfCanonical(raws);
    var name := Join(labels, '.');
    if labels != [] {
      if |name| > MAX_NAME {
        CutCanonical(labels, MAX_NAME);
      } else {
        assert forall l :: l in labels ==> '.' !in l;
        SplitJoin(labels, '.');
      }
    }
  }

  // ---- What the normalizer keeps -----------------------------------------------------------

  /** The letters and digits of a text, left to right. */
  ghost function Alnums(s: string): string {
    if s == "" then ""
    else Alnums(s[..|s| - 1]) + if LowerAlnum(s[|s| - 1]) then [s[|s| - 1]] else ""
  }

  lemma {:induction false} AlnumsAppend(a: string, b: string)
    ensures Alnums(a + b) == Alnums(a) + Alnums(b)
  {
    if b == "" {
      assert a + b == a;
    } else {
      AlnumsAppend(a, b[..|b| - 1]);
      assert (a + b)[..|a + b| - 1] == a + b[..|b| - 1];
    }
  }

  lemma {:induction false} NoAlnums(s: string)
    requires forall i :: 0 <= i < |s| ==> !LowerAlnum(s[i])
    ensures Alnums(s) == ""
  {
    if s != "" { NoAlnums(s[..|s| - 1]); }
  }

  lemma AlnumsOne(c: char)
    ensures Alnums([c]) == if LowerAlnum(c) then [c] else ""
  {
    assert [c][..0] == "";
  }

  lemma AlnumsSnoc(s: string, c: char)
    ensures Alnums(s + [c]) == Alnums(s) + if LowerAlnum(c) then [c] else ""
  {
    assert (s + [c])[..|s|] == s;
  }

  lemma NoWords()
    ensures Words("") == [] && Join(Words(""), '-') == ""
  {
  }

  /** One more character, in the joined words. */
  lemma JoinedSnoc(s: string, c: char)
    ensures var before, after := Join(Words(s), '-'), Join(Words(s + [c]), '-');
            after == if !LowerAlnum(c) then before
                     else if Words(s) == [] || LowerAlnum(s[|s| - 1]) then before + [c] else before + "-" + [c]
    ensures LowerAlnum(c) ==> Words(s + [c]) != []
    ensures !LowerAlnum(c) ==> Words(s + [c]) == Words(s)
    ensures Words(s) != [] ==> s != ""
    ensures Words(s) == [] ==> Join(Words(s), '-') == ""
  {
    hide Words;
    NoWords();
    WordsSnoc(s, c);
    if LowerAlnum(c) {
      if s != "" && LowerAlnum(s[|s| - 1]) { WordsGrow(s, c); } else { WordsStart(s, c); }
    }
  }

  /** The words hold all letters and digits. */
  lemma {:induction false} WordsKeepAlnums(s: string)
    ensures Alnums(Join(Words(s), '-')) == Alnums(s)
  {
    hide Words, Join, Alnums;
    NoWords();
    if s != "" {
      var init, c := s[..|s| - 1], s[|s| - 1];
      var before := Join(Words(init), '-');
      assert s == init + [c];
      WordsKeepAlnums(init);
      JoinedSnoc(init, c);
      AlnumsSnoc(init, c);
      AlnumsSnoc(before, c);
      AlnumsSnoc(before, '-');
      AlnumsSnoc(before + "-", c);
    }
  }

  /** Joining them makes no text longer. */
  lemma {:induction false} WordsShorter(s: string)
    ensures |Join(Words(s), '-')| + (if Words(s) == [] || LowerAlnum(s[|s| - 1]) then 0 else 1) <= |s|
  {
    hide Words, Join;
    NoWords();
    if s != "" {
      var init, c := s[..|s| - 1], s[|s| - 1];
      assert s == init + [c];
      WordsShorter(init);
      JoinedSnoc(init, c);
    }
  }

  /** A maximal run of letters and digits is one word, whatever stands before it. */
  lemma {:induction false} WordsBefore(a: string, w: string)
    requires IsWord(w) && (a == "" || !LowerAlnum(a[|a| - 1]))
    ensures Words(a + w) == Words(a) + [w]
  {
    hide Words;
    var init, c := w[..|w| - 1], w[|w| - 1];
    assert a + w == (a + init) + [c] && w == init + [c];
    WordsSnoc(a + init, c);
    if init == "" {
      assert a + init == a && w == [c];
    } else {
      WordsBefore(a, init);
    }
  }

  /** One more letter: in the last word, or a new one. */
  ghost function Add(ws: seq<string>, c: char, adjoins: bool): seq<string>
    requires adjoins ==> ws != []
  {
    if adjoins then ws[..|ws| - 1] + [ws[|ws| - 1] + [c]] else ws + [[c]]
  }

  lemma AddAfter(front: seq<string>, ws: seq<string>, c: char, adjoins: bool)
    requires adjoins ==> ws != []
    ensures adjoins ==> front + ws != []
    ensures Add(front + ws, c, adjoins) == front + Add(ws, c, adjoins)
  {
    if adjoins { assert (front + ws)[..|front + ws| - 1] == front + ws[..|ws| - 1]; }
  }

  lemma WordsAdd(s: string, c: char)
    requires LowerAlnum(c)
    ensures var adjoins := s != "" && LowerAlnum(s[|s| - 1]);
            (adjoins ==> Words(s) != []) && Words(s + [c]) == Add(Words(s), c, adjoins)
  {
    WordsSnoc(s, c);
    if s != "" && LowerAlnum(s[|s| - 1]) { WordAtEnd(s); }
  }

  /** And whatever follows it. */
  lemma {:induction false} WordsAround(a: string, w: string, b: string)
    requires IsWord(w) && (a == "" || !LowerAlnum(a[|a| - 1])) && (b == "" || !LowerAlnum(b[0]))
    ensures Words(a + w + b) == Words(a) + [w] + Words(b)
  {
    hide Words, Add;
    if b == "" {
      WordsBefore(a, w);
      NoWords();
      assert a + w + b == a + w;
    } else {
      var init, c := b[..|b| - 1], b[|b| - 1];
      WordsAround(a, w, init);
      assert a + w + b == (a + w + init) + [c] && b == init + [c];
      if LowerAlnum(c) {
        WordsAdd(a + w + init, c);
        WordsAdd(init, c);
        assert init != "" && (a + w + init)[|a + w + init| - 1] == init[|init| - 1];
        AddAfter(Words(a) + [w], Words(init), c, LowerAlnum(init[|init| - 1]));
      } else {
        WordsSnoc(a + w + init, c);
        WordsSnoc(init, c);
      }
    }
  }

  lemma WordAtEnd(s: string)
    requires s != "" && LowerAlnum(s[|s| - 1])
    ensures Words(s) != []
  {
  }

  /** A label that is not too long once hyphenated. */
  ghost predicate Fits(raw: string) {
    |Join(Words(raw), '-')| <= MAX_LABEL
  }

  /** A cut that takes the last letter loses it. */
  lemma CutLoses(value: string, n: nat, cut: char -> bool)
    requires n < |value| && LowerAlnum(value[|value| - 1]) && forall c :: cut(c) ==> !LowerAlnum(c)
    ensures |Alnums(TrimRight(value[..n], cut))| < |Alnums(value)|
  {
    var kept := TrimRight(value[..n], cut);
    var rest := value[|kept|..|value| - 1];
    assert value == kept + rest + [value[|value| - 1]];
    AlnumsAppend(kept + rest, [value[|value| - 1]]);
    AlnumsAppend(kept, rest);
    AlnumsOne(value[|value| - 1]);
  }

  lemma LabelAlnums(raw: string)
    ensures |Alnums(LabelOf(raw))| <= |Alnums(raw)|
    ensures if Fits(raw) then Alnums(LabelOf(raw)) == Alnums(raw) else |Alnums(LabelOf(raw))| < |Alnums(raw)|
    ensures |LabelOf(raw)| <= |raw|
  {
    hide Words, Join, Alnums;
    var value := Join(Words(raw), '-');
    WordsKeepAlnums(raw);
    WordsShorter(raw);
    JoinedWordsHyphenated(Words(raw));
    if !Fits(raw) { CutLoses(value, MAX_LABEL, c => c == '-'); }
  }

  lemma JoinSnocAlnums(parts: seq<string>, last: string)
    ensures Alnums(Join(parts + [last], '.')) == Alnums(Join(parts, '.')) + Alnums(last)
    ensures |Join(parts + [last], '.')| == |Join(parts, '.')| + |last| + if parts == [] then 0 else 1
  {
    var before := Join(parts, '.');
    assert parts == [] ==> before == "";
    hide Join, Alnums;
    JoinAppend(parts, last, '.');
    NoAlnums("");
    AlnumsSnoc(before, '.');
    AlnumsAppend(before + ['.'], last);
  }

  ghost predicate AllFit(raws: seq<string>) {
    forall i :: 0 <= i < |raws| ==> Fits(raws[i])
  }

  lemma AllFitSnoc(init: seq<string>, last: string)
    ensures AllFit(init + [last]) <==> AllFit(init) && Fits(last)
  {
    hide Fits;
    var raws := init + [last];
    assert raws[|init|] == last && forall i :: 0 <= i < |init| ==> raws[i] == init[i];
  }

  /** A label that comes out empty is left out. */
  lemma LabelsSnoc(init: seq<string>, last: string)
    ensures LabelsOf(init + [last]) == if LabelOf(last) == "" then LabelsOf(init) else LabelsOf(init) + [LabelOf(last)]
  {
    hide LabelOf;
    assert (init + [last])[..|init|] == init;
  }

  /** Joining the labels again keeps every letter exactly if none of them was too long. */
  lemma {:induction false} LabelsAlnums(raws: seq<string>)
    ensures var labels, text := Join(LabelsOf(raws), '.'), Join(raws, '.');
            && |Alnums(labels)| <= |Alnums(text)| && |labels| <= |text|
            && if AllFit(raws) then Alnums(labels) == Alnums(text) else |Alnums(labels)| < |Alnums(text)|
    ensures raws == [] ==> LabelsOf(raws) == []
  {
    hide Alnums, LabelOf, LabelsOf, Fits, AllFit, Join;
    if raws == [] {
      NoLabels();
    } else {
      var n := |raws| - 1;
      var init, last := raws[..n], raws[n];
      assert raws == init + [last];
      LabelsAlnums(init);
      LabelAlnums(last);
      NoAlnums("");
      AllFitSnoc(init, last);
      LabelsSnoc(init, last);
      JoinSnocAlnums(init, last);
      JoinSnocAlnums(LabelsOf(init), LabelOf(last));
    }
  }

  lemma NoLabels()
    ensures LabelsOf([]) == [] && AllFit([])
  {
  }

  lemma LowerAppend(u: Unicode, a: string, b: string)
    ensures Lower(u, a + b) == Lower(u, a) + Lower(u, b)
  {
  }

  /** Spaces are no letters, in either case. */
  lemma SpacesHold(u: Unicode, s: string)
    requires Standard(u) && forall i :: 0 <= i < |s| ==> u.space(s[i])
    ensures Alnums(Lower(u, s)) == ""
  {
    forall i | 0 <= i < |s| ensures !LowerAlnum(Lower(u, s)[i]) { assert u.space(u.lower(s[i])); }
    NoAlnums(Lower(u, s));
  }

  /** Trimming loses no letter and no digit. */
  lemma TrimmedAlnums(u: Unicode, hostname: string)
    requires Standard(u)
    ensures Alnums(Lower(u, Trim(hostname, u.space))) == Alnums(Lower(u, hostname))
    ensures |Trim(hostname, u.space)| <= |hostname|
  {
    hide Standard, Alnums, Lower, TrimLeft, TrimRight;
    var left := TrimLeft(hostname, u.space);
    var t := TrimRight(left, u.space);
    var before, after := hostname[..|hostname| - |left|], left[|t|..];
    assert hostname == before + left && left == t + after;
    SpacesHold(u, before);
    SpacesHold(u, after);
    LowerAppend(u, before, left);
    LowerAppend(u, t, after);
    AlnumsAppend(Lower(u, before), Lower(u, left));
    AlnumsAppend(Lower(u, t), Lower(u, after));
  }

  /** Nothing of the name is too long: no label of it, nor all of them together. */
  ghost predicate Uncut(u: Unicode, hostname: string) {
    var raws := Split(Lower(u, Trim(hostname, u.space)), '.');
    AllFit(raws) && |Join(LabelsOf(raws), '.')| <= MAX_NAME
  }

  /** The name has all letters and digits of the lower-cased hostname, in order, exactly if nothing was too long. */
  lemma NodeNameKeepsLetters(u: Unicode, hostname: string)
    requires Standard(u)
    ensures Alnums(NodeName(u, hostname)) == Alnums(Lower(u, hostname)) <==> Uncut(u, hostname)
    ensures |hostname| <= MAX_LABEL ==> Uncut(u, hostname)
  {
    hide Alnums, Standard, Trim, Split, Words, Join;
    var text := Lower(u, Trim(hostname, u.space));
    var raws := Split(text, '.');
    var name := Join(LabelsOf(raws), '.');
    TrimmedAlnums(u, hostname);
    JoinSplit(text, '.');
    LabelsAlnums(raws);
    LabelsOfCanonical(raws);
    if |name| > MAX_NAME {
      NoneJoined(LabelsOf(raws));
      JoinedCharacters(LabelsOf(raws));
      CutLoses(name, MAX_NAME, c => c in ".-");
    }
    if |hostname| <= MAX_LABEL {
      forall i | 0 <= i < |raws| ensures Fits(raws[i]) {
        PartShorter(raws, i);
        WordsShorter(raws[i]);
      }
    }
  }

  /** Of two neighbouring characters one is a letter or a digit. */
  ghost predicate Spaced(s: string) {
    forall i :: 0 <= i < |s| - 1 ==> LowerAlnum(s[i]) || LowerAlnum(s[i + 1])
  }

  lemma {:induction false} JoinedSpaced(labels: seq<string>)
    requires CanonicalLabels(labels)
    ensures Spaced(Join(labels, '.'))
  {
    if labels != [] {
      assert labels[0] in labels;
      if |labels| > 1 {
        JoinedSpaced(labels[1..]);
        JoinedCharacters(labels[1..]);
      }
    }
  }

  /** Of a spaced text a cut takes one character more at most. */
  lemma CutTight(s: string, n: nat, cut: char -> bool)
    requires Spaced(s) && 2 <= n <= |s| && LowerAlnum(s[0]) && forall c :: cut(c) ==> !LowerAlnum(c)
    ensures var r := TrimRight(s[..n], cut); n - 1 <= |r| <= n && r <= s
  {
    var r := TrimRight(s[..n], cut);
    assert s[..n] == r + s[|r|..n];
  }

  /** What is too long keeps all that fits: a label 62 characters at least, a name 252. */
  lemma CutsAreTight(u: Unicode, hostname: string, raw: string)
    ensures Fits(raw) ==> LabelOf(raw) == Join(Words(raw), '-')
    ensures !Fits(raw) ==> MAX_LABEL - 1 <= |LabelOf(raw)| <= MAX_LABEL && LabelOf(raw) <= Join(Words(raw), '-')
    ensures var raws := Split(Lower(u, Trim(hostname, u.space)), '.');
            var full, name := Join(LabelsOf(raws), '.'), NodeName(u, hostname);
            if |full| <= MAX_NAME then name == full
            else MAX_NAME - 1 <= |name| <= MAX_NAME && name <= full
  {
    hide Words, Join, Split, Trim, TrimRight;
    JoinedWordsHyphenated(Words(raw));
    var raws := Split(Lower(u, Trim(hostname, u.space)), '.');
    var full := Join(LabelsOf(raws), '.');
    NoneWords(raw);
    if !Fits(raw) { CutTight(Join(Words(raw), '-'), MAX_LABEL, c => c == '-'); }
    if |full| > MAX_NAME {
      NoneJoined(LabelsOf(raws));
      LabelsOfCanonical(raws);
      JoinedSpaced(LabelsOf(raws));
      JoinedCharacters(LabelsOf(raws));
      CutTight(full, MAX_NAME, c => c in ".-");
    }
  }

  lemma NoneWords(raw: string)
    ensures Words(raw) == [] ==> Join(Words(raw), '-') == ""
  {
  }

  lemma NoneJoined(labels: seq<string>)
    ensures |Join(labels, '.')| > 0 ==> labels != []
  {
  }

  lemma {:induction false} PartShorter(parts: seq<string>, i: nat)
    requires i < |parts|
    ensures |parts[i]| <= |Join(parts, '.')|
  {
    if |parts| > 1 && i > 0 { PartShorter(parts[1..], i - 1); }
  }

  lemma CanonicalNotEmpty(l: string)
    requires CanonicalLabel(l)
    ensures l != ""
  {
  }

  lemma LabelOfFixed(l: string)
    requires CanonicalLabel(l)
    ensures LabelOf(l) == l
  {
    hide Words, Join;
    WordsOfHyphenated(l);
  }

  lemma {:induction false} LabelsOfCanonicalFixed(labels: seq<string>)
    requires CanonicalLabels(labels)
    ensures LabelsOf(labels) == labels
  {
    hide LabelOf, CanonicalLabel;
    if labels != [] {
      var last := labels[|labels| - 1];
      assert last in labels;
      LabelsOfCanonicalFixed(labels[..|labels| - 1]);
      LabelOfFixed(last);
      CanonicalNotEmpty(last);
      assert labels[..|labels| - 1] + [last] == labels;
    }
  }

  lemma LowerFixed(u: Unicode, s: string)
    requires Standard(u)
    requires forall c :: c in s ==> LowerAlnum(c) || c in "-."
    ensures Lower(u, s) == s
  {
    forall i | 0 <= i < |s| ensures Lower(u, s)[i] == s[i] { assert s[i] in s; }
  }

  lemma {:induction false} JoinedCharacters(labels: seq<string>)
    requires labels != [] && CanonicalLabels(labels)
    ensures var s := Join(labels, '.');
            s != "" && LowerAlnum(s[0]) && LowerAlnum(s[|s| - 1]) &&
            forall c :: c in s ==> LowerAlnum(c) || c in "-."
  {
    assert labels[0] in labels;
    if |labels| > 1 { JoinedCharacters(labels[1..]); }
  }

  /** The names the normalizer leaves alone are exactly the canonical ones. */
  lemma NodeNameFixedPoints(u: Unicode, name: string)
    requires Standard(u)
    ensures NodeName(u, name) == name <==> name == "" || CanonicalName(name)
  {
    NodeNameValid(u, name);
    if CanonicalName(name) {
      var labels := Split(name, '.');
      JoinSplit(name, '.');
      JoinedCharacters(labels);
      assert name[0] in name && name[|name| - 1] in name;
      TrimFixed(name, u.space);
      LowerFixed(u, name);
      LabelsOfCanonicalFixed(labels);
    }
  }

  /** Normalizing a second time changes nothing. */
  lemma NodeNameIdempotent(u: Unicode, hostname: string)
    requires Standard(u)
    ensures NodeName(u, NodeName(u, hostname)) == NodeName(u, hostname)
  {
    NodeNameValid(u, hostname);
    NodeNameFixedPoints(u, NodeName(u, hostname));
  }
}
