/** macOS search domains on a network service that maclet shares with DHCP, VPN clients and people. */
module SearchDomains {
  import opened Text

  datatype Result<+T> = Ok(value: T) | Err

  /** What networksetup accepts to clear a list. */
  const NO_SEARCH_VALUE := "Empty"
  const NOTHING_SET := "There aren't any Search Domains"
  const DEFAULT_SEARCH_DOMAINS := ["svc.cluster.local", "cluster.local"]

  // ---- Names -------------------------------------------------------------------------------

  function TrimSuffixDot(s: string): string {
    if s != "" && s[|s| - 1] == '.' then s[..|s| - 1] else s
  }

  /** Trim spaces, lower-case, drop one trailing dot. */
  function Clean(u: Unicode, raw: string): string {
    TrimSuffixDot(Lower(u, Trim(raw, u.space)))
  }

  /** Not a domain: nothing, or a placeholder networksetup echoes back. */
  predicate Placeholder(name: string) {
    name == "" || name == "none" || name == "empty"
  }

  function CleanAll(u: Unicode, domains: seq<string>): (r: seq<string>)
    ensures |r| == |domains|
  {
    seq(|domains|, i requires 0 <= i < |domains| => Clean(u, domains[i]))
  }

  /** One more name: kept unless it is a placeholder or already there. */
  function Push(names: seq<string>, name: string): seq<string> {
    if Placeholder(name) || name in names then names else names + [name]
  }

  function Dedup(names: seq<string>): seq<string> {
    if names == [] then [] else Push(Dedup(names[..|names| - 1]), names[|names| - 1])
  }

  function Normalize(u: Unicode, domains: seq<string>): seq<string> {
    Dedup(CleanAll(u, domains))
  }

  lemma DedupSnoc(names: seq<string>, name: string)
    ensures Dedup(names + [name]) == Push(Dedup(names), name)
  {
    assert (names + [name])[..|names|] == names;
  }

  /** A normalized list: distinct real names. */
  ghost predicate Normal(names: seq<string>) {
    && (forall i, j :: 0 <= i < j < |names| ==> names[i] != names[j])
    && (forall i :: 0 <= i < |names| ==> !Placeholder(names[i]))
  }

  /** Every real name is kept once, in order of first appearance, and nothing is added. */
  lemma {:induction false} DedupMembers(names: seq<string>)
    ensures Normal(Dedup(names)) && |Dedup(names)| <= |names|
    ensures forall d :: d in Dedup(names) <==> !Placeholder(d) && d in names
    ensures Dedup(names) == names <==> Normal(names)
    ensures |Dedup(names)| == |names| ==> Dedup(names) == names
  {
    if names != [] {
      var n := |names| - 1;
      assert names == names[..n] + [names[n]];
      DedupMembers(names[..n]);
    }
  }

  /** Normalizing keeps the cleaned form of every real name, once, and nothing else. */
  lemma NormalizeMembers(u: Unicode, domains: seq<string>)
    ensures Normal(Normalize(u, domains))
    ensures forall d :: d in Normalize(u, domains) <==>
              !Placeholder(d) && exists i :: 0 <= i < |domains| && d == CleanAll(u, domains)[i]
  {
    DedupMembers(CleanAll(u, domains));
  }

  /** The kept names, where they stood: in the same order. */
  ghost predicate InOrder(names: seq<string>, kept: seq<string>, at: seq<nat>) {
    && |at| == |kept| && (forall k :: 0 <= k < |at| ==> at[k] < |names| && kept[k] == names[at[k]])
    && forall k, l :: 0 <= k < l < |at| ==> at[k] < at[l]
  }

  ghost predicate FirstAppearances(names: seq<string>, at: seq<nat>) {
    forall k :: 0 <= k < |at| ==> at[k] < |names| && names[at[k]] !in names[..at[k]]
  }

  lemma FirstMore(names: seq<string>, name: string, at: seq<nat>)
    requires FirstAppearances(names, at)
    ensures FirstAppearances(names + [name], at)
    ensures name !in names ==> FirstAppearances(names + [name], at + [|names|])
  {
    forall k | 0 <= k < |at| ensures (names + [name])[..at[k]] == names[..at[k]] {}
    assert (names + [name])[..|names|] == names;
  }

  lemma InOrderMore(names: seq<string>, name: string, kept: seq<string>, at: seq<nat>)
    requires InOrder(names, kept, at)
    ensures InOrder(names + [name], kept, at) && InOrder(names + [name], kept + [name], at + [|names|])
  {
  }

  lemma NotYet(names: seq<string>, name: string)
    requires !Placeholder(name) && name !in Dedup(names)
    ensures name !in names
  {
    DedupMembers(names);
  }

  /** Each name is kept where it first appears. */
  lemma {:induction false} DedupFirst(names: seq<string>) returns (at: seq<nat>)
    ensures InOrder(names, Dedup(names), at) && FirstAppearances(names, at)
  {
    at := [];
    if names == [] {
      NothingLeft();
    } else {
      var init, name := names[..|names| - 1], names[|names| - 1];
      assert names == init + [name];
      at := DedupFirst(init);
      DedupSnoc(init, name);
      hide Dedup, Placeholder, InOrder, FirstAppearances;
      FirstMore(init, name, at);
      InOrderMore(init, name, Dedup(init), at);
      if !Placeholder(name) && name !in Dedup(init) {
        NotYet(init, name);
        at := at + [|init|];
      }
    }
  }

  /** Normalizing keeps the order of first appearance. */
  lemma NormalizeInOrder(u: Unicode, domains: seq<string>)
    ensures exists at :: InOrder(CleanAll(u, domains), Normalize(u, domains), at) &&
                         FirstAppearances(CleanAll(u, domains), at)
  {
    var at := DedupFirst(CleanAll(u, domains));
  }

  /** Cleaning, spelled out: the spaces around go, the letters become small, and one dot at the end goes. */
  lemma CleanReads(u: Unicode, before: string, core: string, after: string)
    requires Standard(u) && core != "" && !u.space(core[0]) && !u.space(core[|core| - 1])
    requires forall i :: 0 <= i < |before| ==> u.space(before[i])
    requires forall i :: 0 <= i < |after| ==> u.space(after[i])
    ensures var d := Clean(u, before + core + after);
            && |d| == |core| - (if core[|core| - 1] == '.' then 1 else 0)
            && forall i :: 0 <= i < |d| ==> d[i] == u.lower(core[i])
  {
    hide TrimLeft, TrimRight, Standard;
    SpacesBefore(u, before, core + after);
    SpacesAfter(u, core, after);
    assert before + core + after == before + (core + after);
    DotStays(u, core[|core| - 1]);
    assert Trim(before + core + after, u.space) == core;
    hide Trim;
    assert Lower(u, core)[|core| - 1] == u.lower(core[|core| - 1]);
  }

  lemma DotStays(u: Unicode, c: char)
    requires Standard(u)
    ensures u.lower(c) == '.' <==> c == '.'
  {
  }

  lemma {:induction false} SpacesBefore(u: Unicode, before: string, rest: string)
    requires rest != "" && !u.space(rest[0]) && forall i :: 0 <= i < |before| ==> u.space(before[i])
    ensures TrimLeft(before + rest, u.space) == rest
  {
    if before == "" {
      assert before + rest == rest;
    } else {
      assert (before + rest)[1..] == before[1..] + rest;
      SpacesBefore(u, before[1..], rest);
    }
  }

  lemma {:induction false} SpacesAfter(u: Unicode, core: string, after: string)
    requires core != "" && !u.space(core[|core| - 1]) && forall i :: 0 <= i < |after| ==> u.space(after[i])
    ensures TrimRight(core + after, u.space) == core
  {
    if after == "" {
      assert core + after == core;
    } else {
      assert (core + after)[..|core + after| - 1] == core + after[..|after| - 1];
      SpacesAfter(u, core, after[..|after| - 1]);
    }
  }

  /** The placeholders are these, in this spelling. */
  lemma PlaceholdersAre(name: string)
    ensures Placeholder(name) <==> name in ["", "none", "empty"]
  {
  }

  method NormalizeSearchDomains(u: Unicode, domains: seq<string>) returns (normalized: seq<string>)
    ensures normalized == Normalize(u, domains)
  {
    hide Clean, Dedup;
    normalized := [];
    var seen: set<string> := {};
    ghost var cleaned := CleanAll(u, domains);
    NothingLeft();
    for i := 0 to |domains|
      invariant normalized == Dedup(cleaned[..i])
      invariant forall d :: d in seen <==> d in normalized
    {
      assert cleaned[..i + 1] == cleaned[..i] + [cleaned[i]];
      DedupSnoc(cleaned[..i], cleaned[i]);
      var domain := Clean(u, domains[i]);
      if domain == "" || domain in seen { continue; }
      if domain == "none" || domain == "empty" { continue; }
      seen := seen + {domain};
      normalized := normalized + [domain];
    }
    assert cleaned[..|domains|] == cleaned;
  }

  lemma NothingLeft()
    ensures Dedup([]) == []
  {
  }

  /** A name that reads back as itself. */
  ghost predicate Stable(u: Unicode, name: string) {
    Clean(u, name) == name
  }

  /** What a user can check before passing a name: no dot or space before the trailing dot. */
  predicate WellFormed(u: Unicode, raw: string) {
    var t := Trim(raw, u.space);
    |t| >= 2 && t[|t| - 1] == '.' ==> t[|t| - 2] != '.' && !u.space(t[|t| - 2])
  }

  lemma TrimRightShorter(s: string, cut: char -> bool)
    requires s != "" && cut(s[|s| - 1])
    ensures |Trim(s, cut)| < |s|
  {
  }

  lemma LowerTwice(u: Unicode, t: string, d: string)
    requires Standard(u) && |d| <= |t| && forall i :: 0 <= i < |d| ==> d[i] == u.lower(t[i])
    ensures Lower(u, d) == d
  {
  }

  lemma CleanLonger(u: Unicode, d: string)
    requires d != "" && u.space(d[|d| - 1])
    ensures Clean(u, d) != d
  {
    TrimRightShorter(d, u.space);
  }

  lemma CleanUntrimmed(u: Unicode, t: string, d: string)
    requires Standard(u) && |d| <= |t| && forall i :: 0 <= i < |d| ==> d[i] == u.lower(t[i])
    requires d != "" ==> !u.space(d[0]) && !u.space(d[|d| - 1])
    ensures Clean(u, d) == TrimSuffixDot(d)
  {
    hide Trim;
    TrimFixed(d, u.space);
    LowerTwice(u, t, d);
  }

  lemma CleanStableTrimmed(u: Unicode, t: string, d: string)
    requires Standard(u) && d == TrimSuffixDot(Lower(u, t))
    requires t != "" ==> !u.space(t[0]) && !u.space(t[|t| - 1])
    ensures Stable(u, d) <==> !(|t| >= 2 && t[|t| - 1] == '.' && (t[|t| - 2] == '.' || u.space(t[|t| - 2])))
  {
    hide Clean, Trim;
    if d != "" && u.space(d[|d| - 1]) {
      CleanLonger(u, d);
    } else {
      CleanUntrimmed(u, t, d);
    }
  }

  /** Cleaning is idempotent exactly on the well-formed names. */
  lemma CleanStable(u: Unicode, raw: string)
    requires Standard(u)
    ensures Stable(u, Clean(u, raw)) <==> WellFormed(u, raw)
  {
    hide Trim, Stable;
    TrimEdges(raw, u.space);
    CleanStableTrimmed(u, Trim(raw, u.space), Clean(u, raw));
  }

  /** What goes wrong outside them: "none.." becomes the domain "none.", which is then taken for a placeholder. */
  lemma MalformedNameIsLost(u: Unicode)
    requires Standard(u)
    ensures !WellFormed(u, "none..")
    ensures Normalize(u, ["none.."]) == ["none."] && Normalize(u, ["none."]) == []
  {
    hide Clean, Trim, Standard, Dedup, CleanAll;
    CleanLiteral(u, "none..");
    CleanLiteral(u, "none.");
    assert "none.."[..5] == "none." && "none."[..4] == "none";
    NormalizeOne(u, "none..");
    NormalizeOne(u, "none.");
  }

  lemma NormalizeOne(u: Unicode, raw: string)
    ensures Normalize(u, [raw]) == Push([], Clean(u, raw))
  {
    hide Clean, Push;
    assert CleanAll(u, [raw]) == [] + [Clean(u, raw)];
    DedupSnoc([], Clean(u, raw));
    NothingLeft();
  }

  lemma CleanLiteral(u: Unicode, s: string)
    requires Standard(u) && s != "" && forall i :: 0 <= i < |s| ==> LowerAlnum(s[i]) || s[i] in "-."
    ensures Clean(u, s) == TrimSuffixDot(s) && Trim(s, u.space) == s
  {
    TrimFixed(s, u.space);
    assert Lower(u, s) == s;
  }

  /** A normal list normalizes to itself exactly when all its names are stable. */
  lemma NormalizeFixed(u: Unicode, names: seq<string>)
    requires Normal(names)
    ensures Normalize(u, names) == names <==> forall i :: 0 <= i < |names| ==> Stable(u, names[i])
  {
    hide Clean, Dedup;
    var cleaned := CleanAll(u, names);
    DedupMembers(cleaned);
    if Normalize(u, names) == names {
      assert cleaned == names;
      forall i | 0 <= i < |names| ensures Stable(u, names[i]) { assert cleaned[i] == names[i]; }
    }
    if forall i :: 0 <= i < |names| ==> Stable(u, names[i]) {
      forall i | 0 <= i < |names| ensures cleaned[i] == names[i] { assert Stable(u, names[i]); }
    }
  }

  // ---- Splitting and the text of networksetup ----------------------------------------------

  /** The members of a list that are managed, or those that are not, in order. */
  function Pick(names: seq<string>, managed: seq<string>, ours: bool): seq<string> {
    if names == [] then []
    else
      Pick(names[..|names| - 1], managed, ours) +
      if (names[|names| - 1] in managed) == ours then [names[|names| - 1]] else []
  }

  lemma PickSnoc(names: seq<string>, name: string, managed: seq<string>, ours: bool)
    ensures Pick(names + [name], managed, ours) ==
              Pick(names, managed, ours) + if (name in managed) == ours then [name] else []
  {
    assert (names + [name])[..|names|] == names;
  }

  /** What is picked keeps its order. */
  lemma {:induction false} PickInOrder(names: seq<string>, managed: seq<string>, ours: bool) returns (at: seq<nat>)
    ensures InOrder(names, Pick(names, managed, ours), at)
  {
    at := [];
    if names != [] {
      var n := |names| - 1;
      at := PickInOrder(names[..n], managed, ours);
      if (names[n] in managed) == ours { at := at + [n]; }
    }
  }

  lemma {:induction false} PickMembers(names: seq<string>, managed: seq<string>, ours: bool)
    ensures forall d :: d in Pick(names, managed, ours) <==> d in names && (d in managed) == ours
    ensures Normal(names) ==> Normal(Pick(names, managed, ours))
  {
    if names != [] {
      var n := |names| - 1;
      assert names == names[..n] + [names[n]];
      PickMembers(names[..n], managed, ours);
    }
  }

  lemma NothingPicked(managed: seq<string>)
    ensures Pick([], managed, true) == [] && Pick([], managed, false) == []
  {
  }

  method SplitSearchDomains(u: Unicode, current: seq<string>, managed: seq<string>)
    returns (ours: seq<string>, foreign: seq<string>)
    ensures ours == Pick(Normalize(u, current), managed, true)
    ensures foreign == Pick(Normalize(u, current), managed, false)
  {
    hide Pick, Normalize;
    ours, foreign := [], [];
    NothingPicked(managed);
    var names := NormalizeSearchDomains(u, current);
    for i := 0 to |names|
      invariant ours == Pick(names[..i], managed, true)
      invariant foreign == Pick(names[..i], managed, false)
    {
      assert names[..i + 1] == names[..i] + [names[i]];
      PickSnoc(names[..i], names[i], managed, true);
      PickSnoc(names[..i], names[i], managed, false);
      assert ours + [] == ours && foreign + [] == foreign;
      if names[i] in managed {
        ours := ours + [names[i]];
        continue;
      }
      foreign := foreign + [names[i]];
    }
    assert names[..|names|] == names;
  }

  lemma {:induction false} PickAll(names: seq<string>, managed: seq<string>, ours: bool)
    requires forall i :: 0 <= i < |names| ==> (names[i] in managed) == ours
    ensures Pick(names, managed, ours) == names && Pick(names, managed, !ours) == []
  {
    if names != [] {
      var n := |names| - 1;
      PickAll(names[..n], managed, ours);
      assert names == names[..n] + [names[n]];
    }
  }

  predicate Contains(s: string, sub: string) {
    sub <= s || (s != "" && Contains(s[1..], sub))
  }

  /** -getsearchdomains: one stored entry per line, or a sentence. */
  function Listing(stored: seq<string>, service: string): string {
    if stored == [] then NOTHING_SET + " set on " + service + ".\n" else Join(stored, '\n') + "\n"
  }

  /** -setsearchdomains: the single argument Empty clears the list, anything else is stored verbatim. */
  function StoredFrom(args: seq<string>): seq<string> {
    if args == [NO_SEARCH_VALUE] then [] else args
  }

  function SearchDomainsArgs(domains: seq<string>): seq<string> {
    if domains == [] then [NO_SEARCH_VALUE] else domains
  }

  /** The lines parseSearchDomains keeps. */
  function Candidates(u: Unicode, lines: seq<string>): seq<string> {
    if lines == [] then []
    else
      var line := Trim(lines[|lines| - 1], u.space);
      Candidates(u, lines[..|lines| - 1]) + if line == "" || Contains(line, NOTHING_SET) then [] else [line]
  }

  lemma CandidatesSnoc(u: Unicode, lines: seq<string>, raw: string)
    ensures var line := Trim(raw, u.space);
            Candidates(u, lines + [raw]) ==
              Candidates(u, lines) + if line == "" || Contains(line, NOTHING_SET) then [] else [line]
  {
    assert (lines + [raw])[..|lines|] == lines;
  }

  lemma NoCandidates(u: Unicode)
    ensures Candidates(u, []) == []
  {
  }

  function Parse(u: Unicode, output: string): seq<string> {
    Normalize(u, Candidates(u, Split(output, '\n')))
  }

  method ParseSearchDomains(u: Unicode, output: string) returns (domains: seq<string>)
    ensures domains == Parse(u, output)
  {
    hide Candidates, Contains, Trim, Normalize, Split;
    var lines := Split(output, '\n');
    var candidates := [];
    NoCandidates(u);
    for i := 0 to |lines|
      invariant candidates == Candidates(u, lines[..i])
    {
      assert lines[..i + 1] == lines[..i] + [lines[i]];
      CandidatesSnoc(u, lines[..i], lines[i]);
      var line := Trim(lines[i], u.space);
      if line == "" || Contains(line, NOTHING_SET) {
        assert candidates + [] == candidates;
        continue;
      }
      candidates := candidates + [line];
    }
    assert lines[..|lines|] == lines;
    domains := NormalizeSearchDomains(u, candidates);
  }

  lemma {:induction false} ContainsFirst(s: string, sub: string)
    requires sub != "" && Contains(s, sub)
    ensures sub[0] in s
  {
    if sub <= s {
      assert s[0] == sub[0];
    } else {
      ContainsFirst(s[1..], sub);
    }
  }

  lemma TrimTwice(s: string, cut: char -> bool)
    ensures Trim(Trim(s, cut), cut) == Trim(s, cut)
  {
    TrimEdges(s, cut);
    TrimFixed(Trim(s, cut), cut);
  }

  /** Lines without the sentence parse to their normalization. */
  lemma {:induction false} CandidatesNormalize(u: Unicode, lines: seq<string>)
    requires forall i :: 0 <= i < |lines| ==> 'T' !in lines[i]
    ensures Normalize(u, Candidates(u, lines)) == Normalize(u, lines)
  {
    hide Clean, Contains, Trim, Push;
    if lines != [] {
      var n := |lines| - 1;
      CandidatesNormalize(u, lines[..n]);
      LineNormalize(u, lines[..n], lines[n]);
      assert lines == lines[..n] + [lines[n]];
    }
  }

  lemma CleanTrimmed(u: Unicode, raw: string)
    ensures Clean(u, Trim(raw, u.space)) == Clean(u, raw)
    ensures Trim(raw, u.space) == "" ==> Clean(u, raw) == ""
  {
    TrimTwice(raw, u.space);
  }

  lemma NormalizeSnoc(u: Unicode, lines: seq<string>, raw: string)
    ensures Normalize(u, lines + [raw]) == Push(Normalize(u, lines), Clean(u, raw))
  {
    DedupSnoc(CleanAll(u, lines), Clean(u, raw));
    assert CleanAll(u, lines + [raw]) == CleanAll(u, lines) + [Clean(u, raw)];
  }

  lemma LineNormalize(u: Unicode, lines: seq<string>, raw: string)
    requires Normalize(u, Candidates(u, lines)) == Normalize(u, lines) && 'T' !in raw
    ensures Normalize(u, Candidates(u, lines + [raw])) == Normalize(u, lines + [raw])
  {
    hide Clean, Contains, Trim, Candidates, Dedup;
    var line := Trim(raw, u.space);
    CandidatesSnoc(u, lines, raw);
    assert Candidates(u, lines) + [] == Candidates(u, lines);
    NormalizeSnoc(u, lines, raw);
    CleanTrimmed(u, raw);
    NoSentence(raw, u.space);
    if line != "" { NormalizeSnoc(u, Candidates(u, lines), line); }
  }

  lemma NoSentence(raw: string, cut: char -> bool)
    requires 'T' !in raw
    ensures !Contains(Trim(raw, cut), NOTHING_SET)
  {
    var line := Trim(raw, cut);
    if Contains(line, NOTHING_SET) {
      ContainsFirst(line, NOTHING_SET);
      TrimMembers(raw, cut, 'T');
    }
  }

  lemma TrimMembers(s: string, cut: char -> bool, c: char)
    requires c in Trim(s, cut)
    ensures c in s
  {
  }

  /** A name maclet may write: what cleaning a newline-free text gives. */
  ghost predicate Writable(name: string) {
    '\n' !in name && 'T' !in name && name != NO_SEARCH_VALUE
  }

  lemma SentenceSkipped(u: Unicode, sentence: string)
    requires Standard(u) && NOTHING_SET <= sentence && sentence[|sentence| - 1] == '.'
    ensures Candidates(u, [sentence, ""]) == []
  {
    assert sentence[0] == 'T';
    TrimFixed(sentence, u.space);
    CandidatesSnoc(u, [], sentence);
    CandidatesSnoc(u, [sentence], "");
    assert [] + [sentence] == [sentence] && [sentence] + [""] == [sentence, ""];
  }

  lemma TrimEmpty(cut: char -> bool)
    ensures Trim("", cut) == ""
  {
  }

  lemma ReadBackEmpty(u: Unicode, service: string)
    requires Standard(u) && '\n' !in service
    ensures Candidates(u, Split(Listing([], service), '\n')) == []
  {
    hide Candidates, Split, Standard;
    var sentence := NOTHING_SET + " set on " + service + ".";
    assert Listing([], service) == sentence + ['\n'] + "";
    SplitPrefix(sentence, "", '\n');
    SplitWithout("", '\n');
    assert [sentence] + [""] == [sentence, ""];
    SentenceSkipped(u, sentence);
  }

  lemma ReadBackNames(u: Unicode, names: seq<string>, service: string)
    requires names != [] && forall i :: 0 <= i < |names| ==> Writable(names[i])
    ensures Parse(u, Listing(names, service)) == Normalize(u, names)
  {
    hide Clean, Contains, Trim, Candidates, Dedup, CleanAll, Split, Join;
    JoinAppend(names, "", '\n');
    assert Join(names, '\n') + ['\n'] + "" == Listing(names, service);
    assert forall i :: 0 <= i < |names| ==> '\n' !in names[i] && 'T' !in names[i];
    SplitJoin(names + [""], '\n');
    CandidatesNormalize(u, names);
    TrimEmpty(u.space);
    CandidatesSnoc(u, names, "");
    assert Candidates(u, names) + [] == Candidates(u, names);
  }

  /** Reading back a written list gives its normalization; in particular the sentinel never collides. */
  lemma ReadBack(u: Unicode, names: seq<string>, service: string)
    requires forall i :: 0 <= i < |names| ==> Writable(names[i])
    requires Standard(u) && '\n' !in service
    ensures Parse(u, Listing(StoredFrom(SearchDomainsArgs(names)), service)) == Normalize(u, names)
  {
    hide Parse, Normalize, Listing, Standard;
    if names == [] {
      ReadBackEmpty(u, service);
      ParseNothing(u, service);
    } else {
      assert Writable(names[0]);
      ReadBackNames(u, names, service);
    }
  }

  lemma ParseNothing(u: Unicode, service: string)
    requires Candidates(u, Split(Listing([], service), '\n')) == []
    ensures Parse(u, Listing([], service)) == Normalize(u, [])
  {
  }
}
