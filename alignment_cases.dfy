/**
 * One Dockerfile line followed through the test-suite helpers: the scanner of
 * `get_conda_specs` turns `RUN conda install -n base numpy=1.0 scipy` into one
 * (environment, tokens) pair, and `parse_conda_create_command` turns those
 * tokens into the spec `{name: base, channel: defaults, packages: {numpy: 1.0,
 * scipy: None}}`. The general lemmas here (splitting a space-joined line,
 * filtering install arguments) carry the example.
 */
module AlignmentCases {
  import opened Runtime
  import opened Text
  import opened PackageAlignment
  import CC = CondaCommand
  import DS = DockerfileScan

  /** A token as the scanner produces it: non-empty, with no whitespace. */
  predicate Word(w: string) {
    w != [] && forall k :: 0 <= k < |w| ==> !IsSpace(w[k])
  }

  /** The words joined by single spaces. */
  function Join(words: seq<string>): string
    requires |words| >= 1
  {
    if |words| == 1 then words[0] else words[0] + " " + Join(words[1..])
  }

  /** A joined line starts with its first word. */
  lemma {:induction false} JoinStart(words: seq<string>)
    requires |words| >= 1 && Word(words[0])
    ensures |Join(words)| >= |words[0]| && Join(words)[..|words[0]|] == words[0]
  {
  }

  /** The first whitespace of `s` is at `j` when `s[..j]` has none. */
  lemma SpaceAtEnd(s: string, j: nat)
    requires j <= |s| && (forall k :: 0 <= k < j ==> !IsSpace(s[k])) && (j < |s| ==> IsSpace(s[j]))
    ensures SpaceAt(s, 0) == j
  {
    SpaceAtFrom(s, 0, j);
  }

  /** The same, searching from position `i`. */
  lemma {:induction false} SpaceAtFrom(s: string, i: nat, j: nat)
    requires i <= j <= |s| && (forall k :: i <= k < j ==> !IsSpace(s[k])) && (j < |s| ==> IsSpace(s[j]))
    ensures SpaceAt(s, i) == j
    decreases j - i
  {
    if i < j {
      SpaceAtFrom(s, i + 1, j);
    }
  }

  /** Splitting a space-joined line on whitespace gives back its words. */
  lemma {:induction false} SplitWsJoin(words: seq<string>)
    requires |words| >= 1 && forall i :: 0 <= i < |words| ==> Word(words[i])
    ensures SplitWs(Join(words)) == words
    decreases |words|
  {
    var w := words[0];
    assert Word(w);
    if |words| == 1 {
      SpaceAtEnd(w, |w|);
    } else {
      var rest := Join(words[1..]);
      assert Join(words) == w + " " + rest;
      assert Word(words[1..][0]);
      JoinStart(words[1..]);
      assert rest[0] == words[1][0];
      SplitWsCons(w, rest);
      SplitWsJoin(words[1..]);
    }
  }

  /** Splitting `w + " " + rest` peels off `w`. */
  lemma SplitWsCons(w: string, rest: string)
    requires Word(w) && rest != [] && !IsSpace(rest[0])
    ensures SplitWs(w + " " + rest) == [w] + SplitWs(rest)
  {
    var s := w + " " + rest;
    SpaceAtEnd(s, |w|);
    assert SkipSpace(s, |w|) == |w| + 1 by {
      assert IsSpace(s[|w|]) && s[|w| + 1] == rest[0];
    }
    assert s[..|w|] == w && s[|w| + 1..] == rest;
  }

  /** Trimming a string whose ends are outside the class changes nothing. */
  lemma TrimUntouched(s: string, k: CharClass)
    requires s != [] && !InClass(s[0], k) && !InClass(s[|s| - 1], k)
    ensures Trim(s, k) == s
  {
  }

  /** A string without upper-case letters is its own lower-case form. */
  lemma LowerKeeps(s: string)
    requires forall i :: 0 <= i < |s| ==> !('A' <= s[i] <= 'Z')
    ensures Lower(s) == s
  {
  }

  /** A string without lower-case letters is its own upper-case form. */
  lemma UpperKeeps(s: string)
    requires forall i :: 0 <= i < |s| ==> !('a' <= s[i] <= 'z')
    ensures Upper(s) == s
  {
  }

  /** A character no word contains, other than the space, is not in the joined line. */
  lemma {:induction false} JoinAvoids(words: seq<string>, c: char)
    requires |words| >= 1 && c != ' ' && forall i :: 0 <= i < |words| ==> c !in words[i]
    ensures c !in Join(words)
    decreases |words|
  {
    if |words| > 1 {
      JoinAvoids(words[1..], c);
    }
  }

  /** A joined line ends with the last character of its last word. */
  lemma {:induction false} JoinEnd(words: seq<string>)
    requires |words| >= 1 && words[|words| - 1] != []
    ensures var line, w := Join(words), words[|words| - 1]; line != [] && line[|line| - 1] == w[|w| - 1]
    decreases |words|
  {
    if |words| > 1 {
      JoinEnd(words[1..]);
    }
  }

  /** A line with no comment, no surrounding whitespace and no trailing backslash is split into its words. */
  lemma PlainLine(words: seq<string>)
    requires |words| >= 1 && forall i :: 0 <= i < |words| ==> Word(words[i]) && '#' !in words[i]
    requires var w := words[|words| - 1]; w != [] && w[|w| - 1] != '\\'
    ensures Args(Join(words)) == words && !Continues(Join(words))
  {
    var line := Join(words);
    JoinStart(words);
    JoinEnd(words);
    JoinAvoids(words, '#');
    assert DS.CleanLine(line) == line by {
      TrimUntouched(line, Whitespace);
    }
    assert TrimEnd(line, Backslashes) == line;
    TrimUntouched(line, Whitespace);
    SplitWsJoin(words);
  }

  /** The words of the example line are plain tokens, and the line is an install command. */
  lemma WorkedWords(words: seq<string>)
    requires words == ["RUN", "conda", "install", "-n", "base", "numpy=1.0", "scipy"]
    ensures forall i :: 0 <= i < |words| ==> Word(words[i]) && '#' !in words[i]
    ensures Classify(words) == Ok(Install(words[1..]))
  {
    UpperKeeps("RUN");
    LowerKeeps("conda");
    LowerKeeps("install");
  }

  /** A Dockerfile whose only line is a complete install command yields one pair, in "base". */
  lemma SingleLine(line: string, words: seq<string>)
    requires Args(line) == words && !Continues(line)
    requires Classify(words) == Ok(Install(words[1..]))
    ensures CondaSpecs([line]) == Ok([Pair("base", words[1..])])
  {
    InstallEmits(Start, line);
    ScanOne(Start, line);
    var next := Step(Start, line).value;
    assert ScanLines(Start, [line]) == Ok(next);
    assert Start.pairs == [] && Start.env == "base";
    assert next.pairs == [Pair("base", words[1..])];
  }

  /** Scanning one line is one step. */
  lemma ScanOne(st: ScanState, line: string)
    requires Step(st, line).Ok?
    ensures ScanLines(st, [line]) == Step(st, line)
  {
    ScanOk(st, [line], Step(st, line).value);
    assert [line][1..] == [];
  }

  /** A Dockerfile of one plain install line, written as its words, yields one pair in "base". */
  lemma SingleInstall(words: seq<string>)
    requires |words| >= 1 && forall i :: 0 <= i < |words| ==> Word(words[i]) && '#' !in words[i]
    requires var w := words[|words| - 1]; w != [] && w[|w| - 1] != '\\'
    requires Classify(words) == Ok(Install(words[1..]))
    ensures CondaSpecs([Join(words)]) == Ok([Pair("base", words[1..])])
  {
    PlainLine(words);
    SingleLine(Join(words), words);
  }

  /** The example line yields the pair ("base", its tokens after RUN). */
  lemma WorkedLine(words: seq<string>)
    requires words == ["RUN", "conda", "install", "-n", "base", "numpy=1.0", "scipy"]
    ensures CondaSpecs([Join(words)]) == Ok([Pair("base", words[1..])])
  {
    WorkedWords(words);
    SingleInstall(words);
  }

  /** The text before the first `c` ends where `c` first occurs. */
  lemma {:induction false} BeforeAt(s: string, c: char, i: nat)
    requires i < |s| && s[i] == c && c !in s[..i]
    ensures Before(s, c) == s[..i]
    decreases i
  {
    if i > 0 {
      assert s[0] in s[..i];
      assert s[1..][..i - 1] == s[1..i];
      assert forall x :: x in s[1..i] ==> x in s[..i];
      BeforeAt(s[1..], c, i - 1);
    }
  }

  /** Splitting on a separator that does not occur gives the whole string. */
  lemma SplitOnAbsent(s: string, c: char)
    requires c !in s
    ensures SplitOn(s, c) == [s]
  {
  }

  /** "numpy=1.0" names numpy at version 1.0. */
  lemma NumpyToken()
    ensures PkgName("numpy=1.0") == "numpy" && PkgVersion("numpy=1.0") == Some("1.0")
  {
    var s := "numpy=1.0";
    TrimUntouched(s, Quotes);
    NumpySplit();
  }

  /** "numpy=1.0" splits at its one '='. */
  lemma NumpySplit()
    ensures SplitOn("numpy=1.0", '=') == ["numpy", "1.0"]
  {
    var s := "numpy=1.0";
    assert s[5] == '=' && s[..5] == "numpy";
    assert '=' !in s[..5];
    BeforeAt(s, '=', 5);
    SplitOnFound(s, '=');
    assert s[6..] == "1.0";
    SplitOnAbsent("1.0", '=');
  }

  /** "scipy" names scipy with no version. */
  lemma ScipyToken()
    ensures PkgName("scipy") == "scipy" && PkgVersion("scipy") == None
  {
    TrimUntouched("scipy", Quotes);
    SplitOnAbsent("scipy", '=');
  }

  /** Which tokens of the example the chaff filter drops. */
  lemma KeptTokens()
    ensures Lower("-n") !in CC.Chaff && Lower("base") !in CC.Chaff
    ensures Lower("numpy=1.0") !in CC.Chaff && Lower("scipy") !in CC.Chaff
    ensures Lower("conda") in CC.Chaff && Lower("install") in CC.Chaff
  {
    LowerKeeps("-n");
    LowerKeeps("base");
    LowerKeeps("numpy=1.0");
    LowerKeeps("scipy");
    LowerKeeps("conda");
    LowerKeeps("install");
  }

  /** The chaff filter drops "conda install" and keeps the rest of the example. */
  lemma WorkedInstallArgs(chaff: seq<string>, kept: seq<string>)
    requires chaff == ["conda", "install"] && kept == ["-n", "base", "numpy=1.0", "scipy"]
    ensures CC.InstallArgs(chaff + kept) == kept
  {
    KeptTokens();
    assert forall i :: 0 <= i < |kept| ==> Lower(kept[i]) !in CC.Chaff;
    assert forall i :: 0 <= i < |chaff| ==> Lower(chaff[i]) in CC.Chaff;
    SplitInstallArgs(chaff, kept);
  }

  /** Chaff followed by kept tokens filters to the kept tokens. */
  lemma SplitInstallArgs(chaff: seq<string>, kept: seq<string>)
    requires forall i :: 0 <= i < |kept| ==> Lower(kept[i]) !in CC.Chaff
    requires forall i :: 0 <= i < |chaff| ==> Lower(chaff[i]) in CC.Chaff
    ensures CC.InstallArgs(chaff + kept) == kept
  {
    CC.InstallArgsAppend(chaff, kept);
    CC.InstallArgsKeeps(kept);
    CC.InstallArgsDrops(chaff);
  }

  /** The example's tokens parse to name "base", channel "defaults" and the two packages in order. */
  lemma WorkedParse(args: seq<string>)
    requires args == ["conda", "install", "-n", "base", "numpy=1.0", "scipy"]
    ensures ParseCommand("base", args)
         == Ok(Spec(Dict(Table([Entry("numpy", Some("1.0")), Entry("scipy", None)]),
                         map["name" := "base", "channel" := "defaults"])))
  {
    var chaff := ["conda", "install"];
    var toks := ["-n", "base", "numpy=1.0", "scipy"];
    assert args == chaff + toks;
    WorkedInstallArgs(chaff, toks);
    TrimUntouched("conda", Whitespace);
    LowerKeeps("conda");
    var d := Dict(Table([Entry("numpy", Some("1.0")), Entry("scipy", None)]), map["name" := "base"]);
    WorkedFill(toks, d);
    FilledSpec("base", args);
    assert "channel" !in d.options;
  }

  /** The token loop on the example: `-n base` sets the name, then the two packages are added. */
  lemma WorkedFill(toks: seq<string>, d: Dict)
    requires toks == ["-n", "base", "numpy=1.0", "scipy"]
    requires d == Dict(Table([Entry("numpy", Some("1.0")), Entry("scipy", None)]), map["name" := "base"])
    ensures Fill(Dict(Table([]), map[]), toks) == Ok(d)
  {
    ShortFlagsExpand();
    var d1 := Dict(Table([]), map["name" := "base"]);
    assert Fill(Dict(Table([]), map[]), toks) == Fill(d1, toks[2..]);
    WorkedPackages(toks[2..], d1, d);
  }

  /** The two package tokens of the example fill the table in order. */
  lemma WorkedPackages(toks: seq<string>, d1: Dict, d: Dict)
    requires toks == ["numpy=1.0", "scipy"]
    requires d1 == Dict(Table([]), map["name" := "base"])
    requires d == Dict(Table([Entry("numpy", Some("1.0")), Entry("scipy", None)]), map["name" := "base"])
    ensures Fill(d1, toks) == Ok(d)
  {
    NumpyToken();
    ScipyToken();
    TwoPackages(d1, toks, Entry("numpy", Some("1.0")), Entry("scipy", None));
  }

  /** Two package tokens with different names give a table of two entries, in order. */
  lemma TwoPackages(d: Dict, toks: seq<string>, e1: Entry, e2: Entry)
    requires d.packages == Table([]) && |toks| == 2 && !CC.IsFlag(toks[0]) && !CC.IsFlag(toks[1])
    requires PkgName(toks[0]) == e1.name && PkgVersion(toks[0]) == e1.version
    requires PkgName(toks[1]) == e2.name && PkgVersion(toks[1]) == e2.version
    requires e1.name != e2.name
    ensures Fill(d, toks) == Ok(d.(packages := Table([e1, e2])))
  {
    assert Put([], e1) == [e1];
    FillPackage(d, toks, e1);
    var d2 := d.(packages := Table([e1]));
    assert Put([e1], e2) == [e1, e2];
    FillPackage(d2, toks[1..], e2);
    assert toks[1..][1..] == [];
  }

  /** A package token adds its entry to the table and the loop goes on. */
  lemma FillPackage(d: Dict, toks: seq<string>, e: Entry)
    requires toks != [] && !CC.IsFlag(toks[0]) && d.packages.Table?
    requires PkgName(toks[0]) == e.name && PkgVersion(toks[0]) == e.version
    ensures Fill(d, toks) == Fill(d.(packages := Table(Put(d.packages.entries, e))), toks[1..])
  {
  }

  /** The example from both ends: the line yields one pair in "base", and its tokens parse to the expected spec. */
  lemma WorkedCase(words: seq<string>)
    requires words == ["RUN", "conda", "install", "-n", "base", "numpy=1.0", "scipy"]
    ensures CondaSpecs([Join(words)]) == Ok([Pair("base", words[1..])])
    ensures ParseCommand("base", words[1..])
         == Ok(Spec(Dict(Table([Entry("numpy", Some("1.0")), Entry("scipy", None)]),
                         map["name" := "base", "channel" := "defaults"])))
  {
    WorkedLine(words);
    WorkedParse(words[1..]);
  }
}
