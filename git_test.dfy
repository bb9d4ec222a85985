/**
 * The behaviour the plugin's test suite asserts, one lemma per test, with
 * the suite's own log lines and settings. Each test starts from the default
 * settings and changes only the patterns it names.
 */
module GitTest {
  import opened Wrappers
  import opened Patterns
  import opened Sequences
  import opened Config
  import opened Git

  /** The commit subject `[key]text`: a bracketed tag followed by the rest of the line. */
  function Tagged(key: string, text: string): string {
    "[" + key + "]" + text
  }

  /** `[TECH] Fake Tech Commit One`, `[CER-8] Fake Commit One`, … */
  const MockPopulatedLogLines: seq<string> := [
    Tagged("TECH", " Fake Tech Commit One"),
    Tagged("CER-8", " Fake Commit One"),
    Tagged("CER-9", " Fake Commit Two"),
    Tagged("TECH", " Fake Tech Commit Two"),
    Tagged("CER-10", " Fake Commit Three")
  ]

  const MockExpectedThreeTickets: seq<string> := ["CER-8", "CER-9", "CER-10"]

  const MockExpectedNoteworthyChanges: seq<string> :=
    [Tagged("TECH", " Fake Tech Commit One"), Tagged("TECH", " Fake Tech Commit Two")]

  /** The ignore pattern of the exclusion tests, `^#.*`. */
  const HashIgnore: string := "^" + "#" + ".*"

  /** The passthrough pattern of the inclusion tests, `.*TECH.*`. */
  const TechPassthrough: string := ".*" + "TECH" + ".*"

  // ---------------------------------------------------------------------
  // The suite's texts, spelled out
  // ---------------------------------------------------------------------

  lemma HashIgnoreSpelled() ensures HashIgnore == "^#.*" {}

  lemma TechPassthroughSpelled() ensures TechPassthrough == ".*TECH.*" {}

  lemma TechOneSpelled() ensures MockPopulatedLogLines[0] == "[TECH] Fake Tech Commit One" {}

  lemma Cer8OneSpelled() ensures MockPopulatedLogLines[1] == "[CER-8] Fake Commit One" {}

  lemma Cer9TwoSpelled() ensures MockPopulatedLogLines[2] == "[CER-9] Fake Commit Two" {}

  lemma TechTwoSpelled() ensures MockPopulatedLogLines[3] == "[TECH] Fake Tech Commit Two" {}

  lemma Cer10ThreeSpelled() ensures MockPopulatedLogLines[4] == "[CER-10] Fake Commit Three" {}

  lemma NoteworthySpelled()
    ensures MockExpectedNoteworthyChanges == [MockPopulatedLogLines[0], MockPopulatedLogLines[3]]
  {
  }

  lemma CompoundSpelled() ensures Tagged("CER-8", Tagged("CER-9", " Fake Commit One")) == "[CER-8][CER-9] Fake Commit One" {}

  lemma HashCer8Spelled() ensures "#" + Tagged("CER-8", " Fake Commit One") == "#[CER-8] Fake Commit One" {}

  lemma HashTechSpelled() ensures "#" + Tagged("TECH", " Fake Commit Two") == "#[TECH] Fake Commit Two" {}

  // ---------------------------------------------------------------------
  // Steps shared by the tests
  // ---------------------------------------------------------------------

  lemma DefaultTicketSettings()
    ensures TicketSettings(Default, BracketedKey, None)
  {
  }

  lemma HashIgnoreCompiles()
    ensures Resolve(Some(HashIgnore)) == Ok(Some(Prefix("#")))
  {
    assert WellFormed(Prefix("#"));
    assert Render(Prefix("#")) == HashIgnore;
    ResolveRender(Prefix("#"));
  }

  lemma TechIsLiteral()
    ensures IsLiteral("TECH")
  {
    assert "TECH" == ['T', 'E', 'C', 'H'];
  }

  lemma TechPassthroughCompiles()
    ensures Resolve(Some(TechPassthrough)) == Ok(Some(Infix("TECH")))
  {
    TechIsLiteral();
    ResolveRender(Infix("TECH"));
  }

  lemma KeyAt(key: string, j: int)
    requires SplitsAt(key, j)
    ensures IsTicketKey(key)
  {
  }

  /** A line with one leading tag and no other hyphen yields exactly that key. */
  lemma TaggedLine(key: string, text: string)
    requires IsTicketKey(key) && '-' !in text
    ensures Captures(BracketedKey, Tagged(key, text)) == [key]
  {
    CapturesLeadingTag(key, text);
    CapturesWithoutHyphen(text);
  }

  /** A line with two leading tags and no other hyphen yields both keys, left to right. */
  lemma TwoTagLine(k1: string, k2: string, text: string)
    requires IsTicketKey(k1) && IsTicketKey(k2) && '-' !in text
    ensures Captures(BracketedKey, Tagged(k1, Tagged(k2, text))) == [k1, k2]
  {
    CapturesLeadingTag(k1, Tagged(k2, text));
    TaggedLine(k2, text);
  }

  /** A `[TECH]` line holds the text the inclusion pattern looks for. */
  lemma TechLine(text: string)
    ensures Matches(Infix("TECH"), Tagged("TECH", text))
  {
    var line := Tagged("TECH", text);
    assert line[1..5] == "TECH";
    OccursContains(line, "TECH", 1);
  }

  /** A line without an `H` cannot hold `TECH`. */
  lemma NonTechLine(key: string, text: string)
    requires 'H' !in key && 'H' !in text
    ensures !Matches(Infix("TECH"), Tagged(key, text))
  {
    MissingCharNotContained(Tagged(key, text), "TECH", 'H');
  }

  lemma AllCapturesCons(line: string, rest: seq<string>)
    ensures AllCaptures([line] + rest, BracketedKey) == Captures(BracketedKey, line) + AllCaptures(rest, BracketedKey)
  {
    assert ([line] + rest)[0] == line && ([line] + rest)[1..] == rest;
  }

  lemma KeepCons(line: string, rest: seq<string>, p: Pattern, found: bool)
    ensures Keep([line] + rest, p, found) == (if Matches(p, line) == found then [line] else []) + Keep(rest, p, found)
  {
    assert ([line] + rest)[0] == line && ([line] + rest)[1..] == rest;
  }

  lemma TwoLineCaptures(l0: string, l1: string, c0: seq<string>, c1: seq<string>)
    requires Captures(BracketedKey, l0) == c0 && Captures(BracketedKey, l1) == c1
    ensures AllCaptures([l0, l1], BracketedKey) == c0 + c1
  {
    assert [l0, l1] == [l0] + ([l1] + []);
    AllCapturesCons(l1, []);
    AllCapturesCons(l0, [l1] + []);
  }

  lemma FiveLineCaptures(l0: string, l1: string, l2: string, l3: string, l4: string,
                         c0: seq<string>, c1: seq<string>, c2: seq<string>, c3: seq<string>, c4: seq<string>)
    requires Captures(BracketedKey, l0) == c0 && Captures(BracketedKey, l1) == c1
    requires Captures(BracketedKey, l2) == c2 && Captures(BracketedKey, l3) == c3
    requires Captures(BracketedKey, l4) == c4
    ensures AllCaptures([l0, l1, l2, l3, l4], BracketedKey) == c0 + c1 + c2 + c3 + c4
  {
    var t4 := [l4] + [];
    var t3 := [l3] + t4;
    var t2 := [l2] + t3;
    var t1 := [l1] + t2;
    assert [l0, l1, l2, l3, l4] == [l0] + t1;
    AllCapturesCons(l4, []);
    AllCapturesCons(l3, t4);
    AllCapturesCons(l2, t3);
    AllCapturesCons(l1, t2);
    AllCapturesCons(l0, t1);
    assert c0 + (c1 + (c2 + (c3 + c4))) == c0 + c1 + c2 + c3 + c4;
  }

  /** With the default settings the tickets are the captures of every line, when those are distinct. */
  lemma DefaultTickets(log: seq<string>, caps: seq<string>)
    requires AllCaptures(log, BracketedKey) == caps && NoDuplicates(caps)
    ensures GetTicketsFromCommitHistory(log, Default) == Ok(caps)
  {
    DefaultTicketSettings();
    TicketsUnder(log, Default, BracketedKey, None);
    assert IgnoreFilter(log, None) == log;
    DedupOfDistinct(caps);
  }

  /** With an ignore pattern the tickets are the captures of the lines it leaves, when those are distinct. */
  lemma IgnoringTickets(log: seq<string>, kept: seq<string>, caps: seq<string>, cfg: Config, ignore: Pattern)
    requires TicketSettings(cfg, BracketedKey, Some(ignore))
    requires IgnoreFilter(log, Some(ignore)) == kept
    requires AllCaptures(kept, BracketedKey) == caps && NoDuplicates(caps)
    ensures GetTicketsFromCommitHistory(log, cfg) == Ok(caps)
  {
    TicketsUnder(log, cfg, BracketedKey, Some(ignore));
    DedupOfDistinct(caps);
  }

  lemma HashLineStart(text: string)
    ensures |"#" + text| > 0 && ("#" + text)[0] == '#'
  {
  }

  lemma TaggedLineStart(key: string, text: string)
    ensures |Tagged(key, text)| > 0 && Tagged(key, text)[0] == '['
  {
  }

  lemma Cer10Cer11Distinct()
    ensures ["CER-10"] + ["CER-11"] == ["CER-10", "CER-11"] && NoDuplicates(["CER-10", "CER-11"])
  {
    assert "CER-10"[5] != "CER-11"[5];
  }

  /** With the ignore pattern `^#.*`, two leading `#` lines are dropped and the other two kept. */
  lemma HashLinesIgnored(l0: string, l1: string, l2: string, l3: string)
    requires |l0| > 0 && l0[0] == '#' && |l1| > 0 && l1[0] == '#'
    requires |l2| > 0 && l2[0] != '#' && |l3| > 0 && l3[0] != '#'
    ensures IgnoreFilter([l0, l1, l2, l3], Some(Prefix("#"))) == [l2, l3]
  {
    var hash := Prefix("#");
    assert [l0, l1, l2, l3] == [l0] + ([l1] + ([l2] + ([l3] + [])));
    assert l0[..1] == "#" && l1[..1] == "#" && l2[..1] != "#" && l3[..1] != "#";
    KeepCons(l3, [], hash, false);
    KeepCons(l2, [l3] + [], hash, false);
    KeepCons(l1, [l2] + ([l3] + []), hash, false);
    KeepCons(l0, [l1] + ([l2] + ([l3] + [])), hash, false);
  }

  // ---------------------------------------------------------------------
  // What the patterns find in the lines of the suite
  // ---------------------------------------------------------------------

  lemma FakeCommitOneUntagged() ensures Captures(BracketedKey, "Fake Commit One") == [] {
    CapturesWithoutHyphen("Fake Commit One");
  }

  lemma FakeCommitTwoUntagged() ensures Captures(BracketedKey, "Fake Commit Two") == [] {
    CapturesWithoutHyphen("Fake Commit Two");
  }

  lemma TechUntagged(text: string)
    requires '-' !in text
    ensures Captures(BracketedKey, Tagged("TECH", text)) == []
  {
    CapturesWithoutHyphen(Tagged("TECH", text));
  }

  lemma TechOneUntagged() ensures Captures(BracketedKey, Tagged("TECH", " Fake Tech Commit One")) == [] {
    TechUntagged(" Fake Tech Commit One");
  }

  lemma TechTwoUntagged() ensures Captures(BracketedKey, Tagged("TECH", " Fake Tech Commit Two")) == [] {
    TechUntagged(" Fake Tech Commit Two");
  }

  lemma Cer8FakeOne() ensures Captures(BracketedKey, Tagged("CER-8", " Fake Commit One")) == ["CER-8"] {
    KeyAt("CER-8", 3);
    TaggedLine("CER-8", " Fake Commit One");
  }

  lemma Cer9FakeTwo() ensures Captures(BracketedKey, Tagged("CER-9", " Fake Commit Two")) == ["CER-9"] {
    KeyAt("CER-9", 3);
    TaggedLine("CER-9", " Fake Commit Two");
  }

  lemma Cer10FakeThree() ensures Captures(BracketedKey, Tagged("CER-10", " Fake Commit Three")) == ["CER-10"] {
    KeyAt("CER-10", 3);
    TaggedLine("CER-10", " Fake Commit Three");
  }

  lemma Cer10FakeTwo() ensures Captures(BracketedKey, Tagged("CER-10", " Fake Commit Two")) == ["CER-10"] {
    KeyAt("CER-10", 3);
    TaggedLine("CER-10", " Fake Commit Two");
  }

  lemma Cer8CommitThree() ensures Captures(BracketedKey, Tagged("CER-8", " Commit Three")) == ["CER-8"] {
    KeyAt("CER-8", 3);
    TaggedLine("CER-8", " Commit Three");
  }

  lemma Cer11FakeFour() ensures Captures(BracketedKey, Tagged("CER-11", " Fake Commit Four")) == ["CER-11"] {
    KeyAt("CER-11", 3);
    TaggedLine("CER-11", " Fake Commit Four");
  }

  lemma CompoundFakeOne() ensures Captures(BracketedKey, Tagged("CER-8", Tagged("CER-9", " Fake Commit One"))) == ["CER-8", "CER-9"] {
    KeyAt("CER-8", 3);
    KeyAt("CER-9", 3);
    TwoTagLine("CER-8", "CER-9", " Fake Commit One");
  }

  lemma TechFakeTechOne() ensures Matches(Infix("TECH"), Tagged("TECH", " Fake Tech Commit One")) {
    TechLine(" Fake Tech Commit One");
  }

  lemma TechFakeTechTwo() ensures Matches(Infix("TECH"), Tagged("TECH", " Fake Tech Commit Two")) {
    TechLine(" Fake Tech Commit Two");
  }

  lemma TechFakeThree() ensures Matches(Infix("TECH"), Tagged("TECH", " Fake Commit Three")) {
    TechLine(" Fake Commit Three");
  }

  lemma NotTechCer8FakeOne() ensures !Matches(Infix("TECH"), Tagged("CER-8", " Fake Commit One")) {
    NonTechLine("CER-8", " Fake Commit One");
  }

  lemma NotTechCer9FakeTwo() ensures !Matches(Infix("TECH"), Tagged("CER-9", " Fake Commit Two")) {
    NonTechLine("CER-9", " Fake Commit Two");
  }

  lemma NotTechCer10FakeThree() ensures !Matches(Infix("TECH"), Tagged("CER-10", " Fake Commit Three")) {
    NonTechLine("CER-10", " Fake Commit Three");
  }

  lemma NotTechCer9FakeFour() ensures !Matches(Infix("TECH"), Tagged("CER-9", " Fake Commit Four")) {
    NonTechLine("CER-9", " Fake Commit Four");
  }

  // ---------------------------------------------------------------------
  // The pipelines over lines with known captures and matches
  // ---------------------------------------------------------------------

  lemma ThreeTicketsOfFiveLines(l0: string, l1: string, l2: string, l3: string, l4: string)
    requires Captures(BracketedKey, l0) == [] && Captures(BracketedKey, l1) == ["CER-8"]
    requires Captures(BracketedKey, l2) == ["CER-9"] && Captures(BracketedKey, l3) == []
    requires Captures(BracketedKey, l4) == ["CER-10"]
    ensures GetTicketsFromCommitHistory([l0, l1, l2, l3, l4], Default) == Ok(MockExpectedThreeTickets)
  {
    FiveLineCaptures(l0, l1, l2, l3, l4, [], ["CER-8"], ["CER-9"], [], ["CER-10"]);
    assert [] + ["CER-8"] + ["CER-9"] + [] + ["CER-10"] == MockExpectedThreeTickets;
    DefaultTickets([l0, l1, l2, l3, l4], MockExpectedThreeTickets);
  }

  lemma CompoundTicketsOfTwoLines(l0: string, l1: string)
    requires Captures(BracketedKey, l0) == ["CER-8", "CER-9"] && Captures(BracketedKey, l1) == ["CER-10"]
    ensures GetTicketsFromCommitHistory([l0, l1], Default) == Ok(["CER-8", "CER-9", "CER-10"])
  {
    TwoLineCaptures(l0, l1, ["CER-8", "CER-9"], ["CER-10"]);
    assert ["CER-8", "CER-9"] + ["CER-10"] == ["CER-8", "CER-9", "CER-10"];
    DefaultTickets([l0, l1], ["CER-8", "CER-9", "CER-10"]);
  }

  lemma TicketsOfTwoLines(l0: string, l1: string, c0: seq<string>, c1: seq<string>)
    requires Captures(BracketedKey, l0) == c0 && Captures(BracketedKey, l1) == c1
    requires NoDuplicates(c0 + c1)
    ensures GetTicketsFromCommitHistory([l0, l1], Default) == Ok(c0 + c1)
  {
    TwoLineCaptures(l0, l1, c0, c1);
    DefaultTickets([l0, l1], c0 + c1);
  }

  lemma TicketsOfThreeLines(l0: string, l1: string, l2: string, c2: seq<string>)
    requires Captures(BracketedKey, l0) == [] && Captures(BracketedKey, l1) == []
    requires Captures(BracketedKey, l2) == c2 && NoDuplicates(c2)
    ensures GetTicketsFromCommitHistory([l0, l1, l2], Default) == Ok(c2)
  {
    TwoLineCaptures(l1, l2, [], c2);
    assert [l0, l1, l2] == [l0] + [l1, l2];
    AllCapturesCons(l0, [l1, l2]);
    DefaultTickets([l0, l1, l2], c2);
  }

  lemma TicketsIgnoringHashLines(l0: string, l1: string, l2: string, l3: string, c2: seq<string>, c3: seq<string>)
    requires |l0| > 0 && l0[0] == '#' && |l1| > 0 && l1[0] == '#'
    requires |l2| > 0 && l2[0] != '#' && |l3| > 0 && l3[0] != '#'
    requires Captures(BracketedKey, l2) == c2 && Captures(BracketedKey, l3) == c3
    requires NoDuplicates(c2 + c3)
    ensures GetTicketsFromCommitHistory([l0, l1, l2, l3], Default.(commitIgnorePattern := Some(HashIgnore))) == Ok(c2 + c3)
  {
    var cfg := Default.(commitIgnorePattern := Some(HashIgnore));
    HashIgnoreCompiles();
    assert TicketSettings(cfg, BracketedKey, Some(Prefix("#")));
    HashLinesIgnored(l0, l1, l2, l3);
    TwoLineCaptures(l2, l3, c2, c3);
    IgnoringTickets([l0, l1, l2, l3], [l2, l3], c2 + c3, cfg, Prefix("#"));
  }

  lemma KeepFirstAndFourth(l0: string, l1: string, l2: string, l3: string, l4: string, p: Pattern)
    requires Matches(p, l0) && !Matches(p, l1) && !Matches(p, l2) && Matches(p, l3) && !Matches(p, l4)
    ensures Keep([l0, l1, l2, l3, l4], p, true) == [l0, l3]
  {
    var t4 := [l4] + [];
    var t3 := [l3] + t4;
    var t2 := [l2] + t3;
    var t1 := [l1] + t2;
    assert [l0, l1, l2, l3, l4] == [l0] + t1;
    KeepCons(l4, [], p, true);
    KeepCons(l3, t4, p, true);
    KeepCons(l2, t3, p, true);
    KeepCons(l1, t2, p, true);
    KeepCons(l0, t1, p, true);
  }

  lemma KeepFirstOfTwo(l0: string, l1: string, p: Pattern)
    requires Matches(p, l0) && !Matches(p, l1)
    ensures Keep([l0, l1], p, true) == [l0]
  {
    assert [l0, l1] == [l0] + ([l1] + []);
    KeepCons(l1, [], p, true);
    KeepCons(l0, [l1] + [], p, true);
  }

  lemma PassthroughOfFiveLines(l0: string, l1: string, l2: string, l3: string, l4: string, cfg: Config, p: Pattern)
    requires PassthroughSettings(cfg, p, None)
    requires Matches(p, l0) && !Matches(p, l1) && !Matches(p, l2) && Matches(p, l3) && !Matches(p, l4)
    ensures GetPassthroughChangesFromCommitHistory([l0, l1, l2, l3, l4], cfg) == Ok([l0, l3])
  {
    var log := [l0, l1, l2, l3, l4];
    PassthroughUnder(log, cfg, p, None);
    assert IgnoreFilter(log, None) == log;
    KeepFirstAndFourth(l0, l1, l2, l3, l4, p);
  }

  lemma PassthroughIgnoringHashLines(l0: string, l1: string, l2: string, l3: string, cfg: Config, p: Pattern)
    requires PassthroughSettings(cfg, p, Some(Prefix("#")))
    requires |l0| > 0 && l0[0] == '#' && |l1| > 0 && l1[0] == '#'
    requires |l2| > 0 && l2[0] != '#' && |l3| > 0 && l3[0] != '#'
    requires Matches(p, l2) && !Matches(p, l3)
    ensures GetPassthroughChangesFromCommitHistory([l0, l1, l2, l3], cfg) == Ok([l2])
  {
    PassthroughUnder([l0, l1, l2, l3], cfg, p, Some(Prefix("#")));
    HashLinesIgnored(l0, l1, l2, l3);
    KeepFirstOfTwo(l2, l3, p);
  }

  // ---------------------------------------------------------------------
  // Ticket extraction
  // ---------------------------------------------------------------------

  lemma EmptyGitLog()
    ensures GetTicketsFromCommitHistory([], Default) == Ok([])
  {
    DefaultTicketSettings();
    TicketsOfEmptyLog(Default, BracketedKey, None);
  }

  lemma NullTicketRegex()
    ensures GetTicketsFromCommitHistory(MockPopulatedLogLines, Default.(ticketExtractionPattern := None)) == Ok([])
  {
  }

  lemma InvalidTicketRegex()
    ensures GetTicketsFromCommitHistory(MockPopulatedLogLines, Default.(ticketExtractionPattern := Some(""))) == Ok([])
  {
  }

  lemma StandardThreeTicketExtraction()
    ensures GetTicketsFromCommitHistory(MockPopulatedLogLines, Default) == Ok(MockExpectedThreeTickets)
  {
    var lines := MockPopulatedLogLines;
    TechOneUntagged();
    Cer8FakeOne();
    Cer9FakeTwo();
    TechTwoUntagged();
    Cer10FakeThree();
    ThreeTicketsOfFiveLines(lines[0], lines[1], lines[2], lines[3], lines[4]);
    assert lines == [lines[0], lines[1], lines[2], lines[3], lines[4]];
  }

  lemma CompoundThreeTicketExtraction()
    ensures GetTicketsFromCommitHistory([Tagged("CER-8", Tagged("CER-9", " Fake Commit One")), Tagged("CER-10", " Fake Commit Two")], Default)
         == Ok(["CER-8", "CER-9", "CER-10"])
  {
    CompoundFakeOne();
    Cer10FakeTwo();
    CompoundTicketsOfTwoLines(Tagged("CER-8", Tagged("CER-9", " Fake Commit One")), Tagged("CER-10", " Fake Commit Two"));
  }

  lemma ZeroTicketExtraction()
    ensures GetTicketsFromCommitHistory(["Fake Commit One", "Fake Commit Two"], Default) == Ok([])
  {
    FakeCommitOneUntagged();
    FakeCommitTwoUntagged();
    TicketsOfTwoLines("Fake Commit One", "Fake Commit Two", [], []);
  }

  lemma SomeTicketExtraction()
    ensures GetTicketsFromCommitHistory(["Fake Commit One", "Fake Commit Two", Tagged("CER-8", " Commit Three")], Default)
         == Ok(["CER-8"])
  {
    FakeCommitOneUntagged();
    FakeCommitTwoUntagged();
    Cer8CommitThree();
    TicketsOfThreeLines("Fake Commit One", "Fake Commit Two", Tagged("CER-8", " Commit Three"), ["CER-8"]);
  }

  lemma CommitExclusionFilter()
    ensures GetTicketsFromCommitHistory(
              ["#" + Tagged("CER-8", " Fake Commit One"), "#" + Tagged("CER-9", " Fake Commit Two"),
               Tagged("CER-10", " Fake Commit Three"), Tagged("CER-11", " Fake Commit Four")],
              Default.(commitIgnorePattern := Some(HashIgnore)))
         == Ok(["CER-10", "CER-11"])
  {
    Cer10FakeThree();
    Cer11FakeFour();
    Cer10Cer11Distinct();
    HashLineStart(Tagged("CER-8", " Fake Commit One"));
    HashLineStart(Tagged("CER-9", " Fake Commit Two"));
    TaggedLineStart("CER-10", " Fake Commit Three");
    TaggedLineStart("CER-11", " Fake Commit Four");
    TicketsIgnoringHashLines("#" + Tagged("CER-8", " Fake Commit One"), "#" + Tagged("CER-9", " Fake Commit Two"),
      Tagged("CER-10", " Fake Commit Three"), Tagged("CER-11", " Fake Commit Four"), ["CER-10"], ["CER-11"]);
  }

  // ---------------------------------------------------------------------
  // Noteworthy commit extraction
  // ---------------------------------------------------------------------

  lemma EmptyInclusionRegex()
    ensures GetPassthroughChangesFromCommitHistory(MockPopulatedLogLines, Default.(commitPassthroughPattern := Some(""))) == Ok([])
  {
  }

  lemma NullInclusionRegex()
    ensures GetPassthroughChangesFromCommitHistory(MockPopulatedLogLines, Default.(commitPassthroughPattern := None)) == Ok([])
  {
  }

  lemma CommitInclusionFilter()
    ensures GetPassthroughChangesFromCommitHistory(MockPopulatedLogLines, Default.(commitPassthroughPattern := Some(TechPassthrough)))
         == Ok(MockExpectedNoteworthyChanges)
  {
    var lines := MockPopulatedLogLines;
    var cfg := Default.(commitPassthroughPattern := Some(TechPassthrough));
    TechPassthroughCompiles();
    assert PassthroughSettings(cfg, Infix("TECH"), None);
    TechFakeTechOne();
    NotTechCer8FakeOne();
    NotTechCer9FakeTwo();
    TechFakeTechTwo();
    NotTechCer10FakeThree();
    PassthroughOfFiveLines(lines[0], lines[1], lines[2], lines[3], lines[4], cfg, Infix("TECH"));
    assert lines == [lines[0], lines[1], lines[2], lines[3], lines[4]];
  }

  lemma CommitInclusionAndExclusionFilter()
    ensures GetPassthroughChangesFromCommitHistory(
              ["#" + Tagged("CER-8", " Fake Commit One"), "#" + Tagged("TECH", " Fake Commit Two"),
               Tagged("TECH", " Fake Commit Three"), Tagged("CER-9", " Fake Commit Four")],
              Default.(commitPassthroughPattern := Some(TechPassthrough), commitIgnorePattern := Some(HashIgnore)))
         == Ok([Tagged("TECH", " Fake Commit Three")])
  {
    var cfg := Default.(commitPassthroughPattern := Some(TechPassthrough), commitIgnorePattern := Some(HashIgnore));
    TechPassthroughCompiles();
    HashIgnoreCompiles();
    assert PassthroughSettings(cfg, Infix("TECH"), Some(Prefix("#")));
    TechFakeThree();
    NotTechCer9FakeFour();
    PassthroughIgnoringHashLines("#" + Tagged("CER-8", " Fake Commit One"), "#" + Tagged("TECH", " Fake Commit Two"),
      Tagged("TECH", " Fake Commit Three"), Tagged("CER-9", " Fake Commit Four"), cfg, Infix("TECH"));
  }
}
