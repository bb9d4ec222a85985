/**
 * The commit-log classification engine: the ignore filter, ticket extraction
 * and passthrough extraction, and the two pipelines built from them. The log
 * provider is replaced by the log lines it would return, and the settings by
 * an explicit `Config` value.
 */
module Git {
  import opened Wrappers
  import opened Patterns
  import opened Sequences
  import opened Config

  /** The ignore pattern is set and found in the line. */
  predicate Ignored(ignore: Option<Pattern>, line: string) {
    ignore.Some? && Matches(ignore.value, line)
  }

  /** The test a line passes when p is found in it (found == true) or not found in it (found == false). */
  function Selects(p: Pattern, found: bool): string -> bool {
    l => Matches(p, l) == found
  }

  /** The lines in which p is found (found == true) or not found (found == false), in order. */
  function Keep(lines: seq<string>, p: Pattern, found: bool): (r: seq<string>)
    ensures forall l :: l in r <==> l in lines && Matches(p, l) == found
  {
    FilterMembers(lines, Selects(p, found));
    Filter(lines, Selects(p, found))
  }

  /** Removes the lines the ignore pattern is found in; without one, passes every line. */
  function IgnoreFilter(lines: seq<string>, ignore: Option<Pattern>): (r: seq<string>)
    ensures forall l :: l in r <==> l in lines && !Ignored(ignore, l)
  {
    match ignore
    case None => lines
    case Some(p) => Keep(lines, p, false)
  }

  /** Every capture of every line, line by line and left to right within a line. */
  function AllCaptures(lines: seq<string>, p: Pattern): seq<string>
    requires HasGroup(p)
  {
    if lines == [] then [] else Captures(p, lines[0]) + AllCaptures(lines[1..], p)
  }

  /** The distinct ticket identifiers the lines reference, in first-seen order. */
  function ExtractTickets(lines: seq<string>, p: Pattern): (r: seq<string>)
    requires HasGroup(p)
    ensures NoDuplicates(r)
    ensures forall k :: k in r <==> exists l :: l in lines && k in Captures(p, l)
  {
    AllCapturesIff(lines, p);
    Dedup(AllCaptures(lines, p))
  }

  /** The whole lines the passthrough pattern is found in, verbatim and in order. */
  function ExtractPassthrough(lines: seq<string>, p: Pattern): (r: seq<string>)
    ensures forall l :: l in r <==> l in lines && Matches(p, l)
  {
    Keep(lines, p, true)
  }

  /**
   * getTicketsFromCommitHistory: ignore filter, then ticket extraction. A
   * switched-off ticket pattern gives no tickets whatever the rest says.
   */
  function GetTicketsFromCommitHistory(log: seq<string>, cfg: Config): (r: Result<seq<string>, PatternError>)
    ensures Disabled(cfg.ticketExtractionPattern) ==> r == Ok([])
    ensures r.Ok? ==> NoDuplicates(r.value)
  {
    match Resolve(cfg.ticketExtractionPattern)
    case Err(e) => Err(e)
    case Ok(None) => Ok([])
    case Ok(Some(tp)) =>
      if !HasGroup(tp) then Err(NoCaptureGroup(cfg.ticketExtractionPattern.value))
      else match Resolve(cfg.commitIgnorePattern)
        case Err(e) => Err(e)
        case Ok(ignore) => Ok(ExtractTickets(IgnoreFilter(log, ignore), tp))
  }

  /**
   * getPassthroughChangesFromCommitHistory: ignore filter, then passthrough
   * extraction. A switched-off passthrough pattern gives no lines.
   */
  function GetPassthroughChangesFromCommitHistory(log: seq<string>, cfg: Config): (r: Result<seq<string>, PatternError>)
    ensures Disabled(cfg.commitPassthroughPattern) ==> r == Ok([])
  {
    match Resolve(cfg.commitPassthroughPattern)
    case Err(e) => Err(e)
    case Ok(None) => Ok([])
    case Ok(Some(pp)) =>
      match Resolve(cfg.commitIgnorePattern)
      case Err(e) => Err(e)
      case Ok(ignore) => Ok(ExtractPassthrough(IgnoreFilter(log, ignore), pp))
  }

  // ---------------------------------------------------------------------
  // Selecting lines
  // ---------------------------------------------------------------------

  /** Each kept line keeps all its occurrences: nothing is deduplicated. */
  lemma KeepCount(lines: seq<string>, p: Pattern, found: bool, l: string)
    ensures multiset(Keep(lines, p, found))[l] == if Matches(p, l) == found then multiset(lines)[l] else 0
  {
    FilterCount(lines, Selects(p, found), l);
  }

  /** Keeping the found lines and keeping the others splits the input. */
  lemma KeepPartition(lines: seq<string>, p: Pattern)
    ensures multiset(Keep(lines, p, true)) + multiset(Keep(lines, p, false)) == multiset(lines)
  {
    FilterPartition(lines, Selects(p, true), Selects(p, false));
  }

  lemma IgnoreFilterAppend(a: seq<string>, b: seq<string>, ignore: Option<Pattern>)
    ensures IgnoreFilter(a + b, ignore) == IgnoreFilter(a, ignore) + IgnoreFilter(b, ignore)
  {
    if ignore.Some? {
      FilterAppend(a, b, Selects(ignore.value, false));
    }
  }

  lemma IgnoreFilterIsSubsequence(lines: seq<string>, ignore: Option<Pattern>)
    ensures IsSubsequence(IgnoreFilter(lines, ignore), lines)
  {
    match ignore
    case None => SubsequenceReflexive(lines);
    case Some(p) => FilterIsSubsequence(lines, Selects(p, false));
  }

  /** Filtering an already filtered log removes nothing more. */
  lemma IgnoreFilterIdempotent(lines: seq<string>, ignore: Option<Pattern>)
    ensures IgnoreFilter(IgnoreFilter(lines, ignore), ignore) == IgnoreFilter(lines, ignore)
  {
    if ignore.Some? {
      FilterIdempotent(lines, Selects(ignore.value, false));
    }
  }

  // ---------------------------------------------------------------------
  // Captures across lines
  // ---------------------------------------------------------------------

  lemma {:induction false} AllCapturesAppend(a: seq<string>, b: seq<string>, p: Pattern)
    requires HasGroup(p)
    ensures AllCaptures(a + b, p) == AllCaptures(a, p) + AllCaptures(b, p)
  {
    if a == [] {
      assert a + b == b;
    } else {
      assert (a + b)[0] == a[0] && (a + b)[1..] == a[1..] + b;
      AllCapturesAppend(a[1..], b, p);
    }
  }

  /** An identifier is captured from the log exactly when it is captured from one of its lines. */
  lemma {:induction false} AllCapturesIff(lines: seq<string>, p: Pattern)
    requires HasGroup(p)
    ensures forall k :: k in AllCaptures(lines, p) <==> exists l :: l in lines && k in Captures(p, l)
  {
    if lines != [] {
      AllCapturesIff(lines[1..], p);
      assert AllCaptures(lines, p) == Captures(p, lines[0]) + AllCaptures(lines[1..], p);
      forall k | k in AllCaptures(lines, p)
        ensures exists l :: l in lines && k in Captures(p, l)
      {
        if k !in Captures(p, lines[0]) {
          var l :| l in lines[1..] && k in Captures(p, l);
          assert l in lines;
        }
      }
      forall k, l | l in lines && k in Captures(p, l)
        ensures k in AllCaptures(lines, p)
      {
        if l != lines[0] {
          assert l in lines[1..];
        }
      }
    }
  }

  // ---------------------------------------------------------------------
  // The ticket pipeline
  // ---------------------------------------------------------------------

  /** The settings the ticket pipeline compiles, when they compile to a usable ticket pattern. */
  predicate TicketSettings(cfg: Config, tp: Pattern, ignore: Option<Pattern>) {
    Resolve(cfg.ticketExtractionPattern) == Ok(Some(tp)) && HasGroup(tp)
    && Resolve(cfg.commitIgnorePattern) == Ok(ignore)
  }

  lemma TicketsUnder(log: seq<string>, cfg: Config, tp: Pattern, ignore: Option<Pattern>)
    requires TicketSettings(cfg, tp, ignore)
    ensures GetTicketsFromCommitHistory(log, cfg) == Ok(Dedup(AllCaptures(IgnoreFilter(log, ignore), tp)))
  {
  }

  /**
   * A ticket pattern that is set but fails to compile, or lacks group 1, is an
   * error, not an empty result; so is an ignore pattern that is set but fails
   * to compile, which is never treated as "ignore nothing".
   */
  lemma TicketPatternErrors(log: seq<string>, cfg: Config)
    requires !Disabled(cfg.ticketExtractionPattern)
    ensures Compile(cfg.ticketExtractionPattern.value).Err? ==>
      GetTicketsFromCommitHistory(log, cfg) == Err(Unrecognised(cfg.ticketExtractionPattern.value))
    ensures Compile(cfg.ticketExtractionPattern.value).Ok? && !HasGroup(Compile(cfg.ticketExtractionPattern.value).value) ==>
      GetTicketsFromCommitHistory(log, cfg) == Err(NoCaptureGroup(cfg.ticketExtractionPattern.value))
    ensures Compile(cfg.ticketExtractionPattern.value).Ok? && HasGroup(Compile(cfg.ticketExtractionPattern.value).value) &&
            !Disabled(cfg.commitIgnorePattern) && Compile(cfg.commitIgnorePattern.value).Err? ==>
      GetTicketsFromCommitHistory(log, cfg) == Err(Unrecognised(cfg.commitIgnorePattern.value))
  {
  }

  /** An empty log yields no tickets. */
  lemma TicketsOfEmptyLog(cfg: Config, tp: Pattern, ignore: Option<Pattern>)
    requires TicketSettings(cfg, tp, ignore)
    ensures GetTicketsFromCommitHistory([], cfg) == Ok([])
  {
  }

  /**
   * The tickets are exactly the identifiers captured from the lines the
   * ignore pattern leaves, each once.
   */
  lemma TicketsAreCapturesOfKeptLines(log: seq<string>, cfg: Config, tp: Pattern, ignore: Option<Pattern>)
    requires TicketSettings(cfg, tp, ignore)
    ensures GetTicketsFromCommitHistory(log, cfg).Ok?
    ensures NoDuplicates(GetTicketsFromCommitHistory(log, cfg).value)
    ensures forall k :: k in GetTicketsFromCommitHistory(log, cfg).value <==>
      exists l :: l in log && !Ignored(ignore, l) && k in Captures(tp, l)
  {
  }

  /**
   * The tickets are exactly the issue keys tagged in the lines the ignore
   * pattern leaves: a key whose tag stands anywhere in such a line is among
   * them, and no other key is.
   */
  lemma TicketsAreTagsOfKeptLines(log: seq<string>, cfg: Config, tp: Pattern, ignore: Option<Pattern>)
    requires TicketSettings(cfg, tp, ignore)
    ensures GetTicketsFromCommitHistory(log, cfg).Ok?
    ensures forall k :: k in GetTicketsFromCommitHistory(log, cfg).value <==>
      exists l :: l in log && !Ignored(ignore, l) && HasTag(l, k)
  {
    TicketsAreCapturesOfKeptLines(log, cfg, tp, ignore);
    forall l | l in log {
      CapturesExactlyTags(tp, l);
    }
  }

  /**
   * Log order: the tickets of a longer log start with the tickets of its
   * first part, followed by the new identifiers of the rest in first-seen order.
   */
  lemma TicketsInLogOrder(a: seq<string>, b: seq<string>, cfg: Config, tp: Pattern, ignore: Option<Pattern>)
    requires TicketSettings(cfg, tp, ignore)
    ensures GetTicketsFromCommitHistory(a + b, cfg).Ok? && GetTicketsFromCommitHistory(a, cfg).Ok?
    ensures GetTicketsFromCommitHistory(a + b, cfg).value ==
      GetTicketsFromCommitHistory(a, cfg).value
      + DedupAfter(AllCaptures(IgnoreFilter(b, ignore), tp), Elems(GetTicketsFromCommitHistory(a, cfg).value))
  {
    var ca := AllCaptures(IgnoreFilter(a, ignore), tp);
    var cb := AllCaptures(IgnoreFilter(b, ignore), tp);
    IgnoreFilterAppend(a, b, ignore);
    AllCapturesAppend(IgnoreFilter(a, ignore), IgnoreFilter(b, ignore), tp);
    DedupAfterAppend(ca, cb, {});
    assert Elems(ca) == Elems(Dedup(ca));
    assert {} + Elems(ca) == Elems(ca);
  }

  lemma CapturesSkipLine(a: seq<string>, l: string, b: seq<string>, tp: Pattern, ignore: Option<Pattern>)
    requires HasGroup(tp)
    requires Ignored(ignore, l) || Captures(tp, l) == []
    ensures AllCaptures(IgnoreFilter(a + [l] + b, ignore), tp) == AllCaptures(IgnoreFilter(a + b, ignore), tp)
  {
    var fa, fl, fb := IgnoreFilter(a, ignore), IgnoreFilter([l], ignore), IgnoreFilter(b, ignore);
    IgnoreFilterAppend(a + [l], b, ignore);
    IgnoreFilterAppend(a, [l], ignore);
    IgnoreFilterAppend(a, b, ignore);
    LineWithoutCaptures(l, tp, ignore);
    calc {
      AllCaptures(IgnoreFilter(a + [l] + b, ignore), tp);
      AllCaptures((fa + fl) + fb, tp);
      { AllCapturesAppend(fa + fl, fb, tp); }
      AllCaptures(fa + fl, tp) + AllCaptures(fb, tp);
      { AllCapturesAppend(fa, fl, tp); }
      AllCaptures(fa, tp) + AllCaptures(fl, tp) + AllCaptures(fb, tp);
      AllCaptures(fa, tp) + AllCaptures(fb, tp);
      { AllCapturesAppend(fa, fb, tp); }
      AllCaptures(fa + fb, tp);
    }
  }

  lemma LineWithoutCaptures(l: string, tp: Pattern, ignore: Option<Pattern>)
    requires HasGroup(tp)
    requires Ignored(ignore, l) || Captures(tp, l) == []
    ensures AllCaptures(IgnoreFilter([l], ignore), tp) == []
  {
    if ignore.Some? {
      FilterSingleton(l, Selects(ignore.value, false));
    }
    if Ignored(ignore, l) {
      assert IgnoreFilter([l], ignore) == [];
    } else {
      assert IgnoreFilter([l], ignore) == [l];
      assert AllCaptures([l], tp) == Captures(tp, l) + AllCaptures([], tp);
    }
  }

  /** A line the ignore pattern removes, or one without a ticket tag, contributes nothing. */
  lemma TicketsSkipLine(a: seq<string>, l: string, b: seq<string>, cfg: Config, tp: Pattern, ignore: Option<Pattern>)
    requires TicketSettings(cfg, tp, ignore)
    requires Ignored(ignore, l) || Captures(tp, l) == []
    ensures GetTicketsFromCommitHistory(a + [l] + b, cfg) == GetTicketsFromCommitHistory(a + b, cfg)
  {
    CapturesSkipLine(a, l, b, tp, ignore);
  }

  // ---------------------------------------------------------------------
  // The passthrough pipeline
  // ---------------------------------------------------------------------

  predicate PassthroughSettings(cfg: Config, pp: Pattern, ignore: Option<Pattern>) {
    Resolve(cfg.commitPassthroughPattern) == Ok(Some(pp)) && Resolve(cfg.commitIgnorePattern) == Ok(ignore)
  }

  lemma PassthroughUnder(log: seq<string>, cfg: Config, pp: Pattern, ignore: Option<Pattern>)
    requires PassthroughSettings(cfg, pp, ignore)
    ensures GetPassthroughChangesFromCommitHistory(log, cfg) == Ok(Keep(IgnoreFilter(log, ignore), pp, true))
  {
  }

  /**
   * A passthrough pattern that is set but fails to compile is an error, not an
   * empty result; so is an ignore pattern that is set but fails to compile.
   */
  lemma PassthroughPatternErrors(log: seq<string>, cfg: Config)
    requires !Disabled(cfg.commitPassthroughPattern)
    ensures Compile(cfg.commitPassthroughPattern.value).Err? ==>
      GetPassthroughChangesFromCommitHistory(log, cfg) == Err(Unrecognised(cfg.commitPassthroughPattern.value))
    ensures Compile(cfg.commitPassthroughPattern.value).Ok? &&
            !Disabled(cfg.commitIgnorePattern) && Compile(cfg.commitIgnorePattern.value).Err? ==>
      GetPassthroughChangesFromCommitHistory(log, cfg) == Err(Unrecognised(cfg.commitIgnorePattern.value))
  {
  }

  /**
   * The passthrough changes are the log's lines, verbatim, that the ignore
   * pattern leaves and the passthrough pattern is found in: a subsequence of
   * the log, with every such line as often as the log holds it.
   */
  lemma PassthroughSelectsKeptLines(log: seq<string>, cfg: Config, pp: Pattern, ignore: Option<Pattern>)
    requires PassthroughSettings(cfg, pp, ignore)
    ensures GetPassthroughChangesFromCommitHistory(log, cfg).Ok?
    ensures IsSubsequence(GetPassthroughChangesFromCommitHistory(log, cfg).value, log)
    ensures forall l :: l in GetPassthroughChangesFromCommitHistory(log, cfg).value <==>
                          l in log && !Ignored(ignore, l) && Matches(pp, l)
    ensures forall l :: multiset(GetPassthroughChangesFromCommitHistory(log, cfg).value)[l] ==
                          if !Ignored(ignore, l) && Matches(pp, l) then multiset(log)[l] else 0
  {
    var kept := IgnoreFilter(log, ignore);
    FilterIsSubsequence(kept, Selects(pp, true));
    IgnoreFilterIsSubsequence(log, ignore);
    SubsequenceTransitive(Keep(kept, pp, true), kept, log);
    forall l ensures multiset(Keep(kept, pp, true))[l] ==
      if !Ignored(ignore, l) && Matches(pp, l) then multiset(log)[l] else 0
    {
      KeepCount(kept, pp, true, l);
      if ignore.Some? {
        KeepCount(log, ignore.value, false, l);
      }
    }
  }

  /** The passthrough changes, run through the same settings again, come back unchanged. */
  lemma PassthroughIdempotent(log: seq<string>, cfg: Config, pp: Pattern, ignore: Option<Pattern>)
    requires PassthroughSettings(cfg, pp, ignore)
    ensures GetPassthroughChangesFromCommitHistory(GetPassthroughChangesFromCommitHistory(log, cfg).value, cfg) ==
      GetPassthroughChangesFromCommitHistory(log, cfg)
  {
    var kept := IgnoreFilter(log, ignore);
    var r := Keep(kept, pp, true);
    assert IgnoreFilter(r, ignore) == r by {
      if ignore.Some? {
        FilterAll(r, Selects(ignore.value, false));
      }
    }
    FilterIdempotent(kept, Selects(pp, true));
  }
}
