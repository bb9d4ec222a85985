/**
 * The patterns the engine is configured with, without a general regular
 * expression engine: a pattern text is compiled into one of three shapes,
 * each with its own matcher.
 *
 *  - `Prefix(lit)`  : `^lit` or `^lit.*`; found in a line that starts with lit.
 *  - `Infix(lit)`   : `lit`, `.*lit`, `lit.*`, `.*lit.*`, `^.*lit` or
 *                     `^.*lit.*`; found in a line that contains lit anywhere.
 *  - `BracketedKey` : the default ticket pattern `\[([A-Z]+-\d+)\]`; every
 *                     bracketed issue key `[KEY-123]`, capturing the key.
 *
 * Matching is regex "find" semantics (anywhere in the line), as the ignore
 * pattern `^#.*` and the passthrough pattern `.*TECH.*` are used. A line is
 * one commit subject and holds no line terminator, so `.` matches every
 * character of it and `^.*lit` finds lit anywhere in it.
 */
module Patterns {
  import opened Wrappers

  /** The text of the default ticket-extraction pattern; group 1 is the key. */
  const TicketKeyPattern: string := "\\[([A-Z]+-\\d+)\\]"

  datatype Pattern =
    | Prefix(lit: string)
    | Infix(lit: string)
    | BracketedKey

  datatype PatternError =
    | Unrecognised(source: string)   // not a pattern text this model interprets
    | NoCaptureGroup(source: string) // a ticket pattern without group 1

  // ---------------------------------------------------------------------
  // Pattern texts
  // ---------------------------------------------------------------------

  /** Characters with a meaning in Java's regular-expression syntax. */
  predicate IsMeta(c: char) {
    c in "\\^$.|?*+()[]{}"
  }

  /** A text that a regular expression matches only as itself. */
  predicate IsLiteral(s: string) {
    forall i :: 0 <= i < |s| ==> !IsMeta(s[i])
  }

  predicate WellFormed(p: Pattern) {
    match p
    case Prefix(lit) => IsLiteral(lit)
    case Infix(lit) => IsLiteral(lit)
    case BracketedKey => true
  }

  /** Drops one trailing `.*`, which changes nothing under find semantics. */
  function DropTrailingAny(s: string): (r: string)
    ensures |r| <= |s| && r == s[..|r|]
  {
    if |s| >= 2 && s[|s| - 2..] == ".*" then s[..|s| - 2] else s
  }

  /** Compiles a pattern text into the shape it denotes. */
  function Compile(src: string): (r: Result<Pattern, PatternError>)
    ensures r.Ok? ==> WellFormed(r.value)
    ensures r.Ok? ==> (r.value.BracketedKey? <==> src == TicketKeyPattern)
    ensures r.Err? ==> r.error == Unrecognised(src)
  {
    if src == TicketKeyPattern then Ok(BracketedKey)
    else
      var anchored := |src| > 0 && src[0] == '^';
      var body := DropTrailingAny(if anchored then src[1..] else src);
      var floating := |body| >= 2 && body[..2] == ".*";
      var lit := if floating then body[2..] else body;
      if !IsLiteral(lit) then Err(Unrecognised(src))
      else if anchored && !floating then Ok(Prefix(lit))
      else Ok(Infix(lit))
  }

  /** The canonical pattern text of a shape, as the configuration writes it. */
  function Render(p: Pattern): string {
    match p
    case Prefix(lit) => "^" + lit + ".*"
    case Infix(lit) => ".*" + lit + ".*"
    case BracketedKey => TicketKeyPattern
  }

  lemma NotTicketKeyPattern(src: string)
    requires |src| > 0 && (src[0] == '^' || src[0] == '.' || !IsMeta(src[0]))
    ensures src != TicketKeyPattern
  {
    assert TicketKeyPattern[0] == '\\';
  }

  /** Compiling the canonical text of a well-formed shape gives it back. */
  lemma {:induction false} CompileRender(p: Pattern)
    requires WellFormed(p)
    ensures Compile(Render(p)) == Ok(p)
  {
    match p
    case BracketedKey =>
    case Prefix(lit) =>
      var src := Render(p);
      NotTicketKeyPattern(src);
      assert src[1..] == lit + ".*";
      assert (lit + ".*")[|lit|..] == ".*";
      assert DropTrailingAny(src[1..]) == lit;
      assert |lit| >= 2 ==> lit[..2][0] == lit[0];
    case Infix(lit) =>
      var src := Render(p);
      NotTicketKeyPattern(src);
      assert src[0] == '.';
      assert (".*" + lit + ".*")[|lit| + 2..] == ".*";
      assert DropTrailingAny(src) == ".*" + lit;
      assert (".*" + lit)[..2] == ".*" && (".*" + lit)[2..] == lit;
  }

  /** A literal, bare or anchored, compiles to the shape that finds it. */
  lemma {:induction false} CompileBareLiteral(lit: string)
    requires IsLiteral(lit)
    ensures Compile(lit) == Ok(Infix(lit))
    ensures Compile("^" + lit) == Ok(Prefix(lit))
  {
    if |lit| > 0 {
      NotTicketKeyPattern(lit);
      assert |lit| >= 2 ==> !IsMeta(lit[|lit| - 1]) && lit[|lit| - 2..][1] == lit[|lit| - 1];
      assert |lit| >= 2 ==> lit[..2][0] == lit[0];
    }
    var src := "^" + lit;
    NotTicketKeyPattern(src);
    assert src[1..] == lit;
    assert |lit| >= 2 ==> lit[|lit| - 2..][1] == lit[|lit| - 1];
    assert |lit| >= 2 ==> lit[..2][0] == lit[0];
  }

  /** The text `^`? `.*`? lit `.*`?, each optional part present when its flag is set. */
  function Form(anchored: bool, floating: bool, lit: string, trailing: bool): string {
    (if anchored then "^" else "") + (if floating then ".*" else "") + lit + (if trailing then ".*" else "")
  }

  /** The pattern texts the model interprets: the default ticket pattern and the literal forms. */
  ghost predicate Recognised(src: string) {
    src == TicketKeyPattern || exists a, f, lit, t :: IsLiteral(lit) && src == Form(a, f, lit, t)
  }

  /** A trailing `.*` is dropped from an unanchored form and nothing else is. */
  lemma DropForm(f: bool, lit: string, t: bool)
    requires IsLiteral(lit) && lit != ""
    ensures DropTrailingAny(Form(false, f, lit, t)) == Form(false, f, lit, false)
  {
    var body := Form(false, f, lit, false);
    assert body[|body| - 1] == lit[|lit| - 1];
    if t {
      assert Form(false, f, lit, t) == body + ".*";
      assert (body + ".*")[|body|..] == ".*";
    } else {
      assert Form(false, f, lit, t) == body;
      assert |body| >= 2 ==> body[|body| - 2..][1] == body[|body| - 1];
    }
  }

  /** The body left after the trailing `.*` starts with `.*` exactly when the form is floating. */
  lemma FloatingForm(f: bool, lit: string)
    requires IsLiteral(lit) && lit != ""
    ensures var body := Form(false, f, lit, false);
      (|body| >= 2 && body[..2] == ".*") == f && (f ==> body[2..] == lit) && (!f ==> body == lit)
  {
    var body := Form(false, f, lit, false);
    if f {
      assert body == ".*" + lit;
      assert body[..2] == ".*" && body[2..] == lit;
    } else {
      assert body == lit;
      assert |body| >= 2 ==> body[..2][0] == lit[0];
    }
  }

  /** Every literal form with a non-empty literal compiles to the shape it denotes. */
  lemma CompileNonEmptyForm(a: bool, f: bool, lit: string, t: bool)
    requires IsLiteral(lit) && lit != ""
    ensures Compile(Form(a, f, lit, t)) == Ok(if a && !f then Prefix(lit) else Infix(lit))
  {
    if a {
      CompileAnchoredForm(f, lit, t);
    } else {
      CompileUnanchoredForm(f, lit, t);
    }
  }

  lemma CompileAnchoredForm(f: bool, lit: string, t: bool)
    requires IsLiteral(lit) && lit != ""
    ensures Compile(Form(true, f, lit, t)) == Ok(if f then Infix(lit) else Prefix(lit))
  {
    var src := Form(true, f, lit, t);
    var rest := Form(false, f, lit, t);
    assert src == "^" + rest;
    assert src[0] == '^' && src[1..] == rest;
    NotTicketKeyPattern(src);
    DropForm(f, lit, t);
    FloatingForm(f, lit);
  }

  lemma CompileUnanchoredForm(f: bool, lit: string, t: bool)
    requires IsLiteral(lit) && lit != ""
    ensures Compile(Form(false, f, lit, t)) == Ok(Infix(lit))
  {
    var src := Form(false, f, lit, t);
    assert src[0] == (if f then '.' else lit[0]);
    NotTicketKeyPattern(src);
    DropForm(f, lit, t);
    FloatingForm(f, lit);
  }

  /** The unanchored forms of the empty literal. */
  lemma EmptyRest(f: bool, t: bool)
    ensures Form(false, f, "", t) in {"", ".*", ".*.*"}
  {
    if f && t {
      assert Form(false, f, "", t) == ".*.*";
    } else if f || t {
      assert Form(false, f, "", t) == ".*";
    } else {
      assert Form(false, f, "", t) == "";
    }
  }

  lemma CompileDotStar()
    ensures Compile(".*") == Ok(Infix(""))
  {
    NotTicketKeyPattern(".*");
  }

  lemma CompileDotStarTwice()
    ensures Compile(".*.*") == Ok(Infix(""))
  {
    NotTicketKeyPattern(".*.*");
  }

  lemma CompileCaret()
    ensures Compile("^") == Ok(Prefix(""))
  {
    NotTicketKeyPattern("^");
  }

  lemma CompileCaretDotStar()
    ensures Compile("^.*") == Ok(Prefix(""))
  {
    NotTicketKeyPattern("^.*");
  }

  lemma CompileCaretDotStarTwice()
    ensures Compile("^.*.*") == Ok(Infix(""))
  {
    NotTicketKeyPattern("^.*.*");
  }

  lemma CompileEmpty()
    ensures Compile("") == Ok(Infix(""))
  {
  }

  /**
   * Every form of the empty literal compiles, to a shape with the empty
   * literal (found in every line); `^.*` reads as an anchored empty prefix.
   */
  lemma CompileEmptyForm(a: bool, f: bool, t: bool)
    ensures Compile(Form(a, f, "", t)) == Ok(if a && !(f && t) then Prefix("") else Infix(""))
  {
    EmptyRest(f, t);
    var rest := Form(false, f, "", t);
    assert Form(a, f, "", t) == (if a then "^" else "") + rest;
    if rest == "" {
      assert "^" + rest == "^";
      CompileEmpty();
      CompileCaret();
    } else if rest == ".*" {
      assert "^" + rest == "^.*";
      CompileDotStar();
      CompileCaretDotStar();
    } else {
      assert "^" + rest == "^.*.*";
      CompileDotStarTwice();
      CompileCaretDotStarTwice();
    }
  }

  /** Every recognised text compiles. */
  lemma RecognisedCompiles(src: string)
    requires Recognised(src)
    ensures Compile(src).Ok?
  {
    if src != TicketKeyPattern {
      var a, f, lit, t :| IsLiteral(lit) && src == Form(a, f, lit, t);
      if lit == "" {
        CompileEmptyForm(a, f, t);
      } else {
        CompileNonEmptyForm(a, f, lit, t);
      }
    }
  }

  /** A text that compiles is the default ticket pattern or a literal form. */
  lemma CompiledIsRecognised(src: string)
    requires Compile(src).Ok?
    ensures Recognised(src)
  {
    if src != TicketKeyPattern {
      var a := |src| > 0 && src[0] == '^';
      var rest := if a then src[1..] else src;
      var body := DropTrailingAny(rest);
      var t := |rest| >= 2 && rest[|rest| - 2..] == ".*";
      var f := |body| >= 2 && body[..2] == ".*";
      var lit := if f then body[2..] else body;
      assert IsLiteral(lit);
      SplitAnchor(src);
      SplitTrailing(rest);
      SplitFloating(body);
      Reassemble(src, a, rest, body, f, lit, t);
      assert IsLiteral(lit) && src == Form(a, f, lit, t);
    }
  }

  /** Parts that concatenate to a text in the order of a form make up that form. */
  lemma Reassemble(src: string, a: bool, rest: string, body: string, f: bool, lit: string, t: bool)
    requires src == (if a then "^" else "") + rest
    requires rest == body + (if t then ".*" else "")
    requires body == (if f then ".*" else "") + lit
    ensures src == Form(a, f, lit, t)
  {
  }

  lemma SplitAnchor(src: string)
    ensures var a := |src| > 0 && src[0] == '^';
      src == (if a then "^" else "") + (if a then src[1..] else src)
  {
    if |src| > 0 && src[0] == '^' {
      assert src == [src[0]] + src[1..];
    }
  }

  lemma SplitTrailing(rest: string)
    ensures rest == DropTrailingAny(rest) + (if |rest| >= 2 && rest[|rest| - 2..] == ".*" then ".*" else "")
  {
  }

  lemma SplitFloating(body: string)
    ensures body == (if |body| >= 2 && body[..2] == ".*" then ".*" + body[2..] else body)
  {
  }

  /** Compilation succeeds exactly on the recognised texts: every other text is rejected. */
  lemma CompileAccepts(src: string)
    ensures Compile(src).Ok? <==> Recognised(src)
  {
    if Compile(src).Ok? {
      CompiledIsRecognised(src);
    }
    if Recognised(src) {
      RecognisedCompiles(src);
    }
  }

  // ---------------------------------------------------------------------
  // Prefix and infix matching
  // ---------------------------------------------------------------------

  predicate StartsWith(s: string, t: string) {
    |t| <= |s| && s[..|t|] == t
  }

  /** t occurs in s, found by sliding a window from the left. */
  predicate Contains(s: string, t: string)
    decreases |s|
  {
    |t| <= |s| && (s[..|t|] == t || Contains(s[1..], t))
  }

  /** t occurs in s starting at position p. */
  ghost predicate OccursAt(s: string, t: string, p: int) {
    0 <= p && p + |t| <= |s| && s[p..p + |t|] == t
  }

  lemma {:induction false} ContainsWitness(s: string, t: string) returns (p: int)
    requires Contains(s, t)
    ensures OccursAt(s, t, p)
    decreases |s|
  {
    if s[..|t|] == t {
      p := 0;
    } else {
      var q := ContainsWitness(s[1..], t);
      assert s[q + 1..q + 1 + |t|] == s[1..][q..q + |t|];
      p := q + 1;
    }
  }

  lemma {:induction false} OccursContains(s: string, t: string, p: int)
    requires OccursAt(s, t, p)
    ensures Contains(s, t)
    decreases p
  {
    if p > 0 {
      assert s[1..][p - 1..p - 1 + |t|] == s[p..p + |t|];
      OccursContains(s[1..], t, p - 1);
    }
  }

  /** The sliding-window search agrees with the positional definition. */
  lemma ContainsIff(s: string, t: string)
    ensures Contains(s, t) <==> exists p :: OccursAt(s, t, p)
  {
    if Contains(s, t) {
      var p := ContainsWitness(s, t);
    }
    forall p | OccursAt(s, t, p) ensures Contains(s, t) {
      OccursContains(s, t, p);
    }
  }

  /** Every character of a text that occurs in s is a character of s. */
  lemma ContainsKeepsChars(s: string, t: string)
    ensures Contains(s, t) ==> forall k :: 0 <= k < |t| ==> t[k] in s
  {
    if Contains(s, t) {
      var p := ContainsWitness(s, t);
      forall k | 0 <= k < |t| ensures t[k] in s {
        assert s[p..p + |t|][k] == s[p + k];
      }
    }
  }

  /** A text holding a character that s lacks does not occur in s. */
  lemma MissingCharNotContained(s: string, t: string, c: char)
    requires c in t && c !in s
    ensures !Contains(s, t)
  {
    ContainsKeepsChars(s, t);
  }

  // ---------------------------------------------------------------------
  // Bracketed issue keys: `\[([A-Z]+-\d+)\]`
  // ---------------------------------------------------------------------

  datatype CharClass = Upper | Digit

  predicate InClass(c: char, k: CharClass) {
    match k
    case Upper => 'A' <= c <= 'Z'
    case Digit => '0' <= c <= '9'
  }

  predicate AllIn(s: string, k: CharClass) {
    forall i :: 0 <= i < |s| ==> InClass(s[i], k)
  }

  /** key splits at j into `[A-Z]+`, a hyphen and `\d+`. */
  predicate SplitsAt(key: string, j: int) {
    0 < j < |key| - 1 && key[j] == '-' && AllIn(key[..j], Upper) && AllIn(key[j + 1..], Digit)
  }

  /** key is the text group 1 of the ticket pattern captures: `KEY-123`. */
  ghost predicate IsTicketKey(key: string) {
    exists j :: SplitsAt(key, j)
  }

  /** The tag `[key]` of a ticket key starts at position i of s. */
  ghost predicate TagOccursAt(s: string, i: int, key: string) {
    OccursAt(s, "[" + key + "]", i) && IsTicketKey(key)
  }

  /** The end of the longest run of class-k characters of s from i (greedy `+`). */
  function RunEnd(s: string, i: nat, k: CharClass): (e: nat)
    requires i <= |s|
    ensures i <= e <= |s|
    ensures forall j :: i <= j < e ==> InClass(s[j], k)
    ensures e == |s| || !InClass(s[e], k)
    decreases |s| - i
  {
    if i < |s| && InClass(s[i], k) then RunEnd(s, i + 1, k) else i
  }

  /**
   * The key of the tag that the ticket pattern matches at position i of s.
   * Neither run can give back a character to let the match succeed (a hyphen
   * is not a capital, a bracket is not a digit), so the greedy attempt is the
   * only one a backtracking matcher could find.
   */
  function TagAt(s: string, i: nat): (r: Option<string>)
    ensures r.Some? ==> i + |r.value| + 2 <= |s|
  {
    if i < |s| && s[i] == '[' then
      var h := RunEnd(s, i + 1, Upper);
      if i + 1 < h < |s| && s[h] == '-' then
        var e := RunEnd(s, h + 1, Digit);
        if h + 1 < e < |s| && s[e] == ']' then Some(s[i + 1..e]) else None
      else None
    else None
  }

  /** What TagAt finds is a tag. */
  lemma TagAtSound(s: string, i: nat)
    requires TagAt(s, i).Some?
    ensures TagOccursAt(s, i, TagAt(s, i).value)
  {
    var h := RunEnd(s, i + 1, Upper);
    var e := RunEnd(s, h + 1, Digit);
    var key := s[i + 1..e];
    var j := h - i - 1;
    assert key[..j] == s[i + 1..h];
    assert key[j + 1..] == s[h + 1..e];
    assert SplitsAt(key, j);
    assert s[i..i + |key| + 2] == "[" + key + "]";
  }

  /** Every tag is found by TagAt, so a position holds at most one tag. */
  lemma TagAtComplete(s: string, i: nat, key: string)
    requires TagOccursAt(s, i, key)
    ensures TagAt(s, i) == Some(key)
  {
    var j :| SplitsAt(key, j);
    var w := "[" + key + "]";
    assert s[i..i + |w|] == w;
    forall m | 0 <= m < |key| ensures s[i + 1 + m] == key[m] {
      assert s[i..i + |w|][1 + m] == w[1 + m];
    }
    assert s[i] == w[0];
    assert s[i + |key| + 1] == w[|key| + 1];
    forall m | i + 1 <= m < i + 1 + j ensures InClass(s[m], Upper) {
      assert key[..j][m - i - 1] == key[m - i - 1];
    }
    var h := RunEnd(s, i + 1, Upper);
    assert h == i + 1 + j;
    forall m | i + 2 + j <= m < i + 1 + |key| ensures InClass(s[m], Digit) {
      assert key[j + 1..][m - i - 2 - j] == key[m - i - 1];
    }
    var e := RunEnd(s, h + 1, Digit);
    assert e == i + 1 + |key|;
    assert s[i + 1..e] == key;
  }

  /**
   * The keys of the non-overlapping tags of s, left to right: the search
   * resumes behind the closing bracket of each tag it finds and one character
   * on everywhere else.
   */
  function Scan(s: string): seq<string>
    decreases |s|
  {
    if s == [] then []
    else match TagAt(s, 0)
      case Some(key) => [key] + Scan(s[|key| + 2..])
      case None => Scan(s[1..])
  }

  /** The tag of key occurs somewhere in s. */
  ghost predicate HasTag(s: string, key: string) {
    exists p :: TagOccursAt(s, p, key)
  }

  /** A tag in a suffix of s is a tag of s, further right. */
  lemma TagInSuffix(s: string, k: nat, p: int, key: string)
    requires k <= |s| && TagOccursAt(s[k..], p, key)
    ensures TagOccursAt(s, k + p, key)
  {
    var w := "[" + key + "]";
    assert s[k..][p..p + |w|] == s[k + p..k + p + |w|];
  }

  /** A tag at or behind position k of s is a tag of the suffix from k. */
  lemma TagInDrop(s: string, k: nat, p: int, key: string)
    requires k <= p && TagOccursAt(s, p, key)
    ensures TagOccursAt(s[k..], p - k, key)
  {
    var w := "[" + key + "]";
    assert s[k..][p - k..p - k + |w|] == s[p..p + |w|];
  }

  /** No character of an issue key is an opening bracket. */
  lemma KeyHasNoBracket(key: string, m: int)
    requires IsTicketKey(key) && 0 <= m < |key|
    ensures key[m] != '['
  {
    var j :| SplitsAt(key, j);
    if m < j {
      assert key[..j][m] == key[m];
    } else if m > j {
      assert key[j + 1..][m - j - 1] == key[m];
    }
  }

  /** Inside a tag, behind its opening bracket, no character is an opening bracket. */
  lemma NoBracketInsideTag(s: string, p: int, key: string)
    requires TagOccursAt(s, p, key)
    ensures forall m :: p < m < p + |key| + 2 ==> s[m] != '['
  {
    var w := "[" + key + "]";
    forall m | p < m < p + |key| + 2 ensures s[m] != '[' {
      assert s[m] == w[m - p] by {
        assert s[p..p + |w|][m - p] == s[m];
      }
      if m - p <= |key| {
        assert w[m - p] == key[m - p - 1];
        KeyHasNoBracket(key, m - p - 1);
      }
    }
  }

  /** Tags never overlap: a later tag starts behind the closing bracket of an earlier one. */
  lemma TagsDoNotOverlap(s: string, p: int, kp: string, q: int, kq: string)
    requires TagOccursAt(s, p, kp) && TagOccursAt(s, q, kq) && p < q
    ensures p + |kp| + 2 <= q
  {
    NoBracketInsideTag(s, p, kp);
    var wq := "[" + kq + "]";
    assert s[q] == '[' by {
      assert s[q..q + |wq|][0] == wq[0];
    }
  }

  /** What a suffix of s holds, s holds. */
  lemma SuffixTags(s: string, k: nat)
    requires k <= |s|
    ensures forall key :: HasTag(s[k..], key) ==> HasTag(s, key)
  {
    forall key | HasTag(s[k..], key) ensures HasTag(s, key) {
      var p :| TagOccursAt(s[k..], p, key);
      TagInSuffix(s, k, p, key);
    }
  }

  lemma LeadingTagIsTag(s: string, key: string)
    requires TagAt(s, 0) == Some(key)
    ensures HasTag(s, key)
  {
    TagAtSound(s, 0);
  }

  /** Every key the scan yields is the key of a tag of s. */
  lemma {:induction false} ScanSound(s: string)
    ensures forall key :: key in Scan(s) ==> HasTag(s, key)
    decreases |s|
  {
    if s != [] {
      var r := TagAt(s, 0);
      if r.Some? {
        var k := |r.value| + 2;
        ScanSound(s[k..]);
        SuffixTags(s, k);
        LeadingTagIsTag(s, r.value);
      } else {
        ScanSound(s[1..]);
        SuffixTags(s, 1);
      }
    }
  }

  /** The scan skips no tag: the key of every tag of s is among its keys. */
  lemma {:induction false} ScanComplete(s: string, p: int, key: string)
    requires TagOccursAt(s, p, key)
    ensures key in Scan(s)
    decreases |s|
  {
    if p == 0 {
      TagAtComplete(s, 0, key);
      assert Scan(s) == [key] + Scan(s[|key| + 2..]);
    } else {
      match TagAt(s, 0)
      case None =>
        TagInDrop(s, 1, p, key);
        ScanComplete(s[1..], p - 1, key);
        assert Scan(s) == Scan(s[1..]);
      case Some(k) =>
        BehindLeadingTag(s, k, p, key);
        TagInDrop(s, |k| + 2, p, key);
        ScanComplete(s[|k| + 2..], p - |k| - 2, key);
        assert Scan(s) == [k] + Scan(s[|k| + 2..]);
    }
  }

  /** a is listed before b in xs. */
  ghost predicate ListedBefore(xs: seq<string>, a: string, b: string) {
    exists i, j :: 0 <= i < j < |xs| && xs[i] == a && xs[j] == b
  }

  lemma BeforeInTail(x: string, xs: seq<string>, a: string, b: string)
    requires ListedBefore(xs, a, b)
    ensures ListedBefore([x] + xs, a, b)
  {
    var i, j :| 0 <= i < j < |xs| && xs[i] == a && xs[j] == b;
    assert ([x] + xs)[i + 1] == a && ([x] + xs)[j + 1] == b;
  }

  lemma HeadBefore(a: string, xs: seq<string>, b: string)
    requires b in xs
    ensures ListedBefore([a] + xs, a, b)
  {
    var j :| 0 <= j < |xs| && xs[j] == b;
    assert ([a] + xs)[0] == a && ([a] + xs)[j + 1] == b;
  }

  /** Where the scan reads a tag at the start of s, that key comes first and the scan resumes behind the tag. */
  lemma ScanPastLeadingTag(s: string, k: string)
    requires TagAt(s, 0) == Some(k)
    ensures Scan(s) == [k] + Scan(s[|k| + 2..])
  {
  }

  /** A tag at the start of s is listed before any later tag. */
  lemma LeadingTagFirst(s: string, kp: string, q: int, kq: string)
    requires TagOccursAt(s, 0, kp) && TagOccursAt(s, q, kq) && 0 < q
    ensures ListedBefore(Scan(s), kp, kq)
  {
    TagAtComplete(s, 0, kp);
    LaterTagScannedInRest(s, kp, q, kq);
    HeadBefore(kp, Scan(s[|kp| + 2..]), kq);
    ScanPastLeadingTag(s, kp);
  }

  /** A tag behind the one the scan reads at the start of s is found by the rest of the scan. */
  lemma LaterTagScannedInRest(s: string, k: string, q: int, kq: string)
    requires TagAt(s, 0) == Some(k) && TagOccursAt(s, q, kq) && 0 < q
    ensures kq in Scan(s[|k| + 2..])
  {
    BehindLeadingTag(s, k, q, kq);
    TagInDrop(s, |k| + 2, q, kq);
    ScanComplete(s[|k| + 2..], q - |k| - 2, kq);
  }

  /** Two tags at or behind position n of s are tags of the suffix from n. */
  lemma TagsInDrop(s: string, n: nat, p: int, kp: string, q: int, kq: string)
    requires n <= p < q && TagOccursAt(s, p, kp) && TagOccursAt(s, q, kq)
    ensures TagOccursAt(s[n..], p - n, kp) && TagOccursAt(s[n..], q - n, kq)
  {
    TagInDrop(s, n, p, kp);
    TagInDrop(s, n, q, kq);
  }

  /** A tag that does not start s starts behind the tag the scan reads at the start. */
  lemma BehindLeadingTag(s: string, k: string, p: int, key: string)
    requires TagAt(s, 0) == Some(k) && TagOccursAt(s, p, key) && 0 < p
    ensures |k| + 2 <= p
  {
    TagAtSound(s, 0);
    TagsDoNotOverlap(s, 0, k, p, key);
  }

  /** Order past a tag the scan reads at the start of s. */
  lemma OrderPastLeadingTag(s: string, k: string, kp: string, kq: string)
    requires TagAt(s, 0) == Some(k) && ListedBefore(Scan(s[|k| + 2..]), kp, kq)
    ensures ListedBefore(Scan(s), kp, kq)
  {
    BeforeInTail(k, Scan(s[|k| + 2..]), kp, kq);
    ScanPastLeadingTag(s, k);
  }

  /** Order past a character where the scan reads no tag. */
  lemma OrderPastChar(s: string, kp: string, kq: string)
    requires s != [] && TagAt(s, 0).None? && ListedBefore(Scan(s[1..]), kp, kq)
    ensures ListedBefore(Scan(s), kp, kq)
  {
    assert Scan(s) == Scan(s[1..]);
  }

  /** The scan lists tags in the order they stand in s: an earlier tag's key before a later one's. */
  lemma {:induction false} ScanInPositionOrder(s: string, p: int, kp: string, q: int, kq: string)
    requires TagOccursAt(s, p, kp) && TagOccursAt(s, q, kq) && p < q
    ensures ListedBefore(Scan(s), kp, kq)
    decreases |s|, 1
  {
    if p == 0 {
      LeadingTagFirst(s, kp, q, kq);
    } else if TagAt(s, 0).Some? {
      OrderBehindTag(s, TagAt(s, 0).value, p, kp, q, kq);
    } else {
      OrderBehindChar(s, p, kp, q, kq);
    }
  }

  /** ScanInPositionOrder where the scan reads a tag at the start of s and both tags lie behind it. */
  lemma {:induction false} OrderBehindTag(s: string, k: string, p: int, kp: string, q: int, kq: string)
    requires TagAt(s, 0) == Some(k) && TagOccursAt(s, p, kp) && TagOccursAt(s, q, kq) && 0 < p < q
    ensures ListedBefore(Scan(s), kp, kq)
    decreases |s|, 0
  {
    var n := |k| + 2;
    BehindLeadingTag(s, k, p, kp);
    TagsInDrop(s, n, p, kp, q, kq);
    ScanInPositionOrder(s[n..], p - n, kp, q - n, kq);
    OrderPastLeadingTag(s, k, kp, kq);
  }

  /** ScanInPositionOrder where the scan reads no tag at the start of s. */
  lemma {:induction false} OrderBehindChar(s: string, p: int, kp: string, q: int, kq: string)
    requires TagAt(s, 0).None? && TagOccursAt(s, p, kp) && TagOccursAt(s, q, kq) && 0 < p < q
    ensures ListedBefore(Scan(s), kp, kq)
    decreases |s|, 0
  {
    TagsInDrop(s, 1, p, kp, q, kq);
    ScanInPositionOrder(s[1..], p - 1, kp, q - 1, kq);
    OrderPastChar(s, kp, kq);
  }

  /** Whatever TagAt reads is a tag, stated for every position at once. */
  lemma TagAtSoundAt(s: string, i: nat)
    ensures TagAt(s, i).Some? ==> TagOccursAt(s, i, TagAt(s, i).value)
  {
    if TagAt(s, i).Some? {
      TagAtSound(s, i);
    }
  }

  /** Every tag of a suffix of s is a tag of s. */
  lemma TagsOfSuffix(s: string, k: nat)
    requires k <= |s|
    ensures forall p, key :: TagOccursAt(s[k..], p, key) ==> TagOccursAt(s, k + p, key)
  {
    forall p, key | TagOccursAt(s[k..], p, key) ensures TagOccursAt(s, k + p, key) {
      TagInSuffix(s, k, p, key);
    }
  }

  /** No tag starts at a position i <= q < p of s. */
  ghost predicate NoTagBetween(s: string, i: int, p: int) {
    forall q, k' :: i <= q < p ==> !TagOccursAt(s, q, k')
  }

  /**
   * The scan's first key is the key of the leftmost tag of s, and the scan
   * resumes behind that tag's closing bracket. With ScanEmptyIff this fixes
   * the scan exactly: the keys of the tags of s, left to right, each as often
   * as it is tagged.
   */
  lemma ScanLeftmostTag(s: string, p: nat, k: string)
    requires TagOccursAt(s, p, k) && NoTagBetween(s, 0, p)
    ensures Scan(s) == [k] + Scan(s[p + |k| + 2..])
  {
    ScanFromLeftmostTag(s, 0, p, k);
    assert s[0..] == s;
  }

  /** ScanLeftmostTag, for the scan started at position i <= p. */
  lemma {:induction false} ScanFromLeftmostTag(s: string, i: nat, p: nat, k: string)
    requires i <= p && TagOccursAt(s, p, k) && NoTagBetween(s, i, p)
    ensures Scan(s[i..]) == [k] + Scan(s[p + |k| + 2..])
    decreases p - i
  {
    if i == p {
      ScanFromTag(s, p, k);
    } else {
      NoTagAtStart(s, i);
      ScanFromLeftmostTag(s, i + 1, p, k);
    }
  }

  /** The scan started at a tag reads that tag first and resumes behind it. */
  lemma ScanFromTag(s: string, p: nat, k: string)
    requires TagOccursAt(s, p, k)
    ensures Scan(s[p..]) == [k] + Scan(s[p + |k| + 2..])
  {
    TagInDrop(s, p, p, k);
    ScanOfLeadingTag(s[p..], k);
    DropTwice(s, p, |k| + 2);
  }

  /** A tag at the start of s gives the scan's first key. */
  lemma ScanOfLeadingTag(s: string, k: string)
    requires TagOccursAt(s, 0, k)
    ensures Scan(s) == [k] + Scan(s[|k| + 2..])
  {
    TagAtComplete(s, 0, k);
    ScanPastLeadingTag(s, k);
  }

  /** Where no tag starts at position i < |s|, the scan from i passes that character. */
  lemma NoTagAtStart(s: string, i: nat)
    requires i < |s| && forall k' :: !TagOccursAt(s, i, k')
    ensures Scan(s[i..]) == Scan(s[i + 1..])
  {
    TagAtSoundAt(s[i..], 0);
    TagsOfSuffix(s, i);
    DropTwice(s, i, 1);
  }

  lemma DropTwice(s: string, i: nat, j: nat)
    requires i + j <= |s|
    ensures s[i..][j..] == s[i + j..]
  {
  }

  /** The scan is empty exactly when no tag occurs in s. */
  lemma ScanEmptyIff(s: string)
    ensures Scan(s) == [] <==> !exists p, key :: TagOccursAt(s, p, key)
  {
    if Scan(s) != [] {
      ScanSound(s);
      assert Scan(s)[0] in Scan(s);
      assert HasTag(s, Scan(s)[0]);
    } else {
      forall p, key | TagOccursAt(s, p, key) ensures false {
        ScanComplete(s, p, key);
      }
    }
  }

  /** A string without a hyphen holds no tag. */
  lemma {:induction false} ScanWithoutHyphen(s: string)
    requires '-' !in s
    ensures Scan(s) == []
    decreases |s|
  {
    if s != [] {
      assert TagAt(s, 0).None?;
      ScanWithoutHyphen(s[1..]);
    }
  }

  // ---------------------------------------------------------------------
  // The two matcher operations
  // ---------------------------------------------------------------------

  /** The pattern has a capturing group 1. */
  predicate HasGroup(p: Pattern) {
    p.BracketedKey?
  }

  /** The group-1 texts of the non-overlapping matches of p in line, left to right. */
  function Captures(p: Pattern, line: string): seq<string>
    requires HasGroup(p)
  {
    Scan(line)
  }

  /** The pattern is found somewhere in the line. */
  predicate Matches(p: Pattern, line: string) {
    match p
    case Prefix(lit) => StartsWith(line, lit)
    case Infix(lit) => Contains(line, lit)
    case BracketedKey => Scan(line) != []
  }

  /** The ticket pattern is found in a line exactly when a tag occurs in it. */
  lemma BracketedKeyMatches(line: string)
    ensures Matches(BracketedKey, line) <==> exists p, key :: 0 <= p && TagOccursAt(line, p, key)
  {
    ScanEmptyIff(line);
  }

  /** The captures are exactly the issue keys whose bracketed tags occur in the line. */
  lemma CapturesExactlyTags(p: Pattern, line: string)
    requires HasGroup(p)
    ensures forall key :: key in Captures(p, line) <==> HasTag(line, key)
  {
    ScanSound(line);
    forall key | HasTag(line, key) ensures key in Captures(p, line) {
      var q :| TagOccursAt(line, q, key);
      ScanComplete(line, q, key);
    }
  }

  /**
   * Several tags in one line are captured left to right: the first capture is
   * the key of the leftmost tag, followed by the captures of the line behind
   * that tag. With ScanEmptyIff (no tag, no capture) this determines the
   * captures of every line.
   */
  lemma CapturesInLineOrder(p: Pattern, line: string, q: nat, k: string)
    requires HasGroup(p)
    requires TagOccursAt(line, q, k) && NoTagBetween(line, 0, q)
    ensures Captures(p, line) == [k] + Captures(p, line[q + |k| + 2..])
  {
    ScanLeftmostTag(line, q, k);
  }

  /** A leading tag is captured first, before everything the rest of the line holds. */
  lemma CapturesLeadingTag(key: string, rest: string)
    requires IsTicketKey(key)
    ensures Captures(BracketedKey, "[" + key + "]" + rest) == [key] + Captures(BracketedKey, rest)
  {
    var w := "[" + key + "]";
    var s := w + rest;
    assert s[0..|w|] == w;
    TagAtComplete(s, 0, key);
    assert s[|key| + 2..] == rest;
  }

  /** A line without a hyphen yields no capture. */
  lemma CapturesWithoutHyphen(line: string)
    requires '-' !in line
    ensures Captures(BracketedKey, line) == []
  {
    ScanWithoutHyphen(line);
  }
}
