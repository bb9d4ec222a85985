# Cerberus commit-log classification

Cerberus is a Gradle plugin. It reads commit subjects from the git log and
sorts them two ways:

- **Tickets.** Every issue key tagged in a subject, such as `[CER-8]`, is
  collected. The keys come out in log order, each once, and a subject may
  carry several tags.
- **Passthrough changes.** Subjects that match a configurable pattern, such as
  `.*TECH.*`, are kept as whole lines for the release notes. They come out
  verbatim, in log order.

An optional ignore pattern (for example `^#.*`) removes subjects before either
extraction runs. Each of the three patterns can be null or empty, which
switches its feature off:

- a disabled ticket or passthrough pattern gives an empty result;
- a disabled ignore pattern keeps every line.

This project models that engine as pure functions over the log lines.

| module | file | contents |
|---|---|---|
| `Wrappers` | `wrappers.dfy` | `Option` and `Result` |
| `Config` | `config.dfy` | The three pattern settings as an immutable value. In the plugin they live in a mutable global extension object. Also resolves a setting to "switched off", a compiled pattern, or an error. |
| `Patterns` | `patterns.dfy` | The matcher abstraction. It covers the pattern texts the plugin's configuration uses: an anchored literal (`^#.*`), a floating literal (`.*TECH.*`) and the default ticket pattern `\[([A-Z]+-\d+)\]`. For the ticket pattern, a left-to-right scanner gives group 1 of each non-overlapping match. |
| `Sequences` | `sequences.dfy` | Subsequences, order-preserving filtering, and stable first-seen deduplication. |
| `Git` | `git.dfy` | The ignore filter, ticket extraction, passthrough extraction, and the two pipelines `GetTicketsFromCommitHistory` and `GetPassthroughChangesFromCommitHistory`. |
| `GitTest` | `git_test.dfy` | One lemma per test of the plugin's test suite. Each uses that test's own log lines and settings. |

The behaviour follows the contract the test suite `GitTest.kt` asserts. The
implementation of `getTicketsFromCommitHistory` and
`getPassthroughChangesFromCommitHistory` (package `au.com.outware.cerberus.util`)
is not part of this model. Where the tests leave
something open, the model takes these positions:

- deduplication of ticket keys;
- what a pattern that does not compile becomes (an error result).

## Model

| member | source | states |
|---|---|---|
| `Config.Resolve` | src/test/kotlin/au/com/outware/cerberus/util/GitTest.kt:53-64 | A setting is switched off exactly when it is null or empty. Otherwise it resolves to the compiled pattern, or to the compile error. |
| `Config.ResolveRender` | src/test/kotlin/au/com/outware/cerberus/util/GitTest.kt:106 | Setting the canonical text of a well-formed pattern selects that pattern. |
| `Patterns.Compile` | src/test/kotlin/au/com/outware/cerberus/util/GitTest.kt:147 | A compiled pattern is well formed. It is the ticket-key pattern exactly when the text is the default ticket pattern. A failure is an `Unrecognised` error naming the text. |
| `Patterns.CompileAccepts` | src/test/kotlin/au/com/outware/cerberus/util/GitTest.kt:106-155 | A text compiles exactly when it is the default ticket pattern or a literal form `^`? `.*`? lit `.*`? whose literal has no metacharacter. Every other text is rejected, never read as "match everything". |
| `Patterns.CompileNonEmptyForm` | src/test/kotlin/au/com/outware/cerberus/util/GitTest.kt:147 | Each literal form with a non-empty literal compiles to "starts with lit" when it is anchored and has no leading `.*`, and to "contains lit" otherwise. |
| `Patterns.CompileEmptyForm` | src/test/kotlin/au/com/outware/cerberus/util/GitTest.kt:147 | Each form of the empty literal (such as `.*` or `^.*`) compiles to a shape with the empty literal, which is found in every line. |
| `Patterns.CompileRender` | src/test/kotlin/au/com/outware/cerberus/util/GitTest.kt:154-155 | Compiling the canonical text (`^lit.*`, `.*lit.*`, the default ticket pattern) of a well-formed pattern gives that pattern back. |
| `Patterns.CompileBareLiteral` | src/test/kotlin/au/com/outware/cerberus/util/GitTest.kt:106 | A metachar-free literal compiles to "found anywhere". The same literal after `^` compiles to "found at the start". |
| `Patterns.ContainsIff` | src/test/kotlin/au/com/outware/cerberus/util/GitTest.kt:147 | The sliding-window search finds a text exactly when it occurs at some position of the line. |
| `Patterns.MissingCharNotContained` | src/test/kotlin/au/com/outware/cerberus/util/GitTest.kt:146-150 | A literal containing a character the line lacks is not found in it. |
| `Patterns.RunEnd` | src/test/kotlin/au/com/outware/cerberus/util/GitTest.kt:66-69 | A greedy `+` run: every character between the start and the end is in the class, and the character at the end is not. |
| `Patterns.TagAtSound` | src/test/kotlin/au/com/outware/cerberus/util/GitTest.kt:66-69 | A key the matcher reads at a position is an issue key (`[A-Z]+-\d+`), and its bracketed tag occurs there. |
| `Patterns.TagAtComplete` | src/test/kotlin/au/com/outware/cerberus/util/GitTest.kt:66-69 | Where the tag of an issue key occurs, the matcher reads exactly that key. |
| `Patterns.ScanSound` | src/test/kotlin/au/com/outware/cerberus/util/GitTest.kt:71-80 | Every key the scan returns has its tag somewhere in the line. |
| `Patterns.TagsDoNotOverlap` | src/test/kotlin/au/com/outware/cerberus/util/GitTest.kt:74 | Two tags in a line never overlap: a later tag starts behind the closing bracket of an earlier one. |
| `Patterns.ScanComplete` | src/test/kotlin/au/com/outware/cerberus/util/GitTest.kt:66-80 | The scan skips no tag: the key of every tag anywhere in the line is among its keys. |
| `Patterns.ScanInPositionOrder` | src/test/kotlin/au/com/outware/cerberus/util/GitTest.kt:71-80 | Of two tags at positions p < q, the key at p is listed at some index before an index where the key at q is listed. |
| `Patterns.ScanLeftmostTag` | src/test/kotlin/au/com/outware/cerberus/util/GitTest.kt:71-80 | The scan begins with the key of the leftmost tag and continues with the scan of the text behind that tag's closing bracket. With `Patterns.ScanEmptyIff` this fixes the scan exactly: each tag's key once per tag, left to right, and nothing else. |
| `Patterns.ScanEmptyIff` | src/test/kotlin/au/com/outware/cerberus/util/GitTest.kt:82-90 | The scan finds nothing exactly when no tag of an issue key occurs anywhere in the line. |
| `Patterns.BracketedKeyMatches` | src/test/kotlin/au/com/outware/cerberus/util/GitTest.kt:82-102 | The ticket pattern is found in a line exactly when the line holds the tag of an issue key. |
| `Patterns.CapturesExactlyTags` | src/test/kotlin/au/com/outware/cerberus/util/GitTest.kt:66-80 | A key is captured from a line exactly when its bracketed tag occurs somewhere in that line. |
| `Patterns.CapturesInLineOrder` | src/test/kotlin/au/com/outware/cerberus/util/GitTest.kt:71-80 | Several tags in one line are captured left to right: the first capture is the key of the leftmost tag, followed by the captures of the line behind it. |
| `Patterns.CapturesLeadingTag` | src/test/kotlin/au/com/outware/cerberus/util/GitTest.kt:74 | A leading tag is captured first and is followed by the captures of the rest of the line. This covers compound tags such as `[CER-8][CER-9]`. |
| `Patterns.CapturesWithoutHyphen` | src/test/kotlin/au/com/outware/cerberus/util/GitTest.kt:84-87 | A line without a hyphen, such as `[TECH] …` or `Fake Commit One`, yields no capture. |
| `Sequences.DedupAfter` | src/test/kotlin/au/com/outware/cerberus/util/GitTest.kt:23 | The result is duplicate-free and avoids the keys already seen. It holds exactly the input's keys that were not already seen. |
| `Sequences.Dedup` | src/test/kotlin/au/com/outware/cerberus/util/GitTest.kt:23 | The result is duplicate-free and holds exactly the input's elements. |
| `Sequences.DedupFirstSeenOrder` | src/test/kotlin/au/com/outware/cerberus/util/GitTest.kt:77 | The result is a subsequence of the input, and any two keys come out in the order of their first occurrences. |
| `Sequences.DedupOfDistinct` | src/test/kotlin/au/com/outware/cerberus/util/GitTest.kt:66-69 | A duplicate-free list comes back unchanged, so the test's distinct keys appear exactly as captured. |
| `Sequences.DedupIdempotent` | src/test/kotlin/au/com/outware/cerberus/util/GitTest.kt:23 | Deduplicating twice is the same as deduplicating once. |
| `Sequences.DedupAfterAppend` | src/test/kotlin/au/com/outware/cerberus/util/GitTest.kt:15-23 | Deduplicating a concatenation gives the first part's result, then the second part's new keys. |
| `Sequences.FilterMembers` | src/test/kotlin/au/com/outware/cerberus/util/GitTest.kt:24 | An element is kept exactly when it is in the input and passes the test. |
| `Sequences.FilterIsSubsequence` | src/test/kotlin/au/com/outware/cerberus/util/GitTest.kt:24 | The kept elements are a subsequence of the input, so input order is preserved. |
| `Sequences.FilterCount` | src/test/kotlin/au/com/outware/cerberus/util/GitTest.kt:24 | A kept element appears as often as in the input. A rejected element does not appear. |
| `Sequences.FilterPartition` | src/test/kotlin/au/com/outware/cerberus/util/GitTest.kt:157-163 | The lines a test keeps and the lines its negation keeps together make up the input. |
| `Sequences.FilterIdempotent` | src/test/kotlin/au/com/outware/cerberus/util/GitTest.kt:152-166 | Filtering a filtered list again changes nothing. |
| `Sequences.FilterAppend` | src/test/kotlin/au/com/outware/cerberus/util/GitTest.kt:15-21 | Filtering a concatenation filters each part. |
| `Git.Keep` | src/test/kotlin/au/com/outware/cerberus/util/GitTest.kt:24 | A line is kept exactly when it is in the input and the pattern's being found in it agrees with the requested polarity. |
| `Git.IgnoreFilter` | src/test/kotlin/au/com/outware/cerberus/util/GitTest.kt:104-117 | A line survives exactly when it is in the log and the ignore pattern is not set or is not found in it. |
| `Git.ExtractTickets` | src/test/kotlin/au/com/outware/cerberus/util/GitTest.kt:66-80 | The result is duplicate-free. A key is in it exactly when some line captures it. |
| `Git.ExtractPassthrough` | src/test/kotlin/au/com/outware/cerberus/util/GitTest.kt:145-150 | A line is passed through exactly when it is in the log and the pattern is found in it. |
| `Git.GetTicketsFromCommitHistory` | src/test/kotlin/au/com/outware/cerberus/util/GitTest.kt:37-64 | A null or empty ticket pattern gives no tickets, whatever the log and the other settings. Any successful result is duplicate-free. |
| `Git.GetPassthroughChangesFromCommitHistory` | src/test/kotlin/au/com/outware/cerberus/util/GitTest.kt:123-143 | A null or empty passthrough pattern gives no lines, whatever the log and the ignore setting. |
| `Git.KeepCount` | src/test/kotlin/au/com/outware/cerberus/util/GitTest.kt:24 | A selected line keeps all its occurrences. Nothing is deduplicated. |
| `Git.KeepPartition` | src/test/kotlin/au/com/outware/cerberus/util/GitTest.kt:157-163 | The lines a pattern is found in and the lines it is not found in together make up the log. |
| `Git.IgnoreFilterAppend` | src/test/kotlin/au/com/outware/cerberus/util/GitTest.kt:108-113 | The ignore filter works line by line: filtering a concatenation filters each part. |
| `Git.IgnoreFilterIsSubsequence` | src/test/kotlin/au/com/outware/cerberus/util/GitTest.kt:108-114 | The surviving lines keep their log order. |
| `Git.IgnoreFilterIdempotent` | src/test/kotlin/au/com/outware/cerberus/util/GitTest.kt:104-117 | Filtering an already filtered log removes nothing more. |
| `Git.AllCapturesAppend` | src/test/kotlin/au/com/outware/cerberus/util/GitTest.kt:73-77 | The captures of a concatenated log are the first part's captures followed by the second part's. |
| `Git.AllCapturesIff` | src/test/kotlin/au/com/outware/cerberus/util/GitTest.kt:66-80 | A key is captured from the log exactly when some line captures it. |
| `Git.TicketPatternErrors` | src/test/kotlin/au/com/outware/cerberus/util/GitTest.kt:59-64 | A ticket pattern that is set but does not compile, or compiles without group 1, yields an error naming that text. With a usable ticket pattern, an ignore pattern that is set but does not compile yields an error naming its text, never "ignore nothing". Neither yields an empty result. |
| `Git.TicketsOfEmptyLog` | src/test/kotlin/au/com/outware/cerberus/util/GitTest.kt:46-50 | An empty log gives no tickets under any usable settings. |
| `Git.TicketsAreCapturesOfKeptLines` | src/test/kotlin/au/com/outware/cerberus/util/GitTest.kt:104-117 | The tickets are duplicate-free. A key is in them exactly when some line that the ignore pattern leaves captures it. |
| `Git.TicketsAreTagsOfKeptLines` | src/test/kotlin/au/com/outware/cerberus/util/GitTest.kt:104-117 | A key is among the tickets exactly when its tag occurs in some line the ignore pattern leaves. |
| `Git.TicketsInLogOrder` | src/test/kotlin/au/com/outware/cerberus/util/GitTest.kt:66-80 | The tickets of `a + b` are the tickets of `a`, followed by the keys of `b` not yet seen, in first-seen order. |
| `Git.CapturesSkipLine` | src/test/kotlin/au/com/outware/cerberus/util/GitTest.kt:92-102 | Removing an ignored line, or one without tags, from anywhere in the log leaves the captured keys unchanged. |
| `Git.LineWithoutCaptures` | src/test/kotlin/au/com/outware/cerberus/util/GitTest.kt:84-87 | An ignored line, or one without tags, contributes no captures. |
| `Git.TicketsSkipLine` | src/test/kotlin/au/com/outware/cerberus/util/GitTest.kt:92-117 | Adding an ignored line, or one without tags, anywhere in the log leaves the tickets unchanged. |
| `Git.PassthroughPatternErrors` | src/test/kotlin/au/com/outware/cerberus/util/GitTest.kt:131-136 | A passthrough pattern that is set but does not compile yields an error naming that text. With a usable passthrough pattern, an ignore pattern that is set but does not compile yields an error naming its text, never "ignore nothing". Neither yields an empty result. |
| `Git.PassthroughSelectsKeptLines` | src/test/kotlin/au/com/outware/cerberus/util/GitTest.kt:145-166 | The passthrough changes are a subsequence of the log. A line is in them exactly when the ignore pattern leaves it and the passthrough pattern is found in it. Each such line appears as often as the log holds it. |
| `Git.PassthroughIdempotent` | src/test/kotlin/au/com/outware/cerberus/util/GitTest.kt:152-166 | Running the passthrough changes through the same settings again returns them unchanged. |
| `GitTest.HashIgnoreCompiles` | src/test/kotlin/au/com/outware/cerberus/util/GitTest.kt:106 | `^#.*` selects "starts with `#`". |
| `GitTest.TechPassthroughCompiles` | src/test/kotlin/au/com/outware/cerberus/util/GitTest.kt:147 | `.*TECH.*` selects "contains `TECH`". |
| `GitTest.EmptyGitLog` | src/test/kotlin/au/com/outware/cerberus/util/GitTest.kt:45-50 | An empty log under the default settings gives no tickets. |
| `GitTest.NullTicketRegex` | src/test/kotlin/au/com/outware/cerberus/util/GitTest.kt:52-57 | A null ticket pattern gives no tickets from the populated log. |
| `GitTest.InvalidTicketRegex` | src/test/kotlin/au/com/outware/cerberus/util/GitTest.kt:59-64 | An empty ticket pattern gives no tickets from the populated log. |
| `GitTest.StandardThreeTicketExtraction` | src/test/kotlin/au/com/outware/cerberus/util/GitTest.kt:15-23 | The populated log gives `CER-8`, `CER-9` and `CER-10` in that order. The `[TECH]` lines contribute nothing. |
| `GitTest.CompoundThreeTicketExtraction` | src/test/kotlin/au/com/outware/cerberus/util/GitTest.kt:71-80 | `[CER-8][CER-9] …` followed by `[CER-10] …` gives `CER-8`, `CER-9` and `CER-10`. |
| `GitTest.ZeroTicketExtraction` | src/test/kotlin/au/com/outware/cerberus/util/GitTest.kt:82-90 | Untagged subjects give no tickets. |
| `GitTest.SomeTicketExtraction` | src/test/kotlin/au/com/outware/cerberus/util/GitTest.kt:92-102 | Two untagged subjects followed by `[CER-8] Commit Three` give `CER-8`. |
| `GitTest.CommitExclusionFilter` | src/test/kotlin/au/com/outware/cerberus/util/GitTest.kt:104-117 | Under `^#.*`, the `#` subjects are dropped before extraction, leaving `CER-10` and `CER-11`. |
| `GitTest.EmptyInclusionRegex` | src/test/kotlin/au/com/outware/cerberus/util/GitTest.kt:131-136 | An empty passthrough pattern passes nothing through. |
| `GitTest.NullInclusionRegex` | src/test/kotlin/au/com/outware/cerberus/util/GitTest.kt:138-143 | A null passthrough pattern passes nothing through. |
| `GitTest.CommitInclusionFilter` | src/test/kotlin/au/com/outware/cerberus/util/GitTest.kt:145-150 | `.*TECH.*` passes the two `[TECH]` subjects of the populated log through, verbatim and in order. |
| `GitTest.CommitInclusionAndExclusionFilter` | src/test/kotlin/au/com/outware/cerberus/util/GitTest.kt:152-166 | With `.*TECH.*` and `^#.*` together, the ignored `#[TECH] …` line is not passed through. Only `[TECH] Fake Commit Three` remains. |

## Left out

- Regular expressions in general. The model interprets only these pattern texts:
  - a literal without metacharacters, optionally anchored with `^`, optionally wrapped in `.*`;
  - the default ticket pattern.

  Any other text compiles to an `Unrecognised` error. In the plugin such a text could still be a valid Java regular expression.
- Invalid regular expressions. Compiling such a text with `java.util.regex.Pattern.compile` throws a `PatternSyntaxException`; the model does not distinguish that from the `Unrecognised` error.
- Line terminators inside a log line. Each line is one commit subject and is assumed to hold none. Under Java's rules `.` does not match a line terminator and `^` holds only at the start of the input, so for a line holding one `^.*lit` (which the model reads as "contains lit") could fail to match where the model matches.
- `GitLogProvider` and the git invocation. The log is an input sequence of lines, so a failing git call (`GitInvocationException`) is not modelled.
- The Jira client, `JiraClientException`, the Gradle tasks and the plugin wiring: none of these is part of the classification.
- The text of the default ticket pattern. The model assumes `\[([A-Z]+-\d+)\]`, because `CerberusPluginExtension` is not part of this model.
- The implementation of the two pipeline functions, which is not part of this model. The behaviour follows the assertions of `GitTest.kt`.
- `Config.Default`: the passthrough and ignore defaults are assumed null. The ticket default is assumed to be the ticket pattern above. Every lemma about the default settings depends on these assumptions.
- Deduplication of ticket keys: the model adopts stable first-seen deduplication as its rule. No test holds a repeated key, so the tests neither require nor contradict it.
- The process-wide mutable `CerberusPlugin.properties` object. It becomes an explicit `Config` value passed to each pipeline call, and each test's `@Before` reset becomes `Config.Default`.
- `Git.TicketsAreCapturesOfKeptLines`: it states the tickets' members, not their order. The order follows from the captures of each line, fixed exactly by `Patterns.ScanLeftmostTag` and `Patterns.ScanEmptyIff`, and from `Sequences.DedupFirstSeenOrder`; across lines it is stated by `Git.TicketsInLogOrder`. No single lemma states the order of the deduplicated keys inside one line.
- `Git.GetPassthroughChangesFromCommitHistory`: its own contract covers only the switched-off case. Selection, order and multiplicity are stated in `Git.PassthroughSelectsKeptLines`.
