/**
 * The plugin's pattern settings, passed to each pipeline call as a value
 * instead of being read from a process-wide mutable settings object.
 */
module Config {
  import opened Wrappers
  import opened Patterns

  /** The three independently nullable pattern texts. */
  datatype Config = Config(
    ticketExtractionPattern: Option<string>,
    commitPassthroughPattern: Option<string>,
    commitIgnorePattern: Option<string>)

  /**
   * The settings each test starts from: the default ticket pattern set, the
   * passthrough and ignore patterns null. The extension object that holds the
   * plugin's real defaults is not part of this model, so these are assumed.
   */
  const Default: Config := Config(Some(TicketKeyPattern), None, None)

  /** A null setting and an empty one both switch their feature off. */
  predicate Disabled(setting: Option<string>) {
    setting.None? || setting == Some("")
  }

  /** The pattern a setting denotes: none when switched off, else its compiled shape. */
  function Resolve(setting: Option<string>): (r: Result<Option<Pattern>, PatternError>)
    ensures r == Ok(None) <==> Disabled(setting)
    ensures r.Ok? && r.value.Some? ==> setting.Some? && Compile(setting.value) == Ok(r.value.value)
    ensures r.Err? ==> setting.Some? && Compile(setting.value) == Err(r.error)
  {
    match setting
    case None => Ok(None)
    case Some(src) =>
      if src == "" then Ok(None)
      else match Compile(src)
        case Ok(p) => Ok(Some(p))
        case Err(e) => Err(e)
  }

  /** Setting the canonical text of a well-formed shape selects that shape. */
  lemma ResolveRender(p: Pattern)
    requires WellFormed(p)
    ensures Resolve(Some(Render(p))) == Ok(Some(p))
  {
    CompileRender(p);
    assert Render(p) != "" by {
      match p
      case Prefix(lit) => assert Render(p)[0] == '^';
      case Infix(lit) => assert Render(p)[0] == '.';
      case BracketedKey => assert Render(p)[0] == TicketKeyPattern[0];
    }
  }
}
