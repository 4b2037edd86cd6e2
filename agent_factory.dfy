/** Choosing the root agent from the configured agent mode. */
module AgentFactory {
  import opened Wrappers
  import opened Text

  /** A root agent, by name and the names of the stages it runs in order. */
  datatype RootAgent = SequentialAgent(name: string, subAgents: seq<string>)

  /** The alumni researcher: background information first, then the social
      media links, then the formatter that writes the structured record. */
  const AlumniResearcherAgent: RootAgent :=
    SequentialAgent("alumni_researcher_agent",
      ["background_information_agent", "social_media_agent", "formatter_agent"])

  /** The two ways `get_root_agent` raises: NotImplementedError and ValueError. */
  datatype FactoryError = NotImplemented(message: string) | InvalidMode(message: string)

  /** `mode.lower().strip()`. */
  function NormalizeMode(mode: string): string {
    Strip(Lower(mode))
  }

  function InvalidModeMessage(mode: string): string {
    "Invalid agent mode: " + mode + ". Supported modes: 'alumni_researcher', 'email_finder'"
  }

  /** `get_root_agent`: the normalised mode "alumni_researcher" selects the
      alumni researcher, "email_finder" is not implemented, and any other
      mode is refused with a message quoting the mode as given. */
  function GetRootAgent(mode: string): (r: Result<RootAgent, FactoryError>)
    ensures r.Success? <==> NormalizeMode(mode) == "alumni_researcher"
    ensures r.Success? ==> r.value == AlumniResearcherAgent
    ensures r.Failure? && r.error.NotImplemented? <==> NormalizeMode(mode) == "email_finder"
    ensures r.Failure? && r.error.InvalidMode? ==> r.error.message == InvalidModeMessage(mode)
  {
    var normalizedMode := NormalizeMode(mode);
    if normalizedMode == "alumni_researcher" then Success(AlumniResearcherAgent)
    else if normalizedMode == "email_finder" then
      Failure(NotImplemented("Email finder agent is not implemented yet."))
    else Failure(InvalidMode(InvalidModeMessage(mode)))
  }

  /** Lower-casing twice changes nothing. */
  lemma LowerIdempotent(s: string)
    ensures Lower(Lower(s)) == Lower(s)
  {
  }

  /** A string that is already lower case stays lower case when stripped. */
  lemma StripOfLower(s: string)
    requires Lower(s) == s
    ensures Lower(Strip(s)) == Strip(s)
  {
    var k, n := StripBounds(s);
    forall i | 0 <= i < |Strip(s)| ensures LowerChar(Strip(s)[i]) == Strip(s)[i] {
      assert Strip(s)[i] == s[k + i];
      assert LowerChar(s[k + i]) == Lower(s)[k + i];
    }
  }

  /** Normalising a normalised mode changes nothing, so a mode and its
      normalised form select the same agent. */
  lemma NormalizeIdempotent(mode: string)
    ensures NormalizeMode(NormalizeMode(mode)) == NormalizeMode(mode)
    ensures GetRootAgent(NormalizeMode(mode)).Success? == GetRootAgent(mode).Success?
  {
    var l := Lower(mode);
    LowerIdempotent(mode);
    StripOfLower(l);
    StripIdempotent(l);
  }

  /** Padding and capitals do not matter: "  Alumni_Researcher " selects the
      alumni researcher. */
  lemma PaddedModeAccepted()
    ensures GetRootAgent("  Alumni_Researcher ") == Success(AlumniResearcherAgent)
  {
    var word := "alumni_researcher";
    LowerOfLiteral("  Alumni_Researcher ", "  " + word + " ");
    StripPadded("  ", word, " ");
  }

  /** A refused mode is quoted as it was given, padding and capitals kept. */
  lemma RefusedModeQuotedAsGiven()
    ensures GetRootAgent(" Chat ") == Failure(InvalidMode(
      "Invalid agent mode: " + " Chat " + ". Supported modes: 'alumni_researcher', 'email_finder'"))
  {
    ChatNormalizes();
    assert NormalizeMode(" Chat ") != "alumni_researcher" && NormalizeMode(" Chat ") != "email_finder";
  }

  /** " Chat " normalises to "chat". */
  lemma ChatNormalizes()
    ensures NormalizeMode(" Chat ") == "chat"
  {
    LowerOfLiteral(" Chat ", " " + "chat" + " ");
    StripPadded(" ", "chat", " ");
  }
}
