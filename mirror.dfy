/** "The Mirror": the digest of a user's platforms, the prompt around it, and the reply
    the analyze handler gives for a listing of the user's platforms. */
module Mirror {
  import opened Schema
  import opened Http
  import Text

  /** The reply when the user has no platforms; no text is generated for it. */
  const Fallback := "Connect some platforms first, rookie. I can't judge you if you don't show me your work."

  const FailureMessage := "AI Analysis failed"

  /** The object the text-generation client's `generateContent` resolves to; its
      generated text is the member `text`. */
  datatype GenerateContentResponse = GenerateContentResponse(text: string)

  /** The outcome of one `generateContent` call: resolved, or rejected (network,
      quota, authentication). */
  datatype EngineResult = Resolved(response: GenerateContentResponse) | Rejected

  /** One digest line: `name (username): <stats as JSON>`, with `ser` standing for `JSON.stringify`. */
  function Line(p: Platform, ser: Stats -> string): (line: string)
    ensures |line| == |p.name| + 2 + |p.username| + 3 + |ser(p.stats)|
    ensures line[..|p.name|] == p.name
    ensures line[|p.name| + 2..|p.name| + 2 + |p.username|] == p.username
    ensures line[|line| - |ser(p.stats)|..] == ser(p.stats)
  {
    p.name + " (" + p.username + "): " + ser(p.stats)
  }

  /** The digest's lines: one per platform, in listing order. */
  function Lines(ps: seq<Platform>, ser: Stats -> string): (ls: seq<string>)
    ensures |ls| == |ps|
    ensures forall i :: 0 <= i < |ps| ==> ls[i] == Line(ps[i], ser)
  {
    seq(|ps|, i requires 0 <= i < |ps| => Line(ps[i], ser))
  }

  /** The lines of all platforms, in listing order, joined by newlines. */
  function Digest(ps: seq<Platform>, ser: Stats -> string): (d: string)
    ensures ps == [] ==> d == ""
    ensures |ps| == 1 ==> d == Line(ps[0], ser)
  {
    Text.Join(Lines(ps, ser), "\n")
  }

  /** The digest holds exactly one line per platform, in listing order: splitting it on
      newlines gives back the lines, as long as no name, username or stats text holds one. */
  lemma DigestLines(ps: seq<Platform>, ser: Stats -> string)
    requires |ps| > 0
    requires forall i :: 0 <= i < |ps| ==> '\n' !in Line(ps[i], ser)
    ensures Text.Split(Digest(ps, ser), '\n') == Lines(ps, ser)
    ensures forall i :: 0 <= i < |ps| ==> Text.Split(Digest(ps, ser), '\n')[i] == Line(ps[i], ser)
  {
    assert "\n" == ['\n'];
    Text.SplitJoin(Lines(ps, ser), '\n');
  }

  /** Listing order is kept and nothing is merged: the digest of two listings one after
      the other is their two digests on consecutive lines, whatever the platform names. */
  lemma DigestAppend(a: seq<Platform>, b: seq<Platform>, ser: Stats -> string)
    requires |a| > 0 && |b| > 0
    ensures Digest(a + b, ser) == Digest(a, ser) + "\n" + Digest(b, ser)
  {
    assert Lines(a + b, ser) == Lines(a, ser) + Lines(b, ser);
    Text.JoinAppend(Lines(a, ser), Lines(b, ser), "\n");
  }

  const PromptHead :=
    "\n        You are \"The Mirror\", a ruthless senior engineer and career coach. " +
    "\n        Your goal is to critique this developer's stats brutally but constructively." +
    "\n        Identify gaps, weakness, and tell them the \"Brutal Reality\" of their hireability." +
    "\n        Finally, give a 30-day roadmap in Markdown." +
    "\n        " +
    "\n        Developer Stats:" +
    "\n        "

  const PromptTail :=
    "\n        " +
    "\n        Output Format:" +
    "\n        Markdown with sections: \"The Verdict\", \"Weaknesses\", \"The Brutal Reality\", \"30-Day Redemption Plan\"." +
    "\n      "

  /** The instructions with the digest in the middle. */
  function Prompt(digest: string): (p: string)
    ensures |p| == |PromptHead| + |digest| + |PromptTail|
    ensures p[|PromptHead|..|PromptHead| + |digest|] == digest
  {
    PromptHead + digest + PromptTail
  }

  /** The prompt sent to the engine for a listing, or None when nothing is sent. */
  function Request(ps: seq<Platform>, ser: Stats -> string): (sent: Option<string>)
    ensures sent.None? <==> ps == []
  {
    if ps == [] then None else Some(Prompt(Digest(ps, ser)))
  }

  /** How the handler reads the generated text off the resolved object. */
  function ReadText(resp: GenerateContentResponse): Option<string>
  {
    Some(resp.text)
  }

  /** The handler's reading as written, `response.response.text()`: the resolved
      object has no member `response`, so calling `text()` on it throws a TypeError. */
  function ReadAsWritten(resp: GenerateContentResponse): Option<string>
  {
    None
  }

  /** The analyze reply for listing `ps`, reading the generated text with `read`; a
      read that throws lands in the handler's catch like a rejected call. */
  function RespondWith(ps: seq<Platform>, ser: Stats -> string, generate: string -> EngineResult,
                       read: GenerateContentResponse -> Option<string>): Response
  {
    match Request(ps, ser)
    case None => Analysis(Fallback)
    case Some(prompt) =>
      match generate(prompt)
      case Rejected => ServerError(FailureMessage)
      case Resolved(resp) =>
        match read(resp)
        case Some(text) => Analysis(text)
        case None => ServerError(FailureMessage)
  }

  /** The analyze reply as evidently intended: the fallback without any call when there
      are no platforms; otherwise the engine's text for the prompt built from the digest,
      verbatim, or the 500 reply when the call fails. */
  function Respond(ps: seq<Platform>, ser: Stats -> string, generate: string -> EngineResult): (r: Response)
    ensures ps == [] ==> r == Analysis(Fallback)
    ensures ps != [] ==> match generate(Prompt(Digest(ps, ser)))
                         case Resolved(resp) => r == Analysis(resp.text)
                         case Rejected => r == ServerError(FailureMessage)
    ensures StatusCode(r) == 200 || r == ServerError(FailureMessage)
  {
    RespondWith(ps, ser, generate, ReadText)
  }

  /** The analyze reply as the handler is written: the fallback when there are no
      platforms, and otherwise the 500 reply, even when the engine answers. */
  function RespondAsWritten(ps: seq<Platform>, ser: Stats -> string, generate: string -> EngineResult): (r: Response)
    ensures ps == [] ==> r == Analysis(Fallback)
    ensures ps != [] ==> r == ServerError(FailureMessage)
  {
    RespondWith(ps, ser, generate, ReadAsWritten)
  }

  /** A concrete request that shows the difference: one GitHub link, an engine that answers. */
  lemma AsWrittenDiffers()
    ensures
      var p := Platform(7, "u1", "github", "alice", map[], GitHub(3, 12, 400, 2), 0);
      var ser := (s: Stats) => "{}";
      var generate := (prompt: string) => Resolved(GenerateContentResponse("The Verdict"));
      && Respond([p], ser, generate) == Analysis("The Verdict")
      && RespondAsWritten([p], ser, generate) == ServerError(FailureMessage)
  {
  }
}
