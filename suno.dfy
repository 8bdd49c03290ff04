/** `generate_suno_prompt` and the result panel of the two Suno pages
    (music123.py:101-209, music55.py:120-204). The pages differ only in their
    demo fixture, their prompt f-string and their heading texts, collected in a
    `Page` value. */
module Suno {
  import opened Text
  import opened Tags
  import opened Template
  import opened Provider

  /** The constants that make up one Suno page. */
  datatype Page = Page(mock: string, template: seq<Piece>, headings: Headings)

  const ErrorPrefix := "Error: "

  /** `generate_suno_prompt`: without an API key the demo fixture, otherwise the
      provider's answer to the interpolated prompt, or `Error: ` and the
      exception message. The key is the sidebar value, passed explicitly. */
  function Generate(p: Page, apiKey: string, req: Request, call: string -> Reply): string
  {
    if apiKey == "" then p.mock
    else
      match call(Interpolate(p.template, req))
      case Reply(text) => text
      case Failure(message) => ErrorPrefix + message
  }

  /** What the result column shows after the button is pressed. */
  datatype Screen =
    | MissingFields                          // the warning asking for genre and theme
    | Shown(display: string, demo: bool)     // the rendered text, and whether the demo caption is added

  /** The button handler as written: genre and theme must both be given (mood
      need not); then the generated text goes through the render chain in the
      page's order (`Tags.Render`) and is shown, with the demo caption when
      there is no key. */
  function OnGenerate(p: Page, apiKey: string, req: Request, call: string -> Reply): Screen
  {
    if req.genre == "" || req.theme == "" then MissingFields
    else Shown(Render(Generate(p, apiKey, req, call), p.headings), apiKey == "")
  }

  /** The same handler with the corrected chain, markers first
      (`Tags.RenderIntended`). */
  function OnGenerateIntended(p: Page, apiKey: string, req: Request, call: string -> Reply): Screen
  {
    if req.genre == "" || req.theme == "" then MissingFields
    else Shown(RenderIntended(Generate(p, apiKey, req, call), p.headings), apiKey == "")
  }

  /** Something is generated exactly when genre and theme are both non-empty;
      mood, structure and language play no part in the guard. */
  lemma GuardNeedsGenreAndTheme(p: Page, apiKey: string, req: Request, call: string -> Reply)
    ensures OnGenerate(p, apiKey, req, call).Shown? <==> req.genre != "" && req.theme != ""
    ensures OnGenerate(p, apiKey, req, call).MissingFields? ==>
              forall key, c :: OnGenerate(p, key, req, c) == MissingFields
  {
  }

  /** Without a key the result is the fixture, whatever the inputs and the provider. */
  lemma DemoIgnoresInputs(p: Page, req1: Request, req2: Request, call1: string -> Reply, call2: string -> Reply)
    ensures Generate(p, "", req1, call1) == p.mock
    ensures Generate(p, "", req1, call1) == Generate(p, "", req2, call2)
  {
  }

  /** With a key, the provider receives the interpolated prompt and its text is
      returned as it is. */
  lemma KeyedCallAnswers(p: Page, apiKey: string, req: Request, call: string -> Reply)
    requires apiKey != ""
    requires call(Interpolate(p.template, req)).Reply?
    ensures Generate(p, apiKey, req, call) == call(Interpolate(p.template, req)).text
  {
  }

  /** A provider failure becomes a string that starts with `Error: `. The chain
      keeps that prefix in front and only highlights the brackets of the
      exception message. */
  lemma FailureShown(p: Page, apiKey: string, req: Request, call: string -> Reply)
    requires apiKey != "" && req.genre != "" && req.theme != ""
    requires call(Interpolate(p.template, req)).Failure?
    ensures Generate(p, apiKey, req, call)[..|ErrorPrefix|] == ErrorPrefix
    ensures OnGenerate(p, apiKey, req, call)
         == Shown(ErrorPrefix + HighlightTags(call(Interpolate(p.template, req)).message), false)
  {
    var m := call(Interpolate(p.template, req)).message;
    assert '[' !in ErrorPrefix && ']' !in ErrorPrefix;
    RenderPrefix(ErrorPrefix, m, p.headings);
    RenderIsHighlight(m, p.headings);
  }

  /** With the corrected chain the failure is shown with the same prefix, and
      the message is rendered on its own. */
  lemma FailureShownIntended(p: Page, apiKey: string, req: Request, call: string -> Reply)
    requires apiKey != "" && req.genre != "" && req.theme != ""
    requires call(Interpolate(p.template, req)).Failure?
    ensures OnGenerateIntended(p, apiKey, req, call)
         == Shown(ErrorPrefix + RenderIntended(call(Interpolate(p.template, req)).message, p.headings), false)
  {
    var m := call(Interpolate(p.template, req)).message;
    assert '[' !in ErrorPrefix && ']' !in ErrorPrefix && '*' !in ErrorPrefix;
    RenderIntendedPrefix(ErrorPrefix, m, p.headings);
  }

  /** Bracket-free generated text is shown exactly as generated. */
  lemma PlainTextShownUnchanged(p: Page, apiKey: string, req: Request, call: string -> Reply)
    requires req.genre != "" && req.theme != ""
    requires var g := Generate(p, apiKey, req, call); '[' !in g && ']' !in g
    ensures OnGenerate(p, apiKey, req, call).Shown?
    ensures OnGenerate(p, apiKey, req, call).display == Generate(p, apiKey, req, call)
  {
    RenderPlain(Generate(p, apiKey, req, call), p.headings);
  }

  /** Both handlers show the same page for generated text without `*`, which
      holds no marker: the two chains differ only where a marker occurs. */
  lemma HandlersAgreeWithoutMarkers(p: Page, apiKey: string, req: Request, call: string -> Reply)
    requires '*' !in Generate(p, apiKey, req, call)
    ensures OnGenerate(p, apiKey, req, call) == OnGenerateIntended(p, apiKey, req, call)
  {
    var g := Generate(p, apiKey, req, call);
    RenderIsHighlight(g, p.headings);
    RenderIntendedPlain(g, p.headings);
  }

  /** Without a key, a page whose fixture opens with the style marker shows the
      fixture as its tag highlighting alone, with the demo caption: the display
      opens with the marker's own `**` instead of the style heading. */
  lemma DemoPage(p: Page, body: string, req: Request, call: string -> Reply)
    requires p.mock == StyleMarker + body
    requires req.genre != "" && req.theme != ""
    ensures OnGenerate(p, "", req, call) == Shown(HighlightTags(p.mock), true)
    ensures var d := OnGenerate(p, "", req, call).display; |d| >= 2 && d[..2] == "**"
  {
    RenderIsHighlight(p.mock, p.headings);
    RenderLeavesStyleMarker(body, p.headings);
  }

  /** With the corrected chain, the same fixture is shown opening with the style
      heading, with the demo caption. */
  lemma DemoPageIntended(p: Page, body: string, req: Request, call: string -> Reply)
    requires p.mock == StyleMarker + body && PlainHeadings(p.headings)
    requires req.genre != "" && req.theme != ""
    ensures OnGenerateIntended(p, "", req, call) == Shown(RenderIntended(p.mock, p.headings), true)
    ensures var d := OnGenerateIntended(p, "", req, call).display;
      |d| >= |p.headings.style| && d[..|p.headings.style|] == p.headings.style
  {
    RenderIntendedOpensWithStyle(body, p.headings);
  }
}
