# Lyric generator pages, modelled in Dafny

The repository holds four single-file lyric generators. Each page takes a genre,
a theme, a mood (and on some pages a song structure and a language), builds a
prompt for a language model, calls the model, and shows the text it gets back.

- `music123.py` and `music55.py` are Streamlit pages for Suno-style lyrics.
  `generate_suno_prompt` returns a fixed demo fixture when no API key is given.
  Otherwise it fills an f-string prompt with all five form values and returns
  the model's text or `Error: ` plus the exception message. The result goes
  through a render chain. That chain wraps every `[` and `]` in a highlight
  span and is meant to replace the markers `**[Style Prompt]**` and
  `**[Lyrics]**` with styled headings.
- `music1.py` is a Streamlit page for Google Gemini. Its guard is an if/elif
  chain. The prompt is a list of parts: the role line, one line per filled
  field and a closing instruction, joined with line breaks.
- `music.py` is a React component. `generateLyrics` sets `loading`, clears the
  lyrics, awaits the request and keeps only the `text` items of the reply. In
  `finally` it clears `loading`.

The Dafny modules follow that structure:

| module | file | what it holds |
|---|---|---|
| `Text` | text.dfy | Python's `str.replace` (including the empty pattern), `join`, `split("\n")` |
| `Provider` | provider.dfy | a provider call's outcome: text or a failure message |
| `Tags` | tags.dfy | the render chain as written (`Render`), the corrected chain (`RenderIntended`) and a character-by-character reference (`WrapAll`) |
| `Template` | template.dfy | f-strings as literal pieces and field slots |
| `Suno` | suno.dfy | `generate_suno_prompt` and the button handler shared by both Suno pages, as written and with the corrected chain, and the facts that hold for any page |
| `Music123`, `Music55` | music123.dfy, music55.dfy | each page's fixture, prompt f-string and headings, verbatim, and the facts about them |
| `GeminiLyrics` | music1.dfy | the Gemini page: `BuildPrompt` grows the parts list step by step; `OnGenerate` is the if/elif guard |
| `ReactLyrics` | music.dfy | the prompt template literal, the reply extraction, and a `LyricsGenerator` class |

In the `LyricsGenerator` class, `Begin` and `Complete` are the two halves of the
`async` handler, with the await between them.

External calls become parameters:

- The provider call is a function `call: string -> Reply` in the Python pages.
- The settled request is a `Completion` value passed to `Complete` in the React page.
- The sidebar API key is an explicit `apiKey` argument.

Two details of the render chain:

- The code wraps each bracket on its own, not each bracketed substring. So an
  unmatched `[` or `]` is still wrapped.
- The code runs the heading substitution after the tag step, where it never
  fires (see Findings). `Tags.Render` and `Suno.OnGenerate` keep the order as
  written. `Tags.RenderIntended` and `Suno.OnGenerateIntended` are the
  corrected order, markers first.

## Model

| member | source | states |
|---|---|---|
| `Text.ReplaceAll` | music123.py:201 | Python's `str.replace`: every non-overlapping match, taken from the left, is replaced. Its properties are `Text.ReplaceAbsent` (no match leaves the text unchanged), `Text.ReplaceAllChar` (a one-character pattern is replaced character by character), `Text.ReplaceAllAtMatch` and `Text.ReplaceAllSkip` (a match at the front is replaced, and a prefix that holds no match is kept). |
| `Tags.HighlightTags` | music123.py:201 | The tag step, the two `str.replace` calls in that order. What it computes is stated by `Tags.HighlightIsWrap`, `Tags.HighlightLength`, `Tags.HighlightPlain` and `Tags.HighlightGuarded`. |
| `Tags.Render` | music123.py:201-203 | The whole chain in the page's order, tag step first. `Tags.RenderIsHighlight` proves it equal to the tag step alone, and `Tags.RenderPlain` and `Tags.RenderPrefix` follow from that. |
| `Tags.HighlightIsWrap` | music123.py:201 | The first step equals the reference `WrapAll`: each `[` becomes `<span class='tag'>[`, each `]` becomes `]</span>`, and every other character is kept in order (the same holds for music55.py:197). |
| `Tags.HighlightLength` | music123.py:201 | The first step adds exactly 18 characters per `[` and 7 per `]`, and changes the length in no other way. |
| `Tags.HighlightPlain` | music123.py:201 | Text with neither bracket passes through the first step unchanged. |
| `Tags.HighlightGuarded` | music123.py:201 | After the first step every `[` is immediately preceded by `>`. |
| `Tags.GuardedExcludes` | music123.py:202-203 | A pattern containing `*[` cannot occur in text where every `[` follows `>`. |
| `Tags.RenderIsHighlight` | music123.py:201-203 | The whole chain as written equals the first step alone, for any headings: lines 202-203 (and music55.py:198-199) never change the text. |
| `Tags.RenderPlain` | music123.py:201-203 | Bracket-free text passes through the whole chain as written unchanged. |
| `Tags.RenderLeavesStyleMarker` | music123.py:202 | A text opening with `**[Style Prompt]**` is still displayed opening with the marker's own `**`. |
| `Tags.RenderLeavesLyricsMarker` | music123.py:203 | A text opening with `**[Lyrics]**` is still displayed opening with the marker's own `**`. |
| `Tags.RenderIntendedPlain` | music123.py:201-203 | With headings first, text without `*` is only tag-highlighted. |
| `Tags.RenderIntendedBracketFree` | music123.py:201-203 | With headings first, bracket-free text is shown unchanged unchanged. |
| `Tags.RenderIntendedSections` | music123.py:201-203 | With headings first, marker + style section + marker + lyrics section is shown as style heading, highlighted section, lyrics heading, highlighted section. |
| `Tags.RenderIntendedOpensWithStyle` | music123.py:202 | With headings first, a text opening with the style marker is shown opening with the style heading. |
| `Tags.RenderPrefix` | music123.py:201-203 | A bracket-free prefix, such as the `Error: ` of line 184, is kept in front by the chain as written, and the rest is rendered on its own. |
| `Tags.RenderIntendedPrefix` | music123.py:201-203 | With headings first, a prefix without brackets or `*`, such as `Error: `, is kept in front, and the rest is rendered on its own. |
| `Template.Interpolate` | music123.py:160-179 | Evaluating the f-string: literal text kept and each slot replaced by its field's value. It is described by `Template.InterpolateLength`, `Template.SlotShowsValue`, `Template.SlotsInOrder` and `Template.EveryFieldShown`. |
| `Template.InterpolateLength` | music123.py:160-179 | An f-string's result is as long as its literal text plus each field value once per slot of that field. |
| `Template.SlotShowsValue` | music123.py:160-179 | Each slot's field value appears verbatim at that slot's offset in the prompt. |
| `Template.SlotsInOrder` | music123.py:160-179 | A later slot starts after an earlier slot's value ends. |
| `Template.EveryFieldShown` | music123.py:160-179 | When every field has a slot, the prompt contains every form value, empty or not. |
| `Suno.Generate` | music123.py:100-184 | `generate_suno_prompt`: the fixture without a key, otherwise the provider's text or `Error: ` and the message (music55.py:119-180 is the same). Stated by `Suno.DemoIgnoresInputs`, `Suno.KeyedCallAnswers` and `Suno.FailureShown`. |
| `Suno.OnGenerate` | music123.py:193-209 | The button handler as written: the genre-and-theme guard, then `Tags.Render` of the generated text, with the demo caption exactly when there is no key. Stated by `Suno.GuardNeedsGenreAndTheme`, `Suno.FailureShown`, `Suno.PlainTextShownUnchanged` and `Suno.DemoPage`. |
| `Suno.OnGenerateIntended` | music123.py:193-209 | The same handler with the markers substituted first. Stated by `Suno.FailureShownIntended`, `Suno.DemoPageIntended` and `Suno.HandlersAgreeWithoutMarkers`. |
| `Suno.GuardNeedsGenreAndTheme` | music123.py:193-198 | Something is generated exactly when genre and theme are both non-empty; mood, structure and language play no part (the same guard is at music55.py:189-194). |
| `Suno.DemoIgnoresInputs` | music123.py:103-105 | Without a key the result is the fixture, whatever the form values and the provider. |
| `Suno.KeyedCallAnswers` | music123.py:157-182 | With a key, the provider receives the interpolated prompt and its text is returned unchanged. |
| `Suno.FailureShown` | music123.py:183-205 | A provider failure gives a string starting with `Error: `. The page shows that prefix followed by the exception message with its brackets highlighted, and no demo caption. |
| `Suno.FailureShownIntended` | music123.py:183-205 | With the corrected chain, a failure is shown as `Error: ` followed by the message rendered on its own. |
| `Suno.PlainTextShownUnchanged` | music123.py:198-205 | Generated text without brackets is displayed exactly as generated. |
| `Suno.HandlersAgreeWithoutMarkers` | music123.py:201-203 | For generated text without `*` the page as written and the corrected page show the same thing: the two chains differ only where a marker can occur. |
| `Suno.DemoPage` | music123.py:193-209 | Without a key, a page whose fixture opens with the style marker shows the fixture's tag highlighting alone, opening with `**`, with the demo caption (the same holds for music55.py:189-204). |
| `Suno.DemoPageIntended` | music123.py:193-209 | With the corrected chain, such a fixture is shown opening with the page's style heading when the headings hold no bracket or `*`. |
| `Music123.HeadingsPlain` | music123.py:202-203 | Neither heading of this page contains a bracket or `*`. |
| `Music123.PromptSlots` | music123.py:160-179 | The prompt has one slot each for genre, theme, mood and language, and two for structure. |
| `Music123.PromptShowsEveryField` | music123.py:165-169 | With a key, the prompt contains every one of the five values, even empty ones. |
| `Music123.PromptLength` | music123.py:160-179 | The prompt is its literal text plus each value once and structure twice. |
| `Music123.PromptRepeatsStructure` | music123.py:168-177 | The structure value appears at two non-overlapping places: the field list and the placement instruction. |
| `Music123.DemoShownWithMarker` | music123.py:193-209 | Without a key and with genre and theme given, this page shows its fixture as the tag highlighting alone, with the demo caption, opening with `**` rather than the style heading. |
| `Music123.DemoShownWithHeading` | music123.py:202 | With the corrected chain, this page's fixture is shown opening with its style heading. |
| `Music55.HeadingsPlain` | music55.py:198-199 | Neither heading of this page contains a bracket or `*`. |
| `Music55.PromptSlots` | music55.py:158-175 | The prompt has exactly one slot for each of the five fields. |
| `Music55.PromptShowsEveryField` | music55.py:163-167 | With a key, the prompt contains every one of the five values, even empty ones. |
| `Music55.PromptLength` | music55.py:158-175 | The prompt is its literal text plus each value exactly once. |
| `Music55.DemoShownWithMarker` | music55.py:189-204 | Without a key and with genre and theme given, this page shows its fixture as the tag highlighting alone, with the demo caption, opening with `**`. |
| `Music55.DemoShownWithHeading` | music55.py:198 | With the corrected chain, this page's fixture is shown opening with its style heading. |
| `GeminiLyrics.LangText` | music1.py:91 | `lang_text`, stated by `GeminiLyrics.LangTextChoice`. |
| `GeminiLyrics.PromptParts` | music1.py:92-103 | The finished `prompt_parts` list: the role line, one line per filled field, the closing part. Stated by `GeminiLyrics.PartsShape`, `GeminiLyrics.FieldsInOrder` and `GeminiLyrics.PromptLines`, and reached step by step by `GeminiLyrics.BuildPrompt`. |
| `GeminiLyrics.BuildPrompt` | music1.py:92-105 | After the conditional appends, the parts list is the reference `PromptParts`, and the prompt is the parts joined with `"\n"`. |
| `GeminiLyrics.LangTextChoice` | music1.py:91 | `lang_text` is `한국어` exactly when `한국어` is selected, and `영어` for any other value, including `English`. |
| `GeminiLyrics.PartsShape` | music1.py:92-103 | The role line is the first part and the closing instruction the last. There are 2 + (number of filled fields) parts. |
| `GeminiLyrics.FieldsInOrder` | music1.py:96-101 | Each filled field has one labelled line, in the order genre, theme, mood, placed after the filled fields before it. |
| `GeminiLyrics.BlankLineBeforeClosing` | music1.py:103-105 | Because the closing part starts with its own line break, the prompt ends with two line breaks and then the instruction. |
| `GeminiLyrics.PromptLines` | music1.py:92-105 | When no input contains a line break, splitting the prompt gives the parts before the closing, one empty line and the instruction; that blank line is the only empty one. |
| `GeminiLyrics.FileName` | music1.py:132 | `f"lyrics_{language}.txt"`, stated by `GeminiLyrics.FileNameNamesLanguage`. |
| `GeminiLyrics.FileNameNamesLanguage` | music1.py:132 | The download name is `lyrics_` + language + `.txt`: the language can be read back from it, so different languages get different names. |
| `GeminiLyrics.OnGenerate` | music1.py:76-137 | All fields empty: the fields error, whatever the key, and nothing is sent. Otherwise no key: the key error, and nothing is sent. Otherwise the built prompt is sent once, and the result is the lyrics with the file name or the failure message. |
| `GeminiLyrics.FailureMessage` | music1.py:137 | The error shown when the call fails, stated by `GeminiLyrics.FailureMessageShowsMessage`. |
| `GeminiLyrics.FailureMessageShowsMessage` | music1.py:136-137 | The failure message starts with its fixed lead and shows the exception message right after it. |
| `ReactLyrics.LangWord` | music.py:22 | The language word of the first line, stated by `ReactLyrics.LangWordChoice`. |
| `ReactLyrics.ReactPrompt` | music.py:22-27 | The prompt template literal, stated by `ReactLyrics.PromptIsJoin` and `ReactLyrics.PromptLines`. |
| `ReactLyrics.LangWordChoice` | music.py:22 | The first line names `한국어` exactly when the language is `'korean'`, and `영어` otherwise. |
| `ReactLyrics.PromptIsJoin` | music.py:22-27 | The template literal is its six lines joined with line breaks. |
| `ReactLyrics.PromptLines` | music.py:22-27 | When no field contains a line break, the prompt always has the same six lines. An empty field leaves an empty line at its place, a blank line comes fifth, and the closing instruction is last. |
| `ReactLyrics.TextItems` | music.py:47-48 | The filter keeps at most as many items as the reply has, and each kept item has type `text`; `ReactLyrics.TextItemsExact` and `ReactLyrics.TextItemsConcat` state the rest. |
| `ReactLyrics.Extract` | music.py:47-50 | The lyrics taken from a reply, stated by `ReactLyrics.ExtractSmall` and `ReactLyrics.ExtractLines`. |
| `ReactLyrics.Texts` | music.py:49 | The map keeps the length and takes each item's `text` at the same index. |
| `ReactLyrics.TextItemsConcat` | music.py:47-48 | The filter works item by item and keeps order: the text items of a concatenation are those of each part, in order. |
| `ReactLyrics.TextItemsExact` | music.py:47-48 | An item is kept exactly when it is in the reply and its type is `text`. |
| `ReactLyrics.ExtractSmall` | music.py:47-50 | A reply without text items gives empty lyrics. A reply with a single text item gives that item's text. |
| `ReactLyrics.ExtractLines` | music.py:47-50 | When no text contains a line break, splitting the lyrics gives back the texts of the text items, one per line. |
| `ReactLyrics.LyricsGenerator.constructor` | music.py:5-10 | The `useState` defaults: empty fields, language `korean`, empty lyrics, not loading. |
| `ReactLyrics.LyricsGenerator.SetGenre` | music.py:82 | The genre input's handler sets genre and keeps the state valid. |
| `ReactLyrics.LyricsGenerator.SetTheme` | music.py:92 | The theme input's handler sets theme. |
| `ReactLyrics.LyricsGenerator.SetMood` | music.py:105 | The mood input's handler sets mood. |
| `ReactLyrics.LyricsGenerator.SetLanguage` | music.py:114 | The select box's handler sets language. |
| `ReactLyrics.LyricsGenerator.Begin` | music.py:12-29 | All fields empty: one alert, and `loading` and `lyrics` are untouched. Otherwise `loading` is set, the lyrics are cleared, and the prompt built from the current fields is posted. |
| `ReactLyrics.LyricsGenerator.Complete` | music.py:46-58 | On success the lyrics are the extracted text. On failure an alert is shown and the lyrics stay empty. In both cases `loading` ends false. |

## Left out

- Page layout and rendering: Streamlit widgets, CSS, JSX, the spinner, the success message (music1.py:112), the `<div class="suno-box">` wrapper (music123.py:205) and the HTML box around the Gemini lyrics (music1.py:115-126). These are presentation, not logic. The React result panel (`{lyrics && …}`) is left out for the same reason.
- The network: `genai.configure`, `GenerativeModel`, `generate_content` and `fetch`. So are the request body (model name, `max_tokens`) and `response.json()`. They are foreign calls, modelled only by their outcome: the `call` parameter and the `Completion` value.
- `time.sleep(2)` in the demo branch (timing only).
- What can happen while a React request is outstanding, other than the input handlers. The await is modelled as the split between `Begin` and `Complete`.
- The content of exception messages (`str(e)`, `console.error`): a failure carries an arbitrary message.
- `st.download_button` I/O. Only its file name, and the lyrics it offers, are modelled.
- The text of the fixtures and prompts is kept verbatim. No lemma proves anything about their characters beyond what the other lemmas need. For example, no lemma proves that the fixture's sections contain no `*`. So the demo display is only stated at its start (`Music123.DemoShownWithHeading`) and not as a whole.
- Python reads the CRLF line endings of the source files as `\n` inside string literals, and JavaScript does the same inside template literals. The constants are written with `\n`.
- ReactLyrics.LyricsGenerator.Begin: requires that the button is enabled (`!loading`). The button is the handler's only caller, and it is disabled while loading (music.py:125).

## Findings

| source | as written | input that shows it | evidently intended | confidence | as-written member | corrected member |
|---|---|---|---|---|---|---|
| music123.py:201-203 | The marker substitutions run after the tag step, which puts `<span class='tag'>` before every `[`. After that, `**[Style Prompt]**` and `**[Lyrics]**` can no longer occur, so lines 202-203 never change the text. | The demo fixture (music123.py:105-154), which opens with `**[Style Prompt]**`. It is displayed with its `**` and a highlighted tag instead of the style heading. | Both markers are shown as the page's styled headings: substitute the markers first, then highlight the tags. | not executed | `Music123.DemoShownWithMarker` | `Music123.DemoShownWithHeading` |
| music55.py:197-199 | The same chain, in the same order: the substitutions at lines 198-199 never fire. | The demo fixture (music55.py:124-152), which opens with `**[Style Prompt]**`. | As above. | not executed | `Music55.DemoShownWithMarker` | `Music55.DemoShownWithHeading` |

The general form of the discrepancy is `Tags.RenderIsHighlight`: for every text
and any headings, the chain as written equals the tag step alone. The corrected
chain is `Tags.RenderIntended`, with `Tags.RenderIntendedSections` proved about
it, and the corrected button handler `Suno.OnGenerateIntended` uses it.
`Suno.HandlersAgreeWithoutMarkers` shows that the two handlers differ only for
text that holds a `*`.
