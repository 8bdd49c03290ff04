/** The page-specific constants of music123.py and what they imply: the demo
    fixture (music123.py:105-154), the prompt f-string (music123.py:160-179) and the
    two headings of the render chain (music123.py:202-203). */
module Music123 {
  import opened Text
  import opened Tags
  import opened Template
  import opened Suno
  import opened Provider

  /** Style section of the fixture, between the two markers. */
  const MockStyle := "\n" +
    "Upbeat City Pop, Female Vocals, Groovy Bassline, 80s Retro Vibe, 120 BPM\n" +
    "\n"

  /** Lyrics section of the fixture, after the lyrics marker. */
  const MockLyrics := "\n" +
    "[Intro]\n" +
    "(Synthesizer Solo)\n" +
    "Yeah...\n" +
    "Neon lights calling...\n" +
    "\n" +
    "[Verse 1]\n" +
    "어두운 골목길을 지나\n" +
    "화려한 불빛 속으로 dive\n" +
    "오늘 밤은 아무 생각 마\n" +
    "Just feel the rhythm, feel the vibe\n" +
    "\n" +
    "[Pre-Chorus]\n" +
    "심장이 뛰는 소리가 들려? (Can you hear it?)\n" +
    "멈출 수 없는 이 기분 (So high)\n" +
    "\n" +
    "[Chorus]\n" +
    "춤을 춰, 도시의 별들 아래\n" +
    "We keep on dancing through the night\n" +
    "이 순간이 영원하길 바래\n" +
    "Shining so bright, holding you tight\n" +
    "\n" +
    "[Interlude]\n" +
    "(Saxophone Solo)\n" +
    "\n" +
    "[Verse 2]\n" +
    "차가운 바람도 우릴 못 막아\n" +
    "네 손을 잡고 어디든 갈게\n" +
    "복잡한 세상은 잠시 잊어\n" +
    "음악 속에 우리 둘만 남게\n" +
    "\n" +
    "[Chorus]\n" +
    "춤을 춰, 도시의 별들 아래\n" +
    "We keep on dancing through the night\n" +
    "이 순간이 영원하길 바래\n" +
    "Shining so bright, holding you tight\n" +
    "\n" +
    "[Bridge]\n" +
    "시간이 멈춘 듯해\n" +
    "새벽이 올 때까지\n" +
    "Don't stop the music\n" +
    "Oh yeah!\n" +
    "\n" +
    "[Outro]\n" +
    "Fade out...\n" +
    "Just you and me...\n" +
    "(End)"

  /** Everything of the fixture after the style marker. */
  const MockBody := MockStyle + LyricsMarker + MockLyrics

  /** The fixture returned without an API key: both markers, each followed by its section. */
  const Mock := StyleMarker + MockBody

  // The literal text of the prompt f-string, verbatim, including its indentation.
  const PromptText0 := "\n" +
    "        당신은 AI 음악 생성 서비스(Suno v3, Udio)를 위한 전문 작사가입니다.\n" +
    "        다음 정보에 맞춰 가사를 작성해 주세요.\n" +
    "        \n" +
    "        입력 정보:\n" +
    "        - 장르: "

  const PromptText1 := "\n" +
    "        - 주제: "

  const PromptText2 := "\n" +
    "        - 분위기: "

  const PromptText3 := "\n" +
    "        - 구조 타입: "

  const PromptText4 := "\n" +
    "        - 언어: "

  const PromptText5 := "\n" +
    "        \n" +
    "        [요구사항]\n" +
    "        1. 맨 윗줄에 Suno의 'Style of Music' 칸에 넣을 **영어 스타일 프롬프트**를 작성하세요. (악기, BPM, 보컬 성별 포함)\n" +
    "           형식: **[Style Prompt]** (내용)\n" +
    "        2. 그 아래에 가사를 작성하세요. Suno가 인식할 수 있는 태그를 반드시 포함하세요.\n" +
    "           필수 태그 예시: [Intro], [Verse], [Pre-Chorus], [Chorus], [Bridge], [Outro], [Instrumental Break], [Rap Verse] 등.\n" +
    "           형식: **[Lyrics]** (내용)\n" +
    "        3. 구조 타입 '"

  const PromptText6 := "'에 맞게 섹션을 배치하세요.\n" +
    "        4. 가사 중간에 (Ad-lib), (Backing Vocals) 같은 연출 지시어도 포함하세요.\n" +
    "        "

  /** The prompt f-string: its literal text with the five field slots. */
  const Prompt: seq<Piece> := [Lit(PromptText0), Slot(Genre), Lit(PromptText1), Slot(Theme), Lit(PromptText2), Slot(Mood), Lit(PromptText3), Slot(Structure), Lit(PromptText4), Slot(Lang), Lit(PromptText5), Slot(Structure), Lit(PromptText6)]

  /** The opening tag both headings share, with its inline style. */
  const HeadingOpen := "<strong style=" + "'color:#00f2ff; " + "font-size:1.1em;'>"

  const HeadingClose := "</strong>"

  /** The heading that replaces the style marker (line 202). */
  const StyleHeading := HeadingOpen + "🎹 Style Prompt " + "(복사해서 Style 칸에 입력)" + HeadingClose

  /** The heading that replaces the lyrics marker (line 203), after two line breaks. */
  const LyricsHeading := "<br><br>" + HeadingOpen + "📜 Lyrics " + "(복사해서 Lyrics 칸에 입력)" + HeadingClose

  const App := Page(Mock, Prompt, Headings(StyleHeading, LyricsHeading))

  lemma HeadingTagsPlain()
    ensures PlainText(HeadingOpen) && PlainText(HeadingClose) && PlainText("<br><br>")
  {
    assert PlainText("<strong style=");
    assert PlainText("'color:#00f2ff; ");
    assert PlainText("font-size:1.1em;'>");
  }

  lemma StyleLabelPlain()
    ensures PlainText("🎹 Style Prompt ")
  {
  }

  lemma StyleNotePlain()
    ensures PlainText("(복사해서 Style 칸에 입력)")
  {
  }

  lemma LyricsLabelPlain()
    ensures PlainText("📜 Lyrics ")
  {
  }

  lemma LyricsNotePlain()
    ensures PlainText("(복사해서 Lyrics 칸에 입력)")
  {
  }

  /** Neither heading can be touched by the chain. */
  lemma HeadingsPlain()
    ensures PlainHeadings(App.headings)
  {
    HeadingTagsPlain();
    StyleLabelPlain();
    StyleNotePlain();
    LyricsLabelPlain();
    LyricsNotePlain();
  }

  /** The shape of the prompt: which pieces are literal text and which slot
      stands where. */
  predicate Layout(t: seq<Piece>)
  {
    |t| == 13 && t[0].Lit? && t[1] == Slot(Genre) && t[2].Lit? && t[3] == Slot(Theme) && t[4].Lit? && t[5] == Slot(Mood) && t[6].Lit? && t[7] == Slot(Structure) && t[8].Lit? && t[9] == Slot(Lang) && t[10].Lit? && t[11] == Slot(Structure) && t[12].Lit?
  }

  lemma LayoutGenre(t: seq<Piece>)
    requires Layout(t)
    ensures SlotCount(t, Genre) == 1
  {
    assert SlotCount(t[12..], Genre) == 0;
    assert SlotCount(t[11..], Genre) == 0;
    assert SlotCount(t[10..], Genre) == 0;
    assert SlotCount(t[9..], Genre) == 0;
    assert SlotCount(t[8..], Genre) == 0;
    assert SlotCount(t[7..], Genre) == 0;
    assert SlotCount(t[6..], Genre) == 0;
    assert SlotCount(t[5..], Genre) == 0;
    assert SlotCount(t[4..], Genre) == 0;
    assert SlotCount(t[3..], Genre) == 0;
    assert SlotCount(t[2..], Genre) == 0;
    assert SlotCount(t[1..], Genre) == 1;
  }

  lemma LayoutTheme(t: seq<Piece>)
    requires Layout(t)
    ensures SlotCount(t, Theme) == 1
  {
    assert SlotCount(t[12..], Theme) == 0;
    assert SlotCount(t[11..], Theme) == 0;
    assert SlotCount(t[10..], Theme) == 0;
    assert SlotCount(t[9..], Theme) == 0;
    assert SlotCount(t[8..], Theme) == 0;
    assert SlotCount(t[7..], Theme) == 0;
    assert SlotCount(t[6..], Theme) == 0;
    assert SlotCount(t[5..], Theme) == 0;
    assert SlotCount(t[4..], Theme) == 0;
    assert SlotCount(t[3..], Theme) == 1;
    assert SlotCount(t[2..], Theme) == 1;
    assert SlotCount(t[1..], Theme) == 1;
  }

  lemma LayoutMood(t: seq<Piece>)
    requires Layout(t)
    ensures SlotCount(t, Mood) == 1
  {
    assert SlotCount(t[12..], Mood) == 0;
    assert SlotCount(t[11..], Mood) == 0;
    assert SlotCount(t[10..], Mood) == 0;
    assert SlotCount(t[9..], Mood) == 0;
    assert SlotCount(t[8..], Mood) == 0;
    assert SlotCount(t[7..], Mood) == 0;
    assert SlotCount(t[6..], Mood) == 0;
    assert SlotCount(t[5..], Mood) == 1;
    assert SlotCount(t[4..], Mood) == 1;
    assert SlotCount(t[3..], Mood) == 1;
    assert SlotCount(t[2..], Mood) == 1;
    assert SlotCount(t[1..], Mood) == 1;
  }

  lemma LayoutStructure(t: seq<Piece>)
    requires Layout(t)
    ensures SlotCount(t, Structure) == 2
  {
    assert SlotCount(t[12..], Structure) == 0;
    assert SlotCount(t[11..], Structure) == 1;
    assert SlotCount(t[10..], Structure) == 1;
    assert SlotCount(t[9..], Structure) == 1;
    assert SlotCount(t[8..], Structure) == 1;
    assert SlotCount(t[7..], Structure) == 2;
    assert SlotCount(t[6..], Structure) == 2;
    assert SlotCount(t[5..], Structure) == 2;
    assert SlotCount(t[4..], Structure) == 2;
    assert SlotCount(t[3..], Structure) == 2;
    assert SlotCount(t[2..], Structure) == 2;
    assert SlotCount(t[1..], Structure) == 2;
  }

  lemma LayoutLang(t: seq<Piece>)
    requires Layout(t)
    ensures SlotCount(t, Lang) == 1
  {
    assert SlotCount(t[12..], Lang) == 0;
    assert SlotCount(t[11..], Lang) == 0;
    assert SlotCount(t[10..], Lang) == 0;
    assert SlotCount(t[9..], Lang) == 1;
    assert SlotCount(t[8..], Lang) == 1;
    assert SlotCount(t[7..], Lang) == 1;
    assert SlotCount(t[6..], Lang) == 1;
    assert SlotCount(t[5..], Lang) == 1;
    assert SlotCount(t[4..], Lang) == 1;
    assert SlotCount(t[3..], Lang) == 1;
    assert SlotCount(t[2..], Lang) == 1;
    assert SlotCount(t[1..], Lang) == 1;
  }

  /** Every field has a slot, and structure has two: the first in the field
      list, the second in the placement instruction. */
  lemma PromptSlots()
    ensures SlotCount(Prompt, Genre) == 1 && SlotCount(Prompt, Theme) == 1 && SlotCount(Prompt, Mood) == 1
    ensures SlotCount(Prompt, Structure) == 2 && SlotCount(Prompt, Lang) == 1
  {
    assert Layout(Prompt);
    LayoutGenre(Prompt);
    LayoutTheme(Prompt);
    LayoutMood(Prompt);
    LayoutStructure(Prompt);
    LayoutLang(Prompt);
  }

  /** With a key, the prompt holds every one of the five values, whether or
      not the field is empty. */
  lemma PromptShowsEveryField(req: Request)
    ensures forall f :: Occurs(Interpolate(Prompt, req), Value(req, f))
  {
    PromptSlots();
    forall f
      ensures SlotCount(Prompt, f) >= 1
    {
      match f
      case Genre =>
      case Theme =>
      case Mood =>
      case Structure =>
      case Lang =>
    }
    EveryFieldShown(Prompt, req);
  }

  /** The prompt is the literal text plus each value once, and structure twice. */
  lemma PromptLength(req: Request)
    ensures |Interpolate(Prompt, req)|
         == LitLength(Prompt) + |req.genre| + |req.theme| + |req.mood| + 2 * |req.structure| + |req.lang|
  {
    InterpolateLength(Prompt, req);
    PromptSlots();
  }

  /** The structure value appears at two separate places in the prompt. */
  lemma PromptRepeatsStructure(req: Request)
    ensures var s := Interpolate(Prompt, req);
      MatchAt(s, req.structure, Offset(Prompt, req, 7)) &&
      MatchAt(s, req.structure, Offset(Prompt, req, 11)) &&
      Offset(Prompt, req, 7) + |req.structure| <= Offset(Prompt, req, 11)
  {
    SlotShowsValue(Prompt, req, 7);
    SlotShowsValue(Prompt, req, 11);
    SlotsInOrder(Prompt, req, 7, 11);
  }

  /** Without a key and with genre and theme given, the page as written shows
      the fixture as its tag highlighting alone, with the demo caption: the
      display opens with the marker's own `**`, not with the style heading. */
  lemma DemoShownWithMarker(req: Request, call: string -> Reply)
    requires req.genre != "" && req.theme != ""
    ensures OnGenerate(App, "", req, call) == Shown(HighlightTags(Mock), true)
    ensures var d := OnGenerate(App, "", req, call).display; |d| >= 2 && d[..2] == "**"
  {
    DemoPage(App, MockBody, req, call);
  }

  /** With the corrected chain, the fixture is shown opening with the style
      heading. */
  lemma DemoShownWithHeading(req: Request, call: string -> Reply)
    requires req.genre != "" && req.theme != ""
    ensures var d := OnGenerateIntended(App, "", req, call).display;
      |d| >= |StyleHeading| && d[..|StyleHeading|] == StyleHeading
  {
    HeadingsPlain();
    DemoPageIntended(App, MockBody, req, call);
  }
}
