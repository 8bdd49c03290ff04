/** The React page (music.py, a `LyricsGenerator` component): the prompt
    template literal, the extraction of the lyrics from the reply content, and
    the component state that `generateLyrics` updates around its request. */
module ReactLyrics {
  import opened Text

  /** The value of the language select box that selects Korean (music.py:117). */
  const KoreanValue := "korean"

  /** `language === 'korean' ? '한국어' : '영어'`. */
  function LangWord(language: string): string
  {
    if language == KoreanValue then "한국어" else "영어"
  }

  const FirstLineRest := "로 음악 가사를 작성해주세요."
  const GenreLabel := "장르: "
  const ThemeLabel := "주제: "
  const MoodLabel := "분위기: "

  /** The closing instruction, phrase by phrase. */
  const ClosingLine := "verse, chorus, " + "bridge 구조를 " + "포함한 완성된 " + "가사를 작성해주세요."

  /** `${genre ? `장르: ${genre}` : ''}`: the labelled value, or nothing when
      the field is empty. */
  function OptLine(caption: string, value: string): string
  {
    if value == "" then "" else caption + value
  }

  /** The prompt template literal: a line for the language, one line for each
      of genre, theme and mood (empty when the field is), a blank line and the
      closing instruction. */
  function ReactPrompt(genre: string, theme: string, mood: string, language: string): string
  {
    LangWord(language) + FirstLineRest + "\n"
      + OptLine(GenreLabel, genre) + "\n"
      + OptLine(ThemeLabel, theme) + "\n"
      + OptLine(MoodLabel, mood) + "\n"
      + "\n"
      + ClosingLine
  }

  /** Korean is asked for exactly when the select box says `korean`. */
  lemma LangWordChoice(language: string)
    ensures LangWord(language) == "한국어" <==> language == KoreanValue
    ensures LangWord(language) == "영어" <==> language != KoreanValue
  {
  }

  /** The six lines of the prompt, as the template lays them out. */
  function PromptLineList(genre: string, theme: string, mood: string, language: string): seq<string>
  {
    [LangWord(language) + FirstLineRest, OptLine(GenreLabel, genre), OptLine(ThemeLabel, theme),
     OptLine(MoodLabel, mood), "", ClosingLine]
  }

  lemma JoinSix(a: string, b: string, c: string, d: string, e: string, f: string)
    ensures Join([a, b, c, d, e, f], "\n") == a + "\n" + b + "\n" + c + "\n" + d + "\n" + e + "\n" + f
  {
    var xs := [a, b, c, d, e, f];
    assert xs[1..] == [b, c, d, e, f];
    assert xs[2..] == [c, d, e, f];
    assert xs[3..] == [d, e, f];
    assert xs[4..] == [e, f];
    assert xs[5..] == [f];
    assert Join(xs[4..], "\n") == e + "\n" + f;
    assert Join(xs[3..], "\n") == d + "\n" + (e + "\n" + f);
    assert Join(xs[2..], "\n") == c + "\n" + (d + "\n" + (e + "\n" + f));
    assert Join(xs[1..], "\n") == b + "\n" + (c + "\n" + (d + "\n" + (e + "\n" + f)));
  }

  /** The prompt is its six lines joined with line breaks. */
  lemma PromptIsJoin(genre: string, theme: string, mood: string, language: string)
    ensures ReactPrompt(genre, theme, mood, language) == Join(PromptLineList(genre, theme, mood, language), "\n")
  {
    var first := LangWord(language) + FirstLineRest;
    var g, t, m := OptLine(GenreLabel, genre), OptLine(ThemeLabel, theme), OptLine(MoodLabel, mood);
    JoinSix(first, g, t, m, "", ClosingLine);
    assert first + "\n" + g + "\n" + t + "\n" + m + "\n" + "" + "\n" + ClosingLine
        == first + "\n" + g + "\n" + t + "\n" + m + "\n" + "\n" + ClosingLine;
  }

  lemma FixedLinesNoBreak(language: string)
    ensures '\n' !in LangWord(language) + FirstLineRest
    ensures '\n' !in ClosingLine
    ensures '\n' !in GenreLabel && '\n' !in ThemeLabel && '\n' !in MoodLabel
  {
    assert '\n' !in FirstLineRest;
    assert '\n' !in "verse, chorus, ";
    assert '\n' !in "bridge 구조를 ";
    assert '\n' !in "포함한 완성된 ";
    assert '\n' !in "가사를 작성해주세요.";
  }

  /** When no field holds a line break the prompt always has the same six
      lines: an empty field leaves an empty line at its place instead of
      disappearing, and the closing instruction is the last line. */
  lemma PromptLines(genre: string, theme: string, mood: string, language: string)
    requires '\n' !in genre && '\n' !in theme && '\n' !in mood
    ensures var ls := Lines(ReactPrompt(genre, theme, mood, language));
      ls == PromptLineList(genre, theme, mood, language) && |ls| == 6 && ls[5] == ClosingLine &&
      ls[4] == "" && (genre == "" <==> ls[1] == "") && (theme == "" <==> ls[2] == "") && (mood == "" <==> ls[3] == "")
  {
    var xs := PromptLineList(genre, theme, mood, language);
    PromptIsJoin(genre, theme, mood, language);
    FixedLinesNoBreak(language);
    forall i | 0 <= i < |xs|
      ensures '\n' !in xs[i]
    {
    }
    LinesOfJoin(xs);
  }

  /** One element of the reply's `content` array. */
  datatype ContentItem = ContentItem(kind: string, text: string)

  /** What the awaited request gives back: the reply's content, or a thrown
      error (the fetch, `response.json()` or reading `content` failed). */
  datatype Completion = Content(items: seq<ContentItem>) | Thrown

  /** What the filter keeps of one item. */
  function Keep(item: ContentItem): seq<ContentItem>
  {
    if item.kind == "text" then [item] else []
  }

  /** `.filter(item => item.type === 'text')`. */
  function TextItems(items: seq<ContentItem>): (r: seq<ContentItem>)
    ensures |r| <= |items|
    ensures forall i :: 0 <= i < |r| ==> r[i].kind == "text"
  {
    if items == [] then [] else Keep(items[0]) + TextItems(items[1..])
  }

  /** `.map(item => item.text)`. */
  function Texts(items: seq<ContentItem>): (r: seq<string>)
    ensures |r| == |items| && forall i :: 0 <= i < |items| ==> r[i] == items[i].text
  {
    if items == [] then [] else [items[0].text] + Texts(items[1..])
  }

  /** The lyrics taken from a reply: the texts of its text items, in order,
      joined with line breaks. */
  function Extract(items: seq<ContentItem>): string
  {
    Join(Texts(TextItems(items)), "\n")
  }

  /** The filter works item by item: the text items of a concatenation are
      those of each half, in order. */
  lemma {:induction false} TextItemsConcat(a: seq<ContentItem>, b: seq<ContentItem>)
    ensures TextItems(a + b) == TextItems(a) + TextItems(b)
    decreases |a|
  {
    if a == [] {
      assert a + b == b;
    } else {
      calc {
        TextItems(a + b);
        { assert (a + b)[0] == a[0]; assert (a + b)[1..] == a[1..] + b; }
        Keep(a[0]) + TextItems(a[1..] + b);
        { TextItemsConcat(a[1..], b); }
        Keep(a[0]) + (TextItems(a[1..]) + TextItems(b));
      }
    }
  }

  /** Exactly the items of type `text` are kept: each kept item is one of the
      reply's and has that type, and every such item of the reply is kept. */
  lemma {:induction false} TextItemsExact(items: seq<ContentItem>)
    ensures forall x :: x in TextItems(items) <==> x in items && x.kind == "text"
    decreases |items|
  {
    if items != [] {
      TextItemsExact(items[1..]);
      assert items == [items[0]] + items[1..];
    }
  }

  /** A reply with no text item gives empty lyrics, one with a single item
      gives that item's text. */
  lemma ExtractSmall(x: ContentItem, others: seq<ContentItem>)
    requires forall y :: y in others ==> y.kind != "text"
    ensures Extract(others) == ""
    ensures x.kind == "text" ==> Extract([x] + others) == x.text && Extract(others + [x]) == x.text
  {
    NoTextItems(others);
    TextItemsConcat([x], others);
    TextItemsConcat(others, [x]);
  }

  lemma {:induction false} NoTextItems(items: seq<ContentItem>)
    requires forall y :: y in items ==> y.kind != "text"
    ensures TextItems(items) == []
    decreases |items|
  {
    if items != [] {
      assert items[0] in items;
      forall y | y in items[1..] ensures y.kind != "text" {
        assert y in items;
      }
      NoTextItems(items[1..]);
    }
  }

  /** When no text holds a line break, splitting the lyrics into lines gives
      back the texts of the text items, one per line. */
  lemma ExtractLines(items: seq<ContentItem>)
    requires TextItems(items) != []
    requires forall x :: x in items && x.kind == "text" ==> '\n' !in x.text
    ensures Lines(Extract(items)) == Texts(TextItems(items))
  {
    var kept := TextItems(items);
    var ts := Texts(kept);
    TextItemsExact(items);
    forall i | 0 <= i < |ts|
      ensures '\n' !in ts[i]
    {
      assert kept[i] in kept;
    }
    LinesOfJoin(ts);
  }

  const FieldsAlert := "장르, 주제, 또는 분위기 중 하나 이상을 입력해주세요."
  const FailureAlert := "가사 생성 중 오류가 발생했습니다. 다시 시도해주세요."

  /** The component's state. `alerts` records the alerts shown and `sent` the
      prompts posted to the provider, in order. */
  class LyricsGenerator {
    var genre: string
    var theme: string
    var mood: string
    var language: string
    var lyrics: string
    var loading: bool
    var alerts: seq<string>
    var sent: seq<string>

    /** While a request is outstanding the lyrics are empty, and that request
        has been posted. */
    predicate Valid()
      reads this
    {
      loading ==> lyrics == "" && |sent| >= 1
    }

    /** The button is disabled while a request is outstanding. */
    predicate ButtonDisabled()
      reads this
    {
      loading
    }

    /** The `useState` defaults. */
    constructor ()
      ensures Valid()
      ensures genre == "" && theme == "" && mood == "" && language == KoreanValue
      ensures lyrics == "" && !loading && alerts == [] && sent == []
    {
      genre, theme, mood, language := "", "", "", KoreanValue;
      lyrics, loading := "", false;
      alerts, sent := [], [];
    }

    /** The `onChange` handlers of the inputs and the select box. */
    method SetGenre(value: string)
      requires Valid()
      modifies this`genre
      ensures Valid() && genre == value
    {
      genre := value;
    }

    method SetTheme(value: string)
      requires Valid()
      modifies this`theme
      ensures Valid() && theme == value
    {
      theme := value;
    }

    method SetMood(value: string)
      requires Valid()
      modifies this`mood
      ensures Valid() && mood == value
    {
      mood := value;
    }

    method SetLanguage(value: string)
      requires Valid()
      modifies this`language
      ensures Valid() && language == value
    {
      language := value;
    }

    /** `generateLyrics` up to the awaited request. With every field empty it
        only alerts and leaves `loading` and `lyrics` as they were; otherwise
        it sets `loading`, clears the lyrics and posts the prompt built from
        the fields as they are now. The button is its only caller and is
        disabled while loading. */
    method Begin() returns (started: bool)
      requires Valid() && !ButtonDisabled()
      modifies this`loading, this`lyrics, this`alerts, this`sent
      ensures Valid()
      ensures started <==> (genre != "" || theme != "" || mood != "")
      ensures !started ==>
        alerts == old(alerts) + [FieldsAlert] && sent == old(sent)
        && loading == old(loading) && lyrics == old(lyrics)
      ensures started ==>
        loading && lyrics == "" && alerts == old(alerts)
        && sent == old(sent) + [ReactPrompt(genre, theme, mood, language)]
    {
      if genre == "" && theme == "" && mood == "" {
        alerts := alerts + [FieldsAlert];
        return false;
      }
      loading := true;
      lyrics := "";
      var prompt := ReactPrompt(genre, theme, mood, language);
      sent := sent + [prompt];
      started := true;
    }

    /** `generateLyrics` after the request settles: the extracted lyrics on
        success, an alert and still empty lyrics on failure, and in both cases
        (the `finally` block) the button is enabled again. */
    method Complete(result: Completion)
      requires Valid() && loading
      modifies this`loading, this`lyrics, this`alerts
      ensures Valid() && !loading
      ensures result.Content? ==> lyrics == Extract(result.items) && alerts == old(alerts)
      ensures result.Thrown? ==> lyrics == "" && alerts == old(alerts) + [FailureAlert]
    {
      match result {
        case Content(items) =>
          lyrics := Extract(items);
        case Thrown =>
          alerts := alerts + [FailureAlert];
      }
      loading := false;
    }
  }
}
