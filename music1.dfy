/** The Gemini page (music1.py): the button handler's guard, the prompt built
    part by part from the non-empty fields, and the download file name. */
module GeminiLyrics {
  import opened Text
  import opened Provider

  /** The two entries of the language select box (music1.py:69-73). */
  const KoreanOption := "한국어"
  const EnglishOption := "English"

  /** The word the role line uses for every language other than Korean. */
  const EnglishName := "영어"

  /** What the form holds when the button is pressed; an empty input is "". */
  datatype Form = Form(genre: string, theme: string, mood: string, language: string)

  /** `lang_text`: the language the role line asks for. */
  function LangText(language: string): string
  {
    if language == KoreanOption then KoreanOption else EnglishName
  }

  const RolePrefix := "당신은 전문 작사가입니다. "
  const RoleSuffix := "로 음악 가사를 작성해주세요."

  /** The first prompt part: the role and the language of the lyrics. */
  function RoleLine(language: string): string
  {
    RolePrefix + LangText(language) + RoleSuffix
  }

  const GenreLabel := "장르: "
  const ThemeLabel := "주제: "
  const MoodLabel := "분위기: "

  /** The closing instruction without its leading line break, tag by tag and
      phrase by phrase. */
  const ClosingText := "[Verse], " + "[Chorus], " + "[Bridge] 등의 " + "구조를 명확히 표시하여 " + "완성된 가사를 작성해주세요."

  /** The last prompt part; it starts with a line break of its own. */
  const Closing := "\n" + ClosingText

  /** The part a field contributes: one labelled line when it is filled, none
      when it is empty (Python's `if genre:`). */
  function FieldPart(caption: string, value: string): seq<string>
  {
    if value == "" then [] else [caption + value]
  }

  /** Reference definition of `prompt_parts` once all appends are done. */
  function PromptParts(form: Form): seq<string>
  {
    [RoleLine(form.language)]
      + FieldPart(GenreLabel, form.genre) + FieldPart(ThemeLabel, form.theme) + FieldPart(MoodLabel, form.mood)
      + [Closing]
  }

  /** 1 for a filled input, 0 for an empty one. */
  function Filled(value: string): nat
  {
    if value == "" then 0 else 1
  }

  /** How many of genre, theme and mood are filled. */
  function FilledCount(form: Form): nat
  {
    Filled(form.genre) + Filled(form.theme) + Filled(form.mood)
  }

  /** Building the prompt as the page does: the role line, then one append per
      filled field, then the closing instruction, joined with line breaks. */
  method BuildPrompt(form: Form) returns (parts: seq<string>, prompt: string)
    ensures parts == PromptParts(form)
    ensures prompt == Join(parts, "\n")
  {
    parts := [RoleLine(form.language)];
    if form.genre != "" {
      parts := parts + [GenreLabel + form.genre];
    }
    if form.theme != "" {
      parts := parts + [ThemeLabel + form.theme];
    }
    if form.mood != "" {
      parts := parts + [MoodLabel + form.mood];
    }
    parts := parts + [Closing];
    prompt := Join(parts, "\n");
  }

  /** The role line names Korean exactly when Korean is selected, and the
      English name for every other value. */
  lemma LangTextChoice(language: string)
    ensures LangText(language) == KoreanOption <==> language == KoreanOption
    ensures LangText(language) == EnglishName <==> language != KoreanOption
    ensures LangText(EnglishOption) == EnglishName
  {
  }

  /** The role line comes first and the closing instruction last; in between
      there is one part per filled field. */
  lemma PartsShape(form: Form)
    ensures var p := PromptParts(form);
      |p| == 2 + FilledCount(form) && p[0] == RoleLine(form.language) && p[|p| - 1] == Closing
  {
  }

  /** Each filled field has its line at the place the fixed order genre, theme,
      mood gives it, counting only the filled fields before it. */
  lemma FieldsInOrder(form: Form)
    ensures var p := PromptParts(form);
      (form.genre != "" ==> p[1] == GenreLabel + form.genre) &&
      (form.theme != "" ==> p[1 + Filled(form.genre)] == ThemeLabel + form.theme) &&
      (form.mood != "" ==> p[1 + Filled(form.genre) + Filled(form.theme)] == MoodLabel + form.mood)
  {
  }

  /** Since the closing part starts with a line break, the join puts two line
      breaks, that is one blank line, in front of the instruction. */
  lemma {:induction false} BlankLineBeforeClosing(form: Form)
    ensures var p := PromptParts(form);
      Join(p, "\n") == Join(p[..|p| - 1], "\n") + "\n\n" + ClosingText
  {
    var p := PromptParts(form);
    var init := p[..|p| - 1];
    assert p == init + [Closing];
    JoinSnoc(init, Closing, "\n");
  }

  lemma RoleLineNoBreak(language: string)
    ensures '\n' !in RoleLine(language)
  {
    assert '\n' !in RolePrefix;
    assert '\n' !in RoleSuffix;
    assert '\n' !in LangText(language);
  }

  lemma ClosingTextNoBreak()
    ensures '\n' !in ClosingText && ClosingText != ""
  {
    assert '\n' !in "[Verse], ";
    assert '\n' !in "[Chorus], ";
    assert '\n' !in "[Bridge] 등의 ";
    assert '\n' !in "구조를 명확히 표시하여 ";
    assert '\n' !in "완성된 가사를 작성해주세요.";
  }

  /** Every line is non-empty and free of line breaks. */
  predicate Clean(xs: seq<string>)
  {
    forall i :: 0 <= i < |xs| ==> '\n' !in xs[i] && xs[i] != ""
  }

  lemma CleanConcat(xs: seq<string>, ys: seq<string>)
    requires Clean(xs) && Clean(ys)
    ensures Clean(xs + ys)
  {
    forall i | 0 <= i < |xs + ys|
      ensures '\n' !in (xs + ys)[i] && (xs + ys)[i] != ""
    {
      if i >= |xs| {
        assert (xs + ys)[i] == ys[i - |xs|];
      }
    }
  }

  lemma FieldPartClean(caption: string, value: string)
    requires caption != "" && '\n' !in caption && '\n' !in value
    ensures Clean(FieldPart(caption, value))
  {
  }

  /** With line-break-free inputs, every part before the closing instruction is
      one non-empty line. */
  lemma PartsBeforeClosingClean(form: Form)
    requires '\n' !in form.genre && '\n' !in form.theme && '\n' !in form.mood
    ensures var p := PromptParts(form); Clean(p[..|p| - 1])
  {
    var p := PromptParts(form);
    var role := [RoleLine(form.language)];
    var g := FieldPart(GenreLabel, form.genre);
    var t := FieldPart(ThemeLabel, form.theme);
    var m := FieldPart(MoodLabel, form.mood);
    assert p[..|p| - 1] == role + g + t + m;
    RoleLineNoBreak(form.language);
    assert |RolePrefix| > 0;
    assert Clean(role);
    FieldPartClean(GenreLabel, form.genre);
    FieldPartClean(ThemeLabel, form.theme);
    FieldPartClean(MoodLabel, form.mood);
    CleanConcat(role, g);
    CleanConcat(role + g, t);
    CleanConcat(role + g + t, m);
  }

  /** Clean lines followed by one blank line and a last clean line split back
      into themselves, and the blank line is the only empty one. */
  lemma BlankThenLast(init: seq<string>, last: string)
    requires |init| >= 1 && Clean(init) && Clean([last])
    ensures var ls := init + ["", last];
      Lines(Join(ls, "\n")) == ls && forall i :: 0 <= i < |ls| ==> (ls[i] == "" <==> i == |ls| - 2)
  {
    var ls := init + ["", last];
    forall i | 0 <= i < |ls|
      ensures '\n' !in ls[i] && (ls[i] == "" <==> i == |ls| - 2)
    {
      if i < |init| {
        assert ls[i] == init[i];
      } else if i == |init| + 1 {
        assert ls[i] == [last][0];
      }
    }
    LinesOfJoin(ls);
  }

  /** A last part that starts with its own line break joins like an empty
      part followed by the rest. */
  lemma BreakLedLast(init: seq<string>, last: string)
    requires |init| >= 1
    ensures Join(init + ["\n" + last], "\n") == Join(init + ["", last], "\n")
  {
    var j := Join(init, "\n");
    var withEmpty := init + [""];
    calc {
      Join(init + ["\n" + last], "\n");
      { JoinSnoc(init, "\n" + last, "\n"); }
      j + "\n" + ("\n" + last);
      j + "\n" + "" + "\n" + last;
      { JoinSnoc(init, "", "\n"); }
      Join(withEmpty, "\n") + "\n" + last;
      { JoinSnoc(withEmpty, last, "\n"); }
      Join(withEmpty + [last], "\n");
      { assert withEmpty + [last] == init + ["", last]; }
      Join(init + ["", last], "\n");
    }
  }

  /** When no input holds a line break, the prompt's lines are the parts before
      the closing instruction, one blank line, and the instruction; the blank
      line is the only empty one. */
  lemma {:induction false} PromptLines(form: Form)
    requires '\n' !in form.genre && '\n' !in form.theme && '\n' !in form.mood
    ensures var p := PromptParts(form);
      Lines(Join(p, "\n")) == p[..|p| - 1] + ["", ClosingText]
    ensures var ls := Lines(Join(PromptParts(form), "\n"));
      forall i :: 0 <= i < |ls| ==> (ls[i] == "" <==> i == |ls| - 2)
  {
    var p := PromptParts(form);
    var init := p[..|p| - 1];
    assert p == init + [Closing];
    BreakLedLast(init, ClosingText);
    PartsBeforeClosingClean(form);
    ClosingTextNoBreak();
    BlankThenLast(init, ClosingText);
  }

  const FilePrefix := "lyrics_"
  const FileSuffix := ".txt"

  /** The download file name for the selected language. */
  function FileName(language: string): string
  {
    FilePrefix + language + FileSuffix
  }

  /** The language can be read back from the file name, so distinct languages
      get distinct names. */
  lemma FileNameNamesLanguage(language: string, other: string)
    ensures var n := FileName(language);
      |n| == |language| + 11 && n[|FilePrefix|..|n| - |FileSuffix|] == language
    ensures FileName(language) == FileName(other) ==> language == other
  {
    var n := FileName(language);
    assert n[|FilePrefix|..|n| - |FileSuffix|] == language;
    if FileName(language) == FileName(other) {
      var m := FileName(other);
      assert m[|FilePrefix|..|m| - |FileSuffix|] == other;
    }
  }

  const FieldsError := "⚠️ 장르, 주제, 또는 분위기 중 하나 이상을 입력해주세요."
  const KeyError := "⚠️ Gemini API 키를 입력해주세요."
  const FailureLead := "❌ 오류 발생: "
  const FailureHint := "\nAPI 키가 올바른지 확인해주세요."

  /** The error shown when the model call raises. */
  function FailureMessage(message: string): string
  {
    FailureLead + message + FailureHint
  }

  /** What the page shows after the button: an error, or the lyrics together
      with the name of the file the download button offers them under. */
  datatype Outcome = ErrorShown(error: string) | LyricsShown(lyrics: string, fileName: string)

  /** The button handler. `sent` lists the prompts given to the model: none
      when the guard stops the handler, one otherwise. The field check comes
      before the key check, so with every field empty the key is never looked
      at. */
  method OnGenerate(form: Form, apiKey: string, call: string -> Reply) returns (outcome: Outcome, sent: seq<string>)
    ensures FilledCount(form) == 0 ==> outcome == ErrorShown(FieldsError) && sent == []
    ensures FilledCount(form) > 0 && apiKey == "" ==> outcome == ErrorShown(KeyError) && sent == []
    ensures FilledCount(form) > 0 && apiKey != "" ==>
      sent == [Join(PromptParts(form), "\n")] &&
      outcome == match call(sent[0])
                 case Reply(text) => LyricsShown(text, FileName(form.language))
                 case Failure(message) => ErrorShown(FailureMessage(message))
  {
    sent := [];
    if form.genre == "" && form.theme == "" && form.mood == "" {
      outcome := ErrorShown(FieldsError);
    } else if apiKey == "" {
      outcome := ErrorShown(KeyError);
    } else {
      var parts, prompt := BuildPrompt(form);
      sent := [prompt];
      match call(prompt)
      case Reply(text) =>
        outcome := LyricsShown(text, FileName(form.language));
      case Failure(message) =>
        outcome := ErrorShown(FailureMessage(message));
    }
  }

  /** A failure message shows the provider's message right after its lead. */
  lemma FailureMessageShowsMessage(message: string)
    ensures MatchAt(FailureMessage(message), message, |FailureLead|)
    ensures FailureMessage(message)[..|FailureLead|] == FailureLead
  {
    OccursBetween(FailureLead, message, FailureHint);
  }
}
