/**
 * The document side of `lib/ai-service.ts`: `analyzeText` (sentence count,
 * sentiment by keyword, themes, summary) and `convertContent` (simplified
 * bullet list, visual key-points sheet, dyslexia-friendly spacing, audio
 * script with pauses, and the identity for any other format).
 *
 * Both are pipelines of `split`, `map`, `filter` and `join`, so they are
 * functions here; the lemmas say what each output is in terms of the input
 * text. The decorative prefixes are kept exactly as the source file spells
 * them: its emoji and punctuation were stored as UTF-8 bytes re-read as
 * Windows-1252, so each is the resulting run of code units.
 */
module AiText {
  import opened JsText
  import opened JsArray

  // ---------------------------------------------------------------------------
  // analyzeText

  datatype TextAnalysis = TextAnalysis(sentiment: string, keyThemes: seq<string>, summary: string)

  const ConcerningSentiment: string := "Concerning"
  const PositiveSentiment: string := "Positive"
  const PatternsTheme: string := "Learning patterns"
  const DetailedTheme: string := "Detailed observations"
  const BriefTheme: string := "Brief notes"
  const SummaryLead: string := "Document contains "
  const SummaryMiddle: string := " key observations. "
  const Ellipsis: string := "..."
  const Struggle: string := "struggle"
  const Difficult: string := "difficult"

  /** `(s) => s.trim().length > 0`. */
  predicate HasText(s: string)
  {
    Trim(s) != []
  }

  /** The sentences of a document: the pieces between periods that are not blank. */
  function Sentences(text: string): seq<string>
  {
    FilterSeq(HasText, Split(text, '.'))
  }

  /** The keyword test of the sentiment, on the lower-cased text. */
  predicate Concerning(text: string)
  {
    Includes(ToLower(text), Struggle) || Includes(ToLower(text), Difficult)
  }

  function Sentiment(text: string): string
  {
    if Concerning(text) then ConcerningSentiment else PositiveSentiment
  }

  function KeyThemes(text: string): seq<string>
  {
    [PatternsTheme, if |Sentences(text)| > 3 then DetailedTheme else BriefTheme]
  }

  function TextSummary(text: string): string
  {
    SummaryLead + NatToString(|Sentences(text)|) + SummaryMiddle + SliceTo(text, 100) + Ellipsis
  }

  /** `analyzeText(text)` once its simulated delay is over. */
  function AnalyzeText(text: string): TextAnalysis
  {
    TextAnalysis(Sentiment(text), KeyThemes(text), TextSummary(text))
  }

  /**
   * A sentence is exactly a period-free piece of the text that is not all
   * whitespace; there are at most one more sentences than periods.
   */
  lemma SentencesArePieces(text: string)
    ensures forall s :: s in Sentences(text) <==> s in Split(text, '.') && !AllWhitespace(s)
    ensures forall s :: s in Sentences(text) ==> '.' !in s
    ensures |Sentences(text)| <= CountChar(text, '.') + 1
  {
    SplitPieces(text, '.');
    forall s | s in Split(text, '.')
      ensures HasText(s) <==> !AllWhitespace(s)
    {
      TrimEmptyIff(s);
    }
  }

  /**
   * The sentiment is "Concerning" exactly when "struggle" or "difficult"
   * occurs somewhere in the lower-cased text, and "Positive" otherwise.
   */
  lemma SentimentRule(text: string)
    ensures var lower := ToLower(text);
            Sentiment(text) == ConcerningSentiment <==>
              (exists k :: 0 <= k <= |lower| - |Struggle| && StartsWith(lower[k..], Struggle))
              || (exists k :: 0 <= k <= |lower| - |Difficult| && StartsWith(lower[k..], Difficult))
    ensures Sentiment(text) != ConcerningSentiment ==> Sentiment(text) == PositiveSentiment
  {
    IncludesAt(ToLower(text), Struggle);
    IncludesAt(ToLower(text), Difficult);
    assert ConcerningSentiment[0] != PositiveSentiment[0];
  }

  /**
   * On ASCII text, lower-casing an upper-cased letter gives back the
   * lower-case letter. Beyond ASCII, JavaScript's case mapping breaks this:
   * the long s (U+017F) upper-cases to "S", which lower-cases to "s".
   */
  lemma LowerUpper(s: string)
    requires forall i :: 0 <= i < |s| ==> s[i] < 128 as char
    ensures ToLower(ToUpper(s)) == ToLower(s)
  {
    var u := ToUpper(s);
    forall i | 0 <= i < |s|
      ensures ToLower(u)[i] == ToLower(s)[i]
    {
      LowerUpperChar(s[i]);
    }
  }

  /** For one character of the modelled (ASCII) mapping. */
  lemma LowerUpperChar(c: char)
    ensures LowerChar(UpperChar(c)) == LowerChar(c)
  {
  }

  /** On ASCII text the keyword test ignores the case of the letters. */
  lemma SentimentIgnoresCase(text: string)
    requires forall i :: 0 <= i < |text| ==> text[i] < 128 as char
    ensures Sentiment(ToUpper(text)) == Sentiment(text)
  {
    var u := ToUpper(text);
    LowerUpper(text);
    assert ToLower(u) == ToLower(text);
    assert Concerning(u) == Concerning(text);
  }

  /**
   * The summary reads "Document contains <n> key observations. <excerpt>...",
   * where the digits of `<n>` spell the number of sentences and the excerpt
   * is the first 100 characters of the text (all of it when shorter). The
   * second theme is "Detailed observations" exactly when there are more
   * than three sentences.
   */
  lemma SummaryParts(text: string) returns (digits: string, excerpt: string)
    ensures TextSummary(text) == SummaryLead + digits + SummaryMiddle + excerpt + Ellipsis
    ensures (forall i :: 0 <= i < |digits| ==> '0' <= digits[i] <= '9') && |digits| >= 1
    ensures DigitsValue(digits) == |Sentences(text)|
    ensures StartsWith(text, excerpt) && |excerpt| == if |text| < 100 then |text| else 100
    ensures KeyThemes(text)[0] == PatternsTheme
    ensures KeyThemes(text)[1] == DetailedTheme <==> |Sentences(text)| > 3
  {
    digits := NatToString(|Sentences(text)|);
    excerpt := SliceTo(text, 100);
    NatToStringValue(|Sentences(text)|);
    assert DetailedTheme[0] != BriefTheme[0];
  }

  // ---------------------------------------------------------------------------
  // convertContent

  const SimplifiedFormat: string := "simplified"
  const VisualFormat: string := "visual"
  const DyslexiaFormat: string := "dyslexia"
  const AudioFormat: string := "audio"

  /** A bullet character followed by a space, as stored in the source file. */
  const Bullet: string := "\U{E2}\U{20AC}\U{A2} "
  /** A small right-pointing triangle followed by a space, as stored. */
  const Arrow: string := "\U{E2}\U{2013}\U{B8} "
  const KeyPointsHeader: string := "\U{F0}\U{178}\U{201C}\U{152} KEY POINTS:\n\n"
  const MainIdeaHeader: string := "\n\n\U{F0}\U{178}\U{17D}\U{AF} MAIN IDEA:\n"
  const ParagraphBreak: string := "\n\n"
  const DoubleSpace: string := "  "
  const PeriodBreak: string := ".\n\n"
  const ScriptOpening: string := "[BEGIN SCRIPT]\n\n[PAUSE 2 SECONDS]\n\n"
  const PauseBreak: string := ".\n\n[PAUSE 1 SECOND]\n\n"
  const ScriptClosing: string := "\n\n[END SCRIPT]"

  /** JavaScript truthiness of a string. */
  predicate NonEmpty(s: string)
  {
    s != []
  }

  function Bulleted(s: string): string
  {
    Bullet + s
  }

  function Arrowed(s: string): string
  {
    Arrow + s
  }

  /** `(s) => "▸ " + s.trim()`. */
  function ArrowedTrim(s: string): string
  {
    Arrow + Trim(s)
  }

  /** `(s) => s !== "▸ "`. */
  predicate NotBareArrow(s: string)
  {
    s != Arrow
  }

  /** The trimmed, non-empty pieces between periods. */
  function KeyPoints(text: string): seq<string>
  {
    FilterSeq(NonEmpty, MapSeq(Trim, Split(text, '.')))
  }

  function Simplified(text: string): string
  {
    Join(MapSeq(Bulleted, KeyPoints(text)), ParagraphBreak)
  }

  /** The arrow lines of the visual sheet, filtered after the arrow is added. */
  function VisualLines(text: string): seq<string>
  {
    FilterSeq(NotBareArrow, MapSeq(ArrowedTrim, Split(text, '.')))
  }

  function VisualSheet(text: string): string
  {
    KeyPointsHeader + Join(VisualLines(text), ParagraphBreak)
    + MainIdeaHeader + SliceTo(text, 150) + Ellipsis
  }

  function DyslexiaFriendly(text: string): string
  {
    ToUpper(Join(Split(Join(Split(text, ' '), DoubleSpace), '.'), PeriodBreak))
  }

  function AudioScript(text: string): string
  {
    ScriptOpening + Join(Split(text, '.'), PauseBreak) + ScriptClosing
  }

  /** `convertContent(text, format)` once its simulated delay is over. */
  function ConvertContent(text: string, format: string): string
  {
    if format == SimplifiedFormat then Simplified(text)
    else if format == VisualFormat then VisualSheet(text)
    else if format == DyslexiaFormat then DyslexiaFriendly(text)
    else if format == AudioFormat then AudioScript(text)
    else text
  }

  /** Any format other than the four named ones returns the text unchanged. */
  lemma OtherFormatIsIdentity(text: string, format: string)
    requires format !in {SimplifiedFormat, VisualFormat, DyslexiaFormat, AudioFormat}
    ensures ConvertContent(text, format) == text
  {
  }

  /**
   * Trimming then dropping empty strings keeps the same pieces as dropping
   * blank pieces then trimming.
   */
  lemma {:induction false} TrimFilterCommute(parts: seq<string>)
    ensures FilterSeq(NonEmpty, MapSeq(Trim, parts)) == MapSeq(Trim, FilterSeq(HasText, parts))
  {
    if parts != [] {
      TrimFilterCommute(parts[1..]);
      assert MapSeq(Trim, parts)[1..] == MapSeq(Trim, parts[1..]);
    }
  }

  /** The key points are the sentences of `analyzeText`, trimmed. */
  lemma KeyPointsAreTrimmedSentences(text: string)
    ensures KeyPoints(text) == MapSeq(Trim, Sentences(text))
    ensures |KeyPoints(text)| == |Sentences(text)|
  {
    TrimFilterCommute(Split(text, '.'));
  }

  /** A piece without periods, trimmed, has no period and no whitespace at its ends. */
  lemma TrimmedPieceShape(piece: string)
    requires '.' !in piece
    ensures var p := Trim(piece);
            '.' !in p && (p != [] ==> !IsJsWhitespace(p[0]) && !IsJsWhitespace(p[|p| - 1]))
  {
    var i, j := TrimShape(piece);
    assert Trim(piece) == piece[i..j];
  }

  /**
   * Each key point is non-empty, neither starts nor ends with whitespace and
   * holds no period; every piece between periods that is not all whitespace
   * appears among them, trimmed.
   */
  lemma KeyPointsShape(text: string)
    ensures forall p :: p in KeyPoints(text) ==>
              p != [] && !IsJsWhitespace(p[0]) && !IsJsWhitespace(p[|p| - 1]) && '.' !in p
    ensures forall s :: s in Split(text, '.') && !AllWhitespace(s) ==> Trim(s) in KeyPoints(text)
  {
    SplitPieces(text, '.');
    var pieces := Split(text, '.');
    var trimmed := MapSeq(Trim, pieces);
    forall p | p in KeyPoints(text)
      ensures p != [] && !IsJsWhitespace(p[0]) && !IsJsWhitespace(p[|p| - 1]) && '.' !in p
    {
      var k :| 0 <= k < |trimmed| && trimmed[k] == p;
      TrimmedPieceShape(pieces[k]);
    }
    forall s | s in pieces && !AllWhitespace(s)
      ensures Trim(s) in KeyPoints(text)
    {
      TrimEmptyIff(s);
      var k :| 0 <= k < |pieces| && pieces[k] == s;
      assert trimmed[k] == Trim(s);
      assert Trim(s) in trimmed && NonEmpty(Trim(s));
    }
  }

  /** The head of a joined list is its first element. */
  lemma JoinStartsWithFirst(parts: seq<string>, sep: string)
    requires |parts| >= 1
    ensures StartsWith(Join(parts, sep), parts[0])
  {
  }

  /**
   * The simplified text is empty exactly when there is no key point;
   * otherwise it starts with a bullet, and each key point becomes one
   * bulleted paragraph.
   */
  lemma SimplifiedShape(text: string)
    ensures Simplified(text) == [] <==> KeyPoints(text) == []
    ensures KeyPoints(text) != [] ==> StartsWith(Simplified(text), Bullet + KeyPoints(text)[0])
    ensures forall i :: 0 <= i < |KeyPoints(text)| ==>
              MapSeq(Bulleted, KeyPoints(text))[i] == Bullet + KeyPoints(text)[i]
  {
    var lines := MapSeq(Bulleted, KeyPoints(text));
    if lines != [] {
      JoinStartsWithFirst(lines, ParagraphBreak);
      assert |Join(lines, ParagraphBreak)| >= |lines[0]| >= |Bullet| > 0;
    }
  }

  /**
   * Filtering out bare arrows after adding the arrow drops the same pieces
   * as dropping empty trimmed pieces before.
   */
  lemma {:induction false} ArrowFilterCommute(parts: seq<string>)
    ensures FilterSeq(NotBareArrow, MapSeq(ArrowedTrim, parts))
            == MapSeq(Arrowed, FilterSeq(NonEmpty, MapSeq(Trim, parts)))
  {
    if parts != [] {
      ArrowFilterCommute(parts[1..]);
      assert MapSeq(Trim, parts)[1..] == MapSeq(Trim, parts[1..]);
      assert MapSeq(ArrowedTrim, parts)[1..] == MapSeq(ArrowedTrim, parts[1..]);
      assert Arrow + Trim(parts[0]) == Arrow <==> Trim(parts[0]) == [] by {
        if Arrow + Trim(parts[0]) == Arrow {
          assert |Arrow + Trim(parts[0])| == |Arrow| + |Trim(parts[0])|;
        }
      }
    }
  }

  /**
   * The visual sheet lists the same key points as the simplified text, each
   * behind an arrow instead of a bullet, then the first 150 characters of
   * the text as the main idea.
   */
  lemma VisualMatchesSimplified(text: string)
    ensures VisualLines(text) == MapSeq(Arrowed, KeyPoints(text))
    ensures VisualSheet(text)
            == KeyPointsHeader + Join(MapSeq(Arrowed, KeyPoints(text)), ParagraphBreak)
               + MainIdeaHeader + SliceTo(text, 150) + Ellipsis
  {
    ArrowFilterCommute(Split(text, '.'));
  }

  /**
   * The dyslexia-friendly text doubles every space and breaks the paragraph
   * after every period, then upper-cases: it is the two replacements in
   * sequence, it has no lower-case ASCII letter left, and it grows by one
   * character per space and two per period.
   */
  lemma DyslexiaShape(text: string)
    ensures DyslexiaFriendly(text) == ToUpper(Replace(Replace(text, ' ', DoubleSpace), '.', PeriodBreak))
    ensures ToUpper(DyslexiaFriendly(text)) == DyslexiaFriendly(text)
    ensures |DyslexiaFriendly(text)| == |text| + CountChar(text, ' ') + 2 * CountChar(text, '.')
  {
    var spaced := Replace(text, ' ', DoubleSpace);
    SplitJoinReplace(text, ' ', DoubleSpace);
    SplitJoinReplace(spaced, '.', PeriodBreak);
    ToUpperIdempotent(Replace(spaced, '.', PeriodBreak));
    ReplaceLength(text, ' ', DoubleSpace);
    ReplaceLength(spaced, '.', PeriodBreak);
    ReplaceKeepsOtherCount(text, ' ', DoubleSpace, '.');
  }

  /**
   * The audio script is the text between the opening and closing cues with
   * a one-second pause after every period; a text without periods is read
   * as it is.
   */
  lemma AudioShape(text: string)
    ensures AudioScript(text) == ScriptOpening + Replace(text, '.', PauseBreak) + ScriptClosing
    ensures '.' !in text ==> AudioScript(text) == ScriptOpening + text + ScriptClosing
    ensures |AudioScript(text)| == |ScriptOpening| + |text| + CountChar(text, '.') * (|PauseBreak| - 1) + |ScriptClosing|
  {
    SplitJoinReplace(text, '.', PauseBreak);
    ReplaceLength(text, '.', PauseBreak);
    if '.' !in text {
      ReplaceAbsent(text, '.', PauseBreak);
    }
  }
}
