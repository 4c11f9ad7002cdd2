/**
 * The main screen: the prompt builder, which turns the user's selection into
 * one instruction string, and the generate action, which gates on the API
 * key and on there being any input before calling the service.
 *
 * Of the cases the two selection switches handle, only those of the declared
 * composition and style members can ever match; the others (`V_FORMATION`,
 * `TOP_BOTTOM`, `TEAM_CREST_BACK`, `RETRO_VINTAGE`, `INK_SPLASH`,
 * `PAPER_COLLAGE`, `MINIMALIST_FLAT`) name members that do not exist, are
 * dead, and have no counterpart here.
 *
 * The builder is written over a record of its fixed sentences, so that its
 * structure is proved once for any wording that keeps the clauses apart
 * (`Distinguishable`); `AppTexts` holds the application's own wording and
 * `AppTextsDistinguishable` shows it qualifies.
 */
module App {
  import opened Wrappers
  import opened JsStrings
  import opened Types
  import opened GeminiService

  const HomeTeam := "Home Team"
  const AwayTeam := "Away Team"

  /**
   * `name.trim() || fallback`: the trimmed name, or the fallback when
   * nothing but whitespace was typed.
   */
  function Subject(name: string, fallback: string): (subject: string)
    ensures IsBlank(name) ==> subject == fallback
    ensures !IsBlank(name) ==> subject == Trim(name)
  {
    var trimmed := Trim(name);
    if trimmed != "" then trimmed else fallback
  }

  /**
   * The fixed sentences of the prompt: the opening and the typography request
   * lead into the subjects, and the diagonal split wraps them in three pieces.
   */
  datatype PromptTexts = PromptTexts(
    openingLead: string, typographyLead: string,
    diagonalLead: string, diagonalMiddle: string, diagonalTail: string,
    faceOff: string, doubleExposure: string, actionCollage: string, centerFocus: string,
    realisticStadium: string, cyberpunkNeon: string, grungeTexture: string,
    broadcast3D: string, illustrative: string, goldLuxury: string,
    vs: string, typographyTail: string)

  /** The opening sentence naming both effective subjects. */
  function Opening(texts: PromptTexts, subjectA: string, subjectB: string): string {
    texts.openingLead + subjectA + " and " + subjectB + ". "
  }

  /** The layout instruction of each declared composition member. */
  function CompositionClause(texts: PromptTexts, composition: CompositionType, subjectA: string, subjectB: string): string {
    match composition
    case SplitDiagonal => texts.diagonalLead + subjectA + texts.diagonalMiddle + subjectB + texts.diagonalTail
    case FaceOff => texts.faceOff
    case DoubleExposure => texts.doubleExposure
    case ActionCollage => texts.actionCollage
    case CenterFocus => texts.centerFocus
  }

  /** The background and treatment instruction of each declared style member. */
  function StyleClause(texts: PromptTexts, style: PosterStyle): string {
    match style
    case RealisticStadium => texts.realisticStadium
    case CyberpunkNeon => texts.cyberpunkNeon
    case GrungeTexture => texts.grungeTexture
    case Broadcast3D => texts.broadcast3D
    case Illustrative => texts.illustrative
    case GoldLuxury => texts.goldLuxury
  }

  /** The request to render both names as typography. */
  function TypographyClause(texts: PromptTexts, subjectA: string, subjectB: string): string {
    texts.typographyLead + subjectA + "\" and \"" + subjectB + texts.typographyTail
  }

  /** What introduces the user's free text. */
  const DetailsLabel := " Additional details: "

  /** The fixed part of every prompt: opening, composition, style and the "VS" request, in that order. */
  function BasePrompt(texts: PromptTexts, subjectA: string, subjectB: string, composition: CompositionType,
                      style: PosterStyle): string
  {
    Opening(texts, subjectA, subjectB) + CompositionClause(texts, composition, subjectA, subjectB)
    + StyleClause(texts, style) + texts.vs
  }

  /** The prompt for one selection, in the given wording. */
  function PromptFrom(texts: PromptTexts, nameA: string, nameB: string, composition: CompositionType,
                      style: PosterStyle, prompt: string): string
  {
    var subjectA := Subject(nameA, HomeTeam);
    var subjectB := Subject(nameB, AwayTeam);
    var basePrompt := BasePrompt(texts, subjectA, subjectB, composition, style);
    var withNames := if Trim(nameA) != "" && Trim(nameB) != ""
      then basePrompt + TypographyClause(texts, subjectA, subjectB) else basePrompt;
    if Trim(prompt) != "" then withNames + DetailsLabel + prompt else withNames
  }

  /** The character `k` places from the end of `s` is `c`. */
  predicate CharFromEndIs(s: string, k: nat, c: char) {
    1 <= k <= |s| && s[|s| - k] == c
  }

  /** The fourth character from the end, which tells the composition clauses apart. */
  function CompositionMark(composition: CompositionType): char {
    match composition
    case SplitDiagonal => 'e'
    case FaceOff => 'g'
    case DoubleExposure => 'd'
    case ActionCollage => 't'
    case CenterFocus => 'c'
  }

  /** The fourth and sixth characters from the end, which tell the style clauses apart. */
  function StyleMarks(style: PosterStyle): (char, char) {
    match style
    case RealisticStadium => ('l', 't')
    case CyberpunkNeon => ('t', 'e')
    case GrungeTexture => ('w', 'd')
    case Broadcast3D => ('e', 's')
    case Illustrative => ('n', 'd')
    case GoldLuxury => ('n', 't')
  }

  /**
   * A wording in which the clauses can be told apart by their endings: each
   * composition and style text ends in its own marks, the "VS" request and
   * the typography request differ three characters from the end, and the
   * diagonal split puts some text between the two subjects.
   */
  predicate Distinguishable(texts: PromptTexts) {
    && CharFromEndIs(texts.vs, 3, 'e') && CharFromEndIs(texts.typographyTail, 3, 'n')
    && texts.diagonalMiddle != ""
    && CharFromEndIs(texts.diagonalTail, 4, CompositionMark(SplitDiagonal))
    && CharFromEndIs(texts.faceOff, 4, CompositionMark(FaceOff))
    && CharFromEndIs(texts.doubleExposure, 4, CompositionMark(DoubleExposure))
    && CharFromEndIs(texts.actionCollage, 4, CompositionMark(ActionCollage))
    && CharFromEndIs(texts.centerFocus, 4, CompositionMark(CenterFocus))
    && CharFromEndIs(texts.realisticStadium, 4, StyleMarks(RealisticStadium).0)
    && CharFromEndIs(texts.realisticStadium, 6, StyleMarks(RealisticStadium).1)
    && CharFromEndIs(texts.cyberpunkNeon, 4, StyleMarks(CyberpunkNeon).0)
    && CharFromEndIs(texts.cyberpunkNeon, 6, StyleMarks(CyberpunkNeon).1)
    && CharFromEndIs(texts.grungeTexture, 4, StyleMarks(GrungeTexture).0)
    && CharFromEndIs(texts.grungeTexture, 6, StyleMarks(GrungeTexture).1)
    && CharFromEndIs(texts.broadcast3D, 4, StyleMarks(Broadcast3D).0)
    && CharFromEndIs(texts.broadcast3D, 6, StyleMarks(Broadcast3D).1)
    && CharFromEndIs(texts.illustrative, 4, StyleMarks(Illustrative).0)
    && CharFromEndIs(texts.illustrative, 6, StyleMarks(Illustrative).1)
    && CharFromEndIs(texts.goldLuxury, 4, StyleMarks(GoldLuxury).0)
    && CharFromEndIs(texts.goldLuxury, 6, StyleMarks(GoldLuxury).1)
  }

  /** A base prompt opens with the sentence naming its subjects. */
  lemma BaseOpensWithSubjects(texts: PromptTexts, subjectA: string, subjectB: string, composition: CompositionType,
                              style: PosterStyle)
    ensures StartsWith(BasePrompt(texts, subjectA, subjectB, composition, style), Opening(texts, subjectA, subjectB))
  {
  }

  /** Whatever the prompt adds to the base prompt, it adds at the end. */
  lemma PromptExtendsBase(texts: PromptTexts, nameA: string, nameB: string, composition: CompositionType,
                          style: PosterStyle, prompt: string)
    ensures StartsWith(PromptFrom(texts, nameA, nameB, composition, style, prompt),
      BasePrompt(texts, Subject(nameA, HomeTeam), Subject(nameB, AwayTeam), composition, style))
  {
  }

  /**
   * The prompt opens with the sentence naming both effective subjects, then
   * the composition clause, then the style clause, then the "VS" clause.
   */
  lemma PromptLayout(texts: PromptTexts, nameA: string, nameB: string, composition: CompositionType,
                     style: PosterStyle, prompt: string)
    ensures StartsWith(PromptFrom(texts, nameA, nameB, composition, style, prompt),
      BasePrompt(texts, Subject(nameA, HomeTeam), Subject(nameB, AwayTeam), composition, style))
    ensures StartsWith(PromptFrom(texts, nameA, nameB, composition, style, prompt),
      Opening(texts, Subject(nameA, HomeTeam), Subject(nameB, AwayTeam)))
  {
    var subjectA := Subject(nameA, HomeTeam);
    var subjectB := Subject(nameB, AwayTeam);
    PromptExtendsBase(texts, nameA, nameB, composition, style, prompt);
    BaseOpensWithSubjects(texts, subjectA, subjectB, composition, style);
    StartsWithTransitive(PromptFrom(texts, nameA, nameB, composition, style, prompt),
      BasePrompt(texts, subjectA, subjectB, composition, style), Opening(texts, subjectA, subjectB));
  }

  /**
   * Blank free text changes nothing; any other free text is appended last,
   * verbatim and untrimmed, after the label.
   */
  lemma DetailsAppendedVerbatim(texts: PromptTexts, nameA: string, nameB: string, composition: CompositionType,
                                style: PosterStyle, prompt: string)
    ensures IsBlank(prompt) ==>
      PromptFrom(texts, nameA, nameB, composition, style, prompt)
      == PromptFrom(texts, nameA, nameB, composition, style, "")
    ensures !IsBlank(prompt) ==>
      PromptFrom(texts, nameA, nameB, composition, style, prompt)
      == PromptFrom(texts, nameA, nameB, composition, style, "") + DetailsLabel + prompt
  {
  }

  /**
   * Without free text, the prompt ends with the typography clause exactly
   * when both names are non-blank: one supplied name is not enough.
   */
  lemma TypographyIffBothNames(texts: PromptTexts, nameA: string, nameB: string, composition: CompositionType,
                               style: PosterStyle)
    requires Distinguishable(texts)
    ensures EndsWith(PromptFrom(texts, nameA, nameB, composition, style, ""),
        TypographyClause(texts, Subject(nameA, HomeTeam), Subject(nameB, AwayTeam)))
      <==> !IsBlank(nameA) && !IsBlank(nameB)
  {
    var subjectA := Subject(nameA, HomeTeam);
    var subjectB := Subject(nameB, AwayTeam);
    var base := BasePrompt(texts, subjectA, subjectB, composition, style);
    var t := TypographyClause(texts, subjectA, subjectB);
    assert Trim("") == "";
    if !IsBlank(nameA) && !IsBlank(nameB) {
      EndsWithAppend(base, t);
    } else {
      var styled := Opening(texts, subjectA, subjectB) + CompositionClause(texts, composition, subjectA, subjectB)
        + StyleClause(texts, style);
      CharFromEnd(styled, texts.vs, 3);
      CharFromEnd(texts.typographyLead + subjectA + "\" and \"" + subjectB, texts.typographyTail, 3);
      if EndsWith(base, t) {
        EndsWithCharFromEnd(base, t, 3);
      }
    }
  }

  /**
   * Typing the default label counts as supplying a name: a side-A name that
   * trims to "Home Team" yields the same subject as a blank side A, yet a
   * different prompt when side B is supplied, because it requests the
   * typography.
   */
  lemma TypedDefaultStillRendersNames(texts: PromptTexts, typedA: string, nameB: string, composition: CompositionType,
                                      style: PosterStyle, prompt: string)
    requires Trim(typedA) == HomeTeam && !IsBlank(nameB)
    ensures Subject(typedA, HomeTeam) == Subject("", HomeTeam)
    ensures PromptFrom(texts, typedA, nameB, composition, style, prompt)
      != PromptFrom(texts, "", nameB, composition, style, prompt)
  {
  }

  /** In a distinguishable wording, each composition clause ends in its own mark, whatever the subjects. */
  lemma CompositionClauseMark(texts: PromptTexts, composition: CompositionType, subjectA: string, subjectB: string)
    requires Distinguishable(texts)
    ensures CharFromEndIs(CompositionClause(texts, composition, subjectA, subjectB), 4, CompositionMark(composition))
  {
  }

  /** In a distinguishable wording, each style clause ends in its own marks. */
  lemma StyleClauseMarks(texts: PromptTexts, style: PosterStyle)
    requires Distinguishable(texts)
    ensures CharFromEndIs(StyleClause(texts, style), 4, StyleMarks(style).0)
    ensures CharFromEndIs(StyleClause(texts, style), 6, StyleMarks(style).1)
  {
  }

  /** In a distinguishable wording, every declared composition and style member has a non-empty clause. */
  lemma ClausesNonEmpty(texts: PromptTexts, composition: CompositionType, style: PosterStyle,
                        subjectA: string, subjectB: string)
    requires Distinguishable(texts)
    ensures CompositionClause(texts, composition, subjectA, subjectB) != ""
    ensures StyleClause(texts, style) != ""
  {
  }

  /** In a distinguishable wording, a text ending in a style clause tells which style it was. */
  lemma StyleClauseDeterminesStyle(texts: PromptTexts, x1: string, style1: PosterStyle, x2: string, style2: PosterStyle)
    requires Distinguishable(texts)
    requires x1 + StyleClause(texts, style1) == x2 + StyleClause(texts, style2)
    ensures style1 == style2
  {
    var s1, s2 := StyleClause(texts, style1), StyleClause(texts, style2);
    StyleClauseMarks(texts, style1);
    StyleClauseMarks(texts, style2);
    CharFromEnd(x1, s1, 4);
    CharFromEnd(x2, s2, 4);
    CharFromEnd(x1, s1, 6);
    CharFromEnd(x2, s2, 6);
    assert StyleMarks(style1) == StyleMarks(style2);
  }

  /** In a distinguishable wording, a text ending in a composition clause tells which composition it was. */
  lemma CompositionClauseDeterminesComposition(texts: PromptTexts, subjectA: string, subjectB: string,
    x1: string, composition1: CompositionType, x2: string, composition2: CompositionType)
    requires Distinguishable(texts)
    requires x1 + CompositionClause(texts, composition1, subjectA, subjectB)
      == x2 + CompositionClause(texts, composition2, subjectA, subjectB)
    ensures composition1 == composition2
  {
    var c1 := CompositionClause(texts, composition1, subjectA, subjectB);
    var c2 := CompositionClause(texts, composition2, subjectA, subjectB);
    CompositionClauseMark(texts, composition1, subjectA, subjectB);
    CompositionClauseMark(texts, composition2, subjectA, subjectB);
    CharFromEnd(x1, c1, 4);
    CharFromEnd(x2, c2, 4);
  }

  /** Equal base prompts for the same subjects come from the same composition and style. */
  lemma BasePromptDeterminesSelection(texts: PromptTexts, subjectA: string, subjectB: string,
    composition1: CompositionType, style1: PosterStyle, composition2: CompositionType, style2: PosterStyle)
    requires Distinguishable(texts)
    requires BasePrompt(texts, subjectA, subjectB, composition1, style1)
      == BasePrompt(texts, subjectA, subjectB, composition2, style2)
    ensures composition1 == composition2 && style1 == style2
  {
    var opening := Opening(texts, subjectA, subjectB);
    var c1 := CompositionClause(texts, composition1, subjectA, subjectB);
    var c2 := CompositionClause(texts, composition2, subjectA, subjectB);
    var s1 := StyleClause(texts, style1);
    var s2 := StyleClause(texts, style2);
    CancelRight(opening + c1 + s1, opening + c2 + s2, texts.vs);
    StyleClauseDeterminesStyle(texts, opening + c1, style1, opening + c2, style2);
    CancelRight(opening + c1, opening + c2, s1);
    CompositionClauseDeterminesComposition(texts, subjectA, subjectB, opening, composition1, opening, composition2);
  }

  /**
   * Different selections give different prompts: the composition and the
   * style can be read back from the prompt for fixed names and free text.
   */
  lemma SelectionDeterminesPrompt(texts: PromptTexts, nameA: string, nameB: string, prompt: string,
    composition1: CompositionType, style1: PosterStyle, composition2: CompositionType, style2: PosterStyle)
    requires Distinguishable(texts)
    requires PromptFrom(texts, nameA, nameB, composition1, style1, prompt)
      == PromptFrom(texts, nameA, nameB, composition2, style2, prompt)
    ensures composition1 == composition2 && style1 == style2
  {
    var subjectA := Subject(nameA, HomeTeam);
    var subjectB := Subject(nameB, AwayTeam);
    var base1 := BasePrompt(texts, subjectA, subjectB, composition1, style1);
    var base2 := BasePrompt(texts, subjectA, subjectB, composition2, style2);
    var withNames1, withNames2 := base1, base2;
    if Trim(nameA) != "" && Trim(nameB) != "" {
      withNames1 := base1 + TypographyClause(texts, subjectA, subjectB);
      withNames2 := base2 + TypographyClause(texts, subjectA, subjectB);
    }
    if Trim(prompt) != "" {
      CancelRight(withNames1 + DetailsLabel, withNames2 + DetailsLabel, prompt);
      CancelRight(withNames1, withNames2, DetailsLabel);
    }
    if Trim(nameA) != "" && Trim(nameB) != "" {
      CancelRight(base1, base2, TypographyClause(texts, subjectA, subjectB));
    }
    BasePromptDeterminesSelection(texts, subjectA, subjectB, composition1, style1, composition2, style2);
  }

  /** The diagonal split puts subject A before subject B, with text between them. */
  lemma DiagonalPlacesAFirst(texts: PromptTexts, subjectA: string, subjectB: string)
    requires Distinguishable(texts)
    ensures var clause := CompositionClause(texts, SplitDiagonal, subjectA, subjectB);
      exists i: nat, j: nat :: OccursAt(clause, subjectA, i) && OccursAt(clause, subjectB, j) && i + |subjectA| < j
  {
    var withA := texts.diagonalLead + subjectA;
    var withB := withA + texts.diagonalMiddle + subjectB;
    OccursAfter(texts.diagonalLead, subjectA);
    OccursAtExtend(withA, subjectA, |texts.diagonalLead|, texts.diagonalMiddle);
    OccursAtExtend(withA + texts.diagonalMiddle, subjectA, |texts.diagonalLead|, subjectB);
    OccursAtExtend(withB, subjectA, |texts.diagonalLead|, texts.diagonalTail);
    OccursAfter(withA + texts.diagonalMiddle, subjectB);
    OccursAtExtend(withB, subjectB, |withA + texts.diagonalMiddle|, texts.diagonalTail);
    var clause := CompositionClause(texts, SplitDiagonal, subjectA, subjectB);
    var i, j := |texts.diagonalLead|, |withA + texts.diagonalMiddle|;
    assert clause == withB + texts.diagonalTail;
    assert OccursAt(clause, subjectA, i) && OccursAt(clause, subjectB, j) && i + |subjectA| < j;
  }

  // The application's wording.
  const OpeningLead := "Create a high-impact promotional poster for a match between "
  const TypographyLead := "Render the text \""
  const DiagonalLead := "Use a dynamic diagonal split composition. Place "
  const DiagonalMiddle := " on the top-left/left and "
  const DiagonalTail := " on the bottom-right/right with contrasting color schemes. "
  const FaceOffText :=
    "Close-up profile side-view of both subjects staring intensely at each other (face-off), very close range. "
  const DoubleExposureText :=
    "Use an artistic double exposure effect, blending the players with their team crests or stadium backgrounds. "
  const ActionCollageText :=
    "A dynamic collage featuring full-body action shots of the players in motion with explosive energy effects. "
  const CenterFocusText := "Place both subjects symmetrically around a central glowing energy source. "
  const RealisticStadiumText :=
    "Background should be a photorealistic stadium at night with floodlights, crowd atmosphere, and lens flares. Professional photography style. "
  const CyberpunkNeonText :=
    "Cyberpunk aesthetic with heavy neon blue and magenta lighting, glitch effects, rain, and futuristic UI elements. "
  const GrungeTextureText :=
    "Gritty urban grunge style with concrete textures, smoke, ink splatters, high contrast, and dramatic shadows. "
  const Broadcast3DText :=
    "Premium TV broadcast graphics style. Shiny 3D metallic elements, glass textures, clean studio lighting, very polished. "
  const IllustrativeText :=
    "Dynamic comic book or digital illustration style. Bold outlines, vibrant colors, expressive shading. "
  const GoldLuxuryText :=
    "Luxury aesthetic. Black and Gold color palette, marble textures, golden particles, elegant lighting. "
  const VsText :=
    "Prominently display the text \"VS\" in the center using a stylized, 3D metallic badge design that matches the background style. "
  const TypographyTailText :=
    "\" using large, bold, custom typography. The font should be aggressive and sporty. Ensure the text is legible and integrated into the design. "

  const AppTexts := PromptTexts(
    OpeningLead, TypographyLead,
    DiagonalLead, DiagonalMiddle, DiagonalTail,
    FaceOffText, DoubleExposureText, ActionCollageText, CenterFocusText,
    RealisticStadiumText, CyberpunkNeonText, GrungeTextureText,
    Broadcast3DText, IllustrativeText, GoldLuxuryText,
    VsText, TypographyTailText)

  /** The application's composition texts end in their marks. */
  lemma CompositionTextsMarked()
    ensures CharFromEndIs(DiagonalTail, 4, 'e') && DiagonalMiddle != ""
    ensures CharFromEndIs(FaceOffText, 4, 'g') && CharFromEndIs(DoubleExposureText, 4, 'd')
    ensures CharFromEndIs(ActionCollageText, 4, 't') && CharFromEndIs(CenterFocusText, 4, 'c')
  {
  }

  /** The application's style texts end in their marks. */
  lemma StyleTextsMarked()
    ensures CharFromEndIs(RealisticStadiumText, 4, 'l') && CharFromEndIs(RealisticStadiumText, 6, 't')
    ensures CharFromEndIs(CyberpunkNeonText, 4, 't') && CharFromEndIs(CyberpunkNeonText, 6, 'e')
    ensures CharFromEndIs(GrungeTextureText, 4, 'w') && CharFromEndIs(GrungeTextureText, 6, 'd')
    ensures CharFromEndIs(Broadcast3DText, 4, 'e') && CharFromEndIs(Broadcast3DText, 6, 's')
    ensures CharFromEndIs(IllustrativeText, 4, 'n') && CharFromEndIs(IllustrativeText, 6, 'd')
    ensures CharFromEndIs(GoldLuxuryText, 4, 'n') && CharFromEndIs(GoldLuxuryText, 6, 't')
  {
  }

  /** The application's wording keeps every clause apart. */
  lemma AppTextsDistinguishable()
    ensures Distinguishable(AppTexts)
  {
    CompositionTextsMarked();
    StyleTextsMarked();
    assert CharFromEndIs(VsText, 3, 'e') && CharFromEndIs(TypographyTailText, 3, 'n');
  }

  /** `buildSmartPrompt`: the instruction string for one selection, in the application's wording. */
  function BuildSmartPrompt(nameA: string, nameB: string, composition: CompositionType, style: PosterStyle,
                            prompt: string): string
  {
    PromptFrom(AppTexts, nameA, nameB, composition, style, prompt)
  }

  /** With the application's wording, the composition and the style can be read back from the prompt. */
  lemma AppSelectionDeterminesPrompt(nameA: string, nameB: string, prompt: string,
    composition1: CompositionType, style1: PosterStyle, composition2: CompositionType, style2: PosterStyle)
    requires BuildSmartPrompt(nameA, nameB, composition1, style1, prompt)
      == BuildSmartPrompt(nameA, nameB, composition2, style2, prompt)
    ensures composition1 == composition2 && style1 == style2
  {
    AppTextsDistinguishable();
    SelectionDeterminesPrompt(AppTexts, nameA, nameB, prompt, composition1, style1, composition2, style2);
  }

  /** In the application's wording, every declared composition and style member contributes text. */
  lemma AppClausesNonEmpty(composition: CompositionType, style: PosterStyle, subjectA: string, subjectB: string)
    ensures CompositionClause(AppTexts, composition, subjectA, subjectB) != ""
    ensures StyleClause(AppTexts, style) != ""
  {
  }

  /**
   * With the application's wording and no free text, the prompt ends with
   * the typography request exactly when both names are non-blank.
   */
  lemma AppTypographyIffBothNames(nameA: string, nameB: string, composition: CompositionType, style: PosterStyle)
    ensures EndsWith(BuildSmartPrompt(nameA, nameB, composition, style, ""),
        TypographyClause(AppTexts, Subject(nameA, HomeTeam), Subject(nameB, AwayTeam)))
      <==> !IsBlank(nameA) && !IsBlank(nameB)
  {
    AppTextsDistinguishable();
    TypographyIffBothNames(AppTexts, nameA, nameB, composition, style);
  }

  /**
   * `!imageA && !imageB && !nameA && !nameB`: the untrimmed emptiness test of
   * the generate guard, which holds exactly when no image would be sent and
   * both names are empty.
   */
  predicate NothingSupplied(imageA: Option<string>, imageB: Option<string>, nameA: string, nameB: string)
    ensures NothingSupplied(imageA, imageB, nameA, nameB)
      <==> SentImages(imageA, imageB) == [] && nameA == "" && nameB == ""
  {
    !Truthy(imageA) && !Truthy(imageB) && nameA == "" && nameB == ""
  }

  /**
   * Whitespace-only names pass the guard, yet the prompt falls back to both
   * default labels without typography.
   */
  lemma WhitespaceNamesPassGuard(texts: PromptTexts, nameA: string, nameB: string, composition: CompositionType,
                                 style: PosterStyle, prompt: string)
    requires Distinguishable(texts)
    requires nameA != "" && IsBlank(nameA) && IsBlank(nameB)
    ensures !NothingSupplied(None, None, nameA, nameB)
    ensures StartsWith(PromptFrom(texts, nameA, nameB, composition, style, prompt), Opening(texts, HomeTeam, AwayTeam))
    ensures !EndsWith(PromptFrom(texts, nameA, nameB, composition, style, ""), TypographyClause(texts, HomeTeam, AwayTeam))
  {
    PromptLayout(texts, nameA, nameB, composition, style, prompt);
    TypographyIffBothNames(texts, nameA, nameB, composition, style);
  }

  /** What one press of the generate button came to. */
  datatype GenerateOutcome =
    | KeyNotSelected                                 // no key, and none was selected when asked
    | MissingInput                                   // "Please upload images or provide team names."
    | Attempted(result: Result<string, ServiceError>) // the service was called (or threw for want of a key)

  /** The state of the main screen. */
  class AppState {
    var imageA: Option<string>
    var imageB: Option<string>
    var nameA: string
    var nameB: string
    var composition: CompositionType
    var style: PosterStyle
    var prompt: string
    var aspectRatio: AspectRatio
    var resolution: ImageResolution
    var isGenerating: bool
    var generatedImage: Option<string>
    var hasApiKey: bool
    /** The component's `buildSmartPrompt` closure, applied to the fields it reads. */
    const buildSmartPrompt: (string, string, CompositionType, PosterStyle, string) -> string

    /** The initial state, once the first key check has reported. */
    constructor (host: Option<Host>)
      ensures imageA == None && imageB == None && nameA == "" && nameB == "" && prompt == ""
      ensures composition == SplitDiagonal && style == Broadcast3D
      ensures aspectRatio == Portrait9x16 && resolution == Res2K
      ensures !isGenerating && generatedImage == None
      ensures hasApiKey == CheckApiKey(host)
      ensures buildSmartPrompt == BuildSmartPrompt
    {
      buildSmartPrompt := BuildSmartPrompt;
      imageA, imageB := None, None;
      nameA, nameB, prompt := "", "", "";
      composition, style := SplitDiagonal, Broadcast3D;
      aspectRatio, resolution := Portrait9x16, Res2K;
      isGenerating, generatedImage := false, None;
      hasApiKey := CheckApiKey(host);
    }

    /** The prompt the current selection produces. */
    function CurrentPrompt(): string
      reads this`nameA, this`nameB, this`composition, this`style, this`prompt
    {
      buildSmartPrompt(nameA, nameB, composition, style, prompt)
    }

    /**
     * `handleGenerate`. Without a key, the key selection is opened and the
     * key re-checked (`hostAfterSelection` is the host as the user leaves
     * it); still no key means nothing happens. With nothing supplied,
     * nothing is sent. Otherwise the service is called with the current
     * prompt; only a success replaces the generated image, and the loading
     * flag is cleared whatever the outcome.
     */
    method HandleGenerate(hostAfterSelection: Option<Host>, apiKey: string, sdk: Request -> SdkOutcome)
      returns (outcome: GenerateOutcome, sent: Option<Request>)
      modifies this`hasApiKey, this`isGenerating, this`generatedImage
      ensures hasApiKey == (old(hasApiKey) || CheckApiKey(hostAfterSelection))
      ensures !hasApiKey ==>
        outcome == KeyNotSelected && sent == None
        && isGenerating == old(isGenerating) && generatedImage == old(generatedImage)
      ensures hasApiKey && NothingSupplied(imageA, imageB, nameA, nameB) ==>
        outcome == MissingInput && sent == None
        && isGenerating == old(isGenerating) && generatedImage == old(generatedImage)
      ensures hasApiKey && !NothingSupplied(imageA, imageB, nameA, nameB) ==>
        var request := GenerationRequest(CurrentPrompt(), imageA, imageB, aspectRatio, resolution);
        && outcome == Attempted(ServiceResult(apiKey, request, sdk))
        && sent == (if apiKey == "" then None else Some(request))
        && !isGenerating
        && generatedImage == (if outcome.result.Success? then Some(outcome.result.value) else old(generatedImage))
    {
      if !hasApiKey {
        var keySelected := CheckApiKey(hostAfterSelection);
        if keySelected {
          hasApiKey := true;
        } else {
          return KeyNotSelected, None;
        }
      }
      if NothingSupplied(imageA, imageB, nameA, nameB) {
        return MissingInput, None;
      }
      isGenerating := true;
      var finalPrompt := CurrentPrompt();
      var result;
      result, sent := GenerateVSCover(apiKey, finalPrompt, imageA, imageB, aspectRatio, resolution, sdk);
      if result.Success? {
        generatedImage := Some(result.value);
      }
      isGenerating := false;
      outcome := Attempted(result);
    }
  }
}
