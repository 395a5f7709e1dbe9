/**
 The recipe-text scanner: a single forward pass over the trimmed, non-blank
 lines of the text-generation model's reply that fills in a `Recipe`, and the
 guard that refuses to ask the model for a recipe without ingredients.
 */
module GenerateRecipe {

  import opened Text
  import opened RecipeStore

  const DefaultTitle := "Custom Recipe"
  const DefaultCookingTime := "25 minutes"
  const DefaultDifficulty := "Medium"
  const EmptyIngredientsMessage := "Please add at least one ingredient"

  /** Which list the bullet and numbered lines that follow belong to. */
  datatype Section = NoSection | Ingredients | Instructions

  /** The scalar fields a label line can set. */
  datatype Field = Title | CookingTime | Difficulty

  /** The lower-case label that marks a line as setting `f`. */
  function LabelText(f: Field): string {
    match f
    case Title => "recipe name:"
    case CookingTime => "cooking time:"
    case Difficulty => "difficulty:"
  }

  function Default(f: Field): string {
    match f
    case Title => DefaultTitle
    case CookingTime => DefaultCookingTime
    case Difficulty => DefaultDifficulty
  }

  // ---------------------------------------------------------------------------
  // splitting the reply into lines

  /** Trims every piece and drops the ones that become empty. */
  function NonBlankTrimmed(pieces: seq<string>): (ls: seq<string>)
    ensures |ls| <= |pieces|
    ensures forall i :: 0 <= i < |ls| ==> ls[i] != [] && IsTrimmed(ls[i])
  {
    if pieces == [] then []
    else
      var t := Trim(pieces[0]);
      (if t == [] then [] else [t]) + NonBlankTrimmed(pieces[1..])
  }

  /** Trimming adds no character, so no line break appears in the result
      that was not in a piece. */
  lemma {:induction false} NonBlankTrimmedNoBreak(pieces: seq<string>)
    requires forall j :: 0 <= j < |pieces| ==> '\n' !in pieces[j]
    ensures forall i :: 0 <= i < |NonBlankTrimmed(pieces)| ==> '\n' !in NonBlankTrimmed(pieces)[i]
    decreases |pieces|
  {
    if pieces != [] {
      NonBlankTrimmedNoBreak(pieces[1..]);
    }
  }

  /** The lines the scanner visits, in order; none is empty, none has white
      space at either end, none holds a line break. */
  function Lines(text: string): (ls: seq<string>)
    ensures forall i :: 0 <= i < |ls| ==> ls[i] != [] && IsTrimmed(ls[i]) && '\n' !in ls[i]
  {
    NonBlankTrimmedNoBreak(Split(text, '\n'));
    NonBlankTrimmed(Split(text, '\n'))
  }

  // ---------------------------------------------------------------------------
  // classifying one line

  /** The rule a line falls under, tried in the scanner's priority order. */
  datatype LineKind =
    | Label(field: Field, value: string)
    | Header(section: Section)
    | Dash(item: string)
    | Numbered(item: string)
    | Other

  /** The first label, in priority order, that the lower-cased line contains. */
  function LabelOf(lower: string): (r: Option<Field>)
    ensures r.Some? <==> Contains(lower, "recipe name:") || Contains(lower, "cooking time:") || Contains(lower, "difficulty:")
    ensures r.Some? ==> Contains(lower, LabelText(r.value))
    ensures r == Some(CookingTime) ==> !Contains(lower, LabelText(Title))
    ensures r == Some(Difficulty) ==> !Contains(lower, LabelText(Title)) && !Contains(lower, LabelText(CookingTime))
  {
    if Contains(lower, LabelText(Title)) then Some(Title)
    else if Contains(lower, LabelText(CookingTime)) then Some(CookingTime)
    else if Contains(lower, LabelText(Difficulty)) then Some(Difficulty)
    else None
  }

  /** The value a label line assigns: the trimmed text between its first and
      second colon, or the field's default when that is empty or missing. */
  function LabelValue(line: string, f: Field): (v: string)
    ensures v != []
    ensures v == Default(f) || (IsTrimmed(v) && ':' !in v)
  {
    var seg := SecondSegment(line);
    if seg.Some? && Trim(seg.value) != [] then Trim(seg.value) else Default(f)
  }

  /** The section a lower-cased header line opens, if it is one. */
  function HeaderOf(lower: string): (r: Option<Section>)
    ensures r != Some(NoSection)
    ensures r == Some(Ingredients) <==> lower == "ingredients:" || Contains(lower, "ingredients list:")
    ensures r == Some(Instructions) <==> r != Some(Ingredients) && (lower == "instructions:" || Contains(lower, "steps:"))
  {
    if lower == "ingredients:" || Contains(lower, "ingredients list:") then Some(Ingredients)
    else if lower == "instructions:" || Contains(lower, "steps:") then Some(Instructions)
    else None
  }

  /** The rule that claims `line`: labels first, then section headers, then
      `-` bullets, then `N.` steps. */
  function Classify(line: string): (k: LineKind)
    ensures k.Label? ==> k.value != [] && LabelOf(Lower(line)) == Some(k.field)
    ensures k.Header? ==> k.section != NoSection
    ensures k.Dash? ==> |line| > 0 && line[0] == '-' && IsTrimmed(k.item)
    ensures k.Numbered? ==> StartsWithStepNumber(line) && IsTrimmed(k.item)
    ensures k.Label? ==> k.value == LabelValue(line, k.field)
    ensures k.Dash? ==> k.item == Trim(line[1..])
    ensures k.Numbered? ==> k.item == StripStepMarker(line)
  {
    var lower := Lower(line);
    match LabelOf(lower)
    case Some(f) => Label(f, LabelValue(line, f))
    case None =>
      match HeaderOf(lower)
      case Some(sec) => Header(sec)
      case None =>
        if |line| > 0 && line[0] == '-' then Dash(Trim(line[1..]))
        else if StartsWithStepNumber(line) then Numbered(StripStepMarker(line))
        else Other
  }

  // ---------------------------------------------------------------------------
  // the scan

  /** Everything the scanner carries from one line to the next. */
  datatype Scan = Scan(
    title: string,
    cookingTime: string,
    difficulty: string,
    ingredients: seq<string>,
    instructions: seq<string>,
    section: Section)

  /** The state before the first line: no title yet, the default time and
      difficulty, empty lists, no section. */
  const Start := Scan([], DefaultCookingTime, DefaultDifficulty, [], [], NoSection)

  function FieldOf(st: Scan, f: Field): string {
    match f
    case Title => st.title
    case CookingTime => st.cookingTime
    case Difficulty => st.difficulty
  }

  function WithField(st: Scan, f: Field, v: string): Scan {
    match f
    case Title => st.(title := v)
    case CookingTime => st.(cookingTime := v)
    case Difficulty => st.(difficulty := v)
  }

  /** One iteration of the scanner's loop, on a line of kind `k`. */
  function Step(st: Scan, k: LineKind): (r: Scan)
    ensures st.ingredients <= r.ingredients && |r.ingredients| <= |st.ingredients| + 1
    ensures st.instructions <= r.instructions && |r.instructions| <= |st.instructions| + 1
    ensures |r.ingredients| > |st.ingredients| ==>
              st.section == Ingredients && k.Dash? && r.ingredients[|st.ingredients|] == k.item != []
    ensures |r.instructions| > |st.instructions| ==>
              st.section == Instructions && k.Numbered? && r.instructions[|st.instructions|] == k.item != []
    ensures r.section != st.section ==> k.Header?
    ensures !k.Label? ==> r.title == st.title && r.cookingTime == st.cookingTime && r.difficulty == st.difficulty
  {
    match k
    case Label(f, v) => WithField(st, f, v)
    case Header(sec) => st.(section := sec)
    case Dash(item) =>
      if st.section == Ingredients && item != [] then st.(ingredients := st.ingredients + [item]) else st
    case Numbered(item) =>
      if st.section == Instructions && item != [] then st.(instructions := st.instructions + [item]) else st
    case Other => st
  }

  /** Every label line carries a value, as `LabelValue` guarantees. */
  predicate LabelsFilled(ks: seq<LineKind>) {
    forall i :: 0 <= i < |ks| ==> ks[i].Label? ==> ks[i].value != []
  }

  /** The state after scanning lines of kinds `ks` in order: no list ever
      holds an empty entry. */
  function Scanned(ks: seq<LineKind>): (st: Scan)
    ensures forall i :: 0 <= i < |st.ingredients| ==> st.ingredients[i] != []
    ensures forall i :: 0 <= i < |st.instructions| ==> st.instructions[i] != []
  {
    if ks == [] then Start
    else Step(Scanned(ks[..|ks| - 1]), ks[|ks| - 1])
  }

  /** Cooking time and difficulty are never empty at any point of the scan. */
  lemma {:induction false} ScanKeepsScalars(ks: seq<LineKind>)
    requires LabelsFilled(ks)
    ensures Scanned(ks).cookingTime != [] && Scanned(ks).difficulty != []
    decreases |ks|
  {
    if ks != [] {
      assert LabelsFilled(ks[..|ks| - 1]);
      ScanKeepsScalars(ks[..|ks| - 1]);
    }
  }

  /** The kind of every line, in order. */
  function Kinds(lines: seq<string>): (ks: seq<LineKind>)
    ensures |ks| == |lines|
    ensures forall i :: 0 <= i < |ks| ==> ks[i] == Classify(lines[i])
    ensures LabelsFilled(ks)
  {
    seq(|lines|, i requires 0 <= i < |lines| => Classify(lines[i]))
  }

  /** The returned record: a title that was never set becomes the default. */
  function Finish(st: Scan): (r: Recipe)
    ensures r.title != []
    ensures st.title != [] ==> r.title == st.title
    ensures r.ingredients == st.ingredients && r.instructions == st.instructions
    ensures r.cookingTime == st.cookingTime && r.difficulty == st.difficulty
  {
    Recipe(
      if st.title == [] then DefaultTitle else st.title,
      st.ingredients,
      st.instructions,
      st.cookingTime,
      st.difficulty)
  }

  /** `parseRecipeText`: total, and every scalar field of the result is
      filled in. */
  function ParseRecipeText(text: string): (r: Recipe)
    ensures r.title != [] && r.cookingTime != [] && r.difficulty != []
  {
    ScanKeepsScalars(Kinds(Lines(text)));
    Finish(Scanned(Kinds(Lines(text))))
  }

  /** Scanning one more line is one more step. */
  lemma ScannedPrefix(ks: seq<LineKind>, i: int)
    requires 0 <= i < |ks|
    ensures Scanned(ks[..i + 1]) == Step(Scanned(ks[..i]), ks[i])
  {
    assert ks[..i + 1][..i] == ks[..i];
  }

  /** The scanner as the loop it is written as: the state is threaded through
      the lines in order, and a title never set becomes the default. */
  method ParseRecipe(text: string) returns (r: Recipe)
    ensures r == ParseRecipeText(text)
  {
    var lines := Lines(text);
    var st := ScanLines(lines);
    r := Recipe(if st.title == [] then DefaultTitle else st.title, st.ingredients, st.instructions, st.cookingTime, st.difficulty);
  }

  /** The loop over the lines. */
  method ScanLines(lines: seq<string>) returns (st: Scan)
    ensures st == Scanned(Kinds(lines))
  {
    ghost var ks := Kinds(lines);
    st := Start;
    var i := 0;
    while i < |lines|
      invariant 0 <= i <= |lines|
      invariant st == Scanned(ks[..i])
    {
      ScannedPrefix(ks, i);
      st := ScanLine(st, lines[i]);
      i := i + 1;
    }
    assert ks[..i] == ks;
  }

  /** The loop body as written: the rules tried in order, the first that
      matches consumes the line. */
  method ScanLine(st: Scan, line: string) returns (st': Scan)
    ensures st' == Step(st, Classify(line))
  {
    st' := st;
    var lower := Lower(line);
    if Contains(lower, "recipe name:") {
      assert Classify(line) == Label(Title, LabelValue(line, Title));
      st' := st'.(title := LabelValue(line, Title));
      return;
    }
    if Contains(lower, "cooking time:") {
      assert Classify(line) == Label(CookingTime, LabelValue(line, CookingTime));
      st' := st'.(cookingTime := LabelValue(line, CookingTime));
      return;
    }
    if Contains(lower, "difficulty:") {
      assert Classify(line) == Label(Difficulty, LabelValue(line, Difficulty));
      st' := st'.(difficulty := LabelValue(line, Difficulty));
      return;
    }
    assert LabelOf(lower) == None;
    if lower == "ingredients:" || Contains(lower, "ingredients list:") {
      assert Classify(line) == Header(Ingredients);
      st' := st'.(section := Ingredients);
      return;
    }
    if lower == "instructions:" || Contains(lower, "steps:") {
      assert Classify(line) == Header(Instructions);
      st' := st'.(section := Instructions);
      return;
    }
    assert HeaderOf(lower) == None;
    if st.section == Ingredients && |line| > 0 && line[0] == '-' {
      assert Classify(line) == Dash(Trim(line[1..]));
      var item := Trim(line[1..]);
      if item != [] {
        st' := st'.(ingredients := st.ingredients + [item]);
      }
      return;
    }
    if st.section == Instructions && StartsWithStepNumber(line) {
      assert Classify(line) == Numbered(StripStepMarker(line));
      var item := StripStepMarker(line);
      if item != [] {
        st' := st'.(instructions := st.instructions + [item]);
      }
    }
  }

  // ---------------------------------------------------------------------------
  // the caller

  datatype Result<+T> = Ok(value: T) | Err(message: string)

  /** Stands for the engine's not-a-function error raised when code calls a
      method the object does not have; the text is V8's wording for the
      unbundled source, and other engines or a minified build word it
      differently. */
  const MissingMethodMessage := "aiRecipeService.fetchRecipeFromAI is not a function"

  /** `createStructuredRecipe` as written: the service object has no
      `fetchRecipeFromAI` method, so past the guard the call itself fails and
      the parser is never reached. */
  function CreateStructuredRecipeAsWritten(ingredients: seq<string>): (r: Result<Recipe>)
    ensures r.Err?
    ensures ingredients == [] <==> r.message == EmptyIngredientsMessage
  {
    if |ingredients| == 0 then Err(EmptyIngredientsMessage) else Err(MissingMethodMessage)
  }

  /** `createStructuredRecipe`: an empty ingredient list is refused before the
      model is asked; otherwise the model's reply, or its failure, is passed
      on. `fetchRecipe` stands for the call to the text-generation service. */
  function CreateStructuredRecipe(ingredients: seq<string>, fetchRecipe: seq<string> -> Result<string>): (r: Result<Recipe>)
    ensures ingredients == [] ==> r == Err(EmptyIngredientsMessage)
    ensures r.Ok? <==> ingredients != [] && fetchRecipe(ingredients).Ok?
    ensures r.Ok? ==> r.value == ParseRecipeText(fetchRecipe(ingredients).value)
    ensures ingredients != [] && fetchRecipe(ingredients).Err? ==> r.message == fetchRecipe(ingredients).message
  {
    if |ingredients| == 0 then
      Err(EmptyIngredientsMessage)
    else
      match fetchRecipe(ingredients)
      case Ok(text) => Ok(ParseRecipeText(text))
      case Err(e) => Err(e)
  }
}
