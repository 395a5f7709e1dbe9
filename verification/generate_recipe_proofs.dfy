/**
 What the recipe-text scanner promises, stated against definitions that do not
 mention the scan state: which label line supplies each scalar field, which
 header decides the section, which lines end up in each list and in what order.
 */
module GenerateRecipeProofs {

  import opened Text
  import opened RecipeStore
  import opened GenerateRecipe

  // ---------------------------------------------------------------------------
  // reference definitions

  /** A line of kind `k` sets `f` (and so is claimed by no other rule). */
  predicate SetsField(k: LineKind, f: Field) {
    k.Label? && k.field == f
  }

  /** A scalar field of the returned record. */
  function RecipeField(r: Recipe, f: Field): string {
    match f
    case Title => r.title
    case CookingTime => r.cookingTime
    case Difficulty => r.difficulty
  }

  /** The section opened by the last header among `ks`, if any. */
  function SectionAfter(ks: seq<LineKind>): Section {
    if ks == [] then NoSection
    else if ks[|ks| - 1].Header? then ks[|ks| - 1].section
    else SectionAfter(ks[..|ks| - 1])
  }

  /** The entry a line of kind `k` gives the list of `sec` while `sec` is in
      force. */
  function EntryOf(sec: Section, k: LineKind): seq<string> {
    match k
    case Dash(item) => if sec == Ingredients && item != [] then [item] else []
    case Numbered(item) => if sec == Instructions && item != [] then [item] else []
    case _ => []
  }

  /** The entries of the list of `sec`, in line order: each line contributes its
      entry exactly when the last header before it opened `sec`. */
  function Collected(ks: seq<LineKind>, sec: Section): seq<string> {
    if ks == [] then []
    else
      var prefix := ks[..|ks| - 1];
      Collected(prefix, sec) + (if SectionAfter(prefix) == sec then EntryOf(sec, ks[|ks| - 1]) else [])
  }

  const DefaultRecipe := Recipe(DefaultTitle, [], [], DefaultCookingTime, DefaultDifficulty)

  // ---------------------------------------------------------------------------
  // one step

  /** Label lines take priority: they never touch the section or the lists,
      even when the line also starts with `-` or a step number. */
  lemma LabelLineTouchesNoList(st: Scan, line: string)
    requires Classify(line).Label?
    ensures Step(st, Classify(line)).section == st.section
    ensures Step(st, Classify(line)).ingredients == st.ingredients
    ensures Step(st, Classify(line)).instructions == st.instructions
    ensures Step(st, Classify(line)) == WithField(st, Classify(line).field, Classify(line).value)
  {
  }

  /** The order in which the rules claim a line, in the scanner's own terms: a
      line is a label line exactly when its lower-cased form contains one of
      the three labels, whatever it starts with; it is a bullet only when no
      label or header rule claims it, and a step only when it is not a bullet
      either. */
  lemma RulePriority(line: string)
    ensures Classify(line).Label? <==>
              Contains(Lower(line), "recipe name:") || Contains(Lower(line), "cooking time:") || Contains(Lower(line), "difficulty:")
    ensures Classify(line).Dash? <==>
              !Classify(line).Label? && !Classify(line).Header? && |line| > 0 && line[0] == '-'
    ensures Classify(line).Numbered? <==>
              !Classify(line).Label? && !Classify(line).Header? && !(|line| > 0 && line[0] == '-') && StartsWithStepNumber(line)
  {
    LabelRuleFirst(line);
    BulletRuleNext(line);
    StepRuleLast(line);
  }

  lemma LabelRuleFirst(line: string)
    ensures Classify(line).Label? <==>
              Contains(Lower(line), "recipe name:") || Contains(Lower(line), "cooking time:") || Contains(Lower(line), "difficulty:")
  {
    assert Classify(line).Label? <==> LabelOf(Lower(line)).Some?;
  }

  lemma BulletRuleNext(line: string)
    ensures Classify(line).Dash? <==>
              !Classify(line).Label? && !Classify(line).Header? && |line| > 0 && line[0] == '-'
  {
    var lower := Lower(line);
    if LabelOf(lower).None? && HeaderOf(lower).None? && |line| > 0 && line[0] == '-' {
      assert Classify(line) == Dash(Trim(line[1..]));
    }
  }

  lemma StepRuleLast(line: string)
    ensures Classify(line).Numbered? <==>
              !Classify(line).Label? && !Classify(line).Header? && !(|line| > 0 && line[0] == '-') && StartsWithStepNumber(line)
  {
    var lower := Lower(line);
    if LabelOf(lower).None? && HeaderOf(lower).None? && !(|line| > 0 && line[0] == '-') && StartsWithStepNumber(line) {
      assert Classify(line) == Numbered(StripStepMarker(line));
    }
  }

  /** The section tag moves only on a header line, which is one whose lower-cased
      form equals `ingredients:` or holds `ingredients list:` (or equals
      `instructions:` or holds `steps:`) and holds none of the labels. */
  lemma SectionSwitch(st: Scan, line: string)
    ensures Step(st, Classify(line)).section != st.section ==> Classify(line).Header?
    ensures Classify(line).Header? <==> LabelOf(Lower(line)) == None && HeaderOf(Lower(line)).Some?
    ensures Classify(line).Header? ==> Step(st, Classify(line)).section == HeaderOf(Lower(line)).value
  {
  }

  // ---------------------------------------------------------------------------
  // scalar fields

  /** When several lines carry the label of `f`, the last one decides it. */
  lemma {:induction false} LastLabelWins(ks: seq<LineKind>, f: Field, i: int)
    requires 0 <= i < |ks| && SetsField(ks[i], f)
    requires forall j :: i < j < |ks| ==> !SetsField(ks[j], f)
    ensures FieldOf(Scanned(ks), f) == ks[i].value
    decreases |ks|
  {
    var n := |ks| - 1;
    if i < n {
      assert ks[..n][i] == ks[i];
      assert forall j :: i < j < n ==> ks[..n][j] == ks[j];
      LastLabelWins(ks[..n], f, i);
    }
  }

  /** A field no line labels keeps its starting value. */
  lemma {:induction false} UnlabelledFieldKept(ks: seq<LineKind>, f: Field)
    requires forall j :: 0 <= j < |ks| ==> !SetsField(ks[j], f)
    ensures FieldOf(Scanned(ks), f) == FieldOf(Start, f)
    decreases |ks|
  {
    if ks != [] {
      var n := |ks| - 1;
      assert forall j :: 0 <= j < n ==> ks[..n][j] == ks[j];
      UnlabelledFieldKept(ks[..n], f);
    }
  }

  /** Each scalar field of the parsed recipe is the value of the last line that
      labels it, and the field's default when no line does. */
  lemma ParsedField(text: string, f: Field)
    ensures var lines := Lines(text);
            var r := ParseRecipeText(text);
            && (forall i :: 0 <= i < |lines| && SetsField(Classify(lines[i]), f)
                  && (forall j :: i < j < |lines| ==> !SetsField(Classify(lines[j]), f))
                  ==> RecipeField(r, f) == Classify(lines[i]).value)
            && ((forall j :: 0 <= j < |lines| ==> !SetsField(Classify(lines[j]), f))
                  ==> RecipeField(r, f) == Default(f))
  {
    var lines := Lines(text);
    var ks := Kinds(lines);
    forall i | 0 <= i < |lines| && SetsField(Classify(lines[i]), f)
                && (forall j :: i < j < |lines| ==> !SetsField(Classify(lines[j]), f))
      ensures RecipeField(ParseRecipeText(text), f) == Classify(lines[i]).value
    {
      LastLabelWins(ks, f, i);
    }
    if forall j :: 0 <= j < |lines| ==> !SetsField(Classify(lines[j]), f) {
      UnlabelledFieldKept(ks, f);
    }
  }

  /** A label line always holds a colon, so the value is always read from the
      text after its first colon and the missing-segment fallback never fires. */
  lemma LabelLineHasColon(line: string)
    requires Classify(line).Label?
    ensures ':' in line
  {
    var lower := Lower(line);
    var f := Classify(line).field;
    var t := LabelText(f);
    assert Contains(lower, t);
    ContainsIff(lower, t);
    var i :| OccursAt(lower, t, i);
    var k := i + |t| - 1;
    assert lower[k] == t[|t| - 1] == ':';
    assert line[k] == ':';
  }

  /** The label value read back: a label line whose text after the first colon
      is padding, a value without colons, padding, and then either the end or
      another colon, yields that value. */
  lemma {:induction false} LabelValueOfSegment(f: Field, pre: string, pad1: string, v: string, pad2: string, rest: string)
    requires ':' !in pre && ':' !in v
    requires AllWhiteSpace(pad1) && AllWhiteSpace(pad2)
    requires v != [] && IsTrimmed(v)
    requires rest == [] || rest[0] == ':'
    ensures LabelValue(pre + ":" + pad1 + v + pad2 + rest, f) == v
  {
    var seg := pad1 + v + pad2;
    assert ':' !in seg by {
      assert forall c :: c in pad1 ==> IsWhiteSpace(c);
      assert forall c :: c in pad2 ==> IsWhiteSpace(c);
    }
    assert pre + ":" + pad1 + v + pad2 + rest == pre + [':'] + seg + rest;
    SecondSegmentOf(pre, seg, rest);
    TrimPadded(pad1, v, pad2);
  }

  /** The other half: a label line whose text after the first colon is only
      white space, up to the end or another colon, yields the field's
      default. */
  lemma LabelValueOfBlank(f: Field, pre: string, pad: string, rest: string)
    requires ':' !in pre && AllWhiteSpace(pad)
    requires rest == [] || rest[0] == ':'
    ensures LabelValue(pre + ":" + pad + rest, f) == Default(f)
  {
    assert ':' !in pad;
    assert pre + ":" + pad + rest == pre + [':'] + pad + rest;
    SecondSegmentOf(pre, pad, rest);
    TrimEmptyIff(pad);
  }

  /** Only the text up to the second colon is kept: `Cooking Time: 12:30`
      gives `12`. */
  lemma CookingTimeStopsAtSecondColon()
    ensures LabelValue("Cooking Time: 12:30", CookingTime) == "12"
  {
    assert IsTrimmed("12");
    assert AllWhiteSpace(" ");
    assert "Cooking Time: 12:30" == "Cooking Time" + ":" + " " + "12" + [] + ":30";
    LabelValueOfSegment(CookingTime, "Cooking Time", " ", "12", [], ":30");
  }

  // ---------------------------------------------------------------------------
  // sections and lists

  /** The scan's section tag is the section of the last header so far, and each
      list is the collection of its entries under that rule. */
  lemma {:induction false} ScanIsCollection(ks: seq<LineKind>)
    ensures Scanned(ks).section == SectionAfter(ks)
    ensures Scanned(ks).ingredients == Collected(ks, Ingredients)
    ensures Scanned(ks).instructions == Collected(ks, Instructions)
    decreases |ks|
  {
    if ks != [] {
      ScanIsCollection(ks[..|ks| - 1]);
    }
  }

  /** The parsed lists are the collections of the text's lines: an ingredient
      for every non-empty `-` item under an ingredients header, a step for
      every non-empty `N.` item under an instructions header, in line order. */
  lemma ParsedLists(text: string)
    ensures ParseRecipeText(text).ingredients == Collected(Kinds(Lines(text)), Ingredients)
    ensures ParseRecipeText(text).instructions == Collected(Kinds(Lines(text)), Instructions)
  {
    ScanIsCollection(Kinds(Lines(text)));
  }

  /** The last header decides the section; with no header there is none. */
  lemma {:induction false} LastHeaderWins(ks: seq<LineKind>)
    ensures forall i :: 0 <= i < |ks| && ks[i].Header? && (forall j :: i < j < |ks| ==> !ks[j].Header?)
              ==> SectionAfter(ks) == ks[i].section
    ensures (forall j :: 0 <= j < |ks| ==> !ks[j].Header?) ==> SectionAfter(ks) == NoSection
    decreases |ks|
  {
    if ks != [] {
      var n := |ks| - 1;
      LastHeaderWins(ks[..n]);
      assert forall j :: 0 <= j < n ==> ks[..n][j] == ks[j];
    }
  }

  /** An entry is in the list of `sec` exactly when some line supplies it while
      the last header before that line opened `sec`. */
  lemma CollectedMembers(ks: seq<LineKind>, sec: Section, x: string)
    ensures x in Collected(ks, sec) <==>
              exists i :: 0 <= i < |ks| && SectionAfter(ks[..i]) == sec && EntryOf(sec, ks[i]) == [x]
  {
    if x in Collected(ks, sec) {
      CollectedSound(ks, sec, x);
    }
    if exists i :: 0 <= i < |ks| && SectionAfter(ks[..i]) == sec && EntryOf(sec, ks[i]) == [x] {
      var i :| 0 <= i < |ks| && SectionAfter(ks[..i]) == sec && EntryOf(sec, ks[i]) == [x];
      CollectedComplete(ks, sec, i);
    }
  }

  lemma {:induction false} CollectedSound(ks: seq<LineKind>, sec: Section, x: string)
    requires x in Collected(ks, sec)
    ensures exists i :: 0 <= i < |ks| && SectionAfter(ks[..i]) == sec && EntryOf(sec, ks[i]) == [x]
    decreases |ks|
  {
    var n := |ks| - 1;
    var prefix := ks[..n];
    var tail := if SectionAfter(prefix) == sec then EntryOf(sec, ks[n]) else [];
    assert Collected(ks, sec) == Collected(prefix, sec) + tail;
    if x in Collected(prefix, sec) {
      CollectedSound(prefix, sec, x);
      var i :| 0 <= i < n && SectionAfter(prefix[..i]) == sec && EntryOf(sec, prefix[i]) == [x];
      assert prefix[..i] == ks[..i] && prefix[i] == ks[i];
    } else {
      assert x in tail && |tail| <= 1;
      assert SectionAfter(ks[..n]) == sec && EntryOf(sec, ks[n]) == [x];
    }
  }

  lemma {:induction false} CollectedComplete(ks: seq<LineKind>, sec: Section, i: int)
    requires 0 <= i < |ks| && SectionAfter(ks[..i]) == sec && |EntryOf(sec, ks[i])| == 1
    ensures EntryOf(sec, ks[i])[0] in Collected(ks, sec)
    decreases |ks|
  {
    var n := |ks| - 1;
    var prefix := ks[..n];
    assert Collected(ks, sec) == Collected(prefix, sec) + (if SectionAfter(prefix) == sec then EntryOf(sec, ks[n]) else []);
    if i < n {
      assert prefix[..i] == ks[..i] && prefix[i] == ks[i];
      CollectedComplete(prefix, sec, i);
    }
  }

  /** No header for `sec`, no entries for it: a `-` line before any ingredients
      header, or an `N.` line before any instructions header, is dropped. */
  lemma {:induction false} NoHeaderNoEntries(ks: seq<LineKind>, sec: Section)
    requires forall j :: 0 <= j < |ks| ==> ks[j] != Header(sec)
    requires sec != NoSection
    ensures SectionAfter(ks) != sec
    ensures Collected(ks, sec) == []
    decreases |ks|
  {
    if ks != [] {
      var n := |ks| - 1;
      assert forall j :: 0 <= j < n ==> ks[..n][j] == ks[j];
      NoHeaderNoEntries(ks[..n], sec);
    }
  }

  /** An input without label or header lines parses to the all-default recipe
      with empty lists, whatever bullets or numbered lines it holds. */
  lemma NoStructureGivesDefaults(text: string)
    requires forall j :: 0 <= j < |Lines(text)| ==> !Classify(Lines(text)[j]).Label? && !Classify(Lines(text)[j]).Header?
    ensures ParseRecipeText(text) == DefaultRecipe
  {
    var ks := Kinds(Lines(text));
    assert forall j :: 0 <= j < |ks| ==> !ks[j].Label? && !ks[j].Header?;
    NoStructureScansToDefaults(ks);
  }

  lemma NoStructureScansToDefaults(ks: seq<LineKind>)
    requires forall j :: 0 <= j < |ks| ==> !ks[j].Label? && !ks[j].Header?
    ensures Finish(Scanned(ks)) == DefaultRecipe
  {
    ScanIsCollection(ks);
    NoHeaderNoEntries(ks, Ingredients);
    NoHeaderNoEntries(ks, Instructions);
    UnlabelledFieldKept(ks, Title);
    UnlabelledFieldKept(ks, CookingTime);
    UnlabelledFieldKept(ks, Difficulty);
  }

  /** The empty text and a lone line break parse to the all-default recipe. */
  lemma BlankTextGivesDefaults()
    ensures ParseRecipeText("") == DefaultRecipe
    ensures ParseRecipeText("\n") == DefaultRecipe
  {
    NoLinesInEmptyText();
    NoLinesInLineBreak();
  }

  lemma NoLinesInEmptyText()
    ensures Lines("") == []
  {
    var pieces := Split("", '\n');
    assert pieces == [""];
    assert Trim(pieces[0]) == [];
    assert pieces[1..] == [];
  }

  lemma NoLinesInLineBreak()
    ensures Lines("\n") == []
  {
    assert "\n" == "" + ['\n'] + "";
    IndexOfAfter("", '\n', "");
    assert Split("\n", '\n') == ["", ""];
  }

  // ---------------------------------------------------------------------------
  // lines and steps read back

  /** Joining lines that are non-empty, trimmed and free of line breaks and
      then splitting the text again gives back the same lines. */
  lemma LinesOfJoin(ls: seq<string>)
    requires forall i :: 0 <= i < |ls| ==> ls[i] != [] && IsTrimmed(ls[i]) && '\n' !in ls[i]
    ensures Lines(Join(ls, '\n')) == ls
  {
    if ls == [] {
      assert Split([], '\n') == [[]];
    } else {
      SplitJoin(ls, '\n');
      TrimmedKept(ls);
    }
  }

  lemma {:induction false} TrimmedKept(ls: seq<string>)
    requires forall i :: 0 <= i < |ls| ==> ls[i] != [] && IsTrimmed(ls[i])
    ensures NonBlankTrimmed(ls) == ls
    decreases |ls|
  {
    if ls != [] {
      TrimmedKept(ls[1..]);
      TrimmedHeadKept(ls);
    }
  }

  lemma TrimmedHeadKept(ls: seq<string>)
    requires ls != [] && ls[0] != [] && IsTrimmed(ls[0])
    ensures NonBlankTrimmed(ls) == [ls[0]] + NonBlankTrimmed(ls[1..])
  {
    TrimTrimmed(ls[0]);
  }

  /** Cleaning works piece by piece: the cleaned concatenation is the
      concatenation of the cleaned parts. */
  lemma {:induction false} NonBlankTrimmedAppend(a: seq<string>, b: seq<string>)
    ensures NonBlankTrimmed(a + b) == NonBlankTrimmed(a) + NonBlankTrimmed(b)
    decreases |a|
  {
    if a != [] {
      assert (a + b)[0] == a[0];
      assert (a + b)[1..] == a[1..] + b;
      NonBlankTrimmedAppend(a[1..], b);
    } else {
      assert a + b == b;
    }
  }

  /** A piece that is only white space, wherever it stands, is dropped. */
  lemma BlankPieceDropped(a: seq<string>, p: string, b: seq<string>)
    requires AllWhiteSpace(p)
    ensures NonBlankTrimmed(a + [p] + b) == NonBlankTrimmed(a + b)
  {
    var ap := a + [p];
    NonBlankTrimmedAppend(ap, b);
    NonBlankTrimmedAppend(a, [p]);
    NonBlankTrimmedAppend(a, b);
    BlankAlone(p);
    assert NonBlankTrimmed(ap) == NonBlankTrimmed(a);
  }

  lemma BlankAlone(p: string)
    requires AllWhiteSpace(p)
    ensures NonBlankTrimmed([p]) == []
  {
    TrimEmptyIff(p);
    assert [p][1..] == [];
  }

  /** Padded pieces are kept as their trimmed cores, in order: pieces made of
      white space, a non-empty trimmed line and white space clean to exactly
      those lines. */
  lemma {:induction false} PaddedKept(ls: seq<string>, pre: seq<string>, post: seq<string>, pieces: seq<string>)
    requires |pre| == |ls| && |post| == |ls| && |pieces| == |ls|
    requires forall i :: 0 <= i < |ls| ==> AllWhiteSpace(pre[i]) && AllWhiteSpace(post[i])
    requires forall i :: 0 <= i < |ls| ==> ls[i] != [] && IsTrimmed(ls[i])
    requires forall i :: 0 <= i < |ls| ==> pieces[i] == pre[i] + ls[i] + post[i]
    ensures NonBlankTrimmed(pieces) == ls
    decreases |ls|
  {
    if ls != [] {
      TrimPadded(pre[0], ls[0], post[0]);
      PaddedKept(ls[1..], pre[1..], post[1..], pieces[1..]);
      assert NonBlankTrimmed(pieces) == [ls[0]] + NonBlankTrimmed(pieces[1..]);
    }
  }

  /** Numbering a step and stripping the marker gives the step back, however
      many digits the number has and however much space follows the period. */
  lemma StripNumberedStep(digits: string, pad: string, step: string)
    requires |digits| >= 1 && AllDigits(digits)
    requires AllWhiteSpace(pad)
    requires IsTrimmed(step)
    ensures StartsWithStepNumber(digits + "." + pad + step)
    ensures StripStepMarker(digits + "." + pad + step) == step
  {
    var s := digits + "." + pad + step;
    assert s == digits + ("." + pad + step);
    DigitRunOf(digits, "." + pad + step);
    assert s[|digits|] == '.';
    assert s[|digits| + 1..] == pad + step;
    TrimStartPadded(pad, step);
    TrimPadded([], step, []);
    assert [] + step + [] == step;
  }

  /** A multi-digit marker is removed whole: `10. Preheat oven` gives
      `Preheat oven`. */
  lemma MultiDigitStep()
    ensures StartsWithStepNumber("10" + "." + " " + "Preheat oven")
    ensures StripStepMarker("10" + "." + " " + "Preheat oven") == "Preheat oven"
  {
    var step := "Preheat oven";
    assert IsTrimmed(step) && !IsWhiteSpace(step[0]);
    StripNumberedStep("10", " ", step);
  }

  // ---------------------------------------------------------------------------
  // the caller

  /** As written, no ingredient list ever reaches the parser: the guard
      refuses the empty list and every other list fails on the missing
      service method. */
  lemma AsWrittenNeverParses(ingredients: seq<string>)
    ensures forall text :: CreateStructuredRecipeAsWritten(ingredients) != Ok(ParseRecipeText(text))
    ensures ingredients != [] ==> CreateStructuredRecipeAsWritten(ingredients) == Err(MissingMethodMessage)
  {
  }

  /** With the service's reply passed in, a non-empty list and a reply give
      the parsed reply: the result the as-written call never reaches. */
  lemma CorrectedParsesReply(ingredients: seq<string>, fetchRecipe: seq<string> -> Result<string>, text: string)
    requires ingredients != [] && fetchRecipe(ingredients) == Ok(text)
    ensures CreateStructuredRecipe(ingredients, fetchRecipe) == Ok(ParseRecipeText(text))
    ensures CreateStructuredRecipe(ingredients, fetchRecipe) != CreateStructuredRecipeAsWritten(ingredients)
  {
  }

  /** An empty ingredient list is refused whatever the service would have
      answered: the service is never consulted. */
  lemma EmptyListNeverFetches(f: seq<string> -> Result<string>, g: seq<string> -> Result<string>)
    ensures CreateStructuredRecipe([], f) == CreateStructuredRecipe([], g) == Err(EmptyIngredientsMessage)
  {
  }
}
