/** The formatting tools: their configuration, the prototype table the toolbar looks names up
    in, and what each variant detects on, writes to and removes from the target element. */
module Tools {
  import opened Dom
  import opened Tokens

  /** A tool's configuration, one constructor per variant. A style tool keeps its style
      property and its token list (`styleValue` after splitting), a heading tool the row of
      the heading table it was built from, a colour tool the attribute it writes. */
  datatype Tool =
    | StyleTool(attribute: string, tokens: seq<string>, group: Option<string>)
    | HeadingTool(tag: string, fontSize: string)
    | ColorTool(attribute: string)
  {
    /** The `group` getter: `null` for the colour tool (the base class's getter), the fixed
        `'heading'` for heading tools, the constructor argument for style tools. */
    function Group(): (g: Option<string>)
      ensures HeadingTool? ==> g == Some("heading")
      ensures ColorTool? ==> g == None
    {
      match this
      case StyleTool(_, _, group) => group
      case HeadingTool(_, _) => Some("heading")
      case ColorTool(_) => None
    }
  }

  /** The errors the tool constructors throw. */
  datatype ToolError = MissingToolType | MissingStyleValue | InvalidHeading

  /** The `styleValue` argument of the style tool's constructor: absent (or another falsy
      value), a space-separated string, or an array of tokens. */
  datatype StyleValue = NoStyleValue | Text(s: string) | List(items: seq<string>)

  /** `new StyleToolbarWidgetTool(toolType, styleAttribute, styleValue, group)`. */
  function MakeStyle(toolType: string, attribute: string, styleValue: StyleValue, group: Option<string>)
    : (r: Result<Tool, ToolError>)
    ensures toolType == "" ==> r == Err(MissingToolType)
    ensures toolType != "" && (styleValue.NoStyleValue? || styleValue == Text("")) ==> r == Err(MissingStyleValue)
    ensures r.Ok? <==> toolType != "" && !styleValue.NoStyleValue? && styleValue != Text("")
    ensures r.Ok? ==> r.value.StyleTool? && r.value.attribute == attribute && r.value.group == group
    ensures r.Ok? && styleValue.Text? ==>
              |r.value.tokens| >= 1 && forall i :: 0 <= i < |r.value.tokens| ==> ' ' !in r.value.tokens[i]
    ensures r.Ok? && styleValue.Text? ==> Join(r.value.tokens, ' ') == styleValue.s
    ensures r.Ok? && styleValue.List? ==> r.value.tokens == styleValue.items
  {
    if toolType == "" then Err(MissingToolType)
    else
      match styleValue
      case NoStyleValue => Err(MissingStyleValue)
      case Text(s) =>
        if s == "" then Err(MissingStyleValue)
        else JoinSplit(s); Ok(StyleTool(attribute, Split(s), group))
      case List(xs) => Ok(StyleTool(attribute, xs, group))
  }

  /** One row of the heading table: the font size a level stamps and its tag. */
  datatype HeadingRow = HeadingRow(fontSize: string, heading: string)

  /** The `_HEADINGS` table. */
  const Headings: map<string, HeadingRow> := map[
    "HEADING_1" := HeadingRow("3em", "h1"),
    "HEADING_2" := HeadingRow("2.5em", "h2"),
    "HEADING_3" := HeadingRow("2em", "h3"),
    "HEADING_4" := HeadingRow("1.5em", "h4"),
    "HEADING_5" := HeadingRow("1.25em", "h5"),
    "HEADING_6" := HeadingRow("1em", "h6")
  ]

  /** `new HeadingToolbarWidgetTool(toolType)`; further arguments are ignored. */
  function MakeHeading(toolType: string): (r: Result<Tool, ToolError>)
    ensures toolType == "" ==> r == Err(MissingToolType)
    ensures toolType != "" && toolType !in Headings ==> r == Err(InvalidHeading)
    ensures r.Ok? <==> toolType in Headings
    ensures r.Ok? ==> r.value == HeadingTool(Headings[toolType].heading, Headings[toolType].fontSize)
  {
    if toolType == "" then Err(MissingToolType)
    else if toolType !in Headings then Err(InvalidHeading)
    else Ok(HeadingTool(Headings[toolType].heading, Headings[toolType].fontSize))
  }

  /** `new ColorToolbarWidgetTool(toolType, attribute)`. */
  function MakeColor(toolType: string, attribute: string): (r: Result<Tool, ToolError>)
    ensures r.Ok? <==> toolType != ""
    ensures r.Ok? ==> r.value == ColorTool(attribute)
  {
    if toolType == "" then Err(MissingToolType) else Ok(ColorTool(attribute))
  }

  /** The keys of `TOOLBAR_WIDGETS` in declaration order (`Object.keys`). */
  const BuiltInNames: seq<string> := [
    "BOLD", "ITALIC", "UNDERLINE", "STRIKETHROUGH",
    "JUSTIFY_LEFT", "JUSTIFY_CENTER", "JUSTIFY_RIGHT",
    "HEADING_1", "HEADING_2", "HEADING_3", "HEADING_4", "HEADING_5", "HEADING_6",
    "COLOR", "BACKGROUND_COLOR"
  ]

  /** The prototypes of `TOOLBAR_WIDGETS`, one constant each. */
  const Bold: Tool := StyleTool("fontWeight", ["bold"], None)
  const Italic: Tool := StyleTool("fontStyle", ["italic"], None)
  const Underline: Tool := StyleTool("textDecoration", ["underline"], None)
  const Strikethrough: Tool := StyleTool("textDecoration", ["line-through"], None)
  const JustifyLeft: Tool := StyleTool("textAlign", ["left"], Some("text-align"))
  const JustifyCenter: Tool := StyleTool("textAlign", ["center"], Some("text-align"))
  const JustifyRight: Tool := StyleTool("textAlign", ["right"], Some("text-align"))
  const Heading1: Tool := HeadingTool("h1", "3em")
  const Heading2: Tool := HeadingTool("h2", "2.5em")
  const Heading3: Tool := HeadingTool("h3", "2em")
  const Heading4: Tool := HeadingTool("h4", "1.5em")
  const Heading5: Tool := HeadingTool("h5", "1.25em")
  const Heading6: Tool := HeadingTool("h6", "1em")
  const Color: Tool := ColorTool("color")
  const BackgroundColor: Tool := ColorTool("backgroundColor")

  /** `TOOLBAR_WIDGETS`: built-in tool name to prototype. */
  const BuiltIns: map<string, Tool> := map[
    "BOLD" := Bold,
    "ITALIC" := Italic,
    "UNDERLINE" := Underline,
    "STRIKETHROUGH" := Strikethrough,
    "JUSTIFY_LEFT" := JustifyLeft,
    "JUSTIFY_CENTER" := JustifyCenter,
    "JUSTIFY_RIGHT" := JustifyRight,
    "HEADING_1" := Heading1,
    "HEADING_2" := Heading2,
    "HEADING_3" := Heading3,
    "HEADING_4" := Heading4,
    "HEADING_5" := Heading5,
    "HEADING_6" := Heading6,
    "COLOR" := Color,
    "BACKGROUND_COLOR" := BackgroundColor
  ]

  /** The table's keys are exactly the names `Object.keys` lists. */
  lemma BuiltInNamesAreKeys()
    ensures forall n :: n in BuiltIns <==> n in BuiltInNames
  {
    assert BuiltIns.Keys == set n | n in BuiltInNames;
  }

  /** A style tool built from one space-free word holds that word as its only token. */
  lemma StyleFromWord(toolType: string, attribute: string, word: string, group: Option<string>)
    requires toolType != "" && word != "" && ' ' !in word
    ensures MakeStyle(toolType, attribute, Text(word), group) == Ok(StyleTool(attribute, [word], group))
  {
    SplitNoSpace(word);
  }

  /** The built-in style tools' `styleValue` words have no space in them. */
  lemma BuiltInWordsSpaceFree()
    ensures ' ' !in "bold" && ' ' !in "italic" && ' ' !in "underline" && ' ' !in "line-through"
    ensures ' ' !in "left" && ' ' !in "center" && ' ' !in "right"
  {
  }

  /** The bold and italic prototypes are what their constructor calls build. */
  lemma FontStyleBuiltInsAreConstructed()
    ensures MakeStyle("BOLD", "fontWeight", Text("bold"), None) == Ok(Bold)
    ensures MakeStyle("ITALIC", "fontStyle", Text("italic"), None) == Ok(Italic)
  {
    BuiltInWordsSpaceFree();
    StyleFromWord("BOLD", "fontWeight", "bold", None);
    StyleFromWord("ITALIC", "fontStyle", "italic", None);
  }

  /** The underline and strike-through prototypes are what their constructor calls build; both
      write the `textDecoration` property. */
  lemma DecorationBuiltInsAreConstructed()
    ensures MakeStyle("UNDERLINE", "textDecoration", Text("underline"), None) == Ok(Underline)
    ensures MakeStyle("STRIKETHROUGH", "textDecoration", Text("line-through"), None) == Ok(Strikethrough)
  {
    BuiltInWordsSpaceFree();
    StyleFromWord("UNDERLINE", "textDecoration", "underline", None);
    StyleFromWord("STRIKETHROUGH", "textDecoration", "line-through", None);
  }

  /** The three justification prototypes are what their constructor calls build; they share
      the `textAlign` property and the group `text-align`. */
  lemma JustifyBuiltInsAreConstructed()
    ensures MakeStyle("JUSTIFY_LEFT", "textAlign", Text("left"), Some("text-align")) == Ok(JustifyLeft)
    ensures MakeStyle("JUSTIFY_CENTER", "textAlign", Text("center"), Some("text-align")) == Ok(JustifyCenter)
    ensures MakeStyle("JUSTIFY_RIGHT", "textAlign", Text("right"), Some("text-align")) == Ok(JustifyRight)
  {
    BuiltInWordsSpaceFree();
    StyleFromWord("JUSTIFY_LEFT", "textAlign", "left", Some("text-align"));
    StyleFromWord("JUSTIFY_CENTER", "textAlign", "center", Some("text-align"));
    StyleFromWord("JUSTIFY_RIGHT", "textAlign", "right", Some("text-align"));
  }

  /** The heading and colour prototypes are what their constructor calls build; the heading
      tools take their font sizes from the heading table, not from the extra constructor
      arguments. */
  lemma MarkerBuiltInsAreConstructed()
    ensures MakeHeading("HEADING_1") == Ok(Heading1)
    ensures MakeHeading("HEADING_2") == Ok(Heading2)
    ensures MakeHeading("HEADING_3") == Ok(Heading3)
    ensures MakeHeading("HEADING_4") == Ok(Heading4)
    ensures MakeHeading("HEADING_5") == Ok(Heading5)
    ensures MakeHeading("HEADING_6") == Ok(Heading6)
    ensures MakeColor("COLOR", "color") == Ok(Color)
    ensures MakeColor("BACKGROUND_COLOR", "backgroundColor") == Ok(BackgroundColor)
  {
  }

  /** `getToolbarWidgetTool(name)`: `extensions` stands for `window.toolbarWidgetTools` (the
      empty map when that global is not set). */
  function Lookup(extensions: map<string, Tool>, name: string): (r: Option<Tool>)
    ensures r.Some? <==> name != "" && (name in extensions || name in BuiltIns)
    ensures name != "" && name in extensions ==> r == Some(extensions[name])
    ensures name !in extensions && name in BuiltIns && name != "" ==> r == Some(BuiltIns[name])
  {
    if name == "" then None
    else if name in extensions then Some(extensions[name])
    else if name in BuiltIns then Some(BuiltIns[name])
    else None
  }

  /** `isActive(value)` of each variant, stated declaratively: a style tool is active for an
      array holding one of its tokens or a non-empty string that is one of them, a heading
      tool for exactly its tag, a colour tool for any truthy value. */
  predicate IsActive(t: Tool, v: Value) {
    match t
    case StyleTool(_, tokens, _) =>
      (v.Tokens? && exists i :: 0 <= i < |v.items| && v.items[i] in tokens) || (v.Str? && v.s != "" && v.s in tokens)
    case HeadingTool(tag, _) => v == Str(tag)
    case ColorTool(_) => Truthy(v)
  }

  /** `isActive(value)` as the source computes it, scanning an array value for a configured
      token and returning at the first hit. */
  method CheckActive(t: Tool, v: Value) returns (r: bool)
    ensures r == IsActive(t, v)
    ensures t.StyleTool? && r ==> Truthy(v)
  {
    match t
    case HeadingTool(tag, _) =>
      r := v == Str(tag);
    case ColorTool(_) =>
      r := Truthy(v);
    case StyleTool(_, tokens, _) =>
      r := false;
      if Truthy(v) {
        match v
        case Tokens(items) =>
          var i := 0;
          while i < |items|
            invariant 0 <= i <= |items|
            invariant forall j :: 0 <= j < i ==> items[j] !in tokens
          {
            if IndexOf(tokens, items[i]) != -1 {
              r := true;
              return;
            }
            i := i + 1;
          }
        case Str(s) =>
          r := IndexOf(tokens, s) != -1;
        case _ =>
      }
  }

  /** `getState()`: what the tool reads back from the target. A style tool splits its
      property's text into tokens when that text is not empty, and otherwise returns the
      empty text; heading and colour tools return their `dataset` entry. */
  function StateOf(t: Tool, d: Doc): (r: Value)
    ensures t.StyleTool? ==>
              (d.Style(t.attribute) == "" && r == Str("")) ||
              (d.Style(t.attribute) != "" && r.Tokens? && SpaceFree(r.items) && Join(r.items, ' ') == d.Style(t.attribute))
    ensures t.HeadingTool? ==> r == d.Data(t.tag)
    ensures t.ColorTool? ==> r == d.Data(t.attribute)
  {
    match t
    case StyleTool(attribute, _, _) =>
      var text := d.Style(attribute);
      if text != "" then JoinSplit(text); Tokens(Split(text)) else Str(text)
    case HeadingTool(tag, _) => d.Data(tag)
    case ColorTool(attribute) => d.Data(attribute)
  }

  /** `this.getState() || []`, the list a style tool's `setState` and `resetState` start from. */
  function CurrentTokens(t: Tool, d: Doc): (r: seq<string>)
    requires t.StyleTool?
    ensures forall i :: 0 <= i < |r| ==> ' ' !in r[i]
    ensures d.Style(t.attribute) == "" ==> r == []
    ensures d.Style(t.attribute) != "" ==> |r| >= 1 && Join(r, ' ') == d.Style(t.attribute)
  {
    var v := StateOf(t, d);
    if Truthy(v) then v.items else []
  }

  /** What `setState(target)` writes to the target; `value` is the tool's stored value, which
      only the colour tool uses. */
  function SetDoc(t: Tool, value: Value, d: Doc): Doc {
    match t
    case StyleTool(attribute, tokens, _) =>
      d.(style := d.style[attribute := Join(AddMissing(CurrentTokens(t, d), tokens), ' ')])
    case HeadingTool(tag, fontSize) =>
      Doc(d.style["fontSize" := fontSize], d.dataset[tag := tag])
    case ColorTool(attribute) =>
      Doc(d.style[attribute := StyleText(value)], d.dataset[attribute := DataText(value)])
  }

  /** What `resetState(target)` writes to the target. A heading tool deletes only its own
      marker but clears `fontSize` unconditionally. */
  function ResetDoc(t: Tool, d: Doc): Doc {
    match t
    case StyleTool(attribute, tokens, _) =>
      d.(style := d.style[attribute := Join(RemoveEach(CurrentTokens(t, d), tokens), ' ')])
    case HeadingTool(tag, _) =>
      Doc(d.style["fontSize" := ""], d.dataset - {tag})
    case ColorTool(attribute) =>
      Doc(d.style[attribute := ""], d.dataset - {attribute})
  }

  /** The per-instance part of a tool: whether `initialize` bound it to a button and the
      toolbar's target, whether that button carries the `active` class, and `this.value`. */
  datatype Binding = Binding(bound: bool, active: bool, value: Value)

  /** The colour tool's `setState` also marks its button active. */
  function AfterSet(t: Tool, b: Binding): Binding {
    if t.ColorTool? then b.(active := true) else b
  }

  /** The colour tool's `resetState` also forgets its value and unmarks its button. */
  function AfterReset(t: Tool, b: Binding): Binding {
    if t.ColorTool? then b.(value := Null, active := false) else b
  }

  /** `tool.setState(target)`, with the tool's target being `target`. */
  method SetState(t: Tool, b: Binding, target: Target) returns (b': Binding)
    modifies target
    ensures target.Snapshot() == SetDoc(t, b.value, old(target.Snapshot()))
    ensures b' == AfterSet(t, b)
  {
    match t
    case StyleTool(attribute, tokens, _) =>
      var current := CurrentTokens(t, target.Snapshot());
      var updated := PushMissing(current, tokens);
      target.style := target.style[attribute := Join(updated, ' ')];
      b' := b;
    case HeadingTool(tag, fontSize) =>
      target.dataset := target.dataset[tag := tag];
      target.style := target.style["fontSize" := fontSize];
      b' := b;
    case ColorTool(attribute) =>
      target.dataset := target.dataset[attribute := DataText(b.value)];
      target.style := target.style[attribute := StyleText(b.value)];
      b' := b.(active := true);
  }

  /** `tool.resetState(target)`, with the tool's target being `target`. */
  method ResetState(t: Tool, b: Binding, target: Target) returns (b': Binding)
    modifies target
    ensures target.Snapshot() == ResetDoc(t, old(target.Snapshot()))
    ensures b' == AfterReset(t, b)
  {
    match t
    case StyleTool(attribute, tokens, _) =>
      var current := CurrentTokens(t, target.Snapshot());
      var updated := SpliceEach(current, tokens);
      target.style := target.style[attribute := Join(updated, ' ')];
      b' := b;
    case HeadingTool(tag, _) =>
      target.dataset := target.dataset - {tag};
      target.style := target.style["fontSize" := ""];
      b' := b;
    case ColorTool(attribute) =>
      b' := b.(value := Null);
      target.dataset := target.dataset - {attribute};
      target.style := target.style[attribute := ""];
      b' := b'.(active := false);
  }

  /** What a style tool's `getState` reads back after its `setState`: the list `setState`
      wrote, or nothing when that list joined to empty text. */
  lemma StyleReadAfterSet(t: Tool, value: Value, d: Doc)
    requires t.StyleTool? && SpaceFree(t.tokens)
    ensures var added := AddMissing(CurrentTokens(t, d), t.tokens);
            CurrentTokens(t, SetDoc(t, value, d)) == if Join(added, ' ') == "" then [] else added
  {
    var added := AddMissing(CurrentTokens(t, d), t.tokens);
    AddMissingSpaceFree(CurrentTokens(t, d), t.tokens);
    ReadBack(added);
    assert SetDoc(t, value, d).Style(t.attribute) == Join(added, ' ');
  }

  /** Tokens that the style tool's `getState` will read back after they are joined. */
  lemma ReadBack(xs: seq<string>)
    requires forall i :: 0 <= i < |xs| ==> ' ' !in xs[i]
    ensures Join(xs, ' ') == "" ==> xs == [] || xs == [""]
    ensures Join(xs, ' ') != "" ==> Split(Join(xs, ' ')) == xs
  {
    if Join(xs, ' ') == "" {
      JoinEmpty(xs);
    } else {
      SplitJoin(xs);
    }
  }

  /** A style tool's `setState` changes nothing but its own property, and appends to the
      property's token list exactly the configured tokens that were missing. */
  lemma StyleSetAppends(t: Tool, value: Value, d: Doc)
    requires t.StyleTool?
    ensures SetDoc(t, value, d).dataset == d.dataset
    ensures forall a :: a != t.attribute ==> SetDoc(t, value, d).Style(a) == d.Style(a)
    ensures SetDoc(t, value, d).Style(t.attribute) == Join(AddMissing(CurrentTokens(t, d), t.tokens), ' ')
    ensures var after := AddMissing(CurrentTokens(t, d), t.tokens);
            |after| >= |CurrentTokens(t, d)| &&
            after[..|CurrentTokens(t, d)|] == CurrentTokens(t, d) &&
            (forall x :: x in after <==> x in CurrentTokens(t, d) || x in t.tokens) &&
            (forall i :: |CurrentTokens(t, d)| <= i < |after| ==> after[i] !in after[..i])
  {
    AddMissingShape(CurrentTokens(t, d), t.tokens);
  }

  /** After a style tool's `setState`, `getState` reports exactly the non-empty tokens that
      were there before or that the tool configures. */
  lemma StyleSetShows(t: Tool, value: Value, d: Doc)
    requires t.StyleTool? && SpaceFree(t.tokens)
    ensures forall x :: x != "" ==>
              (x in CurrentTokens(t, SetDoc(t, value, d)) <==> x in CurrentTokens(t, d) || x in t.tokens)
  {
    var added := AddMissing(CurrentTokens(t, d), t.tokens);
    AddMissingMembers(CurrentTokens(t, d), t.tokens);
    StyleReadAfterSet(t, value, d);
    if Join(added, ' ') == "" {
      JoinEmpty(added);
    }
  }

  /** A style tool's `resetState` changes nothing but its own property; it removes one
      occurrence of each configured token and keeps every other token in order, so resetting
      one of two tools that share a property leaves the other tool's token in place. */
  lemma StyleResetRemoves(t: Tool, d: Doc)
    requires t.StyleTool?
    ensures ResetDoc(t, d).dataset == d.dataset
    ensures forall a :: a != t.attribute ==> ResetDoc(t, d).Style(a) == d.Style(a)
    ensures ResetDoc(t, d).Style(t.attribute) == Join(RemoveEach(CurrentTokens(t, d), t.tokens), ' ')
    ensures multiset(RemoveEach(CurrentTokens(t, d), t.tokens)) == multiset(CurrentTokens(t, d)) - multiset(t.tokens)
    ensures Keep(RemoveEach(CurrentTokens(t, d), t.tokens), t.tokens) == Keep(CurrentTokens(t, d), t.tokens)
  {
    RemoveEachCounts(CurrentTokens(t, d), t.tokens);
    RemoveEachKeepsOthers(CurrentTokens(t, d), t.tokens, t.tokens);
  }

  /** `resetState` right after `setState` writes back exactly the property text the style tool
      found, when that text holds none of its tokens; the rest of the target is untouched. */
  lemma StyleRoundTrip(t: Tool, value: Value, d: Doc)
    requires t.StyleTool? && SpaceFree(t.tokens)
    requires forall x :: x in CurrentTokens(t, d) ==> x !in t.tokens
    ensures ResetDoc(t, SetDoc(t, value, d)).Style(t.attribute) == d.Style(t.attribute)
    ensures forall a :: a != t.attribute ==> ResetDoc(t, SetDoc(t, value, d)).Style(a) == d.Style(a)
    ensures ResetDoc(t, SetDoc(t, value, d)).dataset == d.dataset
  {
    var cur := CurrentTokens(t, d);
    var added := AddMissing(cur, t.tokens);
    var d1 := SetDoc(t, value, d);
    var left := RemoveEach(CurrentTokens(t, d1), t.tokens);
    StyleReadAfterSet(t, value, d);
    assert d1.style == d.style[t.attribute := Join(added, ' ')];
    assert ResetDoc(t, d1).style == d1.style[t.attribute := Join(left, ' ')];
    if Join(added, ' ') == "" {
      RemoveEachNil(t.tokens);
      assert left == [];
      AddedNothingVisible(cur, t.tokens);
    } else {
      AddThenRemove(cur, t.tokens);
      assert left == cur;
    }
    assert Join(left, ' ') == d.Style(t.attribute);
  }

  /** A style tool configured with the array `['underline overline']`, whose one token holds
      a space. */
  const SpacedDecoration: Tool := StyleTool("textDecoration", ["underline overline"], None)

  /** The round trip needs space-free tokens: `SpacedDecoration` writes one token that reads
      back as two, so its `resetState` removes nothing and the property that was empty keeps
      `underline overline`. */
  lemma SpacedTokenSurvivesReset()
    ensures var d := Doc(map[], map[]);
            d.Style("textDecoration") == "" &&
            ResetDoc(SpacedDecoration, SetDoc(SpacedDecoration, Null, d)).Style("textDecoration") == "underline overline"
  {
    var d1 := SetDoc(SpacedDecoration, Null, Doc(map[], map[]));
    SpacedSet();
    SpacedRead(d1);
    SpacedReset(d1);
  }

  lemma SpacedSet()
    ensures SetDoc(SpacedDecoration, Null, Doc(map[], map[])).Style("textDecoration") == "underline overline"
  {
    assert CurrentTokens(SpacedDecoration, Doc(map[], map[])) == [];
    assert AddMissing([], ["underline overline"]) == ["underline overline"];
  }

  lemma SpacedRead(d: Doc)
    requires d.Style("textDecoration") == "underline overline"
    ensures CurrentTokens(SpacedDecoration, d) == ["underline", "overline"]
  {
    SpacedWords();
    SplitPair("underline", "overline");
  }

  lemma SpacedWords()
    ensures ' ' !in "underline" && ' ' !in "overline"
    ensures "underline overline" == "underline" + [' '] + "overline"
  {
  }

  /** Two space-free words joined by one space split back into the two words. */
  lemma SplitPair(x: string, y: string)
    requires ' ' !in x && ' ' !in y
    ensures Split(x + [' '] + y) == [x, y]
  {
    SplitAfterPiece(x, y);
    SplitNoSpace(y);
  }

  lemma SpacedReset(d: Doc)
    requires CurrentTokens(SpacedDecoration, d) == ["underline", "overline"]
    ensures ResetDoc(SpacedDecoration, d).Style("textDecoration") == "underline overline"
  {
    assert RemoveEach(["underline", "overline"], ["underline overline"]) == ["underline", "overline"];
    assert Join(["underline", "overline"], ' ') == "underline" + [' '] + "overline";
  }

  /** When the list `setState` writes joins to empty text, so did the list it started from. */
  lemma AddedNothingVisible(cur: seq<string>, tokens: seq<string>)
    requires Join(AddMissing(cur, tokens), ' ') == ""
    ensures cur == [] || cur == [""]
  {
    var added := AddMissing(cur, tokens);
    AddMissingAppended(cur, tokens);
    JoinEmpty(added);
    assert cur == added[..|cur|];
  }

  /** Detection agrees with the writes: after a heading tool's `setState` it detects itself
      as active, after its `resetState` as inactive, whatever the target held before; the same
      holds for the colour tool when its stored value is not empty text. */
  lemma MarkerToolsDetectWrites(t: Tool, value: Value, d: Doc)
    requires t.HeadingTool? || t.ColorTool?
    ensures t.HeadingTool? ==> IsActive(t, StateOf(t, SetDoc(t, value, d)))
    ensures t.ColorTool? ==> (IsActive(t, StateOf(t, SetDoc(t, value, d))) <==> DataText(value) != "")
    ensures !IsActive(t, StateOf(t, ResetDoc(t, d)))
  {
  }

  /** After a style tool's `setState` it detects itself as active, provided one of its tokens
      is not empty text. */
  lemma StyleSetDetected(t: Tool, value: Value, d: Doc)
    requires t.StyleTool? && SpaceFree(t.tokens)
    requires exists i :: 0 <= i < |t.tokens| && t.tokens[i] != ""
    ensures IsActive(t, StateOf(t, SetDoc(t, value, d)))
  {
    var cur := CurrentTokens(t, d);
    var added := AddMissing(cur, t.tokens);
    AddMissingShape(cur, t.tokens);
    StyleReadAfterSet(t, value, d);
    var i :| 0 <= i < |t.tokens| && t.tokens[i] != "";
    assert t.tokens[i] in added;
    var k :| 0 <= k < |added| && added[k] == t.tokens[i];
    assert added != [] && added != [""];
    AddMissingSpaceFree(cur, t.tokens);
    ReadBack(added);
    assert StateOf(t, SetDoc(t, value, d)).items == added;
  }

  /** After a style tool's `resetState` it detects itself as inactive, provided no configured
      token occurred more than once in the property beforehand. */
  lemma StyleResetUndetected(t: Tool, d: Doc)
    requires t.StyleTool?
    requires forall x :: x in t.tokens ==> multiset(CurrentTokens(t, d))[x] <= 1
    ensures !IsActive(t, StateOf(t, ResetDoc(t, d)))
  {
    var cur := CurrentTokens(t, d);
    var left := RemoveEach(cur, t.tokens);
    RemoveEachLeavesNone(cur, t.tokens);
    assert forall i :: 0 <= i < |left| ==> ' ' !in left[i] by {
      forall i | 0 <= i < |left| ensures ' ' !in left[i] {
        assert left[i] in left;
        var m :| 0 <= m < |cur| && cur[m] == left[i];
      }
    }
    ReadBack(left);
    var d1 := ResetDoc(t, d);
    assert d1.Style(t.attribute) == Join(left, ' ');
    if Join(left, ' ') != "" {
      assert StateOf(t, d1) == Tokens(left);
      assert forall i :: 0 <= i < |left| ==> left[i] !in t.tokens by {
        forall i | 0 <= i < |left| ensures left[i] !in t.tokens {
          assert left[i] in left;
        }
      }
    }
  }

  /** No tool's `resetState` adds an occurrence of any token to what a style tool reads:
      a style tool on the same property only removes tokens, and the heading and colour
      tools only empty a property. */
  lemma ResetShrinksTokens(u: Tool, t: Tool, d: Doc)
    requires t.StyleTool?
    ensures multiset(CurrentTokens(t, ResetDoc(u, d))) <= multiset(CurrentTokens(t, d))
  {
    if u.StyleTool? && u.attribute == t.attribute {
      ResetSharedProperty(u, t, d);
    } else if ResetDoc(u, d).Style(t.attribute) != d.Style(t.attribute) {
      assert ResetDoc(u, d).Style(t.attribute) == "";
    }
  }

  /** What a style tool reads after another style tool on its property is reset. */
  lemma ResetSharedProperty(u: Tool, t: Tool, d: Doc)
    requires t.StyleTool? && u.StyleTool? && u.attribute == t.attribute
    ensures multiset(CurrentTokens(t, ResetDoc(u, d))) <= multiset(CurrentTokens(t, d))
  {
    var cur := CurrentTokens(t, d);
    assert CurrentTokens(u, d) == cur;
    var left := RemoveEach(cur, u.tokens);
    RemoveEachCounts(cur, u.tokens);
    assert SpaceFree(left) by {
      forall k | 0 <= k < |left| ensures ' ' !in left[k] {
        assert left[k] in multiset(left);
        assert left[k] in cur;
      }
    }
    ReadBack(left);
    var d1 := ResetDoc(u, d);
    assert d1.Style(t.attribute) == Join(left, ' ');
    assert CurrentTokens(t, d1) == if Join(left, ' ') == "" then [] else left;
  }

  /** Tools that share a style property, such as the underline and strike-through tools,
      read back the same token list: `getState` reports the whole property, not only the
      tool's own tokens. */
  lemma SharedPropertySameState(t: Tool, u: Tool, d: Doc)
    requires t.StyleTool? && u.StyleTool? && t.attribute == u.attribute
    ensures StateOf(t, d) == StateOf(u, d)
  {
  }
}
