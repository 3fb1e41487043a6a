/** The browser-side values the toolbar reads and writes: JavaScript values as they occur in
    the tool state, JavaScript's truthiness and string coercion, `String.prototype.split(' ')`
    and `Array.prototype.join`, and the target element with its `style` and `dataset`. */
module Dom {

  datatype Option<T> = None | Some(value: T)

  /** A computation that either succeeds or throws the error it carries. */
  datatype Result<T, E> = Ok(value: T) | Err(error: E)

  /** The JavaScript values that occur as a tool's detected, stored or serialised value. */
  datatype Value =
    | Undefined
    | Null
    | Str(s: string)
    | Tokens(items: seq<string>)   // an array of strings
    | EmptyObject                  // the `{}` handed to `initialize` for a tool with no initial value

  /** JavaScript's `!!v`. */
  predicate Truthy(v: Value) {
    match v
    case Undefined => false
    case Null => false
    case Str(s) => s != ""
    case Tokens(_) => true
    case EmptyObject => true
  }

  /** `xs.join(sep)`. */
  function Join(xs: seq<string>, sep: char): string
    decreases |xs|
  {
    if |xs| == 0 then ""
    else if |xs| == 1 then xs[0]
    else xs[0] + [sep] + Join(xs[1..], sep)
  }

  /** `String(v)`: what a `dataset` entry holds after `dataset[k] = v`. */
  function DataText(v: Value): (r: string)
    ensures v.Str? ==> r == v.s
    ensures v.Tokens? ==> r == Join(v.items, ',')
  {
    match v
    case Undefined => "undefined"
    case Null => "null"
    case Str(s) => s
    case Tokens(xs) => Join(xs, ',')
    case EmptyObject => "[object Object]"
  }

  /** What a `style` property holds after `style[k] = v`: `null` is treated as the empty
      string, every other value is converted with `String(v)`. */
  function StyleText(v: Value): string {
    if v.Null? then "" else DataText(v)
  }

  /** `s.split(' ')`: the pieces between single spaces; `"".split(' ')` is `[""]`. */
  function Split(s: string): (r: seq<string>)
    ensures |r| >= 1
    ensures forall i :: 0 <= i < |r| ==> ' ' !in r[i]
    decreases |s|
  {
    if |s| == 0 then [""]
    else
      var rest := Split(s[1..]);
      if s[0] == ' ' then [""] + rest
      else [[s[0]] + rest[0]] + rest[1..]
  }

  /** Putting a character in front of the first piece puts it in front of the joined text. */
  lemma {:induction false} JoinConsChar(c: char, x: string, ys: seq<string>)
    ensures Join([[c] + x] + ys, ' ') == [c] + Join([x] + ys, ' ')
  {
    var xs := [[c] + x] + ys;
    if |ys| == 0 {
      assert xs == [[c] + x];
      assert [x] + ys == [x];
    } else {
      assert xs[1..] == ys;
      assert ([x] + ys)[1..] == ys;
    }
  }

  /** Splitting on spaces and joining with spaces gives the text back. */
  lemma {:induction false} JoinSplit(s: string)
    ensures Join(Split(s), ' ') == s
    decreases |s|
  {
    if |s| > 0 {
      var rest := Split(s[1..]);
      JoinSplit(s[1..]);
      if s[0] == ' ' {
        assert ([""] + rest)[1..] == rest;
      } else {
        assert rest == [rest[0]] + rest[1..];
        JoinConsChar(s[0], rest[0], rest[1..]);
      }
      assert s == [s[0]] + s[1..];
    }
  }

  /** Text without a space splits into itself alone. */
  lemma {:induction false} SplitNoSpace(x: string)
    requires ' ' !in x
    ensures Split(x) == [x]
    decreases |x|
  {
    if |x| > 0 {
      assert ' ' !in x[1..] by {
        forall i | 0 <= i < |x[1..]| ensures x[1..][i] != ' ' { assert x[1..][i] == x[i + 1]; }
      }
      SplitNoSpace(x[1..]);
      assert [x[0]] + x[1..] == x;
    }
  }

  /** A space-free first piece followed by a space splits off as the first token. */
  lemma {:induction false} SplitAfterPiece(x: string, t: string)
    requires ' ' !in x
    ensures Split(x + [' '] + t) == [x] + Split(t)
    decreases |x|
  {
    var s := x + [' '] + t;
    if |x| == 0 {
      assert s[1..] == t;
    } else {
      assert s[1..] == x[1..] + [' '] + t;
      assert ' ' !in x[1..] by {
        forall i | 0 <= i < |x[1..]| ensures x[1..][i] != ' ' { assert x[1..][i] == x[i + 1]; }
      }
      SplitAfterPiece(x[1..], t);
      assert [x[0]] + x[1..] == x;
    }
  }

  /** Joining space-free tokens with spaces and splitting again gives the tokens back. */
  lemma {:induction false} SplitJoin(xs: seq<string>)
    requires |xs| >= 1
    requires forall i :: 0 <= i < |xs| ==> ' ' !in xs[i]
    ensures Split(Join(xs, ' ')) == xs
    decreases |xs|
  {
    if |xs| == 1 {
      SplitNoSpace(xs[0]);
    } else {
      SplitJoin(xs[1..]);
      SplitAfterPiece(xs[0], Join(xs[1..], ' '));
      assert [xs[0]] + xs[1..] == xs;
    }
  }

  /** Only the one-piece list `[""]` and the empty list join to the empty text. */
  lemma {:induction false} JoinEmpty(xs: seq<string>)
    requires Join(xs, ' ') == ""
    ensures |xs| == 0 || xs == [""]
  {
  }

  /** A snapshot of the target element: its inline `style` properties and its `dataset`. */
  datatype Doc = Doc(style: map<string, string>, dataset: map<string, string>) {
    /** `element.style[attr]`: an unset property reads as the empty string. */
    function Style(attr: string): string {
      if attr in style then style[attr] else ""
    }

    /** `element.dataset[key]`: `undefined` when the key is absent. */
    function Data(key: string): Value {
      if key in dataset then Str(dataset[key]) else Undefined
    }
  }

  /** The editable element every tool of one toolbar reads and changes in place. */
  class Target {
    var style: map<string, string>
    var dataset: map<string, string>

    constructor (style: map<string, string>, dataset: map<string, string>)
      ensures this.style == style && this.dataset == dataset
    {
      this.style := style;
      this.dataset := dataset;
    }

    function Snapshot(): Doc
      reads this
    {
      Doc(style, dataset)
    }
  }
}
