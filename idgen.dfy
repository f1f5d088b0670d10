/**
 * The store-id generator of cmd/server/main.go (`buildIdGenerator`). The
 * template language is constrained to literal text and actions of the form
 * `{{ .Field }}` or `{{ .Field.key }}`: parsing happens once and fails fast;
 * rendering is a function of the payload that may fail per call.
 */
module IdGen {
  import opened Wrappers
  import opened Api
  import opened Store

  /** A template is literal text interleaved with field references. */
  datatype Segment =
    | Text(text: string)
    | Ref(field: string, keys: seq<string>)  // `.field.keys[0].keys[1]...`

  type Template = seq<Segment>

  datatype TemplateError = UnclosedAction | BadAction(action: string)

  /** The server's default id template. */
  const DefaultTemplate := "{{ .GroupLabels.alertname }}_{{ .Receiver }}"

  /** The default template, parsed. */
  const DefaultParsed: Template := [Ref("GroupLabels", ["alertname"]), Text("_"), Ref("Receiver", [])]

  /** The template `{{ .Version }}-{{ .Status }}` parsed. */
  const VersionStatusParsed: Template := [Ref("Version", []), Text("-"), Ref("Status", [])]

  // ---------------------------------------------------------------------
  // Lexical pieces.
  // ---------------------------------------------------------------------

  predicate IsSpace(c: char) { c == ' ' || c == '\t' || c == '\r' || c == '\n' }

  predicate IsLetter(c: char) { ('a' <= c <= 'z') || ('A' <= c <= 'Z') || c == '_' }

  predicate IsDigit(c: char) { '0' <= c <= '9' }

  predicate IdentTail(s: string)
  {
    s == [] || ((IsLetter(s[0]) || IsDigit(s[0])) && IdentTail(s[1..]))
  }

  /** A field or key name: a letter or `_`, then letters, digits or `_`. */
  predicate IsIdent(s: string)
  {
    |s| > 0 && IsLetter(s[0]) && IdentTail(s[1..])
  }

  /** The first position of `}}` in `s`, if any. */
  function FindClose(s: string): (r: Option<nat>)
    ensures r.Some? ==> r.value + 2 <= |s| && s[r.value] == '}' && s[r.value + 1] == '}'
    ensures r.Some? ==> forall j :: 0 <= j < r.value ==> !(s[j] == '}' && s[j + 1] == '}')
    ensures r.None? ==> forall j :: 0 <= j < |s| - 1 ==> !(s[j] == '}' && s[j + 1] == '}')
  {
    if |s| < 2 then None
    else if s[0] == '}' && s[1] == '}' then Some(0)
    else
      match FindClose(s[1..])
      case None => None
      case Some(j) => Some(j + 1)
  }

  function TrimLeft(s: string): string
  {
    if s != [] && IsSpace(s[0]) then TrimLeft(s[1..]) else s
  }

  function TrimRight(s: string): string
  {
    if s != [] && IsSpace(s[|s| - 1]) then TrimRight(s[..|s| - 1]) else s
  }

  /** `s` cut at every `.`; there is always at least one piece. */
  function SplitDots(s: string): (parts: seq<string>)
    ensures |parts| >= 1
  {
    if s == [] then [""]
    else
      var rest := SplitDots(s[1..]);
      if s[0] == '.' then [""] + rest else [[s[0]] + rest[0]] + rest[1..]
  }

  /** The body of one action: a dotted path of identifiers, blanks around it. */
  function ParseAction(action: string): (r: Result<Segment, TemplateError>)
    ensures r.Success? ==> r.value.Ref? && IsIdent(r.value.field)
    ensures r.Success? ==> forall i :: 0 <= i < |r.value.keys| ==> IsIdent(r.value.keys[i])
    ensures r.Failure? ==> r.error == BadAction(action)
  {
    var core := TrimRight(TrimLeft(action));
    if |core| < 2 || core[0] != '.' then Failure(BadAction(action))
    else
      var parts := SplitDots(core[1..]);
      if forall i :: 0 <= i < |parts| ==> IsIdent(parts[i]) then Success(Ref(parts[0], parts[1..]))
      else Failure(BadAction(action))
  }

  /**
   * What a parsed template looks like: every text run is non-empty, no two
   * runs sit side by side, and every reference is a path of identifiers.
   */
  predicate ParsedShape(t: Template)
  {
    && (forall i :: 0 <= i < |t| ==> t[i].Text? ==> t[i].text != [])
    && (forall i :: 0 <= i < |t| ==> t[i].Ref? ==> IsIdent(t[i].field))
    && (forall i, k :: 0 <= i < |t| && t[i].Ref? && 0 <= k < |t[i].keys| ==> IsIdent(t[i].keys[k]))
    && (forall i :: 0 <= i < |t| - 1 ==> !(t[i].Text? && t[i + 1].Text?))
  }

  /** Parses a template: text runs become one Text each, actions become Refs. */
  function Parse(s: string): (r: Result<Template, TemplateError>)
    ensures r.Success? ==> ParsedShape(r.value)
    decreases |s|
  {
    if s == [] then Success([])
    else if |s| >= 2 && s[0] == '{' && s[1] == '{' then
      match FindClose(s[2..])
      case None => Failure(UnclosedAction)
      case Some(j) =>
        match ParseAction(s[2..2 + j])
        case Failure(e) => Failure(e)
        case Success(seg) =>
          match Parse(s[2 + j + 2..])
          case Failure(e) => Failure(e)
          case Success(t) => Success([seg] + t)
    else
      match Parse(s[1..])
      case Failure(e) => Failure(e)
      case Success(t) =>
        if t != [] && t[0].Text? then Success([Text([s[0]] + t[0].text)] + t[1..])
        else Success([Text([s[0]])] + t)
  }

  // ---------------------------------------------------------------------
  // Printing, the inverse of parsing.
  // ---------------------------------------------------------------------

  function KeysText(keys: seq<string>): string
  {
    if keys == [] then "" else "." + keys[0] + KeysText(keys[1..])
  }

  /** The inside of a printed action: ` .field.key `. */
  function ActionText(f: string, keys: seq<string>): string
  {
    " ." + f + KeysText(keys) + " "
  }

  function PrintSegment(seg: Segment): string
  {
    match seg
    case Text(s) => s
    case Ref(f, keys) => "{{" + ActionText(f, keys) + "}}"
  }

  function Print(t: Template): string
  {
    if t == [] then "" else PrintSegment(t[0]) + Print(t[1..])
  }

  /** No `{` at all, so no action can start inside the text. */
  predicate PlainText(s: string)
  {
    s != [] && forall i :: 0 <= i < |s| ==> s[i] != '{'
  }

  predicate WellFormedSegment(seg: Segment)
  {
    match seg
    case Text(s) => PlainText(s)
    case Ref(f, keys) => IsIdent(f) && forall i :: 0 <= i < |keys| ==> IsIdent(keys[i])
  }

  /** Templates whose text runs contain no `{`, with no two text runs side by side. */
  predicate Canonical(t: Template)
  {
    && (forall i :: 0 <= i < |t| ==> WellFormedSegment(t[i]))
    && (forall i :: 0 <= i < |t| - 1 ==> !(t[i].Text? && t[i + 1].Text?))
  }

  // ---------------------------------------------------------------------
  // Rendering.
  // ---------------------------------------------------------------------

  /**
   * What a missing map key renders as. The template library's own choice is
   * not fixed here, so it is a parameter of the generator.
   */
  datatype MissingKey = MissingKeyError | MissingKeyText(text: string)

  /**
   * The library behaviour rendering relies on: the missing-key choice, and
   * the JSON encoder and `%#v` dump that `Message.String` calls.
   */
  datatype Library = Library(
    missing: MissingKey,
    marshal: Message -> Result<Bytes, string>,
    goSyntax: Message -> string)

  /** What a top-level field of the payload holds, as a template sees it. */
  datatype FieldValue =
    | Scalar(text: string, typeName: string)
    | Labels(entries: map<string, string>)
    | AlertList(alerts: seq<Alert>)
    | NoSuchField

  function Digit(d: nat): char
    requires d < 10
  {
    "0123456789"[d]
  }

  /** The decimal text of `n`. */
  function Decimal(n: nat): string
  {
    if n < 10 then [Digit(n)] else Decimal(n / 10) + [Digit(n % 10)]
  }

  /** The names `.name` can select on a payload: the method `String` and the ten exported fields. */
  const MessageMembers: set<string> := {"String", "Version", "GroupKey", "TruncatedAlerts", "Receiver",
    "Status", "Alerts", "GroupLabels", "CommonLabels", "CommonAnnotations", "ExternalURL"}

  /**
   * The value `.field` selects from the payload: the niladic method `String`
   * (which the template library prefers to a field of that name), else the
   * exported field.
   */
  function FieldOf(m: Message, field: string, lib: Library): (v: FieldValue)
    ensures v.NoSuchField? <==> field !in MessageMembers
  {
    if field == "String" then Scalar(MessageString(m, lib.marshal, lib.goSyntax), "string")
    else if field == "Version" then Scalar(m.version, "string")
    else if field == "GroupKey" then Scalar(m.groupKey, "string")
    else if field == "TruncatedAlerts" then Scalar(Decimal(m.truncatedAlerts), "uint64")
    else if field == "Receiver" then Scalar(m.receiver, "string")
    else if field == "Status" then Scalar(m.status, "string")
    else if field == "Alerts" then AlertList(m.alerts)
    else if field == "GroupLabels" then Labels(m.groupLabels)
    else if field == "CommonLabels" then Labels(m.commonLabels)
    else if field == "CommonAnnotations" then Labels(m.commonAnnotations)
    else if field == "ExternalURL" then Scalar(m.externalURL, "string")
    else NoSuchField
  }

  /** Renders one reference, given the value its field holds. */
  function RenderRef(v: FieldValue, field: string, keys: seq<string>, missing: MissingKey): Result<string, Err>
  {
    match v
    case NoSuchField =>
      Failure(ExecError("can't evaluate field " + field + " in type api.Message"))
    case Scalar(text, typeName) =>
      if keys == [] then Success(text)
      else Failure(ExecError("can't evaluate field " + keys[0] + " in type " + typeName))
    case AlertList(_) =>
      if keys == [] then Failure(ExecError("alert list not rendered by the id template"))
      else Failure(ExecError("can't evaluate field " + keys[0] + " in type []api.Alert"))
    case Labels(entries) =>
      if keys == [] then Failure(ExecError("label map not rendered by the id template"))
      else if |keys| > 1 then Failure(ExecError("can't evaluate field " + keys[1] + " in type string"))
      else if keys[0] in entries then Success(entries[keys[0]])
      else
        match missing
        case MissingKeyError => Failure(ExecError("map has no entry for key " + keys[0]))
        case MissingKeyText(text) => Success(text)
  }

  /** Renders one segment: text as itself, a reference by its field's value. */
  function RenderSegment(seg: Segment, m: Message, lib: Library): Result<string, Err>
  {
    match seg
    case Text(s) => Success(s)
    case Ref(f, keys) => RenderRef(FieldOf(m, f, lib), f, keys, lib.missing)
  }

  /** Executes the template against the payload; the first failing reference fails it. */
  function Render(t: Template, m: Message, lib: Library): (r: Result<string, Err>)
    ensures r.Success? <==> forall i :: 0 <= i < |t| ==> RenderSegment(t[i], m, lib).Success?
    ensures r.Failure? ==> exists i :: 0 <= i < |t| && RenderSegment(t[i], m, lib) == Failure(r.error)
  {
    if t == [] then Success("")
    else
      match RenderSegment(t[0], m, lib)
      case Failure(e) => Failure(e)
      case Success(s) =>
        match Render(t[1..], m, lib)
        case Failure(e) => Failure(e)
        case Success(rest) => Success(s + rest)
  }

  /** A generator: a template parsed once, plus the library behaviour it renders with. */
  datatype IdGenerator = IdGenerator(template: Template, lib: Library)

  /** `buildIdGenerator`: a malformed template fails here, before any payload. */
  function BuildIdGenerator(tmpl: string, lib: Library): (r: Result<IdGenerator, TemplateError>)
    ensures r.Success? <==> Parse(tmpl).Success?
    ensures r.Success? ==> r.value == IdGenerator(Parse(tmpl).value, lib)
    ensures r.Failure? ==> r.error == Parse(tmpl).error
  {
    match Parse(tmpl)
    case Failure(e) => Failure(e)
    case Success(t) => Success(IdGenerator(t, lib))
  }

  /** The generator's function: the rendered id, or `""` together with the error. */
  function Generate(g: IdGenerator, m: Message): (r: (string, Option<Err>))
    ensures r.1.Some? ==> r.0 == "" && Render(g.template, m, g.lib).Failure?
    ensures r.1.None? <==> Render(g.template, m, g.lib).Success?
    ensures r.1.None? ==> r.0 == Render(g.template, m, g.lib).value
  {
    match Render(g.template, m, g.lib)
    case Failure(e) => ("", Some(e))
    case Success(s) => (s, None)
  }
}

module IdGenProperties {
  import opened Wrappers
  import opened Api
  import opened Store
  import opened IdGen

  predicate NameChar(c: char) { IsLetter(c) || IsDigit(c) }

  lemma {:induction false} IdentTailChars(s: string)
    requires IdentTail(s)
    ensures forall i :: 0 <= i < |s| ==> NameChar(s[i])
  {
    if s != [] {
      IdentTailChars(s[1..]);
      assert forall i :: 1 <= i < |s| ==> s[i] == s[1..][i - 1];
    }
  }

  lemma IdentChars(s: string)
    requires IsIdent(s)
    ensures forall i :: 0 <= i < |s| ==> NameChar(s[i])
  {
    IdentTailChars(s[1..]);
    assert forall i :: 1 <= i < |s| ==> s[i] == s[1..][i - 1];
  }

  lemma {:induction false} KeysTextChars(keys: seq<string>)
    requires forall i :: 0 <= i < |keys| ==> IsIdent(keys[i])
    ensures forall i :: 0 <= i < |KeysText(keys)| ==> KeysText(keys)[i] == '.' || NameChar(KeysText(keys)[i])
  {
    if keys != [] {
      IdentChars(keys[0]);
      KeysTextChars(keys[1..]);
    }
  }

  /** With no `}` before it, the first `}}` is the one right after `x`. */
  lemma {:induction false} FindCloseAfter(x: string, y: string)
    requires forall i :: 0 <= i < |x| ==> x[i] != '}'
    ensures FindClose(x + "}}" + y) == Some(|x|)
  {
    if x != [] {
      FindCloseAfter(x[1..], y);
      assert (x + "}}" + y)[1..] == x[1..] + "}}" + y;
    }
  }

  /** Splitting a dot-free word followed by `rest` extends the first piece of `rest`. */
  lemma {:induction false} SplitWord(w: string, rest: string)
    requires forall i :: 0 <= i < |w| ==> w[i] != '.'
    ensures SplitDots(w + rest) == [w + SplitDots(rest)[0]] + SplitDots(rest)[1..]
  {
    if w == [] {
      var parts := SplitDots(rest);
      assert w + rest == rest && w + parts[0] == parts[0];
      assert [parts[0]] + parts[1..] == parts;
    } else {
      SplitWord(w[1..], rest);
      var s := w + rest;
      assert s[0] == w[0] && s[0] != '.';
      assert s[1..] == w[1..] + rest;
      var tail := SplitDots(s[1..]);
      assert tail[0] == w[1..] + SplitDots(rest)[0];
      assert tail[1..] == SplitDots(rest)[1..];
      assert SplitDots(s) == [[s[0]] + tail[0]] + tail[1..];
      assert [w[0]] + (w[1..] + SplitDots(rest)[0]) == w + SplitDots(rest)[0];
    }
  }

  lemma SplitAtDot(r: string)
    ensures SplitDots("." + r) == [""] + SplitDots(r)
  {
    assert ("." + r)[1..] == r;
  }

  lemma {:induction false} SplitPath(w: string, keys: seq<string>)
    requires forall i :: 0 <= i < |w| ==> w[i] != '.'
    requires forall i :: 0 <= i < |keys| ==> IsIdent(keys[i])
    ensures SplitDots(w + KeysText(keys)) == [w] + keys
    decreases |keys|
  {
    if keys == [] {
      SplitWord(w, "");
      assert w + "" == w;
      assert KeysText(keys) == "";
    } else {
      IdentChars(keys[0]);
      SplitPath(keys[0], keys[1..]);
      var tail := keys[0] + KeysText(keys[1..]);
      assert KeysText(keys) == "." + tail;
      SplitWord(w, "." + tail);
      SplitAtDot(tail);
      assert SplitDots("." + tail) == [""] + ([keys[0]] + keys[1..]);
      assert [keys[0]] + keys[1..] == keys;
      assert w + "" == w;
    }
  }

  lemma TrimLeftOneBlank(s: string, u: string)
    requires u != [] && !IsSpace(u[0])
    requires s == [' '] + u
    ensures TrimLeft(s) == u
  {
    assert s[1..] == u;
  }

  lemma TrimRightOneBlank(u: string, v: string)
    requires v != [] && !IsSpace(v[|v| - 1])
    requires u == v + [' ']
    ensures TrimRight(u) == v
  {
    assert u[..|u| - 1] == v;
  }

  /** The blanks the printer puts around a path are trimmed off again. */
  lemma TrimPrinted(body: string, s: string)
    requires body != [] && !IsSpace(body[|body| - 1])
    requires s == " ." + body + " "
    ensures TrimRight(TrimLeft(s)) == "." + body
  {
    var v := "." + body;
    var u := v + " ";
    assert s == " " + u;
    assert v[|v| - 1] == body[|body| - 1];
    TrimLeftOneBlank(s, u);
    TrimRightOneBlank(u, v);
  }

  /** The printed form of a reference's action parses back to that reference. */
  lemma ParsePrintedAction(f: string, keys: seq<string>, x: string)
    requires WellFormedSegment(Ref(f, keys))
    requires x == " ." + f + KeysText(keys) + " "
    ensures ParseAction(x) == Success(Ref(f, keys))
  {
    var body := f + KeysText(keys);
    IdentChars(f);
    assert body[|body| - 1] == '.' || NameChar(body[|body| - 1]) by {
      KeysTextChars(keys);
      if |KeysText(keys)| > 0 {
        assert body[|body| - 1] == KeysText(keys)[|KeysText(keys)| - 1];
      } else {
        assert body[|body| - 1] == f[|f| - 1];
      }
    }
    TrimPrinted(body, x);
    var core := "." + body;
    assert core[1..] == body;
    SplitPath(f, keys);
    var parts := SplitDots(core[1..]);
    assert parts == [f] + keys;
    assert forall i :: 0 <= i < |parts| ==> IsIdent(parts[i]) by {
      forall i | 0 <= i < |parts| ensures IsIdent(parts[i]) {
        if i > 0 { assert parts[i] == keys[i - 1]; }
      }
    }
    assert parts[1..] == keys;
  }

  /** How `Parse` proceeds at an action that closes and parses. */
  lemma ParseAtAction(s: string, j: nat, seg: Segment)
    requires |s| >= 2 && s[0] == '{' && s[1] == '{'
    requires FindClose(s[2..]) == Some(j)
    requires ParseAction(s[2..2 + j]) == Success(seg)
    ensures Parse(s) ==
      match Parse(s[2 + j + 2..])
      case Failure(e) => Failure(e)
      case Success(t) => Success([seg] + t)
  {
  }

  /** The action text of a printed reference holds no `}`. */
  lemma NoBraceInAction(f: string, keys: seq<string>, x: string)
    requires WellFormedSegment(Ref(f, keys))
    requires x == " ." + f + KeysText(keys) + " "
    ensures forall i :: 0 <= i < |x| ==> x[i] != '}'
  {
    IdentChars(f);
    KeysTextChars(keys);
    forall i | 0 <= i < |x| ensures x[i] != '}' {
      if 2 <= i < 2 + |f| {
        assert x[i] == f[i - 2];
      } else if 2 + |f| <= i < |x| - 1 {
        assert x[i] == KeysText(keys)[i - 2 - |f|];
      }
    }
  }

  /** Cutting `a + b + c` at the borders of its parts. */
  lemma ThreeParts(s: string, a: string, b: string, c: string)
    requires s == a + b + c
    ensures s[..|a|] == a && s[|a|..] == b + c
    ensures s[|a|..|a| + |b|] == b && s[|a| + |b|..] == c
  {
  }

  /** A printed reference is `{{`, its action text, `}}`. */
  lemma PrintedRefShape(x: string, r: string, s: string, open: string, close: string)
    requires open == "{{" && close == "}}"
    requires s == open + x + close + r
    ensures |s| >= 2 && s[0] == '{' && s[1] == '{'
    ensures s[2..] == x + close + r
    ensures s[2..2 + |x|] == x
    ensures s[2 + |x| + 2..] == r
  {
    var rest := x + close + r;
    assert s == open + rest;
    ThreeParts(s, open, x, close + r);
    ThreeParts(rest, x, close, r);
    assert s[2..] == rest;
    assert s[2..][|x| + 2..] == s[2 + |x| + 2..];
  }

  /** Parsing a printed reference gives that reference back, then the rest. */
  lemma ParsePrintedRef(f: string, keys: seq<string>, r: string, s: string)
    requires WellFormedSegment(Ref(f, keys))
    requires s == PrintSegment(Ref(f, keys)) + r
    ensures Parse(s) ==
      match Parse(r)
      case Failure(e) => Failure(e)
      case Success(t) => Success([Ref(f, keys)] + t)
  {
    var x := ActionText(f, keys);
    var open, close := "{{", "}}";
    assert PrintSegment(Ref(f, keys)) == open + x + close;
    NoBraceInAction(f, keys, x);
    PrintedRefShape(x, r, s, open, close);
    FindCloseAfter(x, r);
    ParsePrintedAction(f, keys, x);
    ParseAtAction(s, |x|, Ref(f, keys));
  }

  /** Parsing plain text before something that does not begin with text gives one Text. */
  lemma {:induction false} ParsePrintedText(s: string, r: string, t: Template)
    requires PlainText(s)
    requires Parse(r) == Success(t) && (t == [] || !t[0].Text?)
    ensures Parse(s + r) == Success([Text(s)] + t)
  {
    assert (s + r)[0] == s[0] && (s + r)[1..] == s[1..] + r;
    if |s| == 1 {
      assert s[1..] + r == r;
      assert [s[0]] == s;
    } else {
      ParsePrintedText(s[1..], r, t);
      assert [s[0]] + s[1..] == s;
    }
  }

  /** Parsing inverts printing on the templates the parser produces. */
  lemma {:induction false} ParsePrintRoundTrip(t: Template)
    requires Canonical(t)
    ensures Parse(Print(t)) == Success(t)
  {
    if t == [] {
    } else {
      var rest := t[1..];
      assert Canonical(rest) by {
        assert forall i :: 0 <= i < |rest| ==> rest[i] == t[i + 1];
      }
      ParsePrintRoundTrip(rest);
      assert Print(t) == PrintSegment(t[0]) + Print(rest);
      match t[0]
      case Ref(f, keys) =>
        assert WellFormedSegment(t[0]);
        ParsePrintedRef(f, keys, Print(rest), Print(t));
        assert [t[0]] + rest == t;
      case Text(s) =>
        assert WellFormedSegment(t[0]);
        assert rest != [] ==> rest[0] == t[1];
        ParsePrintedText(s, Print(rest), rest);
        assert [t[0]] + rest == t;
    }
  }

  /** An action that is opened and never closed rejects the template. */
  lemma UnclosedActionRejected(x: string)
    requires forall j :: 0 <= j < |x| - 1 ==> !(x[j] == '}' && x[j + 1] == '}')
    ensures Parse("{{" + x) == Failure(UnclosedAction)
  {
    var s := "{{" + x;
    assert s[2..] == x;
  }

  /** The field names a template reads. */
  function Fields(t: Template): set<string>
  {
    set i | 0 <= i < |t| && t[i].Ref? :: t[i].field
  }

  /**
   * The id depends on nothing but the fields the template names: two payloads
   * that agree on those fields get the same id, however else they differ.
   */
  lemma {:induction false} RenderDependsOnlyOnFields(t: Template, m1: Message, m2: Message, lib: Library)
    requires forall f :: f in Fields(t) ==> FieldOf(m1, f, lib) == FieldOf(m2, f, lib)
    ensures Render(t, m1, lib) == Render(t, m2, lib)
  {
    if t != [] {
      assert Fields(t[1..]) <= Fields(t) by {
        forall f | f in Fields(t[1..]) ensures f in Fields(t) {
          var i :| 0 <= i < |t[1..]| && t[1..][i].Ref? && t[1..][i].field == f;
          assert t[i + 1] == t[1..][i];
        }
      }
      RenderDependsOnlyOnFields(t[1..], m1, m2, lib);
      if t[0].Ref? {
        assert t[0].field in Fields(t);
      }
    }
  }

  /**
   * `{{ .String }}` calls the payload's `String` method: the id is the
   * payload's JSON text, byte for byte, whenever encoding it succeeds.
   */
  lemma StringMethodRendersJson(f: string, m: Message, lib: Library)
    requires f == "String"
    ensures Generate(IdGenerator([Ref(f, [])], lib), m) == (MessageString(m, lib.marshal, lib.goSyntax), None)
    ensures lib.marshal(m).Success? ==>
      var id := Generate(IdGenerator([Ref(f, [])], lib), m).0;
      |id| == |lib.marshal(m).value| && forall i :: 0 <= i < |id| ==> id[i] as int == lib.marshal(m).value[i] as int
  {
    assert Render([Ref(f, [])][1..], m, lib) == Success("");
    assert MessageString(m, lib.marshal, lib.goSyntax) + "" == MessageString(m, lib.marshal, lib.goSyntax);
  }

  /** A reference to a field the payload does not have fails at render time, not at parse time. */
  lemma UnknownFieldFailsPerCall(f: string, m: Message, lib: Library)
    requires IsIdent(f) && f !in MessageMembers
    ensures Parse(Print([Ref(f, [])])) == Success([Ref(f, [])])
    ensures Generate(IdGenerator([Ref(f, [])], lib), m).1.Some?
    ensures Generate(IdGenerator([Ref(f, [])], lib), m).0 == ""
  {
    var t := [Ref(f, [])];
    assert Canonical(t);
    ParsePrintRoundTrip(t);
    assert FieldOf(m, f, lib).NoSuchField?;
    assert RenderSegment(t[0], m, lib).Failure?;
  }
}
