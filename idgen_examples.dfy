/**
 * The two templates the server's tests exercise, worked through the model:
 * the default `{{ .GroupLabels.alertname }}_{{ .Receiver }}` and
 * `{{ .Version }}-{{ .Status }}`. Literals are passed as parameters equal
 * to them, so each step stays small for the verifier.
 */
module IdGenExamples {
  import opened Wrappers
  import opened Api
  import opened IdGen
  import opened IdGenProperties

  // ---------------------------------------------------------------------
  // Generic steps over three-segment templates.
  // ---------------------------------------------------------------------

  lemma PrintOfThree(a: Segment, b: Segment, c: Segment)
    ensures Print([a, b, c]) == PrintSegment(a) + PrintSegment(b) + PrintSegment(c)
  {
    assert [a, b, c][1..] == [b, c];
    assert [b, c][1..] == [c];
    assert [c][1..] == [];
    assert Print([c]) == PrintSegment(c);
    assert Print([b, c]) == PrintSegment(b) + PrintSegment(c);
  }

  lemma RenderCons(seg: Segment, t: Template, m: Message, lib: Library, x: string, rest: string)
    requires RenderSegment(seg, m, lib) == Success(x)
    requires Render(t, m, lib) == Success(rest)
    ensures Render([seg] + t, m, lib) == Success(x + rest)
  {
    assert ([seg] + t)[0] == seg && ([seg] + t)[1..] == t;
  }

  lemma RenderOfThree(a: Segment, b: Segment, c: Segment, m: Message, lib: Library, x: string, y: string, z: string)
    requires RenderSegment(a, m, lib) == Success(x)
    requires RenderSegment(b, m, lib) == Success(y)
    requires RenderSegment(c, m, lib) == Success(z)
    ensures Render([a, b, c], m, lib) == Success(x + (y + z))
  {
    assert Render([], m, lib) == Success("");
    RenderCons(c, [], m, lib, z, "");
    assert [c] + [] == [c] && z + "" == z;
    RenderCons(b, [c], m, lib, y, z);
    assert [b] + [c] == [b, c];
    RenderCons(a, [b, c], m, lib, x, y + z);
    assert [a] + [b, c] == [a, b, c];
  }

  lemma CanonicalOfThree(a: Segment, b: Segment, c: Segment)
    requires WellFormedSegment(a) && WellFormedSegment(b) && WellFormedSegment(c)
    requires !(a.Text? && b.Text?) && !(b.Text? && c.Text?)
    ensures Canonical([a, b, c])
  {
  }

  lemma GroupLabelsField(m: Message, f: string, lib: Library)
    requires f == "GroupLabels"
    ensures FieldOf(m, f, lib) == Labels(m.groupLabels)
  {
  }

  lemma ReceiverField(m: Message, f: string, lib: Library)
    requires f == "Receiver"
    ensures FieldOf(m, f, lib) == Scalar(m.receiver, "string")
  {
  }

  lemma VersionField(m: Message, f: string, lib: Library)
    requires f == "Version"
    ensures FieldOf(m, f, lib) == Scalar(m.version, "string")
  {
  }

  lemma StatusField(m: Message, f: string, lib: Library)
    requires f == "Status"
    ensures FieldOf(m, f, lib) == Scalar(m.status, "string")
  {
  }

  lemma PrintedRef(f: string, keys: seq<string>, s: string)
    requires s == ActionText(f, keys)
    ensures PrintSegment(Ref(f, keys)) == "{{" + s + "}}"
  {
  }

  // ---------------------------------------------------------------------
  // The default template.
  // ---------------------------------------------------------------------

  /** Identifier tails concatenate. */
  lemma {:induction false} IdentTailAppend(a: string, b: string)
    requires IdentTail(a) && IdentTail(b)
    ensures IdentTail(a + b)
  {
    if a != [] {
      IdentTailAppend(a[1..], b);
      assert (a + b)[1..] == a[1..] + b;
    } else {
      assert a + b == b;
    }
  }

  lemma GroupLabelsIsIdent()
    ensures IsIdent("GroupLabels")
  {
    var s, u, v := "GroupLabels", "roup", "Labels";
    assert IdentTail(u);
    assert IdentTail(v);
    IdentTailAppend(u, v);
    assert s[1..] == u + v;
  }

  lemma AlertnameIsIdent() ensures IsIdent("alertname") { }

  lemma ReceiverIsIdent() ensures IsIdent("Receiver") { }

  lemma DefaultParsedElements()
    ensures |DefaultParsed| == 3
    ensures DefaultParsed[0] == Ref("GroupLabels", ["alertname"])
    ensures DefaultParsed[1] == Text("_")
    ensures DefaultParsed[2] == Ref("Receiver", [])
  {
  }

  lemma GroupLabelsRefWellFormed(a: Segment)
    requires a == Ref("GroupLabels", ["alertname"])
    ensures WellFormedSegment(a)
  {
    GroupLabelsIsIdent();
    AlertnameIsIdent();
  }

  lemma GroupLabelsRefAction(a: Segment)
    requires a == Ref("GroupLabels", ["alertname"])
    ensures ActionText(a.field, a.keys) == " .GroupLabels.alertname "
  {
  }

  lemma ReceiverRefWellFormed(c: Segment)
    requires c == Ref("Receiver", [])
    ensures WellFormedSegment(c)
  {
    ReceiverIsIdent();
  }

  lemma ReceiverRefAction(c: Segment)
    requires c == Ref("Receiver", [])
    ensures ActionText(c.field, c.keys) == " .Receiver "
  {
  }

  lemma TextWellFormed(b: Segment, s: string)
    requires b == Text(s) && |s| == 1 && s[0] != '{'
    ensures WellFormedSegment(b)
  {
  }

  lemma DefaultParsedCanonical()
    ensures Canonical(DefaultParsed)
  {
    DefaultParsedElements();
    var a, b, c := DefaultParsed[0], DefaultParsed[1], DefaultParsed[2];
    GroupLabelsRefWellFormed(a);
    ReceiverRefWellFormed(c);
    TextWellFormed(b, "_");
    CanonicalOfThree(a, b, c);
    assert DefaultParsed == [a, b, c];
  }

  lemma GroupLabelsActionBraced(x: string)
    requires x == " .GroupLabels.alertname "
    ensures "{{" + x + "}}" == "{{ .GroupLabels.alertname }}"
  {
  }

  lemma ReceiverActionBraced(x: string)
    requires x == " .Receiver "
    ensures "{{" + x + "}}" == "{{ .Receiver }}"
  {
  }

  lemma DefaultTemplateJoined(p: string, y: string, q: string, tmpl: string)
    requires p == "{{ .GroupLabels.alertname }}" && y == "_" && q == "{{ .Receiver }}"
    requires tmpl == DefaultTemplate
    ensures p + y + q == tmpl
  {
  }

  lemma DefaultTemplatePieces(x: string, y: string, z: string, tmpl: string)
    requires x == " .GroupLabels.alertname " && y == "_" && z == " .Receiver "
    requires tmpl == DefaultTemplate
    ensures ("{{" + x + "}}") + y + ("{{" + z + "}}") == tmpl
  {
    GroupLabelsActionBraced(x);
    ReceiverActionBraced(z);
    DefaultTemplateJoined("{{" + x + "}}", y, "{{" + z + "}}", tmpl);
  }

  lemma DefaultTemplateShape(a: Segment, b: Segment, c: Segment, tmpl: string)
    requires a == Ref("GroupLabels", ["alertname"]) && b == Text("_") && c == Ref("Receiver", [])
    requires tmpl == DefaultTemplate
    ensures Print([a, b, c]) == tmpl
  {
    GroupLabelsRefAction(a);
    ReceiverRefAction(c);
    PrintOfThree(a, b, c);
    PrintedRef(a.field, a.keys, " .GroupLabels.alertname ");
    PrintedRef(c.field, c.keys, " .Receiver ");
    assert PrintSegment(b) == "_";
    DefaultTemplatePieces(" .GroupLabels.alertname ", "_", " .Receiver ", tmpl);
  }

  lemma DefaultTemplatePrinted(tmpl: string)
    requires tmpl == DefaultTemplate
    ensures Print(DefaultParsed) == tmpl
  {
    DefaultParsedElements();
    DefaultTemplateShape(DefaultParsed[0], DefaultParsed[1], DefaultParsed[2], tmpl);
    assert DefaultParsed == [DefaultParsed[0], DefaultParsed[1], DefaultParsed[2]];
  }

  lemma DefaultTemplateParses(tmpl: string)
    requires tmpl == DefaultTemplate
    ensures Parse(tmpl) == Success(DefaultParsed)
  {
    DefaultParsedCanonical();
    DefaultTemplatePrinted(tmpl);
    ParsePrintRoundTrip(DefaultParsed);
  }

  lemma DefaultParsedRenders(m: Message, lib: Library)
    requires "alertname" in m.groupLabels && m.groupLabels["alertname"] == "Test"
    requires m.receiver == "webhook"
    ensures Render(DefaultParsed, m, lib) == Success("Test_webhook")
  {
    DefaultParsedElements();
    var a, b, c := DefaultParsed[0], DefaultParsed[1], DefaultParsed[2];
    assert DefaultParsed == [a, b, c];
    GroupLabelsField(m, a.field, lib);
    ReceiverField(m, c.field, lib);
    assert RenderSegment(a, m, lib) == Success("Test");
    assert RenderSegment(c, m, lib) == Success("webhook");
    RenderOfThree(a, b, c, m, lib, "Test", "_", "webhook");
    assert "Test" + ("_" + "webhook") == "Test_webhook";
  }

  /** The default template yields `Test_webhook` for alertname "Test" and receiver "webhook". */
  lemma DefaultTemplateRendersTestWebhook(tmpl: string, m: Message, lib: Library)
    requires tmpl == DefaultTemplate
    requires "alertname" in m.groupLabels && m.groupLabels["alertname"] == "Test"
    requires m.receiver == "webhook"
    ensures BuildIdGenerator(tmpl, lib).Success?
    ensures Generate(BuildIdGenerator(tmpl, lib).value, m) == ("Test_webhook", None)
  {
    DefaultTemplateParses(tmpl);
    DefaultParsedRenders(m, lib);
  }

  /** Payloads that share group labels and receiver collide under the default template. */
  lemma DefaultTemplateCollides(m1: Message, m2: Message, lib: Library)
    requires m1.groupLabels == m2.groupLabels && m1.receiver == m2.receiver
    ensures Generate(IdGenerator(DefaultParsed, lib), m1) == Generate(IdGenerator(DefaultParsed, lib), m2)
  {
    assert Fields(DefaultParsed) == {"GroupLabels", "Receiver"} by {
      assert DefaultParsed[0].field == "GroupLabels" && DefaultParsed[2].field == "Receiver";
    }
    RenderDependsOnlyOnFields(DefaultParsed, m1, m2, lib);
  }

  // ---------------------------------------------------------------------
  // `{{ .Version }}-{{ .Status }}`.
  // ---------------------------------------------------------------------

  lemma VersionIsIdent() ensures IsIdent("Version") { }

  lemma StatusIsIdent() ensures IsIdent("Status") { }

  lemma VersionStatusElements()
    ensures |VersionStatusParsed| == 3
    ensures VersionStatusParsed[0] == Ref("Version", [])
    ensures VersionStatusParsed[1] == Text("-")
    ensures VersionStatusParsed[2] == Ref("Status", [])
  {
  }

  lemma VersionRefWellFormed(a: Segment)
    requires a == Ref("Version", [])
    ensures WellFormedSegment(a)
  {
    VersionIsIdent();
  }

  lemma VersionRefAction(a: Segment)
    requires a == Ref("Version", [])
    ensures ActionText(a.field, a.keys) == " .Version "
  {
  }

  lemma StatusRefWellFormed(c: Segment)
    requires c == Ref("Status", [])
    ensures WellFormedSegment(c)
  {
    StatusIsIdent();
  }

  lemma StatusRefAction(c: Segment)
    requires c == Ref("Status", [])
    ensures ActionText(c.field, c.keys) == " .Status "
  {
  }

  lemma VersionStatusCanonical()
    ensures Canonical(VersionStatusParsed)
  {
    VersionStatusElements();
    var a, b, c := VersionStatusParsed[0], VersionStatusParsed[1], VersionStatusParsed[2];
    VersionRefWellFormed(a);
    StatusRefWellFormed(c);
    TextWellFormed(b, "-");
    CanonicalOfThree(a, b, c);
    assert VersionStatusParsed == [a, b, c];
  }

  lemma VersionActionBraced(x: string)
    requires x == " .Version "
    ensures "{{" + x + "}}" == "{{ .Version }}"
  {
  }

  lemma StatusActionBraced(x: string)
    requires x == " .Status "
    ensures "{{" + x + "}}" == "{{ .Status }}"
  {
  }

  lemma VersionStatusJoined(p: string, y: string, q: string, tmpl: string)
    requires p == "{{ .Version }}" && y == "-" && q == "{{ .Status }}"
    requires tmpl == "{{ .Version }}-{{ .Status }}"
    ensures p + y + q == tmpl
  {
  }

  lemma VersionStatusPieces(x: string, y: string, z: string, tmpl: string)
    requires x == " .Version " && y == "-" && z == " .Status "
    requires tmpl == "{{ .Version }}-{{ .Status }}"
    ensures ("{{" + x + "}}") + y + ("{{" + z + "}}") == tmpl
  {
    VersionActionBraced(x);
    StatusActionBraced(z);
    VersionStatusJoined("{{" + x + "}}", y, "{{" + z + "}}", tmpl);
  }

  lemma VersionStatusShape(a: Segment, b: Segment, c: Segment, tmpl: string)
    requires a == Ref("Version", []) && b == Text("-") && c == Ref("Status", [])
    requires tmpl == "{{ .Version }}-{{ .Status }}"
    ensures Print([a, b, c]) == tmpl
  {
    VersionRefAction(a);
    StatusRefAction(c);
    PrintOfThree(a, b, c);
    PrintedRef(a.field, a.keys, " .Version ");
    PrintedRef(c.field, c.keys, " .Status ");
    assert PrintSegment(b) == "-";
    VersionStatusPieces(" .Version ", "-", " .Status ", tmpl);
  }

  lemma VersionStatusPrinted(tmpl: string)
    requires tmpl == "{{ .Version }}-{{ .Status }}"
    ensures Print(VersionStatusParsed) == tmpl
  {
    VersionStatusElements();
    VersionStatusShape(VersionStatusParsed[0], VersionStatusParsed[1], VersionStatusParsed[2], tmpl);
    assert VersionStatusParsed == [VersionStatusParsed[0], VersionStatusParsed[1], VersionStatusParsed[2]];
  }

  lemma VersionStatusParses(tmpl: string)
    requires tmpl == "{{ .Version }}-{{ .Status }}"
    ensures Parse(tmpl) == Success(VersionStatusParsed)
  {
    VersionStatusCanonical();
    VersionStatusPrinted(tmpl);
    ParsePrintRoundTrip(VersionStatusParsed);
  }

  lemma VersionStatusParsedRenders(m: Message, lib: Library)
    requires m.version == "4" && m.status == "firing"
    ensures Render(VersionStatusParsed, m, lib) == Success("4-firing")
  {
    VersionStatusElements();
    var a, b, c := VersionStatusParsed[0], VersionStatusParsed[1], VersionStatusParsed[2];
    assert VersionStatusParsed == [a, b, c];
    VersionField(m, a.field, lib);
    StatusField(m, c.field, lib);
    assert RenderSegment(a, m, lib) == Success("4");
    assert RenderSegment(c, m, lib) == Success("firing");
    RenderOfThree(a, b, c, m, lib, "4", "-", "firing");
    assert "4" + ("-" + "firing") == "4-firing";
  }

  /** `{{ .Version }}-{{ .Status }}` yields `4-firing` for version "4" and status "firing". */
  lemma VersionStatusTemplateRenders(tmpl: string, m: Message, lib: Library)
    requires tmpl == "{{ .Version }}-{{ .Status }}"
    requires m.version == "4" && m.status == "firing"
    ensures BuildIdGenerator(tmpl, lib).Success?
    ensures Generate(BuildIdGenerator(tmpl, lib).value, m) == ("4-firing", None)
  {
    VersionStatusParses(tmpl);
    VersionStatusParsedRenders(m, lib);
  }
}
