/**
 * A client that exercises RenderSettings through the contracts of its
 * members alone: pushes, resets, the empty global preamble and dispatch.
 */
module RenderingExamples {
  import opened Wrappers
  import opened Rendering
  import Lines

  method PreambleScenarios()
  {
    var s := new RenderSettings();
    assert s.GetPreamble() == None;

    // Two pushes after a reset contribute "a\nb", in push order.
    s.ResetPreamble();
    assert s.GetPreamble() == None;
    s.PushPreamble("a");
    s.PushPreamble("b");
    assert s.localPreambles == ["a", "b"];
    assert "a" + [Lines.Newline] + "b" == "a\nb";
    assert s.GetPreamble() == Some("a\nb");

    // Resetting twice leaves the same state as resetting once.
    s.ResetPreamble();
    var once := (s.preamble, s.backend, s.localPreambles);
    s.ResetPreamble();
    assert (s.preamble, s.backend, s.localPreambles) == once;

    // A set global preamble comes first, separated by a newline.
    s.preamble := Some("\\def\\R{\\mathbb{R}}");
    s.PushPreamble("x");
    assert "\\def\\R{\\mathbb{R}}" + [Lines.Newline] + "x" == "\\def\\R{\\mathbb{R}}\nx";
    assert s.GetPreamble() == Some("\\def\\R{\\mathbb{R}}\nx");

    // An empty global preamble is still set: the separator stays.
    s.ResetPreamble();
    s.preamble := Some("");
    assert s.GetPreamble() == Some("");
    s.PushPreamble("x");
    assert "" + [Lines.Newline] + "x" == "\nx";
    assert s.GetPreamble() == Some("\nx");
  }

  method DispatchScenarios()
  {
    var s := new RenderSettings();
    var mathml: Adapter := (latex, options) => Rendered("<math>" + latex + "</math>");
    var katex: Adapter := (latex, options) => Raised(AdapterError("KaTeXError", "Undefined control sequence"));

    // The default backend forwards ("x^2", None) to the MathML adapter.
    assert s.RenderLatex(mathml, katex, "x^2") == Rendered("<math>x^2</math>");

    // The KaTeX adapter's error comes back unchanged.
    s.backend := "katex";
    assert s.RenderLatex(mathml, katex, "\\foo", None)
        == Raised(AdapterError("KaTeXError", "Undefined control sequence"));

    // Any other backend is a configuration error naming the value.
    s.backend := "unsupported";
    var r := s.RenderLatex(mathml, katex, "x^2", None);
    assert UnknownBackendMessage("unsupported") == "Unknown backend 'unsupported'!";
    assert r == Raised(KaTeXError("Unknown backend 'unsupported'!"));
  }
}
