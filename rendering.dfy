/**
 * The render configuration store and dispatcher of pelican-katex: the
 * process-wide settings (global preamble, backend choice, file-local preamble
 * fragments), the computation of the effective preamble, and the routing of a
 * render request to one of the two backend adapters.
 */
module Rendering {
  import opened Wrappers
  import opened Lines

  /** A value in a KaTeX-style options dictionary (`displayMode`, `throwOnError`, ...). */
  datatype OptionValue = BoolValue(b: bool) | IntValue(i: int) | StringValue(s: string)

  type RenderOptions = map<string, OptionValue>

  /** What a render call raises: the dispatcher's own `KaTeXError`, or whatever an adapter raised. */
  datatype RenderError =
    | KaTeXError(message: string)
    | AdapterError(kind: string, message: string)

  /** A render call either returns markup or raises an error. */
  datatype RenderResult = Rendered(markup: string) | Raised(error: RenderError)

  /**
   * A backend adapter (`render_latex_mathml`, `render_latex_katex`): a
   * function of the LaTeX source and the optional per-call options.
   */
  type Adapter = (string, Option<RenderOptions>) -> RenderResult

  /** The two recognised backends. */
  datatype Backend = Latex2Mathml | Katex

  const DefaultBackend: string := "latex2mathml"

  /** The backend a `KATEX_BACKEND` setting selects, if it names one. */
  function ParseBackend(name: string): (r: Option<Backend>)
    ensures r == Some(Latex2Mathml) <==> name == "latex2mathml"
    ensures r == Some(Katex) <==> name == "katex"
    ensures r.None? <==> name != "latex2mathml" && name != "katex"
  {
    if name == "latex2mathml" then Some(Latex2Mathml)
    else if name == "katex" then Some(Katex)
    else None
  }

  const UnknownBackendPrefix: string := "Unknown backend '"
  const UnknownBackendSuffix: string := "'!"

  /** The message of the `KaTeXError` raised for an unrecognised backend. */
  function UnknownBackendMessage(name: string): (msg: string)
    ensures |msg| == |UnknownBackendPrefix| + |name| + |UnknownBackendSuffix|
    ensures msg[..|UnknownBackendPrefix|] == UnknownBackendPrefix
    ensures msg[|UnknownBackendPrefix|..|UnknownBackendPrefix| + |name|] == name
    ensures msg[|UnknownBackendPrefix| + |name|..] == UnknownBackendSuffix
  {
    UnknownBackendPrefix + name + UnknownBackendSuffix
  }

  /** The backend name an unknown-backend message reports. */
  function ReportedBackend(msg: string): string
    requires |msg| >= |UnknownBackendPrefix| + |UnknownBackendSuffix|
  {
    msg[|UnknownBackendPrefix|..|msg| - |UnknownBackendSuffix|]
  }

  /** The message names the offending value exactly: it can be read back from it. */
  lemma ReportedBackendRoundTrip(name: string)
    ensures ReportedBackend(UnknownBackendMessage(name)) == name
  {
    var msg := UnknownBackendMessage(name);
    assert ReportedBackend(msg) == msg[|UnknownBackendPrefix|..|UnknownBackendPrefix| + |name|];
  }

  /** So two different unknown backends are never reported with the same message. */
  lemma UnknownBackendMessageInjective(a: string, b: string)
    requires UnknownBackendMessage(a) == UnknownBackendMessage(b)
    ensures a == b
  {
    ReportedBackendRoundTrip(a);
    ReportedBackendRoundTrip(b);
  }

  /**
   * The preamble layers in order: the global preamble when it is set (even
   * when it is the empty string), then every local fragment in push order.
   * Its ensures spell out the two shapes of the result; GetPreamble's proof
   * relies on them as hints about the sequence.
   */
  function Layers(global: Option<string>, locals: seq<string>): (r: seq<string>)
    ensures |r| == (if global.Some? then 1 else 0) + |locals|
    ensures global.Some? ==> r[0] == global.value && r[1..] == locals
    ensures global.None? ==> r == locals
  {
    (if global.Some? then [global.value] else []) + locals
  }

  /**
   * The module-level settings of `rendering.py`: `KATEX_PREAMBLE`,
   * `KATEX_BACKEND` and `LOCAL_PREAMBLES`. The host assigns `preamble` and
   * `backend` directly; `localPreambles` changes only through
   * PushPreamble and ResetPreamble.
   */
  class RenderSettings {
    var preamble: Option<string>
    var backend: string
    var localPreambles: seq<string>

    /** The values the module starts with. */
    constructor ()
      ensures preamble == None && backend == DefaultBackend && localPreambles == []
      ensures GetPreamble() == None
    {
      preamble := None;
      backend := DefaultBackend;
      localPreambles := [];
    }

    /** `push_preamble`: add a file-local fragment after those already there. */
    method PushPreamble(p: string)
      modifies this
      ensures localPreambles == old(localPreambles) + [p]
      ensures preamble == old(preamble) && backend == old(backend)
      ensures GetPreamble() == Some(match old(GetPreamble())
                                    case None => p
                                    case Some(q) => q + [Newline] + p)
    {
      ghost var before := localPreambles;
      localPreambles := localPreambles + [p];
      if |before| > 0 {
        JoinNewlineSnoc(before, p);
        if preamble.Some? {
          var g, local := preamble.value, JoinNewline(before);
          assert g + [Newline] + (local + [Newline] + p) == (g + [Newline] + local) + [Newline] + p;
        }
      } else {
        assert localPreambles == [p];
      }
    }

    /** `reset_preamble`: drop every file-local fragment; the global preamble stays. */
    method ResetPreamble()
      modifies this
      ensures localPreambles == []
      ensures preamble == old(preamble) && backend == old(backend)
      ensures GetPreamble() == preamble
    {
      localPreambles := [];
    }

    /**
     * `get_preamble`: the effective preamble. It is absent exactly when no
     * global preamble is set and there is no local fragment; otherwise it is
     * every layer joined by newlines.
     */
    function GetPreamble(): (r: Option<string>)
      reads this
      ensures r.None? <==> preamble.None? && |localPreambles| == 0
      ensures |localPreambles| == 0 ==> r == preamble
      ensures |localPreambles| > 0 && preamble.None? ==> r == Some(JoinNewline(localPreambles))
      ensures |localPreambles| > 0 && preamble.Some? ==>
                r == Some(preamble.value + [Newline] + JoinNewline(localPreambles))
      ensures r.Some? ==> r.value == JoinNewline(Layers(preamble, localPreambles))
    {
      if |localPreambles| > 0 then
        var local := JoinNewline(localPreambles);
        if preamble.None? then Some(local)
        else JoinNewlineCons(preamble.value, localPreambles); Some(preamble.value + [Newline] + local)
      else preamble
    }

    /**
     * `render_latex`: forward the request unchanged to the adapter the
     * backend setting selects and return its outcome verbatim; for any other
     * setting raise `KaTeXError` without consulting either adapter.
     */
    function RenderLatex(renderMathml: Adapter, renderKatex: Adapter,
                         latex: string, options: Option<RenderOptions> := None): (r: RenderResult)
      reads this
      ensures ParseBackend(backend) == Some(Latex2Mathml) ==> r == renderMathml(latex, options)
      ensures ParseBackend(backend) == Some(Katex) ==> r == renderKatex(latex, options)
      ensures ParseBackend(backend).None? ==> r == Raised(KaTeXError(UnknownBackendMessage(backend)))
    {
      if backend == "latex2mathml" then renderMathml(latex, options)
      else if backend == "katex" then renderKatex(latex, options)
      else Raised(KaTeXError(UnknownBackendMessage(backend)))
    }
  }

  /**
   * The effective preamble keeps every layer intact and in order: when no
   * layer contains a newline, splitting it at newlines gives back the layers.
   */
  lemma PreambleSplitsIntoLayers(s: RenderSettings)
    requires s.GetPreamble().Some?
    requires s.preamble.Some? ==> Newline !in s.preamble.value
    requires forall i :: 0 <= i < |s.localPreambles| ==> Newline !in s.localPreambles[i]
    ensures SplitNewline(s.GetPreamble().value) == Layers(s.preamble, s.localPreambles)
  {
    var layers := Layers(s.preamble, s.localPreambles);
    forall i | 0 <= i < |layers| ensures Newline !in layers[i] {
      if s.preamble.Some? && i > 0 {
        assert layers[i] == s.localPreambles[i - 1];
      }
    }
    SplitJoin(layers);
  }

  /**
   * A render call depends on nothing but the selected adapter's answer for
   * exactly this `(latex, options)`: the other adapter is never consulted,
   * and with an unrecognised backend neither is.
   */
  lemma RenderUsesOnlySelectedAdapter(s: RenderSettings, latex: string, options: Option<RenderOptions>,
                                      mathml1: Adapter, katex1: Adapter, mathml2: Adapter, katex2: Adapter)
    requires ParseBackend(s.backend) == Some(Latex2Mathml) ==> mathml1(latex, options) == mathml2(latex, options)
    requires ParseBackend(s.backend) == Some(Katex) ==> katex1(latex, options) == katex2(latex, options)
    ensures s.RenderLatex(mathml1, katex1, latex, options) == s.RenderLatex(mathml2, katex2, latex, options)
  {
  }

  /** A render call succeeds only under a recognised backend, and then only if the adapter did. */
  lemma RenderedOnlyByAdapter(s: RenderSettings, latex: string, options: Option<RenderOptions>,
                              renderMathml: Adapter, renderKatex: Adapter)
    requires s.RenderLatex(renderMathml, renderKatex, latex, options).Rendered?
    ensures s.backend == "latex2mathml" || s.backend == "katex"
    ensures s.RenderLatex(renderMathml, renderKatex, latex, options)
            == (if s.backend == "katex" then renderKatex(latex, options) else renderMathml(latex, options))
  {
  }
}
