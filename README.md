# pelican-katex rendering core in Dafny

This project models the render configuration store and dispatcher of the
pelican-katex plugin, `pelican_katex/rendering.py`. That module keeps the
process-wide rendering settings. It computes the effective LaTeX preamble
from a global preamble and file-local fragments. It routes every render
request to one of two backends: the `latex2mathml` library or an external
KaTeX process.

Layout:

- `wrappers.dfy`, module `Wrappers`: `Option`, which stands for Python's `None` or a present value.
- `lines.dfy`, module `Lines`: `JoinNewline` is Python's `"\n".join`. `SplitNewline` is `str.split("\n")`. Lemmas relate the two.
- `rendering.dfy`, module `Rendering`:
  - the class `RenderSettings`, with fields `preamble` (`KATEX_PREAMBLE`), `backend` (`KATEX_BACKEND`) and `localPreambles` (`LOCAL_PREAMBLES`);
  - its methods `PushPreamble` and `ResetPreamble`, which change the list in place;
  - its read-only functions `GetPreamble` and `RenderLatex`;
  - the backend parser, the unknown-backend message, and lemmas about them.
- `rendering_examples.dfy`, module `RenderingExamples`: client methods that exercise the settings through their contracts alone: two pushes giving `"a\nb"`, a second reset changing nothing, the empty global preamble, and the `"unsupported"` backend.

The two backend adapters, `render_latex_mathml` and `render_latex_katex`, are
not part of this model. `RenderLatex` takes them as parameters of type
`Adapter`, a function from `(latex, options)` to a `RenderResult`. A
`RenderResult` is either `Rendered(markup)` or `Raised(error)`. An exception
an adapter raises is its `Raised(...)` result, and the dispatcher returns it
unchanged. The dispatcher's own `KaTeXError` is `Raised(KaTeXError(message))`.

`get_preamble` tests `KATEX_PREAMBLE is None` (pelican_katex/rendering.py:46),
not emptiness. So a global preamble of `""` counts as set:

- with no local fragments, `get_preamble()` returns `""` and not `None`;
- with fragments, it returns `"\n"` followed by the joined fragments.

An empty local fragment also counts as one line. `GetPreamble` and the example
methods state exactly this behaviour.

`RenderLatex` takes the two adapters first, then `latex`, then `options`,
which defaults to `None` as at pelican_katex/rendering.py:58.

## Model

| member | source | states |
|---|---|---|
| `Rendering.RenderSettings.constructor` | pelican_katex/rendering.py:24-30 | Initial settings: no global preamble, backend `"latex2mathml"`, empty local list, so the effective preamble is absent |
| `Rendering.RenderSettings.PushPreamble` | pelican_katex/rendering.py:33-34 | The fragment is appended at the end and earlier fragments keep their order. Global preamble and backend are untouched. The new effective preamble is the old one plus a newline and the fragment, or just the fragment when there was none |
| `Rendering.RenderSettings.ResetPreamble` | pelican_katex/rendering.py:37-38 | The local list becomes empty. Global preamble and backend are untouched. The effective preamble falls back to the global one, so a second reset changes nothing |
| `Rendering.RenderSettings.GetPreamble` | pelican_katex/rendering.py:41-51 | Absent if and only if no global preamble is set and there are no fragments. With no fragments it is the global preamble unchanged. With fragments and no global it is the fragments joined by newlines. With a global, including `""`, it is the global, a newline, then the joined fragments. In every present case it equals the newline-join of `Layers` |
| `Rendering.Layers` | pelican_katex/rendering.py:42-49 | The preamble layers in order: the global preamble first when it is set, then every local fragment |
| `Rendering.PreambleSplitsIntoLayers` | pelican_katex/rendering.py:41-51 | If no layer contains a newline, splitting the effective preamble at newlines gives back exactly the global preamble and the fragments, in order |
| `Lines.JoinNewline` | pelican_katex/rendering.py:45 | `"\n".join`: the empty list joins to `""`; otherwise the result is as long as all parts plus one newline per separator and starts with the first part. `SplitJoin` and `JoinSplit` tie it to its inverse `SplitNewline` |
| `Lines.JoinNewlineSnoc` | pelican_katex/rendering.py:45 | Joining a non-empty list with one more part gives the old join, a newline, then the part |
| `Lines.JoinNewlineCons` | pelican_katex/rendering.py:45-49 | Joining a part in front of a non-empty list gives the part, a newline, then the old join. This is the `preamble += "\n" + local_preamble` step |
| `Lines.SplitJoin` | pelican_katex/rendering.py:45 | Splitting at newlines undoes the join of any non-empty list of newline-free parts |
| `Lines.JoinSplit` | pelican_katex/rendering.py:45 | Joining the newline-split pieces of any string gives back that string |
| `Rendering.ParseBackend` | pelican_katex/rendering.py:69-73 | Selects MathML if and only if the setting is `"latex2mathml"`, KaTeX if and only if it is `"katex"`, and nothing if and only if it is any other string |
| `Rendering.UnknownBackendMessage` | pelican_katex/rendering.py:74 | The message is `Unknown backend '`, then the offending value, then `'!`. The value sits at a fixed offset |
| `Rendering.ReportedBackendRoundTrip` | pelican_katex/rendering.py:74 | The offending value can be read back exactly from the message |
| `Rendering.UnknownBackendMessageInjective` | pelican_katex/rendering.py:74 | Two unknown backends yield the same message only if they are the same value |
| `Rendering.RenderSettings.RenderLatex` | pelican_katex/rendering.py:58-74 | Under `"latex2mathml"` the result is exactly the MathML adapter's result for the same `(latex, options)`. Under `"katex"` it is exactly the KaTeX adapter's result. Under any other value it raises `KaTeXError` with the unknown-backend message naming that value |
| `Rendering.RenderUsesOnlySelectedAdapter` | pelican_katex/rendering.py:69-74 | The result depends only on the selected adapter's answer for this exact `(latex, options)`. Swapping the other adapter changes nothing, and under an unknown backend swapping either changes nothing |
| `Rendering.RenderedOnlyByAdapter` | pelican_katex/rendering.py:69-74 | A successful render happens only under one of the two recognised backends, and the markup is then that backend's adapter result |

## Left out

- `render_latex_katex` (pelican_katex/rendering.py:1): it drives an external node/KaTeX process with timeouts. It is not part of this model and is a parameter of `RenderLatex`.
- `render_latex_mathml` (pelican_katex/rendering.py:2): it wraps the `latex2mathml` library. It is not part of this model and is a parameter of `RenderLatex`.
- `KATEX_DEFAULT_OPTIONS`, `KATEX_PATH`, `KATEX_NODEJS_BINARY` (pelican_katex/rendering.py:6-21): only the adapters read these constants. This module has no logic about them.
- `KATEX_STARTUP_TIMEOUT`, `KATEX_RENDER_TIMEOUT` (pelican_katex/rendering.py:15-18): floating-point durations that only the subprocess adapter uses.
- Exceptions raised by an adapter: they are modelled as the adapter's `Raised(...)` result, which the dispatcher passes through. Python's stack unwinding is not modelled.
- Per-call options: modelled as an optional map from names to booleans, integers or strings. Python allows any value, but the dispatcher never looks inside the options.
- Global preamble types: the host may assign a non-string value to `KATEX_PREAMBLE`. The model allows only an absent preamble or a string.
- Concurrent access to the module-level settings: the host is expected not to change them while rendering, so this is not modelled.
- Non-string local fragments: `push_preamble` (pelican_katex/rendering.py:33-34) accepts any object, and `get_preamble` then raises `TypeError` from `"\n".join` at line 45. `localPreambles` holds only strings, so that error path is not modelled.
- Non-string backend: `KATEX_BACKEND` may be any object, and line 74 formats it with `str()` (so `None` gives `Unknown backend 'None'!`). `backend` is a string here, so only string values are modelled.
