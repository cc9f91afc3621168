# MapView diagnostics, modelled in Dafny

This project models the diagnostics helper of a Vue + ArcGIS single-page
application (`src/components/diagnostico.js`). The helper has two parts.

- `diagnosticarErrosMapView` probes the browser in three ways: it tries to get
  a WebGL context, it loads a texture image, and it fetches the API status URL.
  Each problem it finds becomes a record (a *diagnóstico*) pushed onto a local
  array. The texture probe always pushes a record, success or error.
- `aplicarCorrecoes` maps such an array to a copy. In the copy, every error
  record of a known component carries the text of the remedial action
  (`açãoTomada`).

Everything is in `diagnostico.dfy`, module `DiagnosticoMapView`.

- The record is the datatype `Diagnostico`. Its fields are `tipo`,
  `componente`, `mensagem` and the optional `solucao`, `erro` and `acaoTomada`.
  Identifiers are ASCII spellings of the source's names. The message texts are
  the source's own.
- The browser's answers are inputs, not I/O:
  - `GlOutcome` is what the WebGL acquisition gave: a context, none, or an
    exception. `ObterContexto` derives it from the two `getContext` calls.
  - `TexOutcome` is whether `onload` or `onerror` fired.
  - `SrvOutcome` is how `fetch` settled: an ok response, a non-ok response,
    or a rejection.
  - `Settle` is which of the two probes under `Promise.all` pushed first.
- The shared array is the class `ListaDiagnosticos`. The three probe methods
  push onto it. The runner `DiagnosticarErrosMapView` is proved to return the
  value of the specification function `Diagnosticos`. The lemmas about
  `Diagnosticos` state the shape of every result.
- `aplicarCorrecoes` is the function `AplicarCorrecoes`. It applies `Corrigir`
  to each record in order.

Points of the code worth knowing:
- A run yields one to three records. The code pushes nothing when a WebGL
  context is acquired (`diagnostico.js` line 9) or when the server answers
  `ok` (line 56). Only the texture probe always pushes (`Diagnosticos`,
  `TudoOk`).
- There is no success record for WebGL or for the server.
- The `switch` of `aplicarCorrecoes` passes through records of any other
  component. `Componente` therefore has an `Outro` case. Its name is a string
  other than `"WebGL"`, `"Texturas"` and `"Servidor"` (the subset type
  `NomeOutro`), so each `componente` string stands for exactly one
  `Componente` (`ComponenteDe`, `ComponenteDeNome`).

## Model

| member | source | states |
|---|---|---|
| `DiagnosticoMapView.ComponenteDe` | src/components/diagnostico.js:83-100 | Reading a `componente` string gives a component whose string is the one read. The component is `Outro` iff the string is none of the three `case` labels. |
| `DiagnosticoMapView.ComponenteDeNome` | src/components/diagnostico.js:83-100 | Reading back a component's string gives the same component, so components and strings correspond one to one. |
| `DiagnosticoMapView.ObterContexto` | src/components/diagnostico.js:7-8 | A context is acquired iff the `webgl` call returns one, or it returns null and the `experimental-webgl` call returns one. There is no context iff both return null. An exception from the first call, or from the second after a null, becomes the outcome. |
| `DiagnosticoMapView.AchadosWebGL` | src/components/diagnostico.js:6-24 | An acquired context adds nothing. Otherwise exactly one `ERRO_CRÍTICO`/`WebGL` record is added. It has a `solução` iff no context came back, and that `solução` is non-empty. It carries the exception iff one was thrown. |
| `DiagnosticoMapView.AchadoTexturas` | src/components/diagnostico.js:27-50 | Whichever handler fires, exactly one `Texturas` record, with no `erro`. It is `SUCESSO` without `solução` on load, and `ERRO` with a non-empty `solução` on error. |
| `DiagnosticoMapView.AchadosServidor` | src/components/diagnostico.js:53-73 | An ok response adds nothing. Otherwise one `ERRO`/`Servidor` record with a non-empty `solução` is added. It carries the rejection iff `fetch` rejected. |
| `DiagnosticoMapView.Diagnosticos` | src/components/diagnostico.js:2-77 | A result has 1 to 3 records. It has 3 iff both the WebGL and the server probe failed, and 1 iff both succeeded. |
| `DiagnosticoMapView.FormaDoResultado` | src/components/diagnostico.js:3-76 | At most one record per component. A WebGL record can only be at index 0. The texture and server records appear in the order the probes settled. |
| `DiagnosticoMapView.PresencaNoResultado` | src/components/diagnostico.js:3-76 | A WebGL record is present iff no context was acquired. A `Servidor` record is present iff the server probe failed. The texture record is always present. |
| `DiagnosticoMapView.ConteudoDoResultado` | src/components/diagnostico.js:10-71 | Every record is one a probe defines. Every record names a probed component. Only errors carry a `solução`. No record has `açãoTomada` yet. |
| `DiagnosticoMapView.OrdemSoPermuta` | src/components/diagnostico.js:75-76 | The two settle orders give the same multiset of records. The sequences differ iff the server probe recorded something. |
| `DiagnosticoMapView.ListaDiagnosticos.Push` | src/components/diagnostico.js:10-71 | `diagnósticos.push` appends one record and keeps the earlier ones. |
| `DiagnosticoMapView.VerificarWebGL` | src/components/diagnostico.js:6-24 | The try/catch appends exactly what `AchadosWebGL` gives for the outcome. |
| `DiagnosticoMapView.VerificarTexturas` | src/components/diagnostico.js:27-50 | The `onload`/`onerror` handler appends exactly the record `AchadoTexturas` gives. |
| `DiagnosticoMapView.VerificarServidor` | src/components/diagnostico.js:53-73 | The probe appends exactly what `AchadosServidor` gives for the outcome. |
| `DiagnosticoMapView.DiagnosticarErrosMapView` | src/components/diagnostico.js:2-77 | Starting from an empty array, the WebGL probe runs first and the two asynchronous probes run in `settle` order. The method returns `Diagnosticos` of its inputs. |
| `DiagnosticoMapView.AcaoPara` | src/components/diagnostico.js:83-106 | Each of `WebGL`, `Texturas` and `Servidor` has a non-empty action text. Any other component has none, because the `switch` has no `default`. |
| `DiagnosticoMapView.AcaoPorNome` | src/components/diagnostico.js:83-106 | Stated on the string the `switch` tests, a record's component has an action text iff its `componente` is `"WebGL"`, `"Texturas"` or `"Servidor"`. |
| `DiagnosticoMapView.AcoesDistintas` | src/components/diagnostico.js:84-105 | Two known components get the same action text iff they are the same component. |
| `DiagnosticoMapView.Corrigir` | src/components/diagnostico.js:81-109 | Every field except `açãoTomada` is copied unchanged. An `ERRO`/`ERRO_CRÍTICO` record of a known component gets that component's action. A `SUCESSO` record, or a record of an unknown component, is returned as it is. |
| `DiagnosticoMapView.AplicarCorrecoes` | src/components/diagnostico.js:80-112 | The output has the same length as the input, and element i is `Corrigir` of input element i. |
| `DiagnosticoMapView.CorrigirIdempotente` | src/components/diagnostico.js:82-108 | Correcting a record twice gives the same record as correcting it once. |
| `DiagnosticoMapView.AplicarCorrecoesIdempotente` | src/components/diagnostico.js:80-112 | Applying the pass twice gives the same result as applying it once. |
| `DiagnosticoMapView.AplicarCorrecoesConcatena` | src/components/diagnostico.js:81-81 | The pass maps a concatenation to the concatenation of the results, so it keeps order. |
| `DiagnosticoMapView.PontosFixos` | src/components/diagnostico.js:82-108 | The pass leaves a sequence unchanged iff every error of a known component in it already carries that component's action. |
| `DiagnosticoMapView.CorrecoesPreservamForma` | src/components/diagnostico.js:86-105 | Each output record differs from its input record at most in `açãoTomada`. One-per-component, WebGL-first, settle order and "`solução` only on errors" all survive the pass. |
| `DiagnosticoMapView.CorrecoesDoDiagnostico` | src/components/diagnostico.js:80-112 | On a run's result, the pass keeps the result's shape. Every success stays as it was. Every error gets its component's action. |
| `DiagnosticoMapView.TudoOk` | src/components/diagnostico.js:2-112 | When all three probes succeed, the run returns only the texture success record, and the pass returns it unchanged. |
| `DiagnosticoMapView.TexturaEServidorFalham` | src/components/diagnostico.js:38-71 | When the texture fails and `fetch` rejects, the result has `Texturas` and `Servidor` error records, each with a non-empty `solução`. The server record carries the rejection. |

## Left out

- The browser APIs are not modelled. `document.createElement('canvas')`, `getContext`, `new Image()` and `fetch` become the inputs `Tentativa`/`GlOutcome`, `TexOutcome` and `SrvOutcome`. An exception from `createElement` itself is covered by `GlThrows`.
- The `config` argument and its defaults (`'path/to/texture.png'`, `'/api/status'`) are left out. They choose which resource is probed but not how its outcome is classified.
- Real concurrency under `Promise.all` is not modelled. Only the two possible push orders are (`Settle`).
- The image loader is assumed not to throw synchronously. `new Image()` and the `src` assignment run inside the texture promise's executor (lines 28-29, 48). If either threw, that promise would reject, `Promise.all` (line 75) would reject, and so would the whole run. The model's run never rejects.
- A texture load that never fires `onload` or `onerror` is not modelled. The run would never resolve, and the model always returns.
- The 1000 ms `setTimeout` in the `Texturas` remediation is left out, as is the promise-returning form of both functions. Only the resolved values are modelled.
- The contents of a caught error are not modelled. `Excecao` is stored but never inspected.
- Records whose `tipo` is a string other than the three the runner writes are not modelled. The source passes them through unchanged. `Tipo` has only the three cases.
