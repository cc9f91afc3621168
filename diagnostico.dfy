/** Model of the MapView diagnostics helper (src/components/diagnostico.js).

    `diagnosticarErrosMapView` probes three parts of the browser environment
    (a WebGL context, the loading of a texture image, the reachability of the
    API server) and pushes one record per problem it finds, plus one record
    for the texture probe whatever its outcome, onto a shared array.
    `aplicarCorrecoes` maps that array to a copy in which every error record of
    a known component carries the text of the remedial action "taken".

    The browser calls are not modelled as I/O: what each probe observed is an
    input of the model (GlOutcome, TexOutcome, SrvOutcome), and the order in
    which the two asynchronous probes settle is the input Settle. */
module DiagnosticoMapView {

  datatype Option<+T> = None | Some(value: T)

  // ---------------------------------------------------------------------
  // Data model: one record of the `diagnósticos` array
  // ---------------------------------------------------------------------

  /** The `tipo` field: 'ERRO_CRÍTICO', 'ERRO' or 'SUCESSO'. */
  datatype Tipo = ErroCritico | Erro | Sucesso

  /** A `componente` string other than the three the `switch` of
      `aplicarCorrecoes` names. */
  type NomeOutro = s: string | s != "WebGL" && s != "Texturas" && s != "Servidor" witness ""

  /** The `componente` field. The runner only produces the first three; the
      remediation pass accepts records of any other component too, and
      `Outro` stands for exactly those other names. */
  datatype Componente = WebGL | Texturas | Servidor | Outro(nome: NomeOutro)

  /** The string a record carries in `componente`. */
  function NomeDe(c: Componente): string {
    match c
    case WebGL => "WebGL"
    case Texturas => "Texturas"
    case Servidor => "Servidor"
    case Outro(nome) => nome
  }

  /** Reads a `componente` string: each string names exactly one component,
      and a string is a known component iff it is one of the three names. */
  function ComponenteDe(nome: string): (c: Componente)
    ensures NomeDe(c) == nome
    ensures c.Outro? <==> nome != "WebGL" && nome != "Texturas" && nome != "Servidor"
  {
    if nome == "WebGL" then WebGL
    else if nome == "Texturas" then Texturas
    else if nome == "Servidor" then Servidor
    else Outro(nome)
  }

  /** Reading back the string of a component gives that component, so
      `Componente` and the strings are in one-to-one correspondence. */
  lemma ComponenteDeNome(c: Componente)
    ensures ComponenteDe(NomeDe(c)) == c
  {
  }

  /** A value thrown by `getContext` or a rejection of `fetch`. The model
      stores it in the `erro` field and never looks inside it. */
  datatype Excecao = Excecao(detalhe: string)

  /** One diagnostic record; the optional fields `solução`, `erro` and
      `açãoTomada` are absent (None) unless the record sets them. */
  datatype Diagnostico = Diagnostico(
    tipo: Tipo,
    componente: Componente,
    mensagem: string,
    solucao: Option<string>,
    erro: Option<Excecao>,
    acaoTomada: Option<string>)

  /** The test `d.tipo === 'ERRO' || d.tipo === 'ERRO_CRÍTICO'`. */
  predicate EhErro(d: Diagnostico) {
    d.tipo == Erro || d.tipo == ErroCritico
  }

  // ---------------------------------------------------------------------
  // What the environment can answer
  // ---------------------------------------------------------------------

  /** One call `canvas.getContext(kind)`: it returns a context or null, or throws. */
  datatype Tentativa = Devolve(contexto: bool) | Lanca(e: Excecao)

  /** What the whole WebGL acquisition (lines 7-8) amounts to. */
  datatype GlOutcome = Context | NoContext | GlThrows(e: Excecao)

  /** Which of `imagem.onload` / `imagem.onerror` fires. */
  datatype TexOutcome = Loaded | LoadError

  /** How `fetch` settles: a response with `ok`, one without, or a rejection. */
  datatype SrvOutcome = Ok | NotOk | FetchRejects(e: Excecao)

  /** Which of the two probes run under `Promise.all` pushes first. */
  datatype Settle = TexturesFirst | ServerFirst

  /** `canvas.getContext('webgl') || canvas.getContext('experimental-webgl')`:
      the second kind is asked for only when the first returned null, and an
      exception from either call ends the acquisition. */
  function ObterContexto(webgl: Tentativa, experimental: Tentativa): (r: GlOutcome)
    ensures r == Context <==>
      webgl == Devolve(true) || (webgl == Devolve(false) && experimental == Devolve(true))
    ensures r == NoContext <==> webgl == Devolve(false) && experimental == Devolve(false)
    ensures webgl.Lanca? ==> r == GlThrows(webgl.e)
    ensures webgl == Devolve(false) && experimental.Lanca? ==> r == GlThrows(experimental.e)
  {
    match webgl
    case Lanca(e) => GlThrows(e)
    case Devolve(true) => Context
    case Devolve(false) =>
      match experimental
      case Lanca(e) => GlThrows(e)
      case Devolve(true) => Context
      case Devolve(false) => NoContext
  }

  // ---------------------------------------------------------------------
  // The records each branch of the runner pushes
  // ---------------------------------------------------------------------

  const WebGLIndisponivel: Diagnostico := Diagnostico(
    ErroCritico, WebGL, "WebGL não está disponível no navegador",
    Some("Verifique se o navegador tem suporte a WebGL e se está habilitado"), None, None)

  function WebGLFalhou(e: Excecao): Diagnostico {
    Diagnostico(ErroCritico, WebGL, "Erro ao inicializar WebGL", None, Some(e), None)
  }

  const TexturasOk: Diagnostico := Diagnostico(
    Sucesso, Texturas, "Carregamento de texturas OK", None, None, None)

  const TexturasFalharam: Diagnostico := Diagnostico(
    Erro, Texturas, "Falha no carregamento de texturas",
    Some("Verifique os caminhos das texturas e permissões de CORS"), None, None)

  const ServidorRespondeuErro: Diagnostico := Diagnostico(
    Erro, Servidor, "Erro na comunicação com o servidor",
    Some("Verifique a conectividade e configurações da API"), None, None)

  function ServidorInacessivel(e: Excecao): Diagnostico {
    Diagnostico(Erro, Servidor, "Falha na conexão com o servidor",
      Some("Verifique se o servidor está online e acessível"), Some(e), None)
  }

  // ---------------------------------------------------------------------
  // Specification of the runner, probe by probe
  // ---------------------------------------------------------------------

  /** What the WebGL probe (lines 6-24) adds: nothing when a context is
      acquired, otherwise one critical WebGL record that carries a `solução`
      when no context came back and the exception when one was thrown. */
  function AchadosWebGL(gl: GlOutcome): (r: seq<Diagnostico>)
    ensures |r| == if gl == Context then 0 else 1
    ensures forall i :: 0 <= i < |r| ==>
      r[i].tipo == ErroCritico && r[i].componente == WebGL && r[i].acaoTomada == None
    ensures forall i :: 0 <= i < |r| ==> (r[i].solucao.Some? <==> gl == NoContext)
    ensures forall i :: 0 <= i < |r| && r[i].solucao.Some? ==> |r[i].solucao.value| > 0
    ensures forall i :: 0 <= i < |r| ==> r[i].erro == if gl.GlThrows? then Some(gl.e) else None
  {
    match gl
    case Context => []
    case NoContext => [WebGLIndisponivel]
    case GlThrows(e) => [WebGLFalhou(e)]
  }

  /** What the texture probe (lines 27-50) adds: always exactly one Texturas
      record, a success without `solução` on load and an error with one on
      failure. The probe resolves whichever handler fires; that building the
      image and setting its `src` do not throw is an assumption of the model. */
  function AchadoTexturas(tex: TexOutcome): (r: Diagnostico)
    ensures r.componente == Texturas && r.erro == None && r.acaoTomada == None
    ensures r.tipo == Sucesso <==> tex == Loaded
    ensures r.tipo == Erro <==> tex == LoadError
    ensures r.solucao.Some? <==> tex == LoadError
    ensures r.solucao.Some? ==> |r.solucao.value| > 0
  {
    match tex
    case Loaded => TexturasOk
    case LoadError => TexturasFalharam
  }

  /** What the server probe (lines 53-73) adds: nothing for an `ok` response,
      otherwise one Servidor error with a `solução`, carrying the rejection
      only when `fetch` itself failed. */
  function AchadosServidor(srv: SrvOutcome): (r: seq<Diagnostico>)
    ensures |r| == if srv == Ok then 0 else 1
    ensures forall i :: 0 <= i < |r| ==>
      r[i].tipo == Erro && r[i].componente == Servidor && r[i].acaoTomada == None
    ensures forall i :: 0 <= i < |r| ==> r[i].solucao.Some? && |r[i].solucao.value| > 0
    ensures forall i :: 0 <= i < |r| ==> r[i].erro == if srv.FetchRejects? then Some(srv.e) else None
  {
    match srv
    case Ok => []
    case NotOk => [ServidorRespondeuErro]
    case FetchRejects(e) => [ServidorInacessivel(e)]
  }

  /** No two records name the same component. */
  predicate UmPorComponente(r: seq<Diagnostico>) {
    forall i, j :: 0 <= i < j < |r| ==> r[i].componente != r[j].componente
  }

  /** A WebGL record, if any, comes first. */
  predicate WebGLAFrente(r: seq<Diagnostico>) {
    forall i :: 0 <= i < |r| && r[i].componente == WebGL ==> i == 0
  }

  /** Some record names component `c`. */
  predicate Presente(r: seq<Diagnostico>, c: Componente) {
    exists i :: 0 <= i < |r| && r[i].componente == c
  }

  /** Only error records carry a `solução`. */
  predicate SolucaoSoEmErros(r: seq<Diagnostico>) {
    forall i :: 0 <= i < |r| && r[i].solucao.Some? ==> EhErro(r[i])
  }

  /** Every record names one of the three probed components. */
  predicate ComponentesConhecidos(r: seq<Diagnostico>) {
    forall i :: 0 <= i < |r| ==> !r[i].componente.Outro?
  }

  /** No record carries `açãoTomada` yet. */
  predicate SemAcaoTomada(r: seq<Diagnostico>) {
    forall i :: 0 <= i < |r| ==> r[i].acaoTomada == None
  }

  /** Texture and server records, when both are present, stand in the order
      in which their probes settled. */
  predicate NaOrdem(r: seq<Diagnostico>, settle: Settle) {
    forall i, j :: 0 <= i < |r| && 0 <= j < |r| && r[i].componente == Texturas && r[j].componente == Servidor ==>
      (i < j <==> settle == TexturesFirst)
  }

  /** The array `diagnosticarErrosMapView` resolves to: the WebGL probe's
      record first (that probe runs synchronously), then the texture and
      server records in the order the two probes settle. One record for the
      texture probe, one more for each of the other probes that failed. */
  function Diagnosticos(gl: GlOutcome, tex: TexOutcome, srv: SrvOutcome, settle: Settle): (r: seq<Diagnostico>)
    ensures 1 <= |r| <= 3
    ensures |r| == 3 <==> gl != Context && srv != Ok
    ensures |r| == 1 <==> gl == Context && srv == Ok
  {
    AchadosWebGL(gl) +
      match settle
      case TexturesFirst => [AchadoTexturas(tex)] + AchadosServidor(srv)
      case ServerFirst => AchadosServidor(srv) + [AchadoTexturas(tex)]
  }

  /** The order of every runner result: at most one record per component,
      a WebGL record only at the front, and the texture and server records
      in settle order. */
  lemma FormaDoResultado(gl: GlOutcome, tex: TexOutcome, srv: SrvOutcome, settle: Settle)
    ensures var r := Diagnosticos(gl, tex, srv, settle);
      UmPorComponente(r) && WebGLAFrente(r) && NaOrdem(r, settle)
  {
    var w, t, s := AchadosWebGL(gl), AchadoTexturas(tex), AchadosServidor(srv);
    var r := Diagnosticos(gl, tex, srv, settle);
    if gl == Context && srv == Ok {
      assert |r| == 1 && r[0] == t;
    } else if gl == Context && settle == TexturesFirst {
      assert |r| == 2 && r[0] == t && r[1] == s[0];
    } else if gl == Context {
      assert |r| == 2 && r[0] == s[0] && r[1] == t;
    } else if srv == Ok {
      assert |r| == 2 && r[0] == w[0] && r[1] == t;
    } else if settle == TexturesFirst {
      assert |r| == 3 && r[0] == w[0] && r[1] == t && r[2] == s[0];
    } else {
      assert |r| == 3 && r[0] == w[0] && r[1] == s[0] && r[2] == t;
    }
  }

  /** A component is present in a concatenation iff it is present in one
      of the parts. */
  lemma PresenteConcatena(a: seq<Diagnostico>, b: seq<Diagnostico>, c: Componente)
    ensures Presente(a + b, c) <==> Presente(a, c) || Presente(b, c)
  {
    if Presente(a + b, c) {
      var i :| 0 <= i < |a + b| && (a + b)[i].componente == c;
      if i >= |a| { assert b[i - |a|] == (a + b)[i]; }
    }
    if Presente(a, c) {
      var i :| 0 <= i < |a| && a[i].componente == c;
      assert (a + b)[i] == a[i];
    }
    if Presente(b, c) {
      var i :| 0 <= i < |b| && b[i].componente == c;
      assert (a + b)[|a| + i] == b[i];
    }
  }

  /** Which records every runner result holds: a WebGL record exactly when
      no context was acquired, a Servidor record exactly when the server
      probe failed, and always the texture record. */
  lemma PresencaNoResultado(gl: GlOutcome, tex: TexOutcome, srv: SrvOutcome, settle: Settle)
    ensures var r := Diagnosticos(gl, tex, srv, settle);
      && (Presente(r, WebGL) <==> gl != Context)
      && (Presente(r, Servidor) <==> srv != Ok)
      && AchadoTexturas(tex) in r
  {
    var w, t, s := AchadosWebGL(gl), AchadoTexturas(tex), AchadosServidor(srv);
    var resto := if settle == TexturesFirst then [t] + s else s + [t];
    assert Diagnosticos(gl, tex, srv, settle) == w + resto;
    assert t in resto;
    PresenteConcatena(w, resto, WebGL);
    PresenteConcatena(w, resto, Servidor);
    if settle == TexturesFirst {
      PresenteConcatena([t], s, WebGL);
      PresenteConcatena([t], s, Servidor);
    } else {
      PresenteConcatena(s, [t], WebGL);
      PresenteConcatena(s, [t], Servidor);
    }
    assert gl != Context ==> w[0].componente == WebGL;
    assert srv != Ok ==> s[0].componente == Servidor;
  }

  /** The content of every runner result: each record is one that a probe
      defines, so it names a probed component, carries a `solução` only if
      it is an error, and has no `açãoTomada` yet. */
  lemma ConteudoDoResultado(gl: GlOutcome, tex: TexOutcome, srv: SrvOutcome, settle: Settle)
    ensures var r := Diagnosticos(gl, tex, srv, settle);
      && (forall i :: 0 <= i < |r| ==>
            r[i] in AchadosWebGL(gl) || r[i] == AchadoTexturas(tex) || r[i] in AchadosServidor(srv))
      && SolucaoSoEmErros(r) && SemAcaoTomada(r) && ComponentesConhecidos(r)
  {
  }

  /** The two settle orders give the same records, and differ only when the
      server probe recorded something. */
  lemma OrdemSoPermuta(gl: GlOutcome, tex: TexOutcome, srv: SrvOutcome)
    ensures multiset(Diagnosticos(gl, tex, srv, TexturesFirst)) == multiset(Diagnosticos(gl, tex, srv, ServerFirst))
    ensures Diagnosticos(gl, tex, srv, TexturesFirst) == Diagnosticos(gl, tex, srv, ServerFirst) <==> srv == Ok
  {
    var w, t, s := AchadosWebGL(gl), AchadoTexturas(tex), AchadosServidor(srv);
    var a := Diagnosticos(gl, tex, srv, TexturesFirst);
    var b := Diagnosticos(gl, tex, srv, ServerFirst);
    assert a == w + ([t] + s) && b == w + (s + [t]);
    assert multiset([t] + s) == multiset(s + [t]);
    if srv != Ok {
      assert a[|w|] == t;
      assert b[|w|] == s[0];
      assert s[0].componente != t.componente;
    }
  }

  // ---------------------------------------------------------------------
  // The runner, imperatively: probes push onto one shared array
  // ---------------------------------------------------------------------

  /** The local array `diagnósticos` that every probe pushes onto. */
  class ListaDiagnosticos {
    var itens: seq<Diagnostico>

    constructor ()
      ensures itens == []
    {
      itens := [];
    }

    method Push(d: Diagnostico)
      modifies this
      ensures itens == old(itens) + [d]
    {
      itens := itens + [d];
    }
  }

  /** The try/catch around the WebGL acquisition (lines 6-24). */
  method VerificarWebGL(diagnosticos: ListaDiagnosticos, gl: GlOutcome)
    modifies diagnosticos
    ensures diagnosticos.itens == old(diagnosticos.itens) + AchadosWebGL(gl)
  {
    match gl
    case Context => {}
    case NoContext => diagnosticos.Push(WebGLIndisponivel);
    case GlThrows(e) => diagnosticos.Push(WebGLFalhou(e));
  }

  /** `verificarTexturas`: the `onload` or `onerror` handler pushes its record. */
  method VerificarTexturas(diagnosticos: ListaDiagnosticos, tex: TexOutcome)
    modifies diagnosticos
    ensures diagnosticos.itens == old(diagnosticos.itens) + [AchadoTexturas(tex)]
  {
    match tex
    case Loaded => diagnosticos.Push(TexturasOk);
    case LoadError => diagnosticos.Push(TexturasFalharam);
  }

  /** `verificarServidor`: pushes on a non-ok response or a rejected `fetch`. */
  method VerificarServidor(diagnosticos: ListaDiagnosticos, srv: SrvOutcome)
    modifies diagnosticos
    ensures diagnosticos.itens == old(diagnosticos.itens) + AchadosServidor(srv)
  {
    match srv
    case Ok => {}
    case NotOk => diagnosticos.Push(ServidorRespondeuErro);
    case FetchRejects(e) => diagnosticos.Push(ServidorInacessivel(e));
  }

  /** `diagnosticarErrosMapView`: the WebGL probe, then both asynchronous
      probes, whose pushes land in the order `settle` names. */
  method DiagnosticarErrosMapView(gl: GlOutcome, tex: TexOutcome, srv: SrvOutcome, settle: Settle)
    returns (r: seq<Diagnostico>)
    ensures r == Diagnosticos(gl, tex, srv, settle)
  {
    var diagnosticos := new ListaDiagnosticos();
    VerificarWebGL(diagnosticos, gl);
    match settle {
      case TexturesFirst =>
        VerificarTexturas(diagnosticos, tex);
        VerificarServidor(diagnosticos, srv);
      case ServerFirst =>
        VerificarServidor(diagnosticos, srv);
        VerificarTexturas(diagnosticos, tex);
    }
    r := diagnosticos.itens;
  }

  // ---------------------------------------------------------------------
  // The remediation pass
  // ---------------------------------------------------------------------

  const AcaoWebGL := "Tentativa de fallback para renderização 2D"
  const AcaoTexturas := "Tentativa de recarregamento com delay"
  const AcaoServidor := "Implementado retry com backoff exponencial"

  /** The action text each case of the `switch` records; none for an
      unknown component, which has no case. */
  function AcaoPara(c: Componente): (r: Option<string>)
    ensures r.Some? <==> !c.Outro?
    ensures r.Some? ==> |r.value| > 0
  {
    match c
    case WebGL => Some(AcaoWebGL)
    case Texturas => Some(AcaoTexturas)
    case Servidor => Some(AcaoServidor)
    case Outro(_) => None
  }

  /** In terms of the string the source switches on: a record's component
      has an action text iff its `componente` is one of the three names. */
  lemma AcaoPorNome(nome: string)
    ensures AcaoPara(ComponenteDe(nome)).Some? <==> nome == "WebGL" || nome == "Texturas" || nome == "Servidor"
  {
  }

  /** Each known component gets its own action text. */
  lemma AcoesDistintas(a: Componente, b: Componente)
    requires !a.Outro? && !b.Outro?
    ensures AcaoPara(a) == AcaoPara(b) <==> a == b
  {
  }

  /** The callback of the `map` in `aplicarCorrecoes` (lines 81-109): an error
      record of a known component becomes a copy with that component's
      `açãoTomada`; any other record is returned as it is. */
  function Corrigir(d: Diagnostico): (r: Diagnostico)
    ensures r.(acaoTomada := d.acaoTomada) == d
    ensures EhErro(d) && !d.componente.Outro? ==> r.acaoTomada == AcaoPara(d.componente)
    ensures !EhErro(d) || d.componente.Outro? ==> r == d
  {
    if d.tipo == Erro || d.tipo == ErroCritico then
      match d.componente
      case WebGL => d.(acaoTomada := Some(AcaoWebGL))
      case Texturas => d.(acaoTomada := Some(AcaoTexturas))
      case Servidor => d.(acaoTomada := Some(AcaoServidor))
      case Outro(_) => d
    else
      d
  }

  /** `aplicarCorrecoes`: the callback applied to every record, in order. */
  function AplicarCorrecoes(ds: seq<Diagnostico>): (r: seq<Diagnostico>)
    ensures |r| == |ds|
    ensures forall i :: 0 <= i < |ds| ==> r[i] == Corrigir(ds[i])
  {
    if ds == [] then [] else [Corrigir(ds[0])] + AplicarCorrecoes(ds[1..])
  }

  /** Correcting an already corrected record changes nothing. */
  lemma CorrigirIdempotente(d: Diagnostico)
    ensures Corrigir(Corrigir(d)) == Corrigir(d)
  {
  }

  /** Running the pass a second time changes nothing. */
  lemma AplicarCorrecoesIdempotente(ds: seq<Diagnostico>)
    ensures AplicarCorrecoes(AplicarCorrecoes(ds)) == AplicarCorrecoes(ds)
  {
  }

  /** The pass works element by element: it maps a concatenation to the
      concatenation of the results. */
  lemma {:induction false} AplicarCorrecoesConcatena(a: seq<Diagnostico>, b: seq<Diagnostico>)
    ensures AplicarCorrecoes(a + b) == AplicarCorrecoes(a) + AplicarCorrecoes(b)
  {
    var l, r := AplicarCorrecoes(a + b), AplicarCorrecoes(a) + AplicarCorrecoes(b);
    forall i | 0 <= i < |a + b| ensures l[i] == r[i] {
      if i < |a| {
        assert (a + b)[i] == a[i];
      } else {
        assert (a + b)[i] == b[i - |a|];
      }
    }
  }

  /** The records the pass leaves as they are: exactly those in which every
      remediable error already carries its component's action. */
  lemma PontosFixos(ds: seq<Diagnostico>)
    ensures AplicarCorrecoes(ds) == ds <==>
      forall i :: 0 <= i < |ds| && EhErro(ds[i]) && !ds[i].componente.Outro? ==>
        ds[i].acaoTomada == AcaoPara(ds[i].componente)
  {
  }

  /** Only `açãoTomada` changes, so every shape property of a sequence of
      records that does not look at that field survives the pass. */
  lemma CorrecoesPreservamForma(ds: seq<Diagnostico>, settle: Settle)
    ensures var r := AplicarCorrecoes(ds);
      && (forall i :: 0 <= i < |r| ==> r[i].(acaoTomada := ds[i].acaoTomada) == ds[i])
      && (UmPorComponente(ds) ==> UmPorComponente(r))
      && (WebGLAFrente(ds) ==> WebGLAFrente(r))
      && (NaOrdem(ds, settle) ==> NaOrdem(r, settle))
      && (SolucaoSoEmErros(ds) ==> SolucaoSoEmErros(r))
  {
  }

  /** On a runner result the pass gives every error its component's action
      and leaves every success as it was. */
  lemma CorrecoesDoDiagnostico(gl: GlOutcome, tex: TexOutcome, srv: SrvOutcome, settle: Settle)
    ensures var ds := Diagnosticos(gl, tex, srv, settle);
      var r := AplicarCorrecoes(ds);
      && UmPorComponente(r) && WebGLAFrente(r) && NaOrdem(r, settle) && SolucaoSoEmErros(r)
      && (forall i :: 0 <= i < |r| && !EhErro(ds[i]) ==> r[i] == ds[i])
      && (forall i :: 0 <= i < |r| && EhErro(ds[i]) ==>
            r[i].acaoTomada.Some? && r[i].acaoTomada == AcaoPara(ds[i].componente))
  {
    var ds := Diagnosticos(gl, tex, srv, settle);
    var r := AplicarCorrecoes(ds);
    FormaDoResultado(gl, tex, srv, settle);
    ConteudoDoResultado(gl, tex, srv, settle);
    CorrecoesPreservamForma(ds, settle);
    forall i | 0 <= i < |ds| && EhErro(ds[i])
      ensures r[i].acaoTomada.Some? && r[i].acaoTomada == AcaoPara(ds[i].componente)
    {
      assert !ds[i].componente.Outro?;
    }
  }

  /** All three probes succeed: the runner returns only the texture success,
      and the remediation pass returns it unchanged. */
  lemma TudoOk(settle: Settle)
    ensures Diagnosticos(Context, Loaded, Ok, settle) == [TexturasOk]
    ensures AplicarCorrecoes(Diagnosticos(Context, Loaded, Ok, settle)) == [TexturasOk]
  {
  }

  /** The texture fails to load and `fetch` rejects: an error record for
      each, the server one carrying the rejection. */
  lemma TexturaEServidorFalham(gl: GlOutcome, e: Excecao, settle: Settle)
    ensures var r := Diagnosticos(gl, LoadError, FetchRejects(e), settle);
      |r| == 2 + |AchadosWebGL(gl)|
      && (exists i :: 0 <= i < |r| && r[i].componente == Texturas && r[i].tipo == Erro
            && r[i].solucao.Some? && |r[i].solucao.value| > 0)
      && (exists i :: 0 <= i < |r| && r[i].componente == Servidor && r[i].tipo == Erro
            && r[i].erro == Some(e) && r[i].solucao.Some? && |r[i].solucao.value| > 0)
  {
    var r := Diagnosticos(gl, LoadError, FetchRejects(e), settle);
    var k := |AchadosWebGL(gl)|;
    if settle == TexturesFirst {
      assert r[k] == TexturasFalharam && r[k + 1] == ServidorInacessivel(e);
    } else {
      assert r[k] == ServidorInacessivel(e) && r[k + 1] == TexturasFalharam;
    }
  }
}
