/**
 The catalog's data model (`types.ts`): the closed string unions become
 enumerations, each with the exact label the TypeScript union spells and a
 parser back from labels, and `Conteudo` becomes an immutable record.
 */
module Types {
  import opened Wrappers

  /** Schooling stage: Ensino Fundamental II or Ensino Médio. */
  datatype Etapa = EF2 | EM

  /** School year; the first four belong to EF2 and the last three to EM. */
  datatype Serie = Ano6 | Ano7 | Ano8 | Ano9 | Ano1 | Ano2 | Ano3

  datatype Disciplina =
    | TecnologiaRobotica | Matematica | Ciencias | Fisica | Quimica | Biologia
    | Geografia | Historia | LinguaPortuguesa | Ingles | Artes | ProjetoDeVida

  datatype Categoria =
    | EletronicaBasica | Sensores | ProgramacaoPorBlocos | AlgoritmosLogica
    | IaEtica | CidadaniaDigital | SegurancaDeDados | CategoriaInterdisciplinar
    | CategoriaAvaliacao | CategoriaGuiaDoProfessor | Simuladores

  datatype TipoConteudo = Teorica | Pratica | TipoInterdisciplinar | TipoAvaliacao | TipoGuiaDoProfessor

  datatype Formato = Texto | Pdf | Planilha | Slide | Video | Simulador | LinkExterno

  datatype TempoEstimado = UmaAula | DuasAulas | MaisDeDuasAulas

  datatype Visibilidade = Publico | Privado

  /** Annotations produced by the (mocked) AI indexing. */
  datatype IaIndexacao = IaIndexacao(topicos: seq<string>, bnccSugeridas: seq<string>, termosChave: seq<string>)

  /**
   A lesson or project. Exactly one stage but lists of grades, subjects,
   categories, formats and BNCC skill codes; skill codes and keywords are
   free strings. Timestamps are opaque ISO strings.
   */
  datatype Conteudo = Conteudo(
    id: string,
    titulo: string,
    etapa: Etapa,
    series: seq<Serie>,
    disciplinas: seq<Disciplina>,
    categorias: seq<Categoria>,
    tipo: TipoConteudo,
    formato: seq<Formato>,
    tempoEstimado: TempoEstimado,
    habilidadesBNCC: seq<string>,
    descricaoCurta: string,
    palavrasChave: seq<string>,
    arquivosIds: seq<string>,
    iaIndexacao: IaIndexacao,
    visibilidade: Visibilidade,
    autor: string,
    criadoEm: string,
    atualizadoEm: string
  )

  datatype Area = AreaMatematica | Linguagens | CienciasDaNatureza | CienciasHumanas

  /** An entry of the BNCC (national curriculum) skill table. */
  datatype BnccHabilidade = BnccHabilidade(codigo: string, etapa: Etapa, area: Area, descricao: string)

  // Labels: the string literal each enumerant is in the TypeScript source.

  function EtapaLabel(e: Etapa): string {
    match e
    case EF2 => "EF2"
    case EM => "EM"
  }

  function SerieLabel(s: Serie): string {
    match s
    case Ano6 => "6º"
    case Ano7 => "7º"
    case Ano8 => "8º"
    case Ano9 => "9º"
    case Ano1 => "1º"
    case Ano2 => "2º"
    case Ano3 => "3º"
  }

  function DisciplinaLabel(d: Disciplina): string {
    match d
    case TecnologiaRobotica => "Tecnologia/Robótica"
    case Matematica => "Matemática"
    case Ciencias => "Ciências"
    case Fisica => "Física"
    case Quimica => "Química"
    case Biologia => "Biologia"
    case Geografia => "Geografia"
    case Historia => "História"
    case LinguaPortuguesa => "Língua Portuguesa"
    case Ingles => "Inglês"
    case Artes => "Artes"
    case ProjetoDeVida => "Projeto de Vida"
  }

  function CategoriaLabel(c: Categoria): string {
    match c
    case EletronicaBasica => "Eletrônica Básica"
    case Sensores => "Sensores"
    case ProgramacaoPorBlocos => "Programação por Blocos"
    case AlgoritmosLogica => "Algoritmos & Lógica"
    case IaEtica => "IA & Ética"
    case CidadaniaDigital => "Cidadania Digital"
    case SegurancaDeDados => "Segurança de Dados"
    case CategoriaInterdisciplinar => "Interdisciplinar"
    case CategoriaAvaliacao => "Avaliação"
    case CategoriaGuiaDoProfessor => "Guia do Professor"
    case Simuladores => "Simuladores"
  }

  function TipoConteudoLabel(t: TipoConteudo): string {
    match t
    case Teorica => "Teórica"
    case Pratica => "Prática"
    case TipoInterdisciplinar => "Interdisciplinar"
    case TipoAvaliacao => "Avaliação"
    case TipoGuiaDoProfessor => "Guia do Professor"
  }

  function FormatoLabel(f: Formato): string {
    match f
    case Texto => "Texto"
    case Pdf => "PDF"
    case Planilha => "Planilha"
    case Slide => "Slide"
    case Video => "Vídeo"
    case Simulador => "Simulador"
    case LinkExterno => "Link Externo"
  }

  function TempoEstimadoLabel(t: TempoEstimado): string {
    match t
    case UmaAula => "1 aula (40-50 min)"
    case DuasAulas => "2 aulas (80-100 min)"
    case MaisDeDuasAulas => ">2 aulas"
  }

  /** The labels of a list of enumerants, in order. */
  function Labels<T>(xs: seq<T>, labelOf: T -> string): (r: seq<string>)
    ensures |r| == |xs| && forall i :: 0 <= i < |xs| ==> r[i] == labelOf(xs[i])
  {
    seq(|xs|, i requires 0 <= i < |xs| => labelOf(xs[i]))
  }

  function VisibilidadeLabel(v: Visibilidade): string {
    match v
    case Publico => "publico"
    case Privado => "privado"
  }

  function AreaLabel(a: Area): string {
    match a
    case AreaMatematica => "Matemática"
    case Linguagens => "Linguagens"
    case CienciasDaNatureza => "Ciências da Natureza"
    case CienciasHumanas => "Ciências Humanas"
  }

  // Parsers: the inverse of the labels, rejecting every other string.

  function ParseEtapa(s: string): (r: Option<Etapa>)
    ensures r.Some? ==> EtapaLabel(r.value) == s
  {
    if s == "EF2" then Some(EF2)
    else if s == "EM" then Some(EM)
    else None
  }

  function ParseSerie(s: string): (r: Option<Serie>)
    ensures r.Some? ==> SerieLabel(r.value) == s
  {
    if s == "6º" then Some(Ano6)
    else if s == "7º" then Some(Ano7)
    else if s == "8º" then Some(Ano8)
    else if s == "9º" then Some(Ano9)
    else if s == "1º" then Some(Ano1)
    else if s == "2º" then Some(Ano2)
    else if s == "3º" then Some(Ano3)
    else None
  }

  function ParseDisciplina(s: string): (r: Option<Disciplina>)
    ensures r.Some? ==> DisciplinaLabel(r.value) == s
  {
    if s == "Tecnologia/Robótica" then Some(TecnologiaRobotica)
    else if s == "Matemática" then Some(Matematica)
    else if s == "Ciências" then Some(Ciencias)
    else if s == "Física" then Some(Fisica)
    else if s == "Química" then Some(Quimica)
    else if s == "Biologia" then Some(Biologia)
    else if s == "Geografia" then Some(Geografia)
    else if s == "História" then Some(Historia)
    else if s == "Língua Portuguesa" then Some(LinguaPortuguesa)
    else if s == "Inglês" then Some(Ingles)
    else if s == "Artes" then Some(Artes)
    else if s == "Projeto de Vida" then Some(ProjetoDeVida)
    else None
  }

  function ParseCategoria(s: string): (r: Option<Categoria>)
    ensures r.Some? ==> CategoriaLabel(r.value) == s
  {
    if s == "Eletrônica Básica" then Some(EletronicaBasica)
    else if s == "Sensores" then Some(Sensores)
    else if s == "Programação por Blocos" then Some(ProgramacaoPorBlocos)
    else if s == "Algoritmos & Lógica" then Some(AlgoritmosLogica)
    else if s == "IA & Ética" then Some(IaEtica)
    else if s == "Cidadania Digital" then Some(CidadaniaDigital)
    else if s == "Segurança de Dados" then Some(SegurancaDeDados)
    else if s == "Interdisciplinar" then Some(CategoriaInterdisciplinar)
    else if s == "Avaliação" then Some(CategoriaAvaliacao)
    else if s == "Guia do Professor" then Some(CategoriaGuiaDoProfessor)
    else if s == "Simuladores" then Some(Simuladores)
    else None
  }

  function ParseTipoConteudo(s: string): (r: Option<TipoConteudo>)
    ensures r.Some? ==> TipoConteudoLabel(r.value) == s
  {
    if s == "Teórica" then Some(Teorica)
    else if s == "Prática" then Some(Pratica)
    else if s == "Interdisciplinar" then Some(TipoInterdisciplinar)
    else if s == "Avaliação" then Some(TipoAvaliacao)
    else if s == "Guia do Professor" then Some(TipoGuiaDoProfessor)
    else None
  }

  function ParseFormato(s: string): (r: Option<Formato>)
    ensures r.Some? ==> FormatoLabel(r.value) == s
  {
    if s == "Texto" then Some(Texto)
    else if s == "PDF" then Some(Pdf)
    else if s == "Planilha" then Some(Planilha)
    else if s == "Slide" then Some(Slide)
    else if s == "Vídeo" then Some(Video)
    else if s == "Simulador" then Some(Simulador)
    else if s == "Link Externo" then Some(LinkExterno)
    else None
  }

  function ParseTempoEstimado(s: string): (r: Option<TempoEstimado>)
    ensures r.Some? ==> TempoEstimadoLabel(r.value) == s
  {
    if s == "1 aula (40-50 min)" then Some(UmaAula)
    else if s == "2 aulas (80-100 min)" then Some(DuasAulas)
    else if s == ">2 aulas" then Some(MaisDeDuasAulas)
    else None
  }

  function ParseVisibilidade(s: string): (r: Option<Visibilidade>)
    ensures r.Some? ==> VisibilidadeLabel(r.value) == s
  {
    if s == "publico" then Some(Publico)
    else if s == "privado" then Some(Privado)
    else None
  }

  function ParseArea(s: string): (r: Option<Area>)
    ensures r.Some? ==> AreaLabel(r.value) == s
  {
    if s == "Matemática" then Some(AreaMatematica)
    else if s == "Linguagens" then Some(Linguagens)
    else if s == "Ciências da Natureza" then Some(CienciasDaNatureza)
    else if s == "Ciências Humanas" then Some(CienciasHumanas)
    else None
  }

  // Round trips: every enumerant's label parses back to it. With the parsers'
  // contracts, the strings a union admits are exactly its literals.

  lemma EtapaRoundTrip(e: Etapa)
    ensures ParseEtapa(EtapaLabel(e)) == Some(e)
  {
  }

  lemma SerieRoundTrip(s: Serie)
    ensures ParseSerie(SerieLabel(s)) == Some(s)
  {
  }

  lemma DisciplinaRoundTrip(d: Disciplina)
    ensures ParseDisciplina(DisciplinaLabel(d)) == Some(d)
  {
  }

  lemma CategoriaRoundTrip(c: Categoria)
    ensures ParseCategoria(CategoriaLabel(c)) == Some(c)
  {
  }

  lemma TipoConteudoRoundTrip(t: TipoConteudo)
    ensures ParseTipoConteudo(TipoConteudoLabel(t)) == Some(t)
  {
  }

  lemma FormatoRoundTrip(f: Formato)
    ensures ParseFormato(FormatoLabel(f)) == Some(f)
  {
  }

  lemma TempoEstimadoRoundTrip(t: TempoEstimado)
    ensures ParseTempoEstimado(TempoEstimadoLabel(t)) == Some(t)
  {
  }

  lemma VisibilidadeRoundTrip(v: Visibilidade)
    ensures ParseVisibilidade(VisibilidadeLabel(v)) == Some(v)
  {
  }

  lemma AreaRoundTrip(a: Area)
    ensures ParseArea(AreaLabel(a)) == Some(a)
  {
  }

  /** Distinct enumerants have distinct labels, so label membership decides enumerant membership. */
  lemma LabelsInjective()
    ensures forall a: Etapa, b: Etapa :: EtapaLabel(a) == EtapaLabel(b) ==> a == b
    ensures forall a: Serie, b: Serie :: SerieLabel(a) == SerieLabel(b) ==> a == b
    ensures forall a: Disciplina, b: Disciplina :: DisciplinaLabel(a) == DisciplinaLabel(b) ==> a == b
    ensures forall a: Categoria, b: Categoria :: CategoriaLabel(a) == CategoriaLabel(b) ==> a == b
    ensures forall a: TipoConteudo, b: TipoConteudo :: TipoConteudoLabel(a) == TipoConteudoLabel(b) ==> a == b
    ensures forall a: Formato, b: Formato :: FormatoLabel(a) == FormatoLabel(b) ==> a == b
    ensures forall a: TempoEstimado, b: TempoEstimado :: TempoEstimadoLabel(a) == TempoEstimadoLabel(b) ==> a == b
    ensures forall a: Visibilidade, b: Visibilidade :: VisibilidadeLabel(a) == VisibilidadeLabel(b) ==> a == b
    ensures forall a: Area, b: Area :: AreaLabel(a) == AreaLabel(b) ==> a == b
  {
  }
}
