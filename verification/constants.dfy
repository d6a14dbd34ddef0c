/**
 The fixed tables of `constants.ts`: the stage-to-grade table, the option
 lists offered by the filter and import screens, and the sample BNCC skills.
 */
module Constants {
  import opened Seqs
  import opened Types

  /** `ETAPAS`: the grades of each stage, in display order. */
  const Etapas: map<Etapa, seq<Serie>> := map[
    EF2 := [Ano6, Ano7, Ano8, Ano9],
    EM := [Ano1, Ano2, Ano3]
  ]

  const Disciplinas: seq<Disciplina> := [
    TecnologiaRobotica, Matematica, Ciencias, Fisica, Quimica, Biologia,
    Geografia, Historia, LinguaPortuguesa, Ingles, Artes, ProjetoDeVida
  ]

  const Categorias: seq<Categoria> := [
    EletronicaBasica, Sensores, ProgramacaoPorBlocos, AlgoritmosLogica, IaEtica,
    CidadaniaDigital, SegurancaDeDados, CategoriaInterdisciplinar, CategoriaAvaliacao,
    CategoriaGuiaDoProfessor, Simuladores
  ]

  const TiposConteudo: seq<TipoConteudo> := [
    Teorica, Pratica, TipoInterdisciplinar, TipoAvaliacao, TipoGuiaDoProfessor
  ]

  const Formatos: seq<Formato> := [
    Texto, Pdf, Planilha, Slide, Video, Simulador, LinkExterno
  ]

  const TemposEstimados: seq<TempoEstimado> := [UmaAula, DuasAulas, MaisDeDuasAulas]

  /** `BNCC_HABILIDADES_EXEMPLOS`: the sample skill table (descriptions as in the source, abridged the same way). */
  const BnccHabilidadesExemplos: seq<BnccHabilidade> := [
    BnccHabilidade("EF06MA01", EF2, AreaMatematica, "Comparar, ordenar, ler e escrever números naturais e números racionais em sua representação decimal..."),
    BnccHabilidade("EF07MA02", EF2, AreaMatematica, "Resolver e elaborar problemas que envolvam porcentagens, como os que lidam com acréscimos e decréscimos simples..."),
    BnccHabilidade("EF08CI02", EF2, CienciasDaNatureza, "Construir circuitos elétricos com pilha/bateria, fios e lâmpada ou outros dispositivos..."),
    BnccHabilidade("EF09CI08", EF2, CienciasDaNatureza, "Discutir o papel do avanço tecnológico na aplicação das leis da Física para o desenvolvimento de máquinas..."),
    BnccHabilidade("EF09LP01", EF2, Linguagens, "Analisar o fenômeno da desinformação, compreendendo como ele se manifesta na sociedade contemporânea..."),
    BnccHabilidade("EM13CNT101", EM, CienciasDaNatureza, "Analisar e representar, com ou sem o uso de dispositivos e de aplicativos digitais..."),
    BnccHabilidade("EM13CNT203", EM, CienciasDaNatureza, "Avaliar e prever efeitos de intervenções nos ecossistemas, e seus impactos nos seres vivos e no corpo humano..."),
    BnccHabilidade("EM13LGG102", EM, Linguagens, "Analisar visões de mundo, conflitos de interesse, preconceitos e ideologias presentes nos discursos...")
  ]

  /** An option list offers every value of its type, each exactly once. */
  ghost predicate ListsEachOnce<T(!new)>(xs: seq<T>) {
    Distinct(xs) && forall x: T :: x in xs
  }

  /** The stage whose grade list contains `s` (the reverse of `Etapas`). */
  function EtapaOfSerie(s: Serie): (e: Etapa)
    ensures e in Etapas && s in Etapas[e]
    ensures forall e' :: e' in Etapas && s in Etapas[e'] ==> e' == e
  {
    match s
    case Ano6 | Ano7 | Ano8 | Ano9 => EF2
    case Ano1 | Ano2 | Ano3 => EM
  }

  /**
   `ETAPAS` has exactly the two stages as keys, lists EF2's grades 6º..9º
   and EM's 1º..3º; the two lists are disjoint, duplicate-free, and together
   they offer every grade once, so there are exactly seven grades.
   */
  lemma EtapasPartitionSeries()
    ensures Etapas.Keys == {EF2, EM}
    ensures forall e: Etapa :: e in Etapas
    ensures Etapas[EF2] == [Ano6, Ano7, Ano8, Ano9] && Etapas[EM] == [Ano1, Ano2, Ano3]
    ensures forall s :: s in Etapas[EF2] ==> s !in Etapas[EM]
    ensures ListsEachOnce(Etapas[EF2] + Etapas[EM])
    ensures |Etapas[EF2] + Etapas[EM]| == 7
  {
    forall e: Etapa ensures e in Etapas {
      match e
      case EF2 =>
      case EM =>
    }
    var all := Etapas[EF2] + Etapas[EM];
    forall s: Serie ensures s in all {
      assert s in Etapas[EtapaOfSerie(s)];
    }
  }

  /** `DISCIPLINAS` offers each of the twelve subjects exactly once. */
  lemma DisciplinasListEachOnce()
    ensures ListsEachOnce(Disciplinas) && |Disciplinas| == 12
  {
    forall d: Disciplina ensures d in Disciplinas {
      match d
      case TecnologiaRobotica => case Matematica => case Ciencias => case Fisica =>
      case Quimica => case Biologia => case Geografia => case Historia =>
      case LinguaPortuguesa => case Ingles => case Artes => case ProjetoDeVida =>
    }
  }

  /** `CATEGORIAS` offers each of the eleven categories exactly once. */
  lemma CategoriasListEachOnce()
    ensures ListsEachOnce(Categorias) && |Categorias| == 11
  {
    forall c: Categoria ensures c in Categorias {
      match c
      case EletronicaBasica => case Sensores => case ProgramacaoPorBlocos =>
      case AlgoritmosLogica => case IaEtica => case CidadaniaDigital =>
      case SegurancaDeDados => case CategoriaInterdisciplinar => case CategoriaAvaliacao =>
      case CategoriaGuiaDoProfessor => case Simuladores =>
    }
  }

  /** `TIPOS_CONTEUDO`, `FORMATOS` and `TEMPOS_ESTIMADOS` each offer every value of their type once. */
  lemma OtherOptionListsEachOnce()
    ensures ListsEachOnce(TiposConteudo) && |TiposConteudo| == 5
    ensures ListsEachOnce(Formatos) && |Formatos| == 7
    ensures ListsEachOnce(TemposEstimados) && |TemposEstimados| == 3
  {
    forall t: TipoConteudo ensures t in TiposConteudo {
      match t
      case Teorica => case Pratica => case TipoInterdisciplinar =>
      case TipoAvaliacao => case TipoGuiaDoProfessor =>
    }
    forall f: Formato ensures f in Formatos {
      match f
      case Texto => case Pdf => case Planilha => case Slide =>
      case Video => case Simulador => case LinkExterno =>
    }
    forall t: TempoEstimado ensures t in TemposEstimados {
      match t
      case UmaAula => case DuasAulas => case MaisDeDuasAulas =>
    }
  }

  /** The code starts with "EF" exactly when the stage is EF2, and with "EM" exactly when it is EM. */
  predicate PrefixNamesEtapa(h: BnccHabilidade) {
    && |h.codigo| >= 2 && h.codigo[0] == 'E'
    && (h.codigo[1] == 'F' <==> h.etapa == EF2)
    && (h.codigo[1] == 'M' <==> h.etapa == EM)
  }

  /**
   The sample skill codes are pairwise distinct (they key the filter's
   checkbox list), and every entry's code prefix names its stage.
   */
  lemma BnccExamplesWellFormed()
    ensures forall i, j :: 0 <= i < j < |BnccHabilidadesExemplos| ==>
      BnccHabilidadesExemplos[i].codigo != BnccHabilidadesExemplos[j].codigo
    ensures forall h :: h in BnccHabilidadesExemplos ==> PrefixNamesEtapa(h)
  {
    var hs := BnccHabilidadesExemplos;
    assert PrefixNamesEtapa(hs[0]) && PrefixNamesEtapa(hs[1]);
    assert PrefixNamesEtapa(hs[2]) && PrefixNamesEtapa(hs[3]);
    assert PrefixNamesEtapa(hs[4]) && PrefixNamesEtapa(hs[5]);
    assert PrefixNamesEtapa(hs[6]) && PrefixNamesEtapa(hs[7]);
  }

  /** The option lists hold exactly the string literals of `constants.ts`, in order. */
  lemma OptionListLabels()
    ensures Labels(Etapas[EF2], SerieLabel) == ["6º", "7º", "8º", "9º"]
    ensures Labels(Etapas[EM], SerieLabel) == ["1º", "2º", "3º"]
    ensures Labels(Disciplinas, DisciplinaLabel) == [
      "Tecnologia/Robótica", "Matemática", "Ciências", "Física", "Química", "Biologia",
      "Geografia", "História", "Língua Portuguesa", "Inglês", "Artes", "Projeto de Vida"]
    ensures Labels(Categorias, CategoriaLabel) == [
      "Eletrônica Básica", "Sensores", "Programação por Blocos", "Algoritmos & Lógica", "IA & Ética",
      "Cidadania Digital", "Segurança de Dados", "Interdisciplinar", "Avaliação", "Guia do Professor", "Simuladores"]
    ensures Labels(TiposConteudo, TipoConteudoLabel) == [
      "Teórica", "Prática", "Interdisciplinar", "Avaliação", "Guia do Professor"]
    ensures Labels(Formatos, FormatoLabel) == [
      "Texto", "PDF", "Planilha", "Slide", "Vídeo", "Simulador", "Link Externo"]
    ensures Labels(TemposEstimados, TempoEstimadoLabel) == [
      "1 aula (40-50 min)", "2 aulas (80-100 min)", ">2 aulas"]
  {
  }
}
