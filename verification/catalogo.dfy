/**
 The catalog page's facet filter (`pages/ConteudosPage.tsx`).

 The filter state maps a key to the list of values selected under it.
 `Toggle` is the checkbox handler; `FilterConteudos` keeps, in catalog
 order, the items that satisfy every active dimension, where a dimension
 is satisfied when the item shares at least one value with its selection
 (OR within a dimension, AND across dimensions). Enumerated item fields
 are compared through the string labels the source compares.
 */
module Catalogo {
  import opened Seqs
  import opened Types
  import opened Constants

  /** Key -> selected values; any key and any value are accepted verbatim (keys are plain map keys here). */
  type Filters = map<string, seq<string>>

  // The keys the filter predicate reads; every other key is ignored.
  const KeyEtapa: string := "etapa"
  const KeySerie: string := "serie"
  const KeyDisciplina: string := "disciplina"
  const KeyCategoria: string := "categoria"
  const KeyBncc: string := "bncc"

  /** The values selected under `key`; a missing key reads as the empty list. */
  function Selected(f: Filters, key: string): seq<string> {
    if key in f then f[key] else []
  }

  /** A dimension constrains the result only when its selection is non-empty. */
  predicate Active(f: Filters, key: string) {
    |Selected(f, key)| > 0
  }

  /** Every key's selection is duplicate-free. */
  predicate NoDuplicates(f: Filters) {
    forall k :: k in f ==> Distinct(f[k])
  }

  /**
   The checkbox handler: unselect `value` under `key` if it is selected
   (removing every occurrence), otherwise append it; other keys are untouched.
   */
  function Toggle(f: Filters, key: string, value: string): (r: Filters)
    ensures r.Keys == f.Keys + {key}
    ensures forall k :: k in f && k != key ==> r[k] == f[k]
    ensures value in r[key] <==> value !in Selected(f, key)
    ensures value in Selected(f, key) ==>
      && (forall v :: v in r[key] <==> v in Selected(f, key) && v != value)
      && (forall v :: multiset(r[key])[v] == if v == value then 0 else multiset(Selected(f, key))[v])
      && IsSubsequence(r[key], Selected(f, key))
    ensures value !in Selected(f, key) ==> r[key] == Selected(f, key) + [value]
  {
    var current := Selected(f, key);
    if value in current then
      f[key := RemoveAll(current, value)]
    else
      f[key := current + [value]]
  }

  /** `xs.some(x => selected.includes(labelOf(x)))`. */
  function AnyIn<T>(xs: seq<T>, labelOf: T -> string, selected: seq<string>): (r: bool)
    ensures r <==> exists x :: x in xs && labelOf(x) in selected
    decreases |xs|
  {
    if |xs| == 0 then false
    else
      var rest := AnyIn(xs[1..], labelOf, selected);
      labelOf(xs[0]) in selected || rest
  }

  /**
   Whether the filter keeps item `c`: for each active dimension, the stage
   is selected, and the grades, subjects, categories and BNCC codes each
   share a value with their selection. An item whose list is empty fails
   every active dimension over that list.
   */
  function Matches(c: Conteudo, f: Filters): (r: bool)
    ensures r <==>
      && (Active(f, KeyEtapa) ==> EtapaLabel(c.etapa) in Selected(f, KeyEtapa))
      && (Active(f, KeySerie) ==> exists s :: s in c.series && SerieLabel(s) in Selected(f, KeySerie))
      && (Active(f, KeyDisciplina) ==> exists d :: d in c.disciplinas && DisciplinaLabel(d) in Selected(f, KeyDisciplina))
      && (Active(f, KeyCategoria) ==> exists g :: g in c.categorias && CategoriaLabel(g) in Selected(f, KeyCategoria))
      && (Active(f, KeyBncc) ==> exists b :: b in c.habilidadesBNCC && b in Selected(f, KeyBncc))
  {
    if Active(f, KeyEtapa) && EtapaLabel(c.etapa) !in Selected(f, KeyEtapa) then false
    else if Active(f, KeySerie) && !AnyIn(c.series, SerieLabel, Selected(f, KeySerie)) then false
    else if Active(f, KeyDisciplina) && !AnyIn(c.disciplinas, DisciplinaLabel, Selected(f, KeyDisciplina)) then false
    else if Active(f, KeyCategoria) && !AnyIn(c.categorias, CategoriaLabel, Selected(f, KeyCategoria)) then false
    else if Active(f, KeyBncc) && !AnyIn(c.habilidadesBNCC, (b: string) => b, Selected(f, KeyBncc)) then false
    else true
  }

  /**
   `filteredConteudos`: the items the filter keeps, in catalog order; the
   result is a subsequence of the catalog.
   */
  function FilterConteudos(cs: seq<Conteudo>, f: Filters): (r: seq<Conteudo>)
    ensures IsSubsequence(r, cs)
    decreases |cs|
  {
    if |cs| == 0 then []
    else
      var rest := FilterConteudos(cs[1..], f);
      if Matches(cs[0], f) then
        assert ([cs[0]] + rest)[1..] == rest;
        [cs[0]] + rest
      else
        rest
  }

  /**
   Nothing is added or duplicated: the result holds each item the filter
   keeps exactly as often as the catalog does, and no other item.
   */
  lemma {:induction false} FilterCounts(cs: seq<Conteudo>, f: Filters)
    ensures forall c :: multiset(FilterConteudos(cs, f))[c] == if Matches(c, f) then multiset(cs)[c] else 0
    decreases |cs|
  {
    if |cs| > 0 {
      FilterCounts(cs[1..], f);
      assert cs == [cs[0]] + cs[1..];
      assert multiset(cs) == multiset{cs[0]} + multiset(cs[1..]);
    }
  }

  /** Every item of the result satisfies the filter and comes from the catalog. */
  lemma {:induction false} FilterResultMatches(cs: seq<Conteudo>, f: Filters)
    ensures forall c :: c in FilterConteudos(cs, f) ==> c in cs && Matches(c, f)
  {
    var r := FilterConteudos(cs, f);
    FilterCounts(cs, f);
    forall c | c in r ensures c in cs && Matches(c, f) {
      assert multiset(r)[c] > 0;
    }
  }

  /** A catalog all of whose items pass is returned unchanged. */
  lemma {:induction false} FilterKeepsAllWhenAllMatch(cs: seq<Conteudo>, f: Filters)
    requires forall c :: c in cs ==> Matches(c, f)
    ensures FilterConteudos(cs, f) == cs
    decreases |cs|
  {
    if |cs| > 0 {
      assert forall c :: c in cs[1..] ==> c in cs;
      FilterKeepsAllWhenAllMatch(cs[1..], f);
      assert Matches(cs[0], f);
      assert cs == [cs[0]] + cs[1..];
    }
  }

  /** With no active dimension (in particular with `{}`) the whole catalog is shown, in order. */
  lemma {:induction false} FilterWithoutActiveDimension(cs: seq<Conteudo>, f: Filters)
    requires !Active(f, KeyEtapa) && !Active(f, KeySerie) && !Active(f, KeyDisciplina)
    requires !Active(f, KeyCategoria) && !Active(f, KeyBncc)
    ensures FilterConteudos(cs, f) == cs
    ensures FilterConteudos(cs, map[]) == cs
  {
    FilterKeepsAllWhenAllMatch(cs, f);
    FilterKeepsAllWhenAllMatch(cs, map[]);
  }

  /** Filtering the result again with the same filters changes nothing. */
  lemma {:induction false} FilterIdempotent(cs: seq<Conteudo>, f: Filters)
    ensures FilterConteudos(FilterConteudos(cs, f), f) == FilterConteudos(cs, f)
  {
    FilterResultMatches(cs, f);
    FilterKeepsAllWhenAllMatch(FilterConteudos(cs, f), f);
  }

  /** If every item `f` keeps is also kept by `g`, then `f`'s result is a subsequence of `g`'s. */
  lemma {:induction false} FilterMonotone(cs: seq<Conteudo>, f: Filters, g: Filters)
    requires forall c :: c in cs && Matches(c, f) ==> Matches(c, g)
    ensures IsSubsequence(FilterConteudos(cs, f), FilterConteudos(cs, g))
    decreases |cs|
  {
    if |cs| > 0 {
      assert forall c :: c in cs[1..] ==> c in cs;
      FilterMonotone(cs[1..], f, g);
      var rf := FilterConteudos(cs[1..], f);
      var rg := FilterConteudos(cs[1..], g);
      if Matches(cs[0], f) {
        assert ([cs[0]] + rf)[1..] == rf && ([cs[0]] + rg)[1..] == rg;
      } else if Matches(cs[0], g) {
        assert ([cs[0]] + rg)[1..] == rg;
      }
    }
  }

  /** `f` and `g` select the same values, in any order and multiplicity, under `key`. */
  ghost predicate SameSelectionOn(f: Filters, g: Filters, key: string) {
    forall v :: v in Selected(f, key) <==> v in Selected(g, key)
  }

  /** `f` and `g` select the same values under every key the filter reads. */
  ghost predicate SameSelection(f: Filters, g: Filters) {
    && SameSelectionOn(f, g, KeyEtapa)
    && SameSelectionOn(f, g, KeySerie)
    && SameSelectionOn(f, g, KeyDisciplina)
    && SameSelectionOn(f, g, KeyCategoria)
    && SameSelectionOn(f, g, KeyBncc)
  }

  /** Filters with the same selections keep the same items. */
  lemma {:induction false} MatchesRespectsSelection(c: Conteudo, f: Filters, g: Filters)
    requires SameSelection(f, g)
    ensures Matches(c, f) == Matches(c, g)
  {
    ActiveRespectsSelection(f, g, KeyEtapa);
    ActiveRespectsSelection(f, g, KeySerie);
    ActiveRespectsSelection(f, g, KeyDisciplina);
    ActiveRespectsSelection(f, g, KeyCategoria);
    ActiveRespectsSelection(f, g, KeyBncc);
  }

  /** Selecting the same values means both selections are empty or both are not. */
  lemma {:induction false} ActiveRespectsSelection(f: Filters, g: Filters, key: string)
    requires SameSelectionOn(f, g, key)
    ensures Active(f, key) == Active(g, key)
  {
    if Active(f, key) {
      assert Selected(f, key)[0] in Selected(g, key);
    }
    if Active(g, key) {
      assert Selected(g, key)[0] in Selected(f, key);
    }
  }

  /**
   Only the selected values matter: their order and repetition, a missing
   key versus an empty list, and every key other than the five dimensions
   are invisible in the result.
   */
  lemma {:induction false} FilterRespectsSelection(cs: seq<Conteudo>, f: Filters, g: Filters)
    requires SameSelection(f, g)
    ensures FilterConteudos(cs, f) == FilterConteudos(cs, g)
    decreases |cs|
  {
    if |cs| > 0 {
      MatchesRespectsSelection(cs[0], f, g);
      FilterRespectsSelection(cs[1..], f, g);
    }
  }

  /** A missing key and an empty list under it filter alike. */
  lemma {:induction false} MissingKeyIsEmptySelection(cs: seq<Conteudo>, f: Filters, key: string)
    ensures FilterConteudos(cs, f[key := []]) == FilterConteudos(cs, f - {key})
  {
    FilterRespectsSelection(cs, f[key := []], f - {key});
  }

  /** Selections under keys other than the five dimensions never change the result. */
  lemma {:induction false} OtherKeysIgnored(cs: seq<Conteudo>, f: Filters, key: string, values: seq<string>)
    requires key != KeyEtapa && key != KeySerie && key != KeyDisciplina
    requires key != KeyCategoria && key != KeyBncc
    ensures FilterConteudos(cs, f[key := values]) == FilterConteudos(cs, f)
  {
    FilterRespectsSelection(cs, f[key := values], f);
  }

  /** Toggling keeps every selection duplicate-free, since a value is appended only when absent. */
  lemma {:induction false} ToggleKeepsNoDuplicates(f: Filters, key: string, value: string)
    requires NoDuplicates(f)
    ensures NoDuplicates(Toggle(f, key, value))
  {
    var current := Selected(f, key);
    var r := Toggle(f, key, value);
    assert Distinct(current);
    if value in current {
      SubsequenceDistinct(r[key], current);
    } else {
      forall i, j | 0 <= i < j < |r[key]| ensures r[key][i] != r[key][j] {
        if j == |current| {
          assert r[key][i] == current[i];
        }
      }
    }
  }

  /**
   Toggling a value that was not selected twice restores that key's list
   exactly (and the whole state when the key was present).
   */
  lemma {:induction false} ToggleTwiceAbsent(f: Filters, key: string, value: string)
    requires value !in Selected(f, key)
    ensures Selected(Toggle(Toggle(f, key, value), key, value), key) == Selected(f, key)
    ensures key in f ==> Toggle(Toggle(f, key, value), key, value) == f
  {
    var current := Selected(f, key);
    var once := Toggle(f, key, value);
    assert Selected(once, key) == current + [value];
    RemoveAllAppend(current, [value], value);
    RemoveAllAbsent(current, value);
    assert RemoveAll([value], value) == [];
    assert current + [] == current;
  }

  /**
   Toggling a selected value twice restores the same set of selected values
   for that key, with the value moved to the end.
   */
  lemma {:induction false} ToggleTwicePresent(f: Filters, key: string, value: string)
    requires value in Selected(f, key)
    ensures Selected(Toggle(Toggle(f, key, value), key, value), key) == RemoveAll(Selected(f, key), value) + [value]
    ensures forall v :: v in Selected(Toggle(Toggle(f, key, value), key, value), key) <==> v in Selected(f, key)
  {
  }

  /** Toggling the same value twice never changes what the catalog shows. */
  lemma {:induction false} ToggleTwiceSameResult(cs: seq<Conteudo>, f: Filters, key: string, value: string)
    ensures FilterConteudos(cs, Toggle(Toggle(f, key, value), key, value)) == FilterConteudos(cs, f)
  {
    var twice := Toggle(Toggle(f, key, value), key, value);
    if value in Selected(f, key) {
      ToggleTwicePresent(f, key, value);
    } else {
      ToggleTwiceAbsent(f, key, value);
    }
    assert forall k :: k != key ==> Selected(twice, k) == Selected(f, k);
    FilterRespectsSelection(cs, twice, f);
  }

  /** OR within a dimension: selecting one more value in an active dimension never hides an item. */
  lemma {:induction false} WideningActiveDimensionKeepsItems(cs: seq<Conteudo>, f: Filters, key: string, value: string)
    requires Active(f, key) && value !in Selected(f, key)
    ensures IsSubsequence(FilterConteudos(cs, f), FilterConteudos(cs, Toggle(f, key, value)))
  {
    var g := Toggle(f, key, value);
    assert forall k :: k != key ==> Selected(g, k) == Selected(f, k);
    assert Selected(g, key) == Selected(f, key) + [value];
    forall c | c in cs && Matches(c, f) ensures Matches(c, g) {
    }
    FilterMonotone(cs, f, g);
  }

  /** AND across dimensions: constraining a dimension that was unconstrained never shows more items. */
  lemma {:induction false} ActivatingDimensionHidesOnly(cs: seq<Conteudo>, f: Filters, key: string, values: seq<string>)
    requires !Active(f, key)
    ensures IsSubsequence(FilterConteudos(cs, f[key := values]), FilterConteudos(cs, f))
  {
    var g := f[key := values];
    assert forall k :: k != key ==> Selected(g, k) == Selected(f, k);
    forall c | c in cs && Matches(c, g) ensures Matches(c, f) {
    }
    FilterMonotone(cs, g, f);
  }

  /** Grades consistent with the stage, per the `ETAPAS` table. */
  predicate SeriesFitEtapa(c: Conteudo) {
    forall s :: s in c.series ==> EtapaOfSerie(s) == c.etapa
  }

  /**
   `mockConteudos`, the sample catalog. Each of the four `new Date().toISOString()`
   calls is its own parameter: `c1`/`u1` are item "1"'s creation and update
   times, `c2`/`u2` item "2"'s.
   */
  function MockConteudos(c1: string, u1: string, c2: string, u2: string): seq<Conteudo> {
    [
      Conteudo(
        "1", "Introdução à Eletrônica com Arduino", EF2, [Ano8, Ano9],
        [TecnologiaRobotica, Ciencias], [EletronicaBasica, ProgramacaoPorBlocos],
        Pratica, [Pdf, Slide], DuasAulas, ["EF08CI02"],
        "Uma aula prática para montar os primeiros circuitos e entender os componentes básicos.",
        ["arduino", "led", "resistor"], [], IaIndexacao([], [], []), Publico, "Admin", c1, u1),
      Conteudo(
        "2", "Ética e Inteligência Artificial", EM, [Ano1, Ano2, Ano3],
        [TecnologiaRobotica, ProjetoDeVida], [IaEtica, CidadaniaDigital],
        Teorica, [Video, Texto], UmaAula, ["EM13LGG102"],
        "Discussão sobre as implicações éticas do uso de IA na sociedade.",
        ["IA", "ética", "bias"], [], IaIndexacao([], [], []), Publico, "Admin", c2, u2)
    ]
  }

  /** The sample items have distinct ids (they key the result cards) and grades that fit their stage. */
  lemma {:induction false} MockCatalogWellFormed(c1: string, u1: string, c2: string, u2: string)
    ensures |MockConteudos(c1, u1, c2, u2)| == 2
    ensures MockConteudos(c1, u1, c2, u2)[0].id != MockConteudos(c1, u1, c2, u2)[1].id
    ensures forall c :: c in MockConteudos(c1, u1, c2, u2) ==> SeriesFitEtapa(c)
  {
  }

  /** Selecting stage EF2 keeps only item "1". */
  lemma {:induction false} MockFilterByEtapa(c1: string, u1: string, c2: string, u2: string)
    ensures FilterConteudos(MockConteudos(c1, u1, c2, u2), map[KeyEtapa := ["EF2"]]) == [MockConteudos(c1, u1, c2, u2)[0]]
  {
  }

  /** No sample item is in category "Sensores", so selecting it empties the catalog. */
  lemma {:induction false} MockFilterBySensores(c1: string, u1: string, c2: string, u2: string)
    ensures FilterConteudos(MockConteudos(c1, u1, c2, u2), map[KeyCategoria := ["Sensores"]]) == []
  {
  }
}
