# EduRoboLab catalog filter and import wizard, in Dafny

EduRoboLab is a client-only web application for browsing robotics and
technology lesson content for Brazilian lower- and upper-secondary school.
Almost all of it is presentation. This project models the two parts that
have behaviour of their own, plus the data they work on:

- **The catalog facet filter** (`pages/ConteudosPage.tsx`). The filter state
  maps a key (`etapa`, `serie`, `disciplina`, `categoria`, `bncc`) to the list
  of values ticked under it. A checkbox click toggles one value under one key.
  The visible catalog keeps, in order, the items that satisfy every active
  dimension. Within a dimension the rule is OR: the item's stage must be
  selected, and its grades, subjects, categories or BNCC skill codes must
  share at least one value with the selection. Across dimensions the rule is
  AND. A missing or empty list imposes nothing.
- **The import wizard** (`pages/ImportarPage.tsx`). This is a three-step state
  machine over `{step, file, suggestions}`. It is driven by file selection,
  "Próximo"/"Processar com IA", "Voltar", "Cancelar" and "Salvar". The
  simulated AI call is modelled as the pure function it is once its delay is
  ignored: a fixed record whose title is built from the file name with its
  last `.`-segment dropped.
- **The data model and tables** (`types.ts`, `constants.ts`). The string unions
  become enumerations, each with its exact label and a parser back. Together
  with the round-trip lemmas, the parsers show that the strings each union
  admits are exactly its literals. `Conteudo`
  becomes an immutable record with a single `etapa` and lists for the other
  dimensions. The `ETAPAS` grade table, the option lists and the sample BNCC
  skills are stated as constants, with their well-formedness proved.

Files: `wrappers.dfy` (Option), `seqs.dfy` (subsequences, duplicate-freedom,
remove-all), `strings.dfy` (JavaScript `includes`/`split`/`join` and the
file-name stem), `types.dfy`, `constants.dfy`, `catalogo.dfy`, `importar.dfy`.

Enumerated item fields are compared with the filter's values through their
labels, as the source compares strings. `LabelsInjective` shows that this is
the same as comparing enumerants. BNCC skill codes and keywords are free
strings, not enumerations, so filtering by BNCC code is exact string equality.

Facts about the code worth knowing before reading the contracts:

- Toggling is not its own inverse. When the value was selected, a second
  toggle moves it to the end of the list. When the key was missing, the key
  comes back holding `[]`. What does hold is proved instead: the set of
  selected values is restored, and the shown catalog is identical
  (`ToggleTwiceSameResult`).
- Filter keys and values are arbitrary strings. The code never checks them
  against the enumerations, and keys other than the five dimensions are
  ignored (`OtherKeysIgnored`).
- The code does not enforce that an item's grades belong to its stage.
  `SeriesFitEtapa` states the rule, and the sample catalog satisfies it.

## Model

| member | source | states |
|---|---|---|
| Seqs.RemoveAll | pages/ConteudosPage.tsx:99 | The removed value occurs zero times, and every other value occurs exactly as often as before. The result is an order-preserving subsequence, strictly shorter when the value occurred. |
| Catalogo.Toggle | pages/ConteudosPage.tsx:94-106 | The value's membership under the key flips. An absent value is appended at the end. A present value loses every occurrence, while every other value keeps its order and its number of occurrences. The key is present afterwards, and every other key is unchanged. |
| Catalogo.ToggleKeepsNoDuplicates | pages/ConteudosPage.tsx:98-103 | If no key's list has duplicates, none has after a toggle. |
| Catalogo.ToggleTwiceAbsent | pages/ConteudosPage.tsx:98-103 | Toggling an unselected value twice gives back the identical list. The whole state is identical when the key existed. |
| Catalogo.ToggleTwicePresent | pages/ConteudosPage.tsx:98-103 | Toggling a selected value twice keeps the same set of values, with that value moved to the end. |
| Catalogo.ToggleTwiceSameResult | pages/ConteudosPage.tsx:94-124 | Toggling the same value twice never changes the filtered catalog. |
| Catalogo.AnyIn | pages/ConteudosPage.tsx:117-120 | `some(... includes ...)` is true iff some element's label is in the selection. |
| Catalogo.Matches | pages/ConteudosPage.tsx:114-123 | An item is kept iff every active dimension holds. The stage must be selected. Grades, subjects, categories and BNCC codes must each share a value with their selection. Inactive dimensions impose nothing. |
| Catalogo.FilterConteudos | pages/ConteudosPage.tsx:113-124 | The result is an order-preserving subsequence of the catalog: nothing is reordered. |
| Catalogo.FilterCounts | pages/ConteudosPage.tsx:113-124 | Nothing is added or duplicated. Each kept item occurs exactly as often as in the catalog, and every other item occurs zero times. |
| Catalogo.FilterResultMatches | pages/ConteudosPage.tsx:113-124 | Every shown item comes from the catalog and passes the filter. |
| Catalogo.FilterKeepsAllWhenAllMatch | pages/ConteudosPage.tsx:114-123 | When every item passes, the catalog is returned unchanged. |
| Catalogo.FilterWithoutActiveDimension | pages/ConteudosPage.tsx:116-122 | With no active dimension, including the initial `{}`, the whole catalog is shown in order. |
| Catalogo.FilterIdempotent | pages/ConteudosPage.tsx:113-124 | Filtering the result again with the same filters returns it unchanged. |
| Catalogo.FilterMonotone | pages/ConteudosPage.tsx:113-124 | If every item one filter keeps is kept by another, the first result is a subsequence of the second. |
| Catalogo.MatchesRespectsSelection | pages/ConteudosPage.tsx:116-120 | Two filter states that select the same values under the five dimensions keep the same items. |
| Catalogo.FilterRespectsSelection | pages/ConteudosPage.tsx:116-120 | The result depends only on which values are selected under the five dimensions. Order, repetition, missing-versus-empty and other keys are invisible. |
| Catalogo.MissingKeyIsEmptySelection | pages/ConteudosPage.tsx:116-120 | A missing key and an empty list under it give the same result. |
| Catalogo.OtherKeysIgnored | pages/ConteudosPage.tsx:116-120 | Setting any key other than the five dimensions never changes the result. |
| Catalogo.WideningActiveDimensionKeepsItems | pages/ConteudosPage.tsx:116-120 | OR within a dimension: adding a value to an already active dimension never hides an item. |
| Catalogo.ActivatingDimensionHidesOnly | pages/ConteudosPage.tsx:116-120 | AND across dimensions: constraining a previously inactive dimension never shows more items. |
| Catalogo.MockCatalogWellFormed | pages/ConteudosPage.tsx:12-53 | Whatever the four timestamps, the two sample items have distinct ids, and their grades fit their stage. |
| Catalogo.MockFilterByEtapa | pages/ConteudosPage.tsx:116 | On the sample catalog, selecting stage EF2 keeps only item "1". |
| Catalogo.MockFilterBySensores | pages/ConteudosPage.tsx:119 | On the sample catalog, selecting category "Sensores" keeps nothing. |
| Types.ParseEtapa | types.ts:10 | A parsed stage's label is the parsed string. |
| Types.ParseSerie | types.ts:11 | A parsed grade's label is the parsed string. |
| Types.ParseDisciplina | types.ts:12 | A parsed subject's label is the parsed string. |
| Types.ParseCategoria | types.ts:13 | A parsed category's label is the parsed string. |
| Types.ParseTipoConteudo | types.ts:14 | A parsed content type's label is the parsed string. |
| Types.ParseFormato | types.ts:15 | A parsed format's label is the parsed string. |
| Types.ParseTempoEstimado | types.ts:16 | A parsed duration's label is the parsed string. |
| Types.ParseVisibilidade | types.ts:42 | Visibility parses only from "publico" or "privado", with the matching label. |
| Types.EtapaRoundTrip | types.ts:10 | Both stages, EF2 and EM, parse back from their labels. |
| Types.SerieRoundTrip | types.ts:11 | All seven grades parse back from their labels. |
| Types.DisciplinaRoundTrip | types.ts:12 | All twelve subjects parse back from their labels. |
| Types.CategoriaRoundTrip | types.ts:13 | All eleven categories parse back from their labels. |
| Types.TipoConteudoRoundTrip | types.ts:14 | All five content types parse back from their labels. |
| Types.FormatoRoundTrip | types.ts:15 | All seven formats parse back from their labels. |
| Types.TempoEstimadoRoundTrip | types.ts:16 | All three durations parse back from their labels. |
| Types.VisibilidadeRoundTrip | types.ts:42 | Both visibilities parse back from their labels. |
| Types.ParseArea | types.ts:97 | A parsed knowledge area's label is the parsed string. |
| Types.AreaRoundTrip | types.ts:97 | All four knowledge areas parse back from their labels. |
| Types.LabelsInjective | types.ts:10-97 | Distinct enumerants of each union (the seven unions of lines 10-16, visibility and knowledge area) have distinct labels, so comparing labels is comparing enumerants. |
| Constants.EtapaOfSerie | constants.ts:15-18 | Each grade belongs to exactly one stage's list in `ETAPAS`. |
| Constants.EtapasPartitionSeries | constants.ts:15-18 | `ETAPAS` has keys EF2 and EM, holding 6º..9º and 1º..3º in that order. The lists are disjoint and duplicate-free, and together they list all seven grades once. |
| Constants.DisciplinasListEachOnce | constants.ts:21-24 | `DISCIPLINAS` lists each of the twelve subjects exactly once. |
| Constants.CategoriasListEachOnce | constants.ts:27-30 | `CATEGORIAS` lists each of the eleven categories exactly once. |
| Constants.OtherOptionListsEachOnce | constants.ts:33-45 | `TIPOS_CONTEUDO`, `FORMATOS` and `TEMPOS_ESTIMADOS` each list every value of their type exactly once. |
| Constants.BnccExamplesWellFormed | constants.ts:50-59 | The sample skill codes are pairwise distinct. Every code starts with "E" followed by "F" exactly when the stage is EF2, and by "M" exactly when it is EM. |
| Constants.OptionListLabels | constants.ts:15-45 | `ETAPAS`, `DISCIPLINAS`, `CATEGORIAS`, `TIPOS_CONTEUDO`, `FORMATOS` and `TEMPOS_ESTIMADOS` spell exactly the source's string literals, in source order. |
| Strings.Includes | pages/ImportarPage.tsx:67 | `includes` is true iff the needle occurs at some index of the string. |
| Strings.Split | pages/ImportarPage.tsx:27 | `split` yields at least one piece, and no piece contains the separator. There is exactly one piece iff the separator is absent. Joining the pieces gives back the string. |
| Strings.JoinParts | pages/ImportarPage.tsx:27 | `join` of no parts is "". Otherwise the result starts with the first part and ends with the last, and when no part contains the separator, it occurs exactly one time fewer than there are parts. |
| Strings.SplitJoin | pages/ImportarPage.tsx:27 | `split` inverts `join` on separator-free pieces. |
| Strings.Stem | pages/ImportarPage.tsx:27 | A name without a dot has an empty stem. Otherwise the name is the stem, a dot, and a dot-free extension. |
| Strings.StemBeforeLastDot | pages/ImportarPage.tsx:27 | The stem is exactly the text before the last dot, with inner dots preserved. |
| Importar.SuggestedTitleDropsExtension | pages/ImportarPage.tsx:27 | The suggested title is "Título Sugerido para " followed by the file name up to its last dot. |
| Importar.SuggestedTitleWithoutDot | pages/ImportarPage.tsx:27 | For a name without a dot, the title is the bare prefix. |
| Importar.SuggestionsDependOnlyOnTitle | pages/ImportarPage.tsx:26-38 | The AI record is fixed, and only its title depends on the file. |
| Importar.FileChange | pages/ImportarPage.tsx:56-60 | The first chosen file replaces the current one. An empty or absent selection changes nothing. Step and suggestions are untouched. |
| Importar.NextStep | pages/ImportarPage.tsx:63-85 | Step 1 with no file does nothing. Step 1 with a spreadsheet goes to step 2 and nothing else. Step 1 with another file, or step 2 with a file, becomes exactly step 3 with that file's suggestions and nothing else changed. Only step 2 without a file fails. Every other step is a no-op. |
| Importar.SaveStep | pages/ImportarPage.tsx:88-94 | Saving resets the step to 1 and clears the file and the suggestions. |
| Importar.BackToUpload | pages/ImportarPage.tsx:124 | "Voltar" (and "Cancelar", line 147) set the step to 1 and keep the file and the suggestions. |
| Importar.Step | pages/ImportarPage.tsx:55-94 | Every user action from a state satisfying the invariant succeeds and keeps the invariant. |
| Importar.RunKeepsInvariant | pages/ImportarPage.tsx:63-94 | No sequence of actions from an invariant state throws or breaks the invariant. |
| Importar.ReachableStatesSafe | pages/ImportarPage.tsx:47-94 | From the initial state (step 1, no file, no suggestions), every reachable state has step 1, 2 or 3. Step 2 has a file, so `file!` is safe, and step 3 has suggestions. |

## Left out

- Accordion open/close state, all JSX markup and styling: presentation only, with no behaviour to state.
- The simulated AI delay (`setTimeout`), the `isLoading` spinner, `async`/`await` ordering, `console.log` and `alert`: timing and output, not logic. The AI step is modelled as a synchronous pure function. While the spinner shows, no button is rendered, so handling actions one at a time matches what a user can do.
- The unused `GoogleGenAI` import: a foreign library that is never called.
- The conditional rendering of buttons (Next only shown with a file, Back only at step 2, and so on): the handlers are modelled as written, which accept every state, so the invariants hold for any click order.
- `FileList` is modelled as an optional sequence of files. Browser file pickers, reading file contents and MIME detection are not modelled; the MIME type is an input string.
- `new Date().toISOString()` in the sample catalog: clock-dependent, so each of the four calls is its own string parameter of `MockConteudos`. They are opaque, and the filter never reads them.
- Filter keys that name `Object.prototype` members (`"constructor"`, `"__proto__"`, …): in JavaScript, `prev[key]` would read an inherited property and `.includes` would throw. The model treats every key as an ordinary map key. The page only ever passes the five dimension keys, so no user can reach that case.
- `pages/ConfigPage.tsx` (backup export/import, `localStorage`, confirmation dialog), `App.tsx` routing and the user-mode toggle, `index.tsx` mounting, `pages/ConteudoDetailPage.tsx` (a tab switch and locale date formatting), and the static dashboards `pages/HomePage.tsx`, `pages/ProfessorPage.tsx` and `pages/AlunoPage.tsx`: browser I/O, framework wiring or static content.
- The `Arquivo` and `Trilha` records in `types.ts`: the two modelled components never use them.
- Strings are sequences of Unicode scalar values, compared exactly. There is no normalisation, matching JavaScript's `===` on the literals used here.
