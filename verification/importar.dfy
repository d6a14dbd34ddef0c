/**
 The import wizard (`pages/ImportarPage.tsx`) as a state machine over
 `{step, file, suggestions}`. The simulated AI call is the pure function it
 amounts to once its delay is ignored; the loading spinner is not modelled.
 */
module Importar {
  import opened Wrappers
  import opened Strings

  /** A chosen file: the name and MIME type the handlers read. */
  datatype File = File(name: string, mimeType: string)

  /** The metadata record the simulated AI returns. */
  datatype Suggestions = Suggestions(
    titulo: string,
    disciplina: string,
    etapa: string,
    series: seq<string>,
    categorias: seq<string>,
    habilidadesBNCC: seq<string>,
    tempo: string,
    formato: string,
    tags: seq<string>,
    resumo: string,
    palavrasChave: seq<string>
  )

  /** The wizard's state; `None` stands for the source's `null`. */
  datatype Wizard = Wizard(step: int, file: Option<File>, suggestions: Option<Suggestions>)

  /** The user's actions. `Back` is the step-2 "Voltar" button and `Cancel` the step-3 "Cancelar" button. */
  datatype Event =
    | SelectFiles(files: Option<seq<File>>)
    | Next
    | Back
    | Cancel
    | Save

  const TitlePrefix: string := "Título Sugerido para "

  /** `processWithAI` without its delay: a fixed record whose title names the file's stem. */
  function ProcessWithAI(file: File): Suggestions {
    Suggestions(
      TitlePrefix + Stem(file.name),
      "Tecnologia/Robótica",
      "EF2",
      ["8º"],
      ["Programação por Blocos"],
      ["EF08CI02"],
      "1 aula (40-50 min)",
      "PDF",
      ["ia", "mock", "upload"],
      "Este é um resumo gerado pela IA (mock) com base no conteúdo do arquivo. Ele destaca os principais pontos e objetivos da aula.",
      ["mock", "simulação", "gemini"]
    )
  }

  /** The suggested title is the prefix followed by the file name up to its last dot, inner dots kept. */
  lemma SuggestedTitleDropsExtension(file: File, before: string, ext: string)
    requires file.name == before + "." + ext && '.' !in ext
    ensures ProcessWithAI(file).titulo == TitlePrefix + before
  {
    StemBeforeLastDot(file.name, before, ext);
  }

  /** A file name without a dot has an empty stem, so the title is the bare prefix. */
  lemma SuggestedTitleWithoutDot(file: File)
    requires '.' !in file.name
    ensures ProcessWithAI(file).titulo == TitlePrefix
  {
  }

  /** Only the title depends on the file: two files get records that differ at most in `titulo`. */
  lemma SuggestionsDependOnlyOnTitle(a: File, b: File)
    ensures ProcessWithAI(a).(titulo := "") == ProcessWithAI(b).(titulo := "")
    ensures a.name == b.name ==> ProcessWithAI(a) == ProcessWithAI(b)
  {
  }

  /** Spreadsheets go through the column-mapping step: the MIME type mentions "csv" or "sheet". */
  predicate IsSpreadsheet(file: File) {
    Includes(file.mimeType, "csv") || Includes(file.mimeType, "sheet")
  }

  /** The state the page starts in. */
  function Initial(): Wizard {
    Wizard(1, None, None)
  }

  /** `handleFileChange`: the first chosen file replaces the current one; an empty or absent selection changes nothing. */
  function FileChange(w: Wizard, files: Option<seq<File>>): (r: Wizard)
    ensures r.step == w.step && r.suggestions == w.suggestions
    ensures files.Some? && |files.value| > 0 ==> r.file == Some(files.value[0])
    ensures files.None? || |files.value| == 0 ==> r == w
  {
    if files.Some? && |files.value| > 0 then w.(file := Some(files.value[0])) else w
  }

  /**
   `handleNextStep`. At step 1 with a file: a spreadsheet goes to step 2,
   anything else is processed and goes to step 3. At step 2 the file is
   processed and the wizard goes to step 3; with no file there, reading the
   null file's name inside the AI call rejects the handler's promise after the
   spinner is switched on, a dead end that is `None` here.
   Every other state is left as it is.
   */
  function NextStep(w: Wizard): (r: Option<Wizard>)
    ensures r.None? <==> w.step == 2 && w.file.None?
    ensures r.Some? ==> r.value.file == w.file
    ensures r.Some? && r.value.step == 3 && w.step != 3 ==>
      w.file.Some? && r.value.suggestions == Some(ProcessWithAI(w.file.value))
    ensures w.step == 1 && w.file.None? ==> r == Some(w)
    ensures w.step == 1 && w.file.Some? ==>
      (r.value.step == 2 <==> IsSpreadsheet(w.file.value)) &&
      (r.value.step == 2 ==> r == Some(w.(step := 2)))
    ensures w.step == 1 && w.file.Some? && !IsSpreadsheet(w.file.value) ==>
      r == Some(w.(step := 3, suggestions := Some(ProcessWithAI(w.file.value))))
    ensures w.step == 2 && w.file.Some? ==>
      r == Some(w.(step := 3, suggestions := Some(ProcessWithAI(w.file.value))))
    ensures w.step != 1 && w.step != 2 ==> r == Some(w)
  {
    if w.step == 1 && w.file.Some? then
      if IsSpreadsheet(w.file.value) then
        Some(w.(step := 2))
      else
        Some(w.(suggestions := Some(ProcessWithAI(w.file.value)), step := 3))
    else if w.step == 2 then
      if w.file.None? then None
      else Some(w.(suggestions := Some(ProcessWithAI(w.file.value)), step := 3))
    else
      Some(w)
  }

  /** `handleSave`: back to the initial state, whatever the current one. */
  function SaveStep(w: Wizard): (r: Wizard)
    ensures r.step == 1 && r.file.None? && r.suggestions.None?
  {
    Initial()
  }

  /** The "Voltar" and "Cancelar" buttons: return to step 1, keeping the file and the suggestions. */
  function BackToUpload(w: Wizard): (r: Wizard)
    ensures r.step == 1 && r.file == w.file && r.suggestions == w.suggestions
  {
    w.(step := 1)
  }

  /**
   What every reachable state satisfies: the step is 1, 2 or 3; step 2 has
   a file (so `file!` is safe); step 3 has suggestions (so the confirmation
   form has data) and a file; suggestions never outlive the file.
   */
  ghost predicate Invariant(w: Wizard) {
    && 1 <= w.step <= 3
    && (w.step == 2 ==> w.file.Some?)
    && (w.step == 3 ==> w.suggestions.Some? && w.file.Some?)
    && (w.suggestions.Some? ==> w.file.Some?)
  }

  /** One user action; `None` when the handler would throw. Every action keeps the invariant and never throws from a state satisfying it. */
  function Step(w: Wizard, e: Event): (r: Option<Wizard>)
    ensures Invariant(w) ==> r.Some? && Invariant(r.value)
  {
    match e
    case SelectFiles(files) => Some(FileChange(w, files))
    case Next => NextStep(w)
    case Back => Some(BackToUpload(w))
    case Cancel => Some(BackToUpload(w))
    case Save => Some(SaveStep(w))
  }

  /** A sequence of actions from `w`; `None` as soon as one throws. */
  function Run(w: Wizard, events: seq<Event>): Option<Wizard>
    decreases |events|
  {
    if |events| == 0 then Some(w)
    else
      match Step(w, events[0])
      case None => None
      case Some(w') => Run(w', events[1..])
  }

  /** From any state satisfying the invariant, no sequence of actions throws or breaks it. */
  lemma {:induction false} RunKeepsInvariant(w: Wizard, events: seq<Event>)
    requires Invariant(w)
    ensures Run(w, events).Some? && Invariant(Run(w, events).value)
    decreases |events|
  {
    if |events| > 0 {
      RunKeepsInvariant(Step(w, events[0]).value, events[1..]);
    }
  }

  /**
   Every state reachable from the initial one has step 1, 2 or 3, a file at
   step 2 and suggestions at step 3, and no action ever throws.
   */
  lemma ReachableStatesSafe(events: seq<Event>)
    ensures Run(Initial(), events).Some?
    ensures var w := Run(Initial(), events).value;
      && 1 <= w.step <= 3
      && (w.step == 2 ==> w.file.Some?)
      && (w.step == 3 ==> w.suggestions.Some?)
  {
    RunKeepsInvariant(Initial(), events);
  }
}
