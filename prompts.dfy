/**
 * The prompt builder for AI generations: one generator per generation type,
 * each returning a system message and a user message, and the dispatch on
 * the request's `type`. Everything here is string assembly.
 */
module Prompts {
  import opened Js
  import opened Types

  datatype Role = System | User

  datatype Message = Message(role: Role, content: string)

  /**
   * The request body as the builders read it: the `type` tag and every
   * optional field any generator looks at (`class` is `characterClass`).
   */
  datatype PromptInput = PromptInput(
    kind: string,
    race: Option<string>, characterClass: Option<string>, alignment: Option<string>, level: Option<int>,
    itemType: Option<string>, rarity: Option<string>,
    locationType: Option<string>, size: Option<string>,
    genre: Option<string>, tone: Option<string>, length: Option<string>,
    questType: Option<string>, difficulty: Option<string>, partyLevel: Option<int>,
    setting: Option<string>, additionalContext: Option<string>)

  /** The system message for each generation type. */
  function SystemPrompt(g: GenerationType): string {
    match g
    case Npc =>
      @"Você é um mestre de RPG experiente especializado em criar NPCs (personagens não-jogadores) detalhados e interessantes.
Crie NPCs únicos com personalidade, motivações, histórias de fundo e características marcantes.
Sempre retorne a resposta em formato JSON válido seguindo a estrutura fornecida."
    case Item =>
      @"Você é um mestre de RPG experiente especializado em criar itens mágicos e equipamentos únicos.
Crie itens interessantes com propriedades, histórias e mecânicas de jogo bem definidas.
Sempre retorne a resposta em formato JSON válido seguindo a estrutura fornecida."
    case Location =>
      @"Você é um mestre de RPG experiente especializado em criar localizações detalhadas e imersivas.
Crie locais com descrições ricas, NPCs relevantes, pontos de interesse e ganchos de aventura.
Sempre retorne a resposta em formato JSON válido seguindo a estrutura fornecida."
    case Story =>
      @"Você é um mestre de RPG experiente especializado em criar histórias envolventes e narrativas épicas.
Crie histórias com início, meio e fim, personagens interessantes e reviravoltas emocionantes.
Sempre retorne a resposta em formato JSON válido seguindo a estrutura fornecida."
    case Quest =>
      @"Você é um mestre de RPG experiente especializado em criar missões e aventuras memoráveis.
Crie quests com objetivos claros, desafios interessantes, recompensas apropriadas e ganchos narrativos.
Sempre retorne a resposta em formato JSON válido seguindo a estrutura fornecida."
  }

  /** The first line of the user message. */
  function Header(g: GenerationType): string {
    match g
    case Npc =>
      @"Crie um NPC para RPG com as seguintes características:"
    case Item =>
      @"Crie um item para RPG com as seguintes características:"
    case Location =>
      @"Crie uma localização para RPG com as seguintes características:"
    case Story =>
      @"Crie uma história para RPG com as seguintes características:"
    case Quest =>
      @"Crie uma quest para RPG com as seguintes características:"
  }

  /** The reply template that closes the user message. */
  function Footer(g: GenerationType): string {
    match g
    case Npc =>
      @"Retorne a resposta APENAS em formato JSON com a seguinte estrutura:
{
  ""name"": ""Nome do NPC"",
  ""race"": ""Raça"",
  ""class"": ""Classe"",
  ""level"": número,
  ""alignment"": ""Alinhamento"",
  ""appearance"": ""Descrição física detalhada"",
  ""personality"": ""Traços de personalidade"",
  ""background"": ""História de fundo"",
  ""motivations"": ""Motivações e objetivos"",
  ""quirks"": [""Peculiaridade 1"", ""Peculiaridade 2""],
  ""voice"": ""Como o NPC fala"",
  ""relationships"": ""Relações com outros personagens ou facções"",
  ""secrets"": ""Segredos que o NPC guarda"",
  ""hooks"": [""Gancho de aventura 1"", ""Gancho de aventura 2""]
}"
    case Item =>
      @"Retorne a resposta APENAS em formato JSON com a seguinte estrutura:
{
  ""name"": ""Nome do Item"",
  ""type"": ""Tipo do item"",
  ""rarity"": ""Raridade"",
  ""description"": ""Descrição detalhada"",
  ""appearance"": ""Aparência física"",
  ""properties"": [""Propriedade 1"", ""Propriedade 2""],
  ""mechanics"": ""Regras e mecânicas de jogo"",
  ""history"": ""História e origem do item"",
  ""curse"": ""Maldição (se houver)"",
  ""attunement"": ""Requisitos de sintonização"",
  ""value"": ""Valor estimado em PO""
}"
    case Location =>
      @"Retorne a resposta APENAS em formato JSON com a seguinte estrutura:
{
  ""name"": ""Nome do Local"",
  ""type"": ""Tipo de localização"",
  ""size"": ""Tamanho"",
  ""description"": ""Descrição geral"",
  ""atmosphere"": ""Atmosfera e sensação do local"",
  ""history"": ""História do local"",
  ""pointsOfInterest"": [
    {""name"": ""Ponto 1"", ""description"": ""Descrição""}
  ],
  ""npcs"": [
    {""name"": ""NPC 1"", ""role"": ""Papel no local""}
  ],
  ""secrets"": [""Segredo 1"", ""Segredo 2""],
  ""encounters"": [""Encontro possível 1"", ""Encontro possível 2""],
  ""loot"": ""Tesouros ou recompensas disponíveis"",
  ""hooks"": [""Gancho de aventura 1"", ""Gancho de aventura 2""]
}"
    case Story =>
      @"Retorne a resposta APENAS em formato JSON com a seguinte estrutura:
{
  ""title"": ""Título da História"",
  ""genre"": ""Gênero"",
  ""tone"": ""Tom narrativo"",
  ""summary"": ""Resumo em uma frase"",
  ""hook"": ""Gancho inicial"",
  ""introduction"": ""Introdução da história"",
  ""risingAction"": ""Desenvolvimento e complicações"",
  ""climax"": ""Clímax da história"",
  ""resolution"": ""Resolução"",
  ""themes"": [""Tema 1"", ""Tema 2""],
  ""characters"": [
    {""name"": ""Personagem"", ""role"": ""Papel na história""}
  ],
  ""twists"": [""Reviravolta 1"", ""Reviravolta 2""],
  ""possibleEndings"": [""Final 1"", ""Final 2""]
}"
    case Quest =>
      @"Retorne a resposta APENAS em formato JSON com a seguinte estrutura:
{
  ""title"": ""Título da Quest"",
  ""type"": ""Tipo de quest"",
  ""difficulty"": ""Dificuldade"",
  ""level"": ""Nível sugerido"",
  ""summary"": ""Resumo da quest"",
  ""questGiver"": ""Quem dá a quest"",
  ""objectives"": [""Objetivo 1"", ""Objetivo 2""],
  ""description"": ""Descrição detalhada"",
  ""challenges"": [
    {""type"": ""Tipo"", ""description"": ""Descrição""}
  ],
  ""locations"": [""Local 1"", ""Local 2""],
  ""npcs"": [
    {""name"": ""NPC"", ""role"": ""Papel""}
  ],
  ""rewards"": {
    ""experience"": ""XP"",
    ""gold"": ""Ouro"",
    ""items"": [""Item 1"", ""Item 2""],
    ""reputation"": ""Reputação ganha""
  },
  ""consequences"": ""Consequências de sucesso/falha"",
  ""hooks"": [""Gancho para próxima aventura""]
}"
  }

  /** One optional field of a prompt: its label and its value. */
  datatype Field = Text(caption: string, text: Option<string>) | Number(caption: string, number: Option<int>)

  predicate Present(f: Field) {
    match f
    case Text(_, t) => TruthyString(t)
    case Number(_, n) => TruthyInt(n)
  }

  /** How a present field's value prints inside the template. */
  function ValueText(f: Field): string
    requires Present(f)
  {
    match f
    case Text(_, t) => t.value
    case Number(_, n) => IntToString(n.value)
  }

  /** `${value ? `- Label: ${value}` : ""}`. */
  function FieldLine(f: Field): string {
    if Present(f) then "- " + f.caption + ": " + ValueText(f) else ""
  }

  /** The fields each generator lists, in order. */
  function Fields(g: GenerationType, input: PromptInput): (fs: seq<Field>)
    ensures |fs| >= 4
    ensures fs[|fs| - 2] == Text("Cenário", input.setting)
    ensures fs[|fs| - 1] == Text("Contexto adicional", input.additionalContext)
  {
    match g
    case Npc =>
      [Text("Raça", input.race), Text("Classe", input.characterClass), Text("Alinhamento", input.alignment),
       Number("Nível", input.level), Text("Cenário", input.setting),
       Text("Contexto adicional", input.additionalContext)]
    case Item =>
      [Text("Tipo", input.itemType), Text("Raridade", input.rarity), Number("Nível sugerido", input.level),
       Text("Cenário", input.setting), Text("Contexto adicional", input.additionalContext)]
    case Location =>
      [Text("Tipo", input.locationType), Text("Tamanho", input.size),
       Text("Cenário", input.setting), Text("Contexto adicional", input.additionalContext)]
    case Story =>
      [Text("Gênero", input.genre), Text("Tom", input.tone), Text("Tamanho", input.length),
       Text("Cenário", input.setting), Text("Contexto adicional", input.additionalContext)]
    case Quest =>
      [Text("Tipo", input.questType), Text("Dificuldade", input.difficulty),
       Number("Nível do grupo", input.partyLevel),
       Text("Cenário", input.setting), Text("Contexto adicional", input.additionalContext)]
  }

  function FieldLines(fs: seq<Field>): (lines: seq<string>)
    ensures |lines| == |fs|
    ensures forall i :: 0 <= i < |fs| ==> lines[i] == FieldLine(fs[i])
  {
    if fs == [] then [] else [FieldLine(fs[0])] + FieldLines(fs[1..])
  }

  /** The lines of the template, each on a line of its own after the header. */
  function LinesBlock(lines: seq<string>): string {
    if lines == [] then "" else LinesBlock(lines[..|lines| - 1]) + "\n" + lines[|lines| - 1]
  }

  /** A user message: the header, one line per field, a blank line and the reply template. */
  function Compose(header: string, lines: seq<string>, footer: string): string {
    header + LinesBlock(lines) + "\n\n" + footer
  }

  function UserPrompt(g: GenerationType, input: PromptInput): string {
    Compose(Header(g), FieldLines(Fields(g, input)), Footer(g))
  }

  /** `generateNPCPrompt` ... `generateQuestPrompt`: the system message, then the user message. */
  function GeneratePrompt(g: GenerationType, input: PromptInput): (m: seq<Message>)
    ensures |m| == 2 && m[0].role == System && m[1].role == User
  {
    [Message(System, SystemPrompt(g)), Message(User, UserPrompt(g, input))]
  }

  /** `getPromptMessages`: dispatch on `type`; any other value throws. */
  function GetPromptMessages(input: PromptInput): (r: Result<seq<Message>, string>)
    ensures r.Success? <==> exists g :: GenerationTypeName(g) == input.kind
    ensures r.Success? ==> r.value == GeneratePrompt(ParseGenerationType(input.kind).value, input)
    ensures r.Success? ==> GenerationTypeName(ParseGenerationType(input.kind).value) == input.kind
    ensures r.Failure? ==> r.error == "Invalid generation type"
  {
    match ParseGenerationType(input.kind)
    case Some(g) => Success(GeneratePrompt(g, input))
    case None => Failure("Invalid generation type")
  }

  // ---------------------------------------------------------------------
  // Properties of the assembled prompt
  // ---------------------------------------------------------------------

  /** A field contributes a non-empty line exactly when it is present, and the value appears unchanged. */
  lemma FieldLineShowsValue(f: Field)
    ensures FieldLine(f) != "" <==> Present(f)
    ensures Present(f) ==>
      var prefix := "- " + f.caption + ": ";
      |prefix| <= |FieldLine(f)| && FieldLine(f)[..|prefix|] == prefix && FieldLine(f)[|prefix|..] == ValueText(f)
  {
    if Present(f) {
      var prefix := "- " + f.caption + ": ";
      assert FieldLine(f) == prefix + ValueText(f);
    }
  }

  lemma {:induction false} LinesBlockConcat(a: seq<string>, b: seq<string>)
    ensures LinesBlock(a + b) == LinesBlock(a) + LinesBlock(b)
    decreases |b|
  {
    if b == [] {
      assert a + b == a;
    } else {
      var init := b[..|b| - 1];
      assert (a + b)[..|a + b| - 1] == a + init;
      LinesBlockConcat(a, init);
    }
  }

  /** The i-th line sits on a line of its own, between the lines before it and the lines after it. */
  lemma LinesBlockSplit(lines: seq<string>, i: nat)
    requires i < |lines|
    ensures LinesBlock(lines) == LinesBlock(lines[..i]) + "\n" + lines[i] + LinesBlock(lines[i + 1..])
  {
    var front, after := lines[..i + 1], lines[i + 1..];
    assert lines == front + after;
    LinesBlockConcat(front, after);
    LinesBlockPrefix(lines, i);
  }

  /** Taking one more line adds it on a line of its own. */
  lemma LinesBlockPrefix(lines: seq<string>, i: nat)
    requires i < |lines|
    ensures LinesBlock(lines[..i + 1]) == LinesBlock(lines[..i]) + "\n" + lines[i]
  {
    assert lines[..i + 1][..i] == lines[..i];
  }

  /** Whatever the lines, a user message opens with its header and closes with its template. */
  lemma ComposeFrames(header: string, lines: seq<string>, footer: string)
    ensures header <= Compose(header, lines, footer)
    ensures |footer| <= |Compose(header, lines, footer)|
    ensures Compose(header, lines, footer)[|Compose(header, lines, footer)| - |footer|..] == footer
  {
    var c := Compose(header, lines, footer);
    assert c == header + (LinesBlock(lines) + "\n\n" + footer);
    assert c == (header + LinesBlock(lines) + "\n\n") + footer;
  }

  /**
   * In a user message, the i-th line comes right after the header and the
   * lines before it, on a line of its own, and the rest follows unchanged.
   */
  lemma ComposePlacesLine(header: string, lines: seq<string>, footer: string, i: nat)
    requires i < |lines|
    ensures Compose(header, lines, footer)
         == header + LinesBlock(lines[..i]) + "\n" + lines[i] + LinesBlock(lines[i + 1..]) + "\n\n" + footer
  {
    LinesBlockSplit(lines, i);
  }

  /** Two field lists that print the same lines. */
  lemma {:induction false} SameFieldLines(fs: seq<Field>, hs: seq<Field>)
    requires |fs| == |hs|
    requires forall i :: 0 <= i < |fs| ==> FieldLine(fs[i]) == FieldLine(hs[i])
    ensures FieldLines(fs) == FieldLines(hs)
  {
    assert forall i :: 0 <= i < |fs| ==> FieldLines(fs)[i] == FieldLines(hs)[i];
  }

  /** Two inputs whose fields print the same lines get the same user message. */
  lemma SameLinesSamePrompt(g: GenerationType, a: PromptInput, b: PromptInput)
    requires |Fields(g, a)| == |Fields(g, b)|
    requires forall i :: 0 <= i < |Fields(g, a)| ==> FieldLine(Fields(g, a)[i]) == FieldLine(Fields(g, b)[i])
    ensures UserPrompt(g, a) == UserPrompt(g, b)
  {
    SameFieldLines(Fields(g, a), Fields(g, b));
  }

  /** A level (or party level) of 0 prompts exactly as an absent one. */
  lemma ZeroLevelIsAbsent(g: GenerationType, input: PromptInput)
    ensures UserPrompt(g, input.(level := Some(0), partyLevel := Some(0)))
         == UserPrompt(g, input.(level := None, partyLevel := None))
  {
    var a, b := input.(level := Some(0), partyLevel := Some(0)), input.(level := None, partyLevel := None);
    forall i | 0 <= i < |Fields(g, a)|
      ensures FieldLine(Fields(g, a)[i]) == FieldLine(Fields(g, b)[i])
    {
      var f, h := Fields(g, a)[i], Fields(g, b)[i];
      if f.Number? {
        assert !Present(f) && !Present(h);
      } else {
        assert f == h;
      }
    }
    SameLinesSamePrompt(g, a, b);
  }

  /** An empty setting or context prompts exactly as an absent one. */
  lemma EmptyTextIsAbsent(g: GenerationType, input: PromptInput)
    ensures UserPrompt(g, input.(setting := Some(""), additionalContext := Some("")))
         == UserPrompt(g, input.(setting := None, additionalContext := None))
  {
    SameLinesSamePrompt(g, input.(setting := Some(""), additionalContext := Some("")), input.(setting := None, additionalContext := None));
  }

  /** With every field absent, the user message is the header, one blank line per field, and the template. */
  lemma {:induction false} AbsentFieldsLeaveBlankLines(fs: seq<Field>)
    requires forall i :: 0 <= i < |fs| ==> !Present(fs[i])
    ensures |LinesBlock(FieldLines(fs))| == |fs|
    ensures forall j :: 0 <= j < |fs| ==> LinesBlock(FieldLines(fs))[j] == '\n'
    decreases |fs|
  {
    if fs != [] {
      var init := fs[..|fs| - 1];
      AbsentFieldsLeaveBlankLines(init);
      assert FieldLines(fs)[..|fs| - 1] == FieldLines(init);
    }
  }
}
