/**
 * The spec wizard of `ugudu spec new` (`cmd/ugudu/spec.go`): the menu
 * choices, the preset role lists, the interactive collection of custom
 * roles, and the client-facing list and provider fill that follow it.
 * Standard input is a script of lines; what the wizard prints, and the
 * YAML it writes, are not modelled.
 */
module CliSpec {
  import opened Wrappers
  import opened GoStrings

  datatype RoleConfig = RoleConfig(
    id: string, title: string, name: string, names: seq<string>, visibility: string,
    provider: string, model: string, persona: string, canDelegate: seq<string>,
    reportsTo: string, count: int)

  /** A role with only the fields the custom-role wizard asks for. */
  function NewRole(id: string, title: string, visibility: string, persona: string, reportsTo: string, count: int): RoleConfig {
    RoleConfig(id, title, "", [], visibility, "", "", persona, [], reportsTo, count)
  }

  // ---------------------------------------------------------------- menus

  /** `parseTeamType`. */
  function ParseTeamType(choice: string): (t: string)
    ensures t in {"dev", "trading", "research", "support", "custom"}
    ensures t == "custom" <==> choice !in {"1", "2", "3", "4"}
    ensures choice == "1" ==> t == "dev"
    ensures choice == "2" ==> t == "trading"
    ensures choice == "3" ==> t == "research"
    ensures choice == "4" ==> t == "support"
  {
    if choice == "1" then "dev"
    else if choice == "2" then "trading"
    else if choice == "3" then "research"
    else if choice == "4" then "support"
    else "custom"
  }

  /** `parseProvider`: anthropic unless "2", "3" or "4" is chosen. */
  function ParseProvider(choice: string): (p: string)
    ensures p in {"anthropic", "openai", "ollama", "groq"}
    ensures p == "anthropic" <==> choice !in {"2", "3", "4"}
    ensures choice == "2" ==> p == "openai"
    ensures choice == "3" ==> p == "ollama"
    ensures choice == "4" ==> p == "groq"
  {
    if choice == "2" then "openai"
    else if choice == "3" then "ollama"
    else if choice == "4" then "groq"
    else "anthropic"
  }

  const AnthropicModel := "claude-sonnet-4-20250514"

  /** `getDefaultModel`: each provider's model, the Anthropic one for anything else. */
  function DefaultModel(provider: string): (m: string)
    ensures provider == "openai" ==> m == "gpt-4o"
    ensures provider == "ollama" ==> m == "llama3.2"
    ensures provider == "groq" ==> m == "llama-3.1-70b-versatile"
    ensures provider !in {"openai", "ollama", "groq"} ==> m == AnthropicModel
  {
    if provider == "openai" then "gpt-4o"
    else if provider == "ollama" then "llama3.2"
    else if provider == "groq" then "llama-3.1-70b-versatile"
    else AnthropicModel
  }

  /** Every menu choice leads to a provider with a model of its own. */
  lemma ChosenProviderHasModel(choice: string)
    ensures DefaultModel(ParseProvider(choice)) != ""
    ensures ParseProvider(choice) == "anthropic" ==> DefaultModel(ParseProvider(choice)) == AnthropicModel
  {
  }

  // ---------------------------------------------------------------- presets

  /**
   * A preset role is given in two parts: its place in the team (ID,
   * visibility, delegates, reporting line, member names and count) and its
   * texts (title, personal name, persona).
   */
  datatype Shape = Shape(id: string, visibility: string, canDelegate: seq<string>, reportsTo: string, names: seq<string>, count: int)

  datatype Texts = Texts(title: string, name: string, persona: string)

  function RoleOf(s: Shape, t: Texts): RoleConfig {
    RoleConfig(s.id, t.title, t.name, s.names, s.visibility, "", "", t.persona, s.canDelegate, s.reportsTo, s.count)
  }

  /** The roles of a preset: each shape with its texts. */
  function Assemble(shapes: seq<Shape>, texts: seq<Texts>): (roles: seq<RoleConfig>)
    ensures |roles| == |shapes|
  {
    seq(|shapes|, i requires 0 <= i < |shapes| => RoleOf(shapes[i], if i < |texts| then texts[i] else Texts("", "", "")))
  }

  function Lead(id: string, canDelegate: seq<string>): Shape {
    Shape(id, "client", canDelegate, "", [], 0)
  }

  function Member(id: string, reportsTo: string): Shape {
    Shape(id, "internal", [], reportsTo, [], 0)
  }

  const DevShapes: seq<Shape> := [
    Lead("pm", ["ba", "engineer", "qa"]),
    Shape("ba", "client", ["engineer"], "pm", [], 0),
    Shape("engineer", "internal", [], "pm", ["Alex", "Jordan"], 2),
    Member("qa", "pm")]

  const DevTexts: seq<Texts> := [
    Texts("Product Manager", "Sarah",
      "You are Sarah, the Product Manager. Coordinate the team, gather requirements, break down tasks, and keep clients informed of progress."),
    Texts("Business Analyst", "Michael",
      "You are Michael, the Business Analyst. Clarify requirements, document specifications, and translate business needs to technical specs."),
    Texts("Software Engineer", "",
      "You are a Software Engineer. Implement features, write clean code, and follow best practices. Report progress to Sarah (PM)."),
    Texts("QA Engineer", "Taylor",
      "You are Taylor, the QA Engineer. Review code, identify bugs, design test cases, and verify implementations meet requirements.")]

  const TradingShapes: seq<Shape> := [
    Lead("lead", ["analyst", "risk", "executor"]), Member("analyst", "lead"), Member("risk", "lead"), Member("executor", "lead")]

  const TradingTexts: seq<Texts> := [
    Texts("Trading Lead", "Marcus",
      "You are Marcus, the Trading Lead. Receive trading requests, coordinate analysis, risk checks, and execution. Report results clearly."),
    Texts("Market Analyst", "Elena",
      "You are Elena, the Market Analyst. Analyze market conditions, identify opportunities, and provide research-backed recommendations."),
    Texts("Risk Manager", "David",
      "You are David, the Risk Manager. Evaluate trade risk, check portfolio exposure, and approve or reject trades based on risk criteria."),
    Texts("Trade Executor", "Nina",
      "You are Nina, the Trade Executor. Execute approved trades, monitor status, and report execution results.")]

  const ResearchShapes: seq<Shape> := [
    Lead("lead", ["researcher", "writer"]),
    Shape("researcher", "internal", [], "lead", ["Priya", "James"], 2),
    Member("writer", "lead")]

  const ResearchTexts: seq<Texts> := [
    Texts("Research Lead", "Dr. Chen",
      "You are Dr. Chen, the Research Lead. Receive research requests, break them down, assign to researchers, and compile findings."),
    Texts("Researcher", "",
      "You are a Researcher. Investigate topics thoroughly, gather information, analyze data, and report findings to Dr. Chen."),
    Texts("Technical Writer", "Emma",
      "You are Emma, the Technical Writer. Compile research into clear, professional reports and documentation.")]

  const SupportShapes: seq<Shape> := [
    Lead("triage", ["technical", "billing", "general"]), Member("technical", "triage"), Member("billing", "triage"), Member("general", "triage")]

  const SupportTexts: seq<Texts> := [
    Texts("Support Triage", "Chris",
      "You are Chris, Support Triage. Receive customer inquiries, categorize issues, and route to appropriate specialists."),
    Texts("Technical Specialist", "Maya",
      "You are Maya, a Technical Specialist. Resolve technical issues, debug problems, and provide technical solutions."),
    Texts("Billing Specialist", "Ryan",
      "You are Ryan, the Billing Specialist. Handle billing inquiries, process refunds, and resolve payment issues."),
    Texts("General Support", "Kim",
      "You are Kim, General Support. Handle general inquiries, provide information, and escalate complex issues.")]

  /** The place in the team of each role of a preset. */
  function PresetShapes(teamType: string): seq<Shape> {
    if teamType == "dev" then DevShapes
    else if teamType == "trading" then TradingShapes
    else if teamType == "research" then ResearchShapes
    else if teamType == "support" then SupportShapes
    else []
  }

  function PresetTexts(teamType: string): seq<Texts> {
    if teamType == "dev" then DevTexts
    else if teamType == "trading" then TradingTexts
    else if teamType == "research" then ResearchTexts
    else if teamType == "support" then SupportTexts
    else []
  }

  /** `getPresetRoles`: the fixed list of each preset, none for any other type. */
  function PresetRoles(teamType: string): seq<RoleConfig> {
    Assemble(PresetShapes(teamType), PresetTexts(teamType))
  }

  function Ids(roles: seq<RoleConfig>): (ids: seq<string>)
    ensures |ids| == |roles| && forall i :: 0 <= i < |roles| ==> ids[i] == roles[i].id
  {
    if roles == [] then [] else Ids(roles[..|roles| - 1]) + [roles[|roles| - 1].id]
  }

  function ShapeIds(shapes: seq<Shape>): (ids: seq<string>)
    ensures |ids| == |shapes| && forall i :: 0 <= i < |shapes| ==> ids[i] == shapes[i].id
  {
    if shapes == [] then [] else ShapeIds(shapes[..|shapes| - 1]) + [shapes[|shapes| - 1].id]
  }

  /** A team whose delegations and reporting lines only name its own roles, each role once. */
  predicate WellFormedTeam(roles: seq<RoleConfig>) {
    && Distinct(Ids(roles))
    && forall i :: 0 <= i < |roles| ==> NamesKnown(roles[i].visibility, roles[i].reportsTo, roles[i].canDelegate, Ids(roles))
  }

  predicate WellFormedShapes(shapes: seq<Shape>) {
    && Distinct(ShapeIds(shapes))
    && forall i :: 0 <= i < |shapes| ==> NamesKnown(shapes[i].visibility, shapes[i].reportsTo, shapes[i].canDelegate, ShapeIds(shapes))
  }

  predicate Distinct(ids: seq<string>) {
    forall i, j :: 0 <= i < j < |ids| ==> ids[i] != ids[j]
  }

  /** A known visibility, and a reporting line and delegates among `ids`. */
  predicate NamesKnown(visibility: string, reportsTo: string, canDelegate: seq<string>, ids: seq<string>) {
    && visibility in {"client", "internal"}
    && (reportsTo == "" || reportsTo in ids)
    && (forall d :: d in canDelegate ==> d in ids)
  }

  /** Whether a team is well formed depends only on the shapes of its roles. */
  lemma AssembledWellFormed(shapes: seq<Shape>, texts: seq<Texts>)
    requires WellFormedShapes(shapes)
    ensures WellFormedTeam(Assemble(shapes, texts))
  {
    var roles := Assemble(shapes, texts);
    assert Ids(roles) == ShapeIds(shapes);
  }

  /** Any other team type has no preset roles. */
  lemma NoPresetOtherwise(teamType: string)
    requires teamType !in {"dev", "trading", "research", "support"}
    ensures PresetRoles(teamType) == []
  {
  }

  /** A preset team: well formed, its first role client-facing and reporting to no one. */
  predicate GoodPreset(roles: seq<RoleConfig>) {
    WellFormedTeam(roles) && |roles| > 0 && roles[0].visibility == "client" && roles[0].reportsTo == ""
  }

  /** A preset's shapes: well formed, the first one client-facing and reporting to no one. */
  predicate GoodShapes(shapes: seq<Shape>) {
    WellFormedShapes(shapes) && |shapes| > 0 && shapes[0].visibility == "client" && shapes[0].reportsTo == ""
  }

  /** Every preset is a good one. */
  lemma PresetsWellFormed(teamType: string)
    requires teamType in {"dev", "trading", "research", "support"}
    ensures GoodPreset(PresetRoles(teamType))
  {
    if teamType == "dev" {
      DevGood();
    } else if teamType == "trading" {
      TradingGood();
    } else if teamType == "research" {
      ResearchGood();
    } else {
      SupportGood();
    }
  }

  lemma DevGood()
    ensures GoodPreset(PresetRoles("dev"))
  {
    DevWellFormed();
    AssembledGood(DevShapes, DevTexts);
  }

  lemma TradingGood()
    ensures GoodPreset(PresetRoles("trading"))
  {
    TradingWellFormed();
    AssembledGood(TradingShapes, TradingTexts);
  }

  lemma ResearchGood()
    ensures GoodPreset(PresetRoles("research"))
  {
    ResearchWellFormed();
    AssembledGood(ResearchShapes, ResearchTexts);
  }

  lemma SupportGood()
    ensures GoodPreset(PresetRoles("support"))
  {
    SupportWellFormed();
    AssembledGood(SupportShapes, SupportTexts);
  }

  /** Good shapes assemble into a good preset, whatever the texts. */
  lemma AssembledGood(shapes: seq<Shape>, texts: seq<Texts>)
    requires GoodShapes(shapes)
    ensures GoodPreset(Assemble(shapes, texts))
  {
    AssembledWellFormed(shapes, texts);
  }

  lemma DevWellFormed()
    ensures GoodShapes(DevShapes)
  {
    assert ShapeIds(DevShapes) == ["pm", "ba", "engineer", "qa"];
  }

  lemma TradingWellFormed()
    ensures GoodShapes(TradingShapes)
  {
    assert ShapeIds(TradingShapes) == ["lead", "analyst", "risk", "executor"];
  }

  lemma ResearchWellFormed()
    ensures GoodShapes(ResearchShapes)
  {
    assert ShapeIds(ResearchShapes) == ["lead", "researcher", "writer"];
  }

  lemma SupportWellFormed()
    ensures GoodShapes(SupportShapes)
  {
    assert ShapeIds(SupportShapes) == ["triage", "technical", "billing", "general"];
  }

  // ---------------------------------------------------------------- input

  /** `strings.TrimSpace` leaves an already trimmed string alone. */
  lemma TrimSpaceTrimmed(s: string)
    requires s == [] || (!IsSpace(s[0]) && !IsSpace(s[|s| - 1]))
    ensures TrimSpace(s) == s
  {
    assert LeadingSpaces(s) == 0;
    assert s[0..] == s;
    assert TrailingSpaces(s) == |s|;
  }

  /** The answer `prompt` gives for the line read: the trimmed line, or the default when it is blank. */
  function Answer(line: string, defaultVal: string): (a: string)
    ensures TrimSpace(line) == "" ==> a == defaultVal
    ensures TrimSpace(line) != "" ==> a == TrimSpace(line) && TrimSpace(a) == a
  {
    var t := TrimSpace(line);
    if t == "" then defaultVal else TrimSpaceTrimmed(t); t
  }

  /** Standard input: the lines still to be read; past the end a read gives "". */
  class Input {
    var lines: seq<string>
    var pos: nat

    constructor (lines: seq<string>)
      ensures this.lines == lines && pos == 0
    {
      this.lines := lines;
      pos := 0;
    }

    /** `ReadString('\n')` with its error ignored. */
    method ReadLine() returns (line: string)
      modifies this
      ensures lines == old(lines)
      ensures old(pos) < |lines| ==> line == lines[old(pos)] && pos == old(pos) + 1
      ensures old(pos) >= |lines| ==> line == "" && pos == old(pos)
    {
      if pos < |lines| {
        line := lines[pos];
        pos := pos + 1;
      } else {
        line := "";
      }
    }

    /** `prompt`. */
    method Prompt(defaultVal: string) returns (answer: string)
      modifies this
      ensures lines == old(lines)
      ensures old(pos) < |lines| ==> answer == Answer(lines[old(pos)], defaultVal) && pos == old(pos) + 1
      ensures old(pos) >= |lines| ==> answer == defaultVal && pos == old(pos)
    {
      var line := ReadLine();
      answer := Answer(line, defaultVal);
    }
  }

  // ---------------------------------------------------------------- custom roles

  /** Whether `strings.Title` starts a new word after `c` (ASCII: anything but a letter, digit or '_'). */
  predicate IsSeparator(c: char) {
    c < 128 as char && !('a' <= c <= 'z' || 'A' <= c <= 'Z' || '0' <= c <= '9' || c == '_')
  }

  /** The character of `strings.Title(s)` at `k`: upper-cased at the start of a word. */
  function TitleChar(s: string, k: nat): char
    requires k < |s|
  {
    if k == 0 || IsSeparator(s[k - 1]) then ToUpperChar(s[k]) else s[k]
  }

  /** `strings.Title`: the first letter of each word upper-cased, everything else kept. */
  function Title(s: string): (r: string)
    ensures |r| == |s|
    ensures forall k :: 0 <= k < |s| ==> r[k] == TitleChar(s, k)
  {
    seq(|s|, k requires 0 <= k < |s| => TitleChar(s, k))
  }

  /**
   * The role count: `strconv.Atoi` (0 on a syntax error, the largest `int`
   * past it), then raised to 1.
   */
  function RoleCount(s: string): (n: int)
    ensures 1 <= n <= MaxInt64
    ensures Atoi(s).Some? && 1 <= Atoi(s).value <= MaxInt64 ==> n == Atoi(s).value
    ensures Atoi(s).None? || Atoi(s).value < 1 ==> n == 1
  {
    var parsed := AtoiValue(s);
    if parsed < 1 then 1 else parsed
  }

  /** What a role asked for in the role loop looks like before delegation is set up. */
  predicate CollectedRole(r: RoleConfig, first: bool) {
    && r.id != ""
    && r.title != ""
    && r.visibility in {"client", "internal"}
    && r.count >= 1
    && r.canDelegate == []
    && r.provider == ""
    && (r.visibility == "client" || first ==> r.reportsTo == "")
  }

  predicate Collected(roles: seq<RoleConfig>) {
    forall i :: 0 <= i < |roles| ==> CollectedRole(roles[i], i == 0)
  }

  lemma CollectedAppend(roles: seq<RoleConfig>, r: RoleConfig)
    requires Collected(roles) && CollectedRole(r, roles == [])
    ensures Collected(roles + [r])
  {
    forall i | 0 <= i < |roles + [r]|
      ensures CollectedRole((roles + [r])[i], i == 0)
    {
      if i < |roles| {
        assert (roles + [r])[i] == roles[i];
      }
    }
  }

  /** The questions asked about one role whose ID is `id`, after the first role when `later`. */
  method AskRole(input: Input, id: string, firstId: string, later: bool) returns (role: RoleConfig)
    requires id != ""
    modifies input
    ensures input.lines == old(input.lines)
    ensures CollectedRole(role, !later) && role.id == id
    ensures input.pos >= old(input.pos)
  {
    var title := input.Prompt(Title(id));
    var visChoice := input.Prompt("1");
    var visibility := if visChoice == "2" then "internal" else "client";
    var persona := input.Prompt("You are the " + title + ".");
    var countStr := input.Prompt("1");
    var count := RoleCount(countStr);
    var reportsTo := "";
    if visibility == "internal" && later {
      reportsTo := input.Prompt(firstId);
    }
    role := NewRole(id, title, visibility, persona, reportsTo, count);
  }

  /**
   * The role loop of `buildCustomRoles`. An empty ID ends the list once it
   * has a role; with no role yet the wizard asks again, forever once the
   * input is exhausted, which `hangs` reports.
   */
  method CollectRoles(input: Input) returns (roles: seq<RoleConfig>, hangs: bool)
    modifies input
    ensures input.lines == old(input.lines)
    ensures Collected(roles)
    ensures hangs <==> roles == []
  {
    roles := [];
    hangs := false;
    while true
      invariant input.lines == old(input.lines)
      invariant Collected(roles)
      decreases |input.lines| - input.pos
    {
      if input.pos >= |input.lines| && roles == [] {
        hangs := true;
        return;
      }
      var id := input.Prompt("");
      if id == "" {
        if |roles| == 0 {
          continue;
        }
        break;
      }
      var role := AskRole(input, id, if roles == [] then "" else roles[0].id, roles != []);
      CollectedAppend(roles, role);
      roles := roles + [role];
      var another := input.Prompt("n");
      if ToLower(another) != "y" {
        break;
      }
    }
  }

  /** The IDs of the roles other than `id`, in order. */
  function OtherIds(roles: seq<RoleConfig>, id: string): seq<string> {
    if roles == [] then []
    else OtherIds(roles[..|roles| - 1], id) + (if roles[|roles| - 1].id != id then [roles[|roles| - 1].id] else [])
  }

  /** `OtherIds` lists each other role's ID, and nothing else. */
  lemma {:induction false} OtherIdsMembers(roles: seq<RoleConfig>, id: string)
    ensures forall x :: x in OtherIds(roles, id) <==> x != id && x in Ids(roles)
    ensures |OtherIds(roles, id)| <= |roles|
  {
    if roles != [] {
      OtherIdsMembers(roles[..|roles| - 1], id);
      assert Ids(roles) == Ids(roles[..|roles| - 1]) + [roles[|roles| - 1].id];
    }
  }

  /** The roles after the delegation step: each client role may delegate to every other role. */
  function WithDelegation(roles: seq<RoleConfig>): (out: seq<RoleConfig>)
    ensures |out| == |roles|
    ensures forall i :: 0 <= i < |roles| ==>
      out[i] == if roles[i].visibility == "client" then roles[i].(canDelegate := OtherIds(roles, roles[i].id)) else roles[i]
  {
    seq(|roles|, i requires 0 <= i < |roles| =>
      if roles[i].visibility == "client" then roles[i].(canDelegate := OtherIds(roles, roles[i].id)) else roles[i])
  }

  /** The delegation loop: `roles[i].CanDelegate` assigned for each client role. */
  method SetUpDelegation(roles: seq<RoleConfig>) returns (out: seq<RoleConfig>)
    ensures out == WithDelegation(roles)
  {
    out := roles;
    for i := 0 to |roles|
      invariant |out| == |roles|
      invariant forall j :: 0 <= j < i ==> out[j] == WithDelegation(roles)[j]
      invariant forall j :: i <= j < |roles| ==> out[j] == roles[j]
    {
      if roles[i].visibility == "client" {
        var delegates := [];
        for k := 0 to |roles|
          invariant delegates == OtherIds(roles[..k], roles[i].id)
        {
          assert roles[..k + 1][..k] == roles[..k];
          if roles[k].id != roles[i].id {
            delegates := delegates + [roles[k].id];
          }
        }
        assert roles[..|roles|] == roles;
        out := out[i := roles[i].(canDelegate := delegates)];
      }
    }
  }

  /**
   * `buildCustomRoles`: at least one role unless the input runs out first;
   * client roles may delegate to exactly the other roles, internal ones to
   * none, and reporting lines are set only on internal roles after the first.
   */
  method BuildCustomRoles(input: Input) returns (roles: seq<RoleConfig>, hangs: bool)
    modifies input
    ensures input.lines == old(input.lines)
    ensures hangs <==> roles == []
    ensures forall i :: 0 <= i < |roles| ==> roles[i].count >= 1 && roles[i].visibility in {"client", "internal"}
    ensures forall i :: 0 <= i < |roles| && roles[i].visibility == "client" ==> roles[i].canDelegate == OtherIds(roles, roles[i].id)
    ensures forall i :: 0 <= i < |roles| && roles[i].visibility == "internal" ==> roles[i].canDelegate == []
    ensures forall i :: 0 <= i < |roles| && (roles[i].visibility == "client" || i == 0) ==> roles[i].reportsTo == ""
  {
    var collected;
    collected, hangs := CollectRoles(input);
    roles := SetUpDelegation(collected);
    assert Ids(roles) == Ids(collected);
    OtherIdsSameIds(roles, collected);
  }

  /** Only IDs matter to `OtherIds`. */
  lemma {:induction false} OtherIdsSameIds(a: seq<RoleConfig>, b: seq<RoleConfig>)
    requires |a| == |b| && forall i :: 0 <= i < |a| ==> a[i].id == b[i].id
    ensures forall id :: OtherIds(a, id) == OtherIds(b, id)
  {
    if a != [] {
      OtherIdsSameIds(a[..|a| - 1], b[..|b| - 1]);
    }
  }

  // ---------------------------------------------------------------- the wizard

  /** The client-facing list: the IDs of the client roles, in order. */
  function ClientIds(roles: seq<RoleConfig>): seq<string> {
    if roles == [] then []
    else ClientIds(roles[..|roles| - 1]) + (if roles[|roles| - 1].visibility == "client" then [roles[|roles| - 1].id] else [])
  }

  /** Some client role among `roles` has the ID `x`. */
  ghost predicate HasClient(roles: seq<RoleConfig>, x: string) {
    exists i :: 0 <= i < |roles| && roles[i].visibility == "client" && roles[i].id == x
  }

  /** A role's ID is client-facing exactly when it belongs to a client role. */
  lemma {:induction false} ClientIdsMembers(roles: seq<RoleConfig>)
    ensures forall x :: x in ClientIds(roles) <==> HasClient(roles, x)
  {
    if roles != [] {
      var init := roles[..|roles| - 1];
      var last := roles[|roles| - 1];
      ClientIdsMembers(init);
      forall x
        ensures HasClient(roles, x) <==> HasClient(init, x) || (last.visibility == "client" && last.id == x)
      {
        if last.visibility == "client" && last.id == x {
          assert roles[|roles| - 1] == last;
        }
        if HasClient(roles, x) {
          var i :| 0 <= i < |roles| && roles[i].visibility == "client" && roles[i].id == x;
          if i < |init| {
            assert init[i] == roles[i];
          }
        }
        if HasClient(init, x) {
          var i :| 0 <= i < |init| && init[i].visibility == "client" && init[i].id == x;
          assert roles[i] == init[i];
        }
      }
    }
  }

  /** The client-facing loop of the interactive wizard. */
  method ClientFacing(roles: seq<RoleConfig>) returns (ids: seq<string>)
    ensures ids == ClientIds(roles)
  {
    ids := [];
    for i := 0 to |roles|
      invariant ids == ClientIds(roles[..i])
    {
      assert roles[..i + 1][..i] == roles[..i];
      if roles[i].visibility == "client" {
        ids := ids + [roles[i].id];
      }
    }
    assert roles[..|roles|] == roles;
  }

  /** The provider fill: a role without a provider gets the chosen one and its model. */
  function Filled(roles: seq<RoleConfig>, provider: string, model: string): (out: seq<RoleConfig>)
    ensures |out| == |roles|
    ensures forall i :: 0 <= i < |roles| ==>
      out[i] == if roles[i].provider == "" then roles[i].(provider := provider, model := model) else roles[i]
  {
    seq(|roles|, i requires 0 <= i < |roles| =>
      if roles[i].provider == "" then roles[i].(provider := provider, model := model) else roles[i])
  }

  /** The provider loop: `Roles[i].Provider` and `.Model` assigned where the provider is empty. */
  method FillProvider(roles: seq<RoleConfig>, provider: string, model: string) returns (out: seq<RoleConfig>)
    ensures out == Filled(roles, provider, model)
  {
    out := roles;
    for i := 0 to |roles|
      invariant |out| == |roles|
      invariant forall j :: 0 <= j < i ==> out[j] == Filled(roles, provider, model)[j]
      invariant forall j :: i <= j < |roles| ==> out[j] == roles[j]
    {
      if out[i].provider == "" {
        out := out[i := out[i].(provider := provider, model := model)];
      }
    }
  }

  /** After the fill, every role has a provider when the chosen one is not empty, and the IDs and visibilities are as before. */
  lemma FilledKeepsTeam(roles: seq<RoleConfig>, provider: string, model: string)
    requires provider != ""
    ensures forall r :: r in Filled(roles, provider, model) ==> r.provider != ""
    ensures Ids(Filled(roles, provider, model)) == Ids(roles)
    ensures ClientIds(Filled(roles, provider, model)) == ClientIds(roles)
  {
    ClientIdsFilled(roles, provider, model);
  }

  lemma {:induction false} ClientIdsFilled(roles: seq<RoleConfig>, provider: string, model: string)
    ensures ClientIds(Filled(roles, provider, model)) == ClientIds(roles)
  {
    if roles != [] {
      var init := roles[..|roles| - 1];
      ClientIdsFilled(init, provider, model);
      assert Filled(roles, provider, model)[..|roles| - 1] == Filled(init, provider, model);
    }
  }

  /** The two roles of `spec new -y`. */
  const DefaultRoles: seq<RoleConfig> := [
    RoleConfig("lead", "Team Lead", "", [], "client", "anthropic", AnthropicModel,
      "You are the team lead. Coordinate work and communicate with clients.", [], "", 0),
    RoleConfig("worker", "Worker", "", [], "internal", "anthropic", AnthropicModel,
      "You are a worker. Complete tasks assigned by the lead.", [], "lead", 0)]

  /** `spec new -y` lists as client-facing exactly its client roles, as the interactive mode would. */
  lemma DefaultsConsistent()
    ensures ClientIds(DefaultRoles) == ["lead"]
    ensures WellFormedTeam(DefaultRoles)
  {
    assert DefaultRoles[..1] == [DefaultRoles[0]];
    assert DefaultRoles[..1][..0] == [];
    assert ClientIds(DefaultRoles[..1]) == ["lead"];
    assert Ids(DefaultRoles) == ["lead", "worker"];
  }
}
