/**
 * The team-spec interview of `internal/specgen/specgen.go`: a conversation
 * with a language model that ends when a reply carries a team spec in a
 * fenced JSON block, the preview shown for such a spec, and the YAML the
 * spec is saved as.
 *
 * The provider is the `chat` oracle: a function from the request the
 * generator sends to the reply text or an error. JSON decoding is the
 * `Decoder` oracle.
 */
module SpecGen {
  import opened Wrappers
  import opened GoStrings
  import PT = ProviderTypes

  const DefaultModel := "claude-sonnet-4-20250514"

  /** The interviewer's instructions; their wording is not modelled. */
  const SystemPrompt: string

  const Greeting := "Hi, I'd like to create a new AI team. Can you help me figure out what kind of team I need?"

  const ForcePrompt := "Based on our conversation so far, please generate the team specification now.\nIf you don't have enough information, make reasonable assumptions based on what was discussed.\nRespond with the JSON spec block as described in your instructions."

  datatype RoleSpec = RoleSpec(
    id: string,
    title: string,
    name: string,
    names: seq<string>,
    visibility: string,
    count: int,
    persona: string,
    canDelegate: seq<string>,
    reportsTo: string)

  datatype TeamSpec = TeamSpec(name: string, description: string, roles: seq<RoleSpec>, clientFacing: seq<string>)

  /**
   * What `json.Unmarshal` makes of a JSON text: as the `{ready, spec}`
   * wrapper (`None` when it does not decode, `Some(None)` when "spec" is
   * null or absent), and as a bare spec (`None` when it does not decode).
   */
  datatype Decoder = Decoder(wrapped: string -> Option<Option<TeamSpec>>, direct: string -> Option<TeamSpec>)

  /** The generator keeps only the provider, which is the `chat` oracle here, and the model name. */
  datatype Generator = Generator(model: string)

  /** `NewGenerator`: an empty model name selects the default model. */
  function NewGenerator(model: string): (g: Generator)
    ensures g.model != ""
    ensures model != "" ==> g.model == model
    ensures model == "" ==> g.model == DefaultModel
  {
    Generator(if model == "" then DefaultModel else model)
  }

  /** The request `chat` sends: the generator's model and the whole conversation. */
  function Request(g: Generator, messages: seq<PT.Message>): PT.ChatRequest {
    PT.ChatRequest(g.model, messages, [], None, None, [])
  }

  // ---------------------------------------------------------------------
  // Locating and decoding the spec
  // ---------------------------------------------------------------------

  /** The fence `extractSpec` starts from: the first "```json", else the first "```". */
  function Fence(content: string): (f: int)
    ensures f >= 0 ==> At(content, "```", f)
    ensures f < 0 <==> !Contains(content, "```")
  {
    var j := Index(content, "```json");
    if j >= 0 then
      assert content[j..j + 3] == content[j..j + 7][..3];
      j
    else
      Index(content, "```")
  }

  datatype Span = Span(start: nat, end: nat)

  /** Where `extractSpec`'s JSON text lies: from the first "{" after the fence to the last "}" (start, end exclusive). */
  function BlockSpan(content: string): (r: Option<Span>)
    ensures r.Some? ==> Fence(content) >= 0 && r.value.start < r.value.end <= |content|
  {
    var f := Fence(content);
    if f < 0 then None
    else
      var k := Index(content[f..], "{");
      if k < 0 then None
      else
        var end := LastIndex(content, "}");
        if end < 0 || end < f + k then None
        else Some(Span(f + k, end + 1))
  }

  /** The JSON text `extractSpec` hands to the decoder. */
  function JsonBlock(content: string): (r: Option<string>)
  {
    match BlockSpan(content)
    case None => None
    case Some(sp) => Some(content[sp.start..sp.end])
  }

  /** The first `c` in `s`, as `strings.Index` finds it. */
  lemma FirstByte(s: string, c: string)
    requires |c| == 1 && Index(s, c) >= 0
    ensures var k := Index(s, c); k < |s| && s[k] == c[0] && forall j :: 0 <= j < k ==> s[j] != c[0]
  {
    var k := Index(s, c);
    assert s[k..k + 1] == c;
    forall j | 0 <= j < k
      ensures s[j] != c[0]
    {
      assert !At(s, c, j);
      assert s[j..j + 1] == [s[j]];
    }
  }

  /** The last `c` in `s`, as `strings.LastIndex` finds it. */
  lemma LastByte(s: string, c: string)
    requires |c| == 1 && LastIndex(s, c) >= 0
    ensures var k := LastIndex(s, c); k < |s| && s[k] == c[0] && forall j :: k < j < |s| ==> s[j] != c[0]
  {
    var k := LastIndex(s, c);
    assert s[k..k + 1] == c;
    forall j | k < j < |s|
      ensures s[j] != c[0]
    {
      assert !At(s, c, j);
      assert s[j..j + 1] == [s[j]];
    }
  }

  /**
   * Where the block lies: it starts with the first "{" after a "```"
   * fence (the first "```json" when there is one) and ends with the last
   * "}" of the reply; a reply without a fence has no block.
   */
  lemma BlockSpanLocated(content: string, sp: Span)
    requires BlockSpan(content) == Some(sp)
    ensures var f := Fence(content);
      && At(content, "```", f) && f + 3 <= sp.start
      && content[sp.start] == '{' && content[sp.end - 1] == '}'
      && (forall j :: f <= j < sp.start ==> content[j] != '{')
      && (forall j :: sp.end <= j < |content| ==> content[j] != '}')
  {
    BlockStart(content, sp);
    BlockEnd(content, sp);
  }

  /** The block starts with the first "{" past the fence. */
  lemma BlockStart(content: string, sp: Span)
    requires BlockSpan(content) == Some(sp)
    ensures var f := Fence(content);
      && At(content, "```", f) && f + 3 <= sp.start
      && content[sp.start] == '{'
      && (forall j :: f <= j < sp.start ==> content[j] != '{')
  {
    var f := Fence(content);
    BlockSpanValue(content);
    assert content[f..f + 3] == "```";
    BraceAfter(content, f);
  }

  /** The block ends with the last "}" of the reply. */
  lemma BlockEnd(content: string, sp: Span)
    requires BlockSpan(content) == Some(sp)
    ensures content[sp.end - 1] == '}'
    ensures forall j :: sp.end <= j < |content| ==> content[j] != '}'
  {
    BlockSpanValue(content);
    LastByte(content, "}");
  }

  /** The first "{" after a fence at `f` lies past the fence, with no "{" between. */
  lemma BraceAfter(content: string, f: nat)
    requires f + 3 <= |content| && content[f..f + 3] == "```" && Index(content[f..], "{") >= 0
    ensures var k := Index(content[f..], "{");
      && 3 <= k && f + k < |content| && content[f + k] == '{'
      && forall j :: f <= j < f + k ==> content[j] != '{'
  {
    var t := content[f..];
    var k := Index(t, "{");
    assert t[..3] == content[f..f + 3];
    BraceAfterFence(t);
    assert content[f + k] == t[k];
    forall j | f <= j < f + k
      ensures content[j] != '{'
    {
      assert content[j] == t[j - f];
    }
  }

  lemma BlockSpanValue(content: string)
    requires BlockSpan(content).Some?
    ensures BlockSpan(content).value == Span(Fence(content) + Index(content[Fence(content)..], "{"), LastIndex(content, "}") + 1)
  {
  }

  /** In a text opening with a fence, the first "{" comes after the fence. */
  lemma BraceAfterFence(t: string)
    requires |t| >= 3 && t[..3] == "```" && Index(t, "{") >= 0
    ensures var k := Index(t, "{"); 3 <= k < |t| && t[k] == '{' && forall j :: 0 <= j < k ==> t[j] != '{'
  {
    FirstByte(t, "{");
    assert t[0] == '`' && t[1] == '`' && t[2] == '`' by {
      assert t[..3][0] == t[0] && t[..3][1] == t[1] && t[..3][2] == t[2];
    }
  }

  /** The fence is the first "```json" when there is one; without any "```" there is no block. */
  lemma FenceFirst(content: string)
    ensures Contains(content, "```json") ==> Fence(content) == Index(content, "```json")
    ensures !Contains(content, "```") ==> BlockSpan(content) == None
  {
  }

  /** `extractSpec`: the wrapped spec when it decodes and is non-null, else a bare spec with at least one role. */
  function ExtractSpec(content: string, d: Decoder): (r: Option<TeamSpec>)
  {
    match JsonBlock(content)
    case None => None
    case Some(b) =>
      match d.wrapped(b)
      case Some(Some(spec)) => Some(spec)
      case _ =>
        match d.direct(b)
        case Some(spec) => if |spec.roles| > 0 then Some(spec) else None
        case None => None
  }

  /** Which decodings `extractSpec` accepts, and that a spec needs a fenced, braced block. */
  lemma ExtractSpecAccepts(content: string, d: Decoder)
    ensures ExtractSpec(content, d).Some? <==>
      JsonBlock(content).Some? &&
      ((d.wrapped(JsonBlock(content).value).Some? && d.wrapped(JsonBlock(content).value).value.Some?) ||
       (d.direct(JsonBlock(content).value).Some? && |d.direct(JsonBlock(content).value).value.roles| > 0))
    ensures ExtractSpec(content, d).Some? ==> Contains(content, "```") && BlockSpan(content).Some?
    ensures match ExtractSpec(content, d)
      case None => true
      case Some(s) =>
        var b := JsonBlock(content).value;
        d.wrapped(b) == Some(Some(s)) || (d.direct(b) == Some(s) && |s.roles| > 0)
  {
    if BlockSpan(content).Some? {
      BlockSpanLocated(content, BlockSpan(content).value);
    }
  }

  /** A reply without any backquote, as the interview questions are, never completes the conversation. */
  lemma QuestionIsNoSpec(content: string, d: Decoder)
    requires '`' !in content
    ensures ExtractSpec(content, d) == None
  {
    forall j | 0 <= j <= |content|
      ensures !At(content, "```", j)
    {
      if j + 3 <= |content| {
        assert content[j..j + 3][0] == content[j];
      }
    }
  }

  // ---------------------------------------------------------------------
  // Preview
  // ---------------------------------------------------------------------

  /** The name(s) the preview shows: the joined names of a multi-member role, else the name, else the title. */
  function NameDisplay(r: RoleSpec): string {
    if r.count > 1 && |r.names| > 0 then Join(r.names, ", ")
    else if r.name != "" then r.name
    else r.title
  }

  /** The UTF-8 bytes of the sparkles, bust and padlock emoji. */
  const Sparkles := "\U{E2}\U{9C}\U{A8}"
  const ClientMark := "\U{F0}\U{9F}\U{91}\U{A4}"
  const InternalMark := "\U{F0}\U{9F}\U{94}\U{92}"

  function Mark(r: RoleSpec): string {
    if r.visibility == "client" then ClientMark else InternalMark
  }

  function RoleLine(r: RoleSpec): string {
    "  " + Mark(r) + " " + NameDisplay(r) + " - " + r.title + "\n"
  }

  function RoleLines(roles: seq<RoleSpec>): string {
    if roles == [] then "" else RoleLines(roles[..|roles| - 1]) + RoleLine(roles[|roles| - 1])
  }

  function PreviewHead(spec: TeamSpec): string {
    "\n" + Sparkles + " I've designed a team for you!\n\n" + "**Team: " + spec.name + "**\n" + spec.description + "\n\n" + "**Team Members:**\n"
  }

  const PreviewLegend := "\n" + ClientMark + " = client-facing, " + InternalMark + " = internal\n"

  /** What `formatSpecPreview` writes. */
  function Preview(spec: TeamSpec): string {
    PreviewHead(spec) + RoleLines(spec.roles) + PreviewLegend
  }

  /** `formatSpecPreview`: the heading, one line per role in order, the legend. */
  method FormatSpecPreview(spec: TeamSpec) returns (p: string)
    ensures p == Preview(spec)
  {
    var sb := PreviewHead(spec);
    ghost var head := sb;
    var i := 0;
    while i < |spec.roles|
      invariant 0 <= i <= |spec.roles|
      invariant sb == head + RoleLines(spec.roles[..i])
    {
      var line := FormatRoleLine(spec.roles[i]);
      assert spec.roles[..i + 1][..i] == spec.roles[..i];
      AppendAssoc(head, RoleLines(spec.roles[..i]), line);
      sb := sb + line;
      i := i + 1;
    }
    assert spec.roles[..|spec.roles|] == spec.roles;
    p := sb + PreviewLegend;
  }

  /** One role's line of the preview. */
  method FormatRoleLine(role: RoleSpec) returns (line: string)
    ensures line == RoleLine(role)
  {
    var visibility := InternalMark;
    if role.visibility == "client" {
      visibility := ClientMark;
    }
    var nameDisplay: string;
    if role.count > 1 && |role.names| > 0 {
      nameDisplay := Join(role.names, ", ");
    } else if role.name != "" {
      nameDisplay := role.name;
    } else {
      nameDisplay := role.title;
    }
    line := "  " + visibility + " " + nameDisplay + " - " + role.title + "\n";
  }

  /** Every role's line occurs in the role section. */
  lemma {:induction false} RoleLinesShow(roles: seq<RoleSpec>, i: nat)
    requires i < |roles|
    ensures Contains(RoleLines(roles), RoleLine(roles[i]))
    decreases |roles|
  {
    var init := roles[..|roles| - 1];
    if i == |roles| - 1 {
      ContainsSelf(RoleLine(roles[i]));
      ContainsExtend(RoleLine(roles[i]), RoleLines(init), RoleLine(roles[i]));
    } else {
      RoleLinesShow(init, i);
      assert init[i] == roles[i];
      ContainsExtend(RoleLines(init), RoleLine(roles[|roles| - 1]), RoleLine(roles[i]));
    }
  }

  /** Every role of the spec gets its own line in the preview. */
  lemma PreviewShowsEveryRole(spec: TeamSpec)
    ensures forall r :: r in spec.roles ==> Contains(Preview(spec), RoleLine(r))
  {
    forall r | r in spec.roles
      ensures Contains(Preview(spec), RoleLine(r))
    {
      var i :| 0 <= i < |spec.roles| && spec.roles[i] == r;
      RoleLinesShow(spec.roles, i);
      ContainsExtend(RoleLines(spec.roles), PreviewHead(spec), RoleLine(r));
      ContainsExtend(PreviewHead(spec) + RoleLines(spec.roles), PreviewLegend, RoleLine(r));
    }
  }

  // ---------------------------------------------------------------------
  // Truncation
  // ---------------------------------------------------------------------

  /** specgen's `truncate`: the string when it fits, else its first maxLen-3 bytes and "..." (slicing panics below 3). */
  function TruncateTo(s: string, maxLen: int): (r: string)
    requires |s| <= maxLen || maxLen >= 3
  {
    if |s| <= maxLen then s else s[..maxLen - 3] + "..."
  }

  /** The result never exceeds `maxLen`; a cut result is exactly `maxLen` long and ends in "...". */
  lemma TruncateToFits(s: string, maxLen: int)
    requires |s| <= maxLen || maxLen >= 3
    ensures |TruncateTo(s, maxLen)| <= maxLen
    ensures |s| <= maxLen <==> TruncateTo(s, maxLen) == s
    ensures |s| > maxLen ==>
      && |TruncateTo(s, maxLen)| == maxLen && HasSuffix(TruncateTo(s, maxLen), "...")
      && HasPrefix(s, TruncateTo(s, maxLen)[..maxLen - 3])
    ensures TruncateTo(TruncateTo(s, maxLen), maxLen) == TruncateTo(s, maxLen)
  {
  }

  /** The cases of the package's own table test. */
  lemma TruncateToExamples()
    ensures TruncateTo("short", 10) == "short"
    ensures TruncateTo("this is a long string", 10) == "this is..."
    ensures TruncateTo("exactly10!", 10) == "exactly10!"
    ensures TruncateTo("", 10) == ""
  {
  }

  // ---------------------------------------------------------------------
  // YAML
  // ---------------------------------------------------------------------

  /** The indentation levels `ToYAML` writes. */
  datatype Indent = Flush | Two | Four | Six

  /** One `WriteString` of `ToYAML`: an indented text and a newline. */
  datatype Line = Line(indent: Indent, text: string)

  function Pad(i: Indent): string {
    match i
    case Flush => ""
    case Two => "  "
    case Four => "    "
    case Six => "      "
  }

  function RenderLine(l: Line): string {
    Pad(l.indent) + l.text + "\n"
  }

  function Render(ls: seq<Line>): string {
    if ls == [] then "" else Render(ls[..|ls| - 1]) + RenderLine(ls[|ls| - 1])
  }

  lemma {:induction false} RenderAppend(a: seq<Line>, b: seq<Line>)
    ensures Render(a + b) == Render(a) + Render(b)
    decreases |b|
  {
    if b != [] {
      var init := b[..|b| - 1];
      RenderAppend(a, init);
      assert (a + b)[..|a + b| - 1] == a + init;
      assert (a + b)[|a + b| - 1] == b[|b| - 1];
      AppendAssoc(Render(a), Render(init), RenderLine(b[|b| - 1]));
    } else {
      assert a + b == a;
    }
  }

  /** A YAML list: one "- x" line per element, in order. */
  function Items(i: Indent, xs: seq<string>): (ls: seq<Line>)
    ensures |ls| == |xs|
  {
    if xs == [] then [] else Items(i, xs[..|xs| - 1]) + [Line(i, "- " + xs[|xs| - 1])]
  }

  lemma {:induction false} ItemsAt(i: Indent, xs: seq<string>)
    ensures forall k :: 0 <= k < |xs| ==> Items(i, xs)[k] == Line(i, "- " + xs[k])
    decreases |xs|
  {
    if xs != [] {
      ItemsAt(i, xs[..|xs| - 1]);
    }
  }

  /** A block scalar's body: each line of the text at six spaces. */
  function Indented(ls: seq<string>): (r: seq<Line>)
    ensures |r| == |ls|
  {
    if ls == [] then [] else Indented(ls[..|ls| - 1]) + [Line(Six, ls[|ls| - 1])]
  }

  lemma {:induction false} IndentedAt(ls: seq<string>)
    ensures forall k :: 0 <= k < |ls| ==> Indented(ls)[k] == Line(Six, ls[k])
    decreases |ls|
  {
    if ls != [] {
      IndentedAt(ls[..|ls| - 1]);
    }
  }

  /** A role written with several names gets a "names" list, else a single "name" when it has one. */
  predicate ListsNames(r: RoleSpec) {
    r.count > 1 && |r.names| > 0
  }

  function NameLines(r: RoleSpec): seq<Line> {
    if ListsNames(r) then [Line(Four, "names:")] + Items(Six, r.names)
    else if r.name != "" then [Line(Four, "name: " + r.name)]
    else []
  }

  function CountLines(r: RoleSpec): seq<Line> {
    if r.count > 1 then [Line(Four, "count: " + FormatInt(r.count))] else []
  }

  function ModelLines(providerName: string, model: string): seq<Line> {
    [Line(Four, "model:"), Line(Six, "provider: " + providerName), Line(Six, "model: " + model)]
  }

  function PersonaLines(persona: string): seq<Line> {
    Indented(Split(persona, '\n'))
  }

  function DelegateLines(r: RoleSpec): seq<Line> {
    if |r.canDelegate| > 0 then [Line(Four, "can_delegate:")] + Items(Six, r.canDelegate) else []
  }

  function ReportsLines(r: RoleSpec): seq<Line> {
    if r.reportsTo != "" then [Line(Four, "reports_to: " + r.reportsTo)] else []
  }

  function HeadLines(r: RoleSpec): seq<Line> {
    [Line(Two, r.id + ":"), Line(Four, "title: " + r.title)]
  }

  function VisibilityLines(r: RoleSpec): seq<Line> {
    [Line(Four, "visibility: " + r.visibility)]
  }

  function PersonaHead(): seq<Line> {
    [Line(Four, "persona: |")]
  }

  function Blank(): seq<Line> {
    [Line(Flush, "")]
  }

  /** The lines of one role's entry. */
  function RoleBlock(r: RoleSpec, providerName: string, model: string): seq<Line> {
    HeadLines(r) + NameLines(r) + VisibilityLines(r) + CountLines(r)
    + ModelLines(providerName, model) + PersonaHead() + PersonaLines(r.persona)
    + DelegateLines(r) + ReportsLines(r) + Blank()
  }

  function RoleBlocks(roles: seq<RoleSpec>, providerName: string, model: string): seq<Line> {
    if roles == [] then []
    else RoleBlocks(roles[..|roles| - 1], providerName, model) + RoleBlock(roles[|roles| - 1], providerName, model)
  }

  function YamlHead(spec: TeamSpec): seq<Line> {
    [Line(Flush, "apiVersion: ugudu/v1"), Line(Flush, "kind: Team"), Line(Flush, "metadata:"),
     Line(Two, "name: " + spec.name), Line(Two, "description: " + spec.description),
     Line(Flush, ""), Line(Flush, "client_facing:")]
  }

  /** The lines `ToYAML` writes. */
  function YamlLines(spec: TeamSpec, providerName: string, model: string): seq<Line> {
    YamlHead(spec) + Items(Two, spec.clientFacing) + [Line(Flush, ""), Line(Flush, "roles:")]
    + RoleBlocks(spec.roles, providerName, model)
  }

  /*
   * Every `WriteString` of `ToYAML` writes exactly one line, so the
   * builder is modelled as the list of lines written so far and
   * `sb.String()` as its rendering.
   */

  /** Writes a list of "- x" lines. */
  method WriteItems(sb: seq<Line>, i: Indent, xs: seq<string>) returns (r: seq<Line>)
    ensures r == sb + Items(i, xs)
  {
    r := sb;
    var k := 0;
    while k < |xs|
      invariant 0 <= k <= |xs|
      invariant r == sb + Items(i, xs[..k])
    {
      assert xs[..k + 1][..k] == xs[..k];
      r := r + [Line(i, "- " + xs[k])];
      k := k + 1;
    }
    assert xs[..|xs|] == xs;
  }

  /** Writes each line of the persona at six spaces. */
  method WritePersona(sb: seq<Line>, persona: string) returns (r: seq<Line>)
    ensures r == sb + PersonaLines(persona)
  {
    var lines := Split(persona, '\n');
    r := sb;
    var k := 0;
    while k < |lines|
      invariant 0 <= k <= |lines|
      invariant r == sb + Indented(lines[..k])
    {
      assert lines[..k + 1][..k] == lines[..k];
      r := r + [Line(Six, lines[k])];
      k := k + 1;
    }
    assert lines[..|lines|] == lines;
  }

  /** One role's entry, as the body of `ToYAML`'s role loop writes it. */
  method WriteRole(sb: seq<Line>, role: RoleSpec, providerName: string, model: string) returns (r: seq<Line>)
    ensures r == sb + RoleBlock(role, providerName, model)
  {
    r := sb + [Line(Two, role.id + ":"), Line(Four, "title: " + role.title)];
    ghost var done := [Line(Two, role.id + ":"), Line(Four, "title: " + role.title)];
    if role.count > 1 && |role.names| > 0 {
      r := r + [Line(Four, "names:")];
      r := WriteItems(r, Six, role.names);
      AppendAssoc(sb + done, [Line(Four, "names:")], Items(Six, role.names));
    } else if role.name != "" {
      r := r + [Line(Four, "name: " + role.name)];
    }
    AppendAssoc(sb, done, NameLines(role));
    done := done + NameLines(role);
    assert r == sb + done;
    r := r + [Line(Four, "visibility: " + role.visibility)];
    AppendAssoc(sb, done, [Line(Four, "visibility: " + role.visibility)]);
    done := done + [Line(Four, "visibility: " + role.visibility)];
    assert r == sb + done;
    if role.count > 1 {
      r := r + [Line(Four, "count: " + FormatInt(role.count))];
    }
    AppendAssoc(sb, done, CountLines(role));
    done := done + CountLines(role);
    assert r == sb + done;
    r := r + [Line(Four, "model:"), Line(Six, "provider: " + providerName), Line(Six, "model: " + model)];
    AppendAssoc(sb, done, ModelLines(providerName, model));
    done := done + ModelLines(providerName, model);
    assert r == sb + done;
    r := r + [Line(Four, "persona: |")];
    AppendAssoc(sb, done, [Line(Four, "persona: |")]);
    done := done + [Line(Four, "persona: |")];
    assert r == sb + done;
    r := WritePersona(r, role.persona);
    AppendAssoc(sb, done, PersonaLines(role.persona));
    done := done + PersonaLines(role.persona);
    assert r == sb + done;
    if |role.canDelegate| > 0 {
      r := r + [Line(Four, "can_delegate:")];
      r := WriteItems(r, Six, role.canDelegate);
      AppendAssoc(sb + done, [Line(Four, "can_delegate:")], Items(Six, role.canDelegate));
    }
    AppendAssoc(sb, done, DelegateLines(role));
    done := done + DelegateLines(role);
    assert r == sb + done;
    if role.reportsTo != "" {
      r := r + [Line(Four, "reports_to: " + role.reportsTo)];
    }
    AppendAssoc(sb, done, ReportsLines(role));
    done := done + ReportsLines(role);
    assert r == sb + done;
    r := r + [Line(Flush, "")];
    AppendAssoc(sb, done, [Line(Flush, "")]);
    done := done + [Line(Flush, "")];
    assert r == sb + done;
    assert done == RoleBlock(role, providerName, model);
  }

  /** `ToYAML`: header, client-facing list, then one entry per role in order. */
  method ToYaml(spec: TeamSpec, providerName: string, model: string) returns (y: string)
    ensures y == Render(YamlLines(spec, providerName, model))
  {
    var sb := YamlHead(spec);
    sb := WriteItems(sb, Two, spec.clientFacing);
    sb := sb + [Line(Flush, ""), Line(Flush, "roles:")];
    sb := WriteRoles(sb, spec.roles, providerName, model);
    y := Render(sb);
  }

  /** The loop of `ToYAML` over the roles. */
  method WriteRoles(sb: seq<Line>, roles: seq<RoleSpec>, providerName: string, model: string) returns (r: seq<Line>)
    ensures r == sb + RoleBlocks(roles, providerName, model)
  {
    r := sb;
    var i := 0;
    while i < |roles|
      invariant 0 <= i <= |roles|
      invariant r == sb + RoleBlocks(roles[..i], providerName, model)
    {
      assert roles[..i + 1][..i] == roles[..i];
      AppendAssoc(sb, RoleBlocks(roles[..i], providerName, model), RoleBlock(roles[i], providerName, model));
      r := WriteRole(r, roles[i], providerName, model);
      i := i + 1;
    }
    assert roles[..|roles|] == roles;
  }

  /** The texts of the four-space lines, in order: the keys of a role's entry. */
  function Keys(ls: seq<Line>): seq<string> {
    if ls == [] then []
    else if ls[|ls| - 1].indent == Four then Keys(ls[..|ls| - 1]) + [ls[|ls| - 1].text]
    else Keys(ls[..|ls| - 1])
  }

  lemma {:induction false} KeysAppend(a: seq<Line>, b: seq<Line>)
    ensures Keys(a + b) == Keys(a) + Keys(b)
    decreases |b|
  {
    if b == [] {
      assert a + b == a;
    } else {
      var init := b[..|b| - 1];
      KeysAppend(a, init);
      assert (a + b)[..|a + b| - 1] == a + init;
    }
  }

  lemma {:induction false} ItemsNoKeys(i: Indent, xs: seq<string>)
    requires i != Four
    ensures Keys(Items(i, xs)) == []
    decreases |xs|
  {
    if xs != [] {
      ItemsNoKeys(i, xs[..|xs| - 1]);
      assert Items(i, xs)[..|xs| - 1] == Items(i, xs[..|xs| - 1]);
    }
  }

  lemma {:induction false} IndentedNoKeys(ls: seq<string>)
    ensures Keys(Indented(ls)) == []
    decreases |ls|
  {
    if ls != [] {
      IndentedNoKeys(ls[..|ls| - 1]);
      assert Indented(ls)[..|ls| - 1] == Indented(ls[..|ls| - 1]);
    }
  }

  /** The optional keys of a role: "names" or "name", "count", "can_delegate" and "reports_to". */
  function NameKey(r: RoleSpec): seq<string> {
    if ListsNames(r) then ["names:"] else if r.name != "" then ["name: " + r.name] else []
  }

  function CountKey(r: RoleSpec): seq<string> {
    if r.count > 1 then ["count: " + FormatInt(r.count)] else []
  }

  function DelegateKey(r: RoleSpec): seq<string> {
    if |r.canDelegate| > 0 then ["can_delegate:"] else []
  }

  function ReportsKey(r: RoleSpec): seq<string> {
    if r.reportsTo != "" then ["reports_to: " + r.reportsTo] else []
  }

  /**
   * The keys of a role's entry, in order: title, the name key when the
   * role has names, visibility, count above one, model, persona,
   * can_delegate for a non-empty list and reports_to when set. The
   * names, the model settings and the persona lines sit deeper.
   */
  lemma RoleBlockKeys(r: RoleSpec, providerName: string, model: string)
    ensures Keys(RoleBlock(r, providerName, model)) ==
      ["title: " + r.title] + NameKey(r) + ["visibility: " + r.visibility] + CountKey(r)
      + ["model:"] + ["persona: |"] + DelegateKey(r) + ReportsKey(r)
  {
    var b0 := HeadLines(r);
    var b1 := b0 + NameLines(r);
    var b2 := b1 + VisibilityLines(r);
    var b3 := b2 + CountLines(r);
    var b4 := b3 + ModelLines(providerName, model);
    var b5 := b4 + PersonaHead();
    var b6 := b5 + PersonaLines(r.persona);
    var b7 := b6 + DelegateLines(r);
    var b8 := b7 + ReportsLines(r);
    var k0 := ["title: " + r.title];
    var k1 := k0 + NameKey(r);
    var k2 := k1 + ["visibility: " + r.visibility];
    var k3 := k2 + CountKey(r);
    var k4 := k3 + ["model:"];
    var k5 := k4 + ["persona: |"];
    var k7 := k5 + DelegateKey(r);
    var k8 := k7 + ReportsKey(r);
    HeadKeys(r);
    assert Keys(b1) == k1 by { KeysAppend(b0, NameLines(r)); NameKeys(r); }
    assert Keys(b2) == k2 by { KeysAppend(b1, VisibilityLines(r)); KeysOne(Line(Four, "visibility: " + r.visibility)); }
    assert Keys(b3) == k3 by { KeysAppend(b2, CountLines(r)); CountKeys(r); }
    assert Keys(b4) == k4 by { KeysAppend(b3, ModelLines(providerName, model)); ModelKeys(providerName, model); }
    assert Keys(b5) == k5 by { KeysAppend(b4, PersonaHead()); KeysOne(Line(Four, "persona: |")); }
    assert Keys(b6) == k5 by { KeysAppend(b5, PersonaLines(r.persona)); IndentedNoKeys(Split(r.persona, '\n')); }
    assert Keys(b7) == k7 by { KeysAppend(b6, DelegateLines(r)); DelegateKeys(r); }
    assert Keys(b8) == k8 by { KeysAppend(b7, ReportsLines(r)); ReportsKeys(r); }
    assert Keys(b8 + Blank()) == k8 by { KeysAppend(b8, Blank()); KeysOne(Line(Flush, "")); }
  }

  lemma KeysOne(l: Line)
    ensures Keys([l]) == if l.indent == Four then [l.text] else []
  {
    assert [l][..0] == [];
  }

  lemma HeadKeys(r: RoleSpec)
    ensures Keys(HeadLines(r)) == ["title: " + r.title]
  {
    KeysAppend([Line(Two, r.id + ":")], [Line(Four, "title: " + r.title)]);
    KeysOne(Line(Two, r.id + ":"));
    KeysOne(Line(Four, "title: " + r.title));
    assert HeadLines(r) == [Line(Two, r.id + ":")] + [Line(Four, "title: " + r.title)];
  }

  lemma NameKeys(r: RoleSpec)
    ensures Keys(NameLines(r)) == NameKey(r)
  {
    if ListsNames(r) {
      KeysAppend([Line(Four, "names:")], Items(Six, r.names));
      KeysOne(Line(Four, "names:"));
      ItemsNoKeys(Six, r.names);
    } else if r.name != "" {
      KeysOne(Line(Four, "name: " + r.name));
    }
  }

  lemma CountKeys(r: RoleSpec)
    ensures Keys(CountLines(r)) == CountKey(r)
  {
    if r.count > 1 {
      KeysOne(Line(Four, "count: " + FormatInt(r.count)));
    }
  }

  lemma ModelKeys(providerName: string, model: string)
    ensures Keys(ModelLines(providerName, model)) == ["model:"]
  {
    var settings := [Line(Six, "provider: " + providerName), Line(Six, "model: " + model)];
    KeysAppend([Line(Four, "model:")], settings);
    KeysOne(Line(Four, "model:"));
    KeysAppend([settings[0]], [settings[1]]);
    KeysOne(settings[0]);
    KeysOne(settings[1]);
    assert settings == [settings[0]] + [settings[1]];
    assert ModelLines(providerName, model) == [Line(Four, "model:")] + settings;
  }

  lemma DelegateKeys(r: RoleSpec)
    ensures Keys(DelegateLines(r)) == DelegateKey(r)
  {
    if |r.canDelegate| > 0 {
      KeysAppend([Line(Four, "can_delegate:")], Items(Six, r.canDelegate));
      KeysOne(Line(Four, "can_delegate:"));
      ItemsNoKeys(Six, r.canDelegate);
    }
  }

  lemma ReportsKeys(r: RoleSpec)
    ensures Keys(ReportsLines(r)) == ReportsKey(r)
  {
    if r.reportsTo != "" {
      KeysOne(Line(Four, "reports_to: " + r.reportsTo));
    }
  }

  /** Every line of a list is at the list's indent. */
  lemma ListIndent(i: Indent, xs: seq<string>)
    ensures forall l :: l in Items(i, xs) ==> l.indent == i
  {
    ItemsAt(i, xs);
  }

  /** The persona lines, stripped of their indent and joined, give back the persona. */
  lemma PersonaRoundTrip(persona: string)
    ensures forall l :: l in PersonaLines(persona) ==> l.indent == Six && '\n' !in l.text
    ensures Join(TextsOf(PersonaLines(persona)), "\n") == persona
  {
    var ls := Split(persona, '\n');
    IndentedAt(ls);
    TextsOfIndented(ls);
    SplitJoin(persona, '\n');
  }

  lemma {:induction false} TextsOfIndented(ls: seq<string>)
    ensures TextsOf(Indented(ls)) == ls
    decreases |ls|
  {
    if ls != [] {
      var init := ls[..|ls| - 1];
      TextsOfIndented(init);
      var r := Indented(ls);
      assert r[..|r| - 1] == Indented(init);
    }
  }

  function TextsOf(ls: seq<Line>): (ts: seq<string>)
    ensures |ts| == |ls|
  {
    if ls == [] then [] else TextsOf(ls[..|ls| - 1]) + [ls[|ls| - 1].text]
  }

  // ---------------------------------------------------------------------
  // The conversation
  // ---------------------------------------------------------------------

  /** `ConversationState`: the messages so far and whether a spec has been produced. */
  class ConversationState {
    var messages: seq<PT.Message>
    var isComplete: bool

    constructor (messages: seq<PT.Message>, isComplete: bool)
      ensures this.messages == messages && this.isComplete == isComplete
    {
      this.messages := messages;
      this.isComplete := isComplete;
    }

    /** A complete conversation holds an assistant message carrying a spec. */
    predicate Consistent(d: Decoder)
      reads this
    {
      isComplete ==> LatestSpec(messages, d).Some?
    }
  }

  /** The spec an assistant message carries; other messages carry none. */
  function SpecIn(d: Decoder): PT.Message -> Option<TeamSpec> {
    (m: PT.Message) => if m.role == "assistant" then ExtractSpec(m.content, d) else None
  }

  /** What `found` gives for the newest message for which it gives anything. */
  function Latest<T>(messages: seq<PT.Message>, found: PT.Message -> Option<T>): Option<T> {
    if messages == [] then None
    else if found(messages[|messages| - 1]).Some? then found(messages[|messages| - 1])
    else Latest(messages[..|messages| - 1], found)
  }

  /** `Latest` is the finding of the last message with one, and none exactly when no message has one. */
  lemma {:induction false} LatestIsLatest<T>(messages: seq<PT.Message>, found: PT.Message -> Option<T>)
    ensures Latest(messages, found).None? <==> forall i :: 0 <= i < |messages| ==> found(messages[i]).None?
    ensures Latest(messages, found).Some? ==> exists i ::
      && 0 <= i < |messages| && Latest(messages, found) == found(messages[i])
      && forall j :: i < j < |messages| ==> found(messages[j]).None?
  {
    if messages != [] {
      var n := |messages| - 1;
      var init := messages[..n];
      LatestIsLatest(init, found);
      assert forall i :: 0 <= i < n ==> init[i] == messages[i];
      if found(messages[n]).None? && Latest(init, found).Some? {
        var i :| 0 <= i < n && Latest(init, found) == found(init[i])
          && forall j :: i < j < n ==> found(init[j]).None?;
        assert messages[i] == init[i];
      }
    }
  }

  /** The spec of the latest assistant message that carries one. */
  function LatestSpec(messages: seq<PT.Message>, d: Decoder): Option<TeamSpec> {
    Latest(messages, SpecIn(d))
  }

  /** The spec `GetGeneratedSpec` finds is that of the newest assistant message carrying one; none when no message does. */
  lemma LatestSpecIsLatest(messages: seq<PT.Message>, d: Decoder)
    ensures LatestSpec(messages, d).None? <==>
      forall i :: 0 <= i < |messages| && messages[i].role == "assistant" ==> ExtractSpec(messages[i].content, d).None?
    ensures LatestSpec(messages, d).Some? ==> exists i ::
      && 0 <= i < |messages| && messages[i].role == "assistant"
      && LatestSpec(messages, d) == ExtractSpec(messages[i].content, d)
      && forall j :: i < j < |messages| && messages[j].role == "assistant" ==> ExtractSpec(messages[j].content, d).None?
  {
    LatestIsLatest(messages, SpecIn(d));
  }

  /** `GetGeneratedSpec`: a search from the newest message back. */
  method GetGeneratedSpec(state: ConversationState, d: Decoder) returns (r: Result<TeamSpec, string>)
    ensures !old(state.isComplete) ==> r == Err("conversation not complete")
    ensures state.isComplete ==> r == match LatestSpec(state.messages, d)
      case Some(s) => Ok(s)
      case None => Err("no spec found in conversation")
  {
    if !state.isComplete {
      return Err("conversation not complete");
    }
    var ms := state.messages;
    var i := |ms|;
    assert ms[..i] == ms;
    while i > 0
      invariant 0 <= i <= |ms|
      invariant LatestSpec(ms, d) == LatestSpec(ms[..i], d)
    {
      assert ms[..i][..i - 1] == ms[..i - 1];
      assert ms[..i][i - 1] == ms[i - 1];
      if ms[i - 1].role == "assistant" {
        var spec := ExtractSpec(ms[i - 1].content, d);
        if spec.Some? {
          return Ok(spec.value);
        }
      }
      i := i - 1;
    }
    return Err("no spec found in conversation");
  }

  /** The opening user message: the input, or the fixed greeting when it is empty. */
  function Opening(initialInput: string): string {
    if initialInput == "" then Greeting else initialInput
  }

  /** What a reply shows the user: the preview of its spec, else the reply itself. */
  function Shown(reply: string, d: Decoder): string {
    match ExtractSpec(reply, d)
    case Some(spec) => Preview(spec)
    case None => reply
  }

  /** A message list that ends with an assistant reply carrying a spec has that spec as its latest. */
  lemma LatestAfterReply(messages: seq<PT.Message>, reply: string, d: Decoder)
    ensures ExtractSpec(reply, d).Some? ==>
      LatestSpec(messages + [PT.TextMessage("assistant", reply)], d) == ExtractSpec(reply, d)
    ensures LatestSpec(messages, d).Some? ==> LatestSpec(messages + [PT.TextMessage("assistant", reply)], d).Some?
  {
    var ms := messages + [PT.TextMessage("assistant", reply)];
    assert ms[..|ms| - 1] == messages;
  }

  /** A message that is not an assistant's never changes the latest spec. */
  lemma LatestAfterPrompt(messages: seq<PT.Message>, m: PT.Message, d: Decoder)
    requires m.role != "assistant"
    ensures LatestSpec(messages + [m], d) == LatestSpec(messages, d)
  {
    var ms := messages + [m];
    assert ms[..|ms| - 1] == messages;
  }

  /**
   * `StartConversation`: system prompt, opening message, one model call;
   * on an error no state is returned, otherwise the reply is stored and
   * a spec in it completes the conversation.
   */
  method StartConversation(g: Generator, initialInput: string, chat: PT.ChatRequest -> Result<string, string>, d: Decoder)
    returns (state: ConversationState?, text: string, err: Option<string>)
    ensures var sent := [PT.TextMessage("system", SystemPrompt), PT.TextMessage("user", Opening(initialInput))];
      match chat(Request(g, sent))
      case Err(e) => state == null && text == "" && err == Some(e)
      case Ok(reply) =>
        && err == None && state != null && fresh(state)
        && state.messages == sent + [PT.TextMessage("assistant", reply)]
        && state.isComplete == ExtractSpec(reply, d).Some?
        && state.Consistent(d)
        && text == Shown(reply, d)
  {
    var userMsg := initialInput;
    if userMsg == "" {
      userMsg := Greeting;
    }
    var messages := [PT.TextMessage("system", SystemPrompt), PT.TextMessage("user", userMsg)];
    var resp := chat(Request(g, messages));
    if resp.Err? {
      return null, "", Some(resp.error);
    }
    state := new ConversationState(messages + [PT.TextMessage("assistant", resp.value)], false);
    LatestAfterReply(messages, resp.value, d);
    var spec := ExtractSpec(resp.value, d);
    if spec.Some? {
      state.isComplete := true;
      text := FormatSpecPreview(spec.value);
      return state, text, None;
    }
    return state, resp.value, None;
  }

  /**
   * `ContinueConversation`: the user's message is stored even when the
   * model call fails; a reply carrying a spec completes the conversation,
   * and nothing makes it incomplete again.
   */
  method ContinueConversation(g: Generator, state: ConversationState, userInput: string,
                              chat: PT.ChatRequest -> Result<string, string>, d: Decoder)
    returns (text: string, err: Option<string>)
    modifies state
    ensures var sent := old(state.messages) + [PT.TextMessage("user", userInput)];
      match chat(Request(g, sent))
      case Err(e) =>
        && state.messages == sent && state.isComplete == old(state.isComplete)
        && text == "" && err == Some(e)
      case Ok(reply) =>
        && state.messages == sent + [PT.TextMessage("assistant", reply)]
        && state.isComplete == (old(state.isComplete) || ExtractSpec(reply, d).Some?)
        && text == Shown(reply, d) && err == None
    ensures old(state.Consistent(d)) ==> state.Consistent(d)
  {
    LatestAfterPrompt(state.messages, PT.TextMessage("user", userInput), d);
    state.messages := state.messages + [PT.TextMessage("user", userInput)];
    var resp := chat(Request(g, state.messages));
    if resp.Err? {
      return "", Some(resp.error);
    }
    LatestAfterReply(state.messages, resp.value, d);
    state.messages := state.messages + [PT.TextMessage("assistant", resp.value)];
    var spec := ExtractSpec(resp.value, d);
    if spec.Some? {
      state.isComplete := true;
      text := FormatSpecPreview(spec.value);
      return text, None;
    }
    return resp.value, None;
  }

  /** `ForceGenerate`: asks for the spec outright; the decoded spec, or "failed to generate spec". */
  method ForceGenerate(g: Generator, state: ConversationState, chat: PT.ChatRequest -> Result<string, string>, d: Decoder)
    returns (r: Result<TeamSpec, string>)
    modifies state
    ensures var sent := old(state.messages) + [PT.TextMessage("user", ForcePrompt)];
      match chat(Request(g, sent))
      case Err(e) => state.messages == sent && state.isComplete == old(state.isComplete) && r == Err(e)
      case Ok(reply) =>
        && state.messages == sent + [PT.TextMessage("assistant", reply)]
        && state.isComplete == (old(state.isComplete) || ExtractSpec(reply, d).Some?)
        && r == match ExtractSpec(reply, d)
          case Some(spec) => Ok(spec)
          case None => Err("failed to generate spec")
    ensures old(state.Consistent(d)) ==> state.Consistent(d)
    ensures r.Ok? ==> LatestSpec(state.messages, d) == Some(r.value)
  {
    LatestAfterPrompt(state.messages, PT.TextMessage("user", ForcePrompt), d);
    state.messages := state.messages + [PT.TextMessage("user", ForcePrompt)];
    var resp := chat(Request(g, state.messages));
    if resp.Err? {
      return Err(resp.error);
    }
    LatestAfterReply(state.messages, resp.value, d);
    state.messages := state.messages + [PT.TextMessage("assistant", resp.value)];
    var spec := ExtractSpec(resp.value, d);
    if spec.Some? {
      state.isComplete := true;
      return Ok(spec.value);
    }
    return Err("failed to generate spec");
  }
}
