/**
 * The orchestrator that walks a project through its phases
 * (internal/team/orchestrator.go): extracting client questions, requirements
 * and stories from the members' replies, assigning stories to engineers round
 * robin, the review phase, and the client's answers. A member's chat reply is
 * a parameter, `None` standing for a failed call; JSON decoding is the
 * parameter `decode`; uuid.New() is the fresh-ID oracle `Ids`.
 */
module Orchestrator {
  import opened Wrappers
  import opened GoStrings
  import opened Workflow
  import TeamMember

  const QuestionsMarker: string := "Questions for Client"

  /**
   * Fresh IDs: `question(i)`/`asked(i)` for the i-th client question and the
   * message that asks it, `parsed(i)` for the i-th decoded item, `stored(i)`
   * for the i-th item stored in the project, `message(k)` for the k-th other
   * message a phase sends.
   */
  datatype Ids = Ids(question: nat -> string, asked: nat -> string, parsed: nat -> string,
                     stored: nat -> string, message: nat -> string)

  // ---------------------------------------------------------------------------
  // The JSON array in a reply
  // ---------------------------------------------------------------------------

  lemma AtChar(s: string, c: char, i: int)
    ensures At(s, [c], i) <==> 0 <= i < |s| && s[i] == c
  {
    if 0 <= i < |s| {
      assert s[i..i + 1] == [s[i]];
    }
  }

  /** The text from the first '[' through the last ']', when that ']' comes after that '['. */
  function BracketSlice(content: string): Option<string> {
    var start := Index(content, "[");
    var end := LastIndex(content, "]");
    if start >= 0 && end > start then
      AtChar(content, ']', end);
      Some(content[start..end + 1])
    else None
  }

  /** There is a slice exactly when some ']' follows some '['; it spans the first '[' to the last ']'. */
  lemma BracketSliceExact(content: string)
    ensures BracketSlice(content).Some? <==>
      exists i, j :: 0 <= i < j < |content| && content[i] == '[' && content[j] == ']'
    ensures BracketSlice(content).Some? ==>
      exists i, j :: 0 <= i < j < |content| && BracketSlice(content).value == content[i..j + 1]
        && content[i] == '[' && content[j] == ']'
        && (forall k :: 0 <= k < i ==> content[k] != '[')
        && (forall k :: j < k < |content| ==> content[k] != ']')
  {
    var start := Index(content, "[");
    var end := LastIndex(content, "]");
    if start >= 0 && end > start {
      AtChar(content, '[', start);
      AtChar(content, ']', end);
      forall k | 0 <= k < start ensures content[k] != '[' {
        AtChar(content, '[', k);
      }
      forall k | end < k < |content| ensures content[k] != ']' {
        AtChar(content, ']', k);
      }
    } else {
      forall i, j | 0 <= i < j < |content| && content[i] == '['
        ensures content[j] != ']'
      {
        AtChar(content, '[', i);
        AtChar(content, ']', j);
      }
    }
  }

  // ---------------------------------------------------------------------------
  // parseRequirements / parseStories
  // ---------------------------------------------------------------------------

  /** The fields `parseRequirements` decodes for one array element. */
  datatype RequirementFields = RequirementFields(title: string, description: string, priority: string)

  /** The fields `parseStories` decodes for one array element. */
  datatype StoryFields = StoryFields(title: string, description: string, kind: string, assignedRole: string,
                                     criteria: seq<string>, effort: string, requirementId: string)

  /** A story as `parseStories` returns it, before the project stores it. */
  datatype StoryDraft = StoryDraft(id: string, title: string, description: string, kind: string,
                                   assignedRole: string, criteria: seq<string>, effort: string,
                                   requirementId: string, status: StoryStatus)

  /** The decoded elements: none without a bracket slice or when decoding it fails. */
  function Decoded<T>(content: string, decode: string -> Option<seq<T>>): seq<T> {
    match BracketSlice(content)
    case None => []
    case Some(json) => if decode(json).Some? then decode(json).value else []
  }

  function RequirementOf(f: RequirementFields, id: string, createdBy: string): Requirement {
    Requirement(id, f.title, f.description, f.priority, createdBy, [])
  }

  function DraftOf(f: StoryFields, id: string): StoryDraft {
    StoryDraft(id, f.title, f.description, f.kind, f.assignedRole, f.criteria, f.effort, f.requirementId, Backlog)
  }

  function RequirementsIn(content: string, createdBy: string, decode: string -> Option<seq<RequirementFields>>,
                          newId: nat -> string): seq<Requirement>
  {
    var ps := Decoded(content, decode);
    seq(|ps|, i requires 0 <= i < |ps| => RequirementOf(ps[i], newId(i), createdBy))
  }

  function StoriesIn(content: string, decode: string -> Option<seq<StoryFields>>, newId: nat -> string): seq<StoryDraft> {
    var ps := Decoded(content, decode);
    seq(|ps|, i requires 0 <= i < |ps| => DraftOf(ps[i], newId(i)))
  }

  /**
   * `parseRequirements` yields nothing unless a ']' follows a '[' and the slice
   * decodes; otherwise one requirement per element, in order, by `createdBy`.
   */
  lemma RequirementsInShape(content: string, createdBy: string, decode: string -> Option<seq<RequirementFields>>,
                            newId: nat -> string)
    ensures (forall i, j :: 0 <= i < j < |content| && content[i] == '[' ==> content[j] != ']') ==>
      RequirementsIn(content, createdBy, decode, newId) == []
    ensures BracketSlice(content).Some? && decode(BracketSlice(content).value).None? ==>
      RequirementsIn(content, createdBy, decode, newId) == []
    ensures var r, ps := RequirementsIn(content, createdBy, decode, newId), Decoded(content, decode);
      && |r| == |ps|
      && forall i :: 0 <= i < |r| ==>
        && r[i].title == ps[i].title && r[i].description == ps[i].description && r[i].priority == ps[i].priority
        && r[i].createdBy == createdBy && r[i].stories == [] && r[i].id == newId(i)
  {
    BracketSliceExact(content);
    if BracketSlice(content).None? {
      assert Decoded(content, decode) == [];
    }
    var r, ps := RequirementsIn(content, createdBy, decode, newId), Decoded(content, decode);
    forall i | 0 <= i < |r| ensures r[i] == RequirementOf(ps[i], newId(i), createdBy) {
    }
  }

  /** `parseStories` yields nothing unless a ']' follows a '[' and the slice decodes; every story starts in backlog. */
  lemma StoriesInShape(content: string, decode: string -> Option<seq<StoryFields>>, newId: nat -> string)
    ensures (forall i, j :: 0 <= i < j < |content| && content[i] == '[' ==> content[j] != ']') ==>
      StoriesIn(content, decode, newId) == []
    ensures BracketSlice(content).Some? && decode(BracketSlice(content).value).None? ==>
      StoriesIn(content, decode, newId) == []
    ensures var r, ps := StoriesIn(content, decode, newId), Decoded(content, decode);
      && |r| == |ps|
      && forall i :: 0 <= i < |r| ==>
        && r[i].status == Backlog && r[i].id == newId(i) && r[i].title == ps[i].title
        && r[i].assignedRole == ps[i].assignedRole && r[i].criteria == ps[i].criteria
        && r[i].requirementId == ps[i].requirementId
  {
    BracketSliceExact(content);
    if BracketSlice(content).None? {
      assert Decoded(content, decode) == [];
    }
    var r, ps := StoriesIn(content, decode, newId), Decoded(content, decode);
    forall i | 0 <= i < |r| ensures r[i] == DraftOf(ps[i], newId(i)) {
    }
  }

  /** `parseRequirements`: one appended requirement per decoded element. */
  method ParseRequirements(content: string, createdBy: string, decode: string -> Option<seq<RequirementFields>>,
                           newId: nat -> string)
    returns (reqs: seq<Requirement>)
    ensures reqs == RequirementsIn(content, createdBy, decode, newId)
  {
    reqs := [];
    var start := Index(content, "[");
    var end := LastIndex(content, "]");
    if start >= 0 && end > start {
      AtChar(content, ']', end);
      var parsed := decode(content[start..end + 1]);
      if parsed.Some? {
        var ps := parsed.value;
        for i := 0 to |ps|
          invariant reqs == seq(i, k requires 0 <= k < i => RequirementOf(ps[k], newId(k), createdBy))
        {
          reqs := reqs + [RequirementOf(ps[i], newId(i), createdBy)];
        }
      }
    }
  }

  /** `parseStories`: one appended backlog draft per decoded element. */
  method ParseStories(content: string, decode: string -> Option<seq<StoryFields>>, newId: nat -> string)
    returns (stories: seq<StoryDraft>)
    ensures stories == StoriesIn(content, decode, newId)
  {
    stories := [];
    var start := Index(content, "[");
    var end := LastIndex(content, "]");
    if start >= 0 && end > start {
      AtChar(content, ']', end);
      var parsed := decode(content[start..end + 1]);
      if parsed.Some? {
        var ps := parsed.value;
        for i := 0 to |ps|
          invariant stories == seq(i, k requires 0 <= k < i => DraftOf(ps[k], newId(k)))
        {
          stories := stories + [DraftOf(ps[i], newId(i))];
        }
      }
    }
  }

  // ---------------------------------------------------------------------------
  // parseAndAddQuestions
  // ---------------------------------------------------------------------------

  /** A trimmed bullet line without its "- " and then its "* ". */
  function BulletText(line: string): string {
    TrimPrefix(TrimPrefix(line, "- "), "* ")
  }

  /**
   * The questions the scan collects from the remaining lines, `inQuestions`
   * telling whether the marker line has been seen.
   */
  function QuestionsFrom(lines: seq<string>, inQuestions: bool): seq<string>
    decreases |lines|
  {
    if lines == [] then []
    else
      var line := TrimSpace(lines[0]);
      if Contains(line, QuestionsMarker) then QuestionsFrom(lines[1..], true)
      else
        if inQuestions && HasPrefix(line, "##") then Here(line, inQuestions)
        else Here(line, inQuestions) + QuestionsFrom(lines[1..], inQuestions)
  }

  function ClientQuestions(content: string): seq<string> {
    QuestionsFrom(Split(content, '\n'), false)
  }

  /** Nothing is collected until a line mentions the marker. */
  lemma {:induction false} NoMarkerNoQuestions(lines: seq<string>)
    requires forall k :: 0 <= k < |lines| ==> !Contains(TrimSpace(lines[k]), QuestionsMarker)
    ensures QuestionsFrom(lines, false) == []
    decreases |lines|
  {
    if lines != [] {
      NoMarkerNoQuestions(lines[1..]);
    }
  }

  /** A "##" heading after the marker ends the section: nothing after it is collected. */
  lemma HeadingEndsSection(line: string, rest: seq<string>)
    requires HasPrefix(TrimSpace(line), "##") && !Contains(TrimSpace(line), QuestionsMarker)
    ensures QuestionsFrom([line] + rest, true) == []
  {
    var l := TrimSpace(line);
    assert ([line] + rest)[0] == line;
    assert l[0] == '#';
  }

  /** The "skip empty results" test never fires: a trimmed bullet line always leaves some text. */
  lemma BulletNeverEmpty(line: string)
    requires HasPrefix(TrimSpace(line), "-")
    ensures BulletText(TrimSpace(line)) != ""
  {
    var l := TrimSpace(line);
    var a := TrimPrefix(l, "- ");
    if HasPrefix(l, "- ") {
      assert l == "- " + a;
    }
    assert a != [] && !IsSpace(a[|a| - 1]);
    var b := TrimPrefix(a, "* ");
    if HasPrefix(a, "* ") {
      assert a == "* " + b;
    }
  }

  /** Every collected question is the bullet text of a trimmed line that starts with '-'. */
  lemma {:induction false} QuestionsAreBullets(lines: seq<string>, inQuestions: bool)
    ensures forall q :: q in QuestionsFrom(lines, inQuestions) ==>
      q != "" && exists k :: 0 <= k < |lines| && HasPrefix(TrimSpace(lines[k]), "-") && q == BulletText(TrimSpace(lines[k]))
    decreases |lines|
  {
    if lines != [] {
      QuestionsAreBullets(lines[1..], true);
      QuestionsAreBullets(lines[1..], inQuestions);
      forall q | q in QuestionsFrom(lines[1..], true) || q in QuestionsFrom(lines[1..], inQuestions)
        ensures exists k :: 0 <= k < |lines| && HasPrefix(TrimSpace(lines[k]), "-") && q == BulletText(TrimSpace(lines[k]))
      {
        var k :| 0 <= k < |lines[1..]| && HasPrefix(TrimSpace(lines[1..][k]), "-") && q == BulletText(TrimSpace(lines[1..][k]));
        assert lines[1..][k] == lines[k + 1];
      }
    }
  }

  /** The bullet a line contributes, given whether the section has begun. */
  function Here(line: string, inQuestions: bool): seq<string> {
    if inQuestions && HasPrefix(line, "-") && BulletText(line) != "" then [BulletText(line)] else []
  }

  lemma QuestionsStep(lines: seq<string>, i: nat, inQuestions: bool)
    requires i < |lines|
    ensures var line := TrimSpace(lines[i]);
      QuestionsFrom(lines[i..], inQuestions) ==
        if Contains(line, QuestionsMarker) then QuestionsFrom(lines[i + 1..], true)
        else if inQuestions && HasPrefix(line, "##") then Here(line, inQuestions)
        else Here(line, inQuestions) + QuestionsFrom(lines[i + 1..], inQuestions)
  {
    assert lines[i..][0] == lines[i];
    assert lines[i..][1..] == lines[i + 1..];
  }

  /** The scan over `strings.Split(content, "\n")`, stopping at the section's closing heading. */
  method ExtractClientQuestions(content: string) returns (qs: seq<string>)
    ensures qs == ClientQuestions(content)
  {
    var lines := Split(content, '\n');
    var inQuestions := false;
    qs := [];
    var i := 0;
    assert lines[i..] == lines;
    while i < |lines|
      invariant 0 <= i <= |lines|
      invariant qs + QuestionsFrom(lines[i..], inQuestions) == ClientQuestions(content)
    {
      QuestionsStep(lines, i, inQuestions);
      var line := TrimSpace(lines[i]);
      if Contains(line, QuestionsMarker) {
        inQuestions := true;
        i := i + 1;
        continue;
      }
      var here: seq<string> := [];
      if inQuestions && HasPrefix(line, "-") {
        var question := TrimPrefix(line, "- ");
        question := TrimPrefix(question, "* ");
        if question != "" {
          here := [question];
        }
      }
      assert here == Here(line, inQuestions);
      if inQuestions && HasPrefix(line, "##") {
        qs := qs + here;
        return;
      }
      AppendAssoc(qs, here, QuestionsFrom(lines[i + 1..], inQuestions));
      qs := qs + here;
      i := i + 1;
    }
  }

  /** The questions the scan asks of the client, in order. */
  function ClientAsks(qs: seq<string>, pmId: string, projectId: string, ids: Ids, now: int): seq<Question> {
    seq(|qs|, i requires 0 <= i < |qs| =>
      Question(ids.question(i), qs[i], "pm", pmId, "client", projectId, "pending", "", "", now, 0))
  }

  /** The "question" messages that go with them. */
  function AskMessages(qs: seq<string>, pmId: string, projectId: string, ids: Ids, now: int): seq<Communication> {
    seq(|qs|, i requires 0 <= i < |qs| =>
      Communication(ids.asked(i), "question", pmId, "client", qs[i], now,
                    map["question_id" := ids.question(i), "context" := projectId]))
  }

  /** Asking one more question extends both lists by its entry. */
  lemma AsksSnoc(qs: seq<string>, i: nat, pmId: string, projectId: string, ids: Ids, now: int)
    requires i < |qs|
    ensures ClientAsks(qs[..i + 1], pmId, projectId, ids, now) == ClientAsks(qs[..i], pmId, projectId, ids, now) +
      [Question(ids.question(i), qs[i], "pm", pmId, "client", projectId, "pending", "", "", now, 0)]
    ensures AskMessages(qs[..i + 1], pmId, projectId, ids, now) == AskMessages(qs[..i], pmId, projectId, ids, now) +
      [Communication(ids.asked(i), "question", pmId, "client", qs[i], now,
                     map["question_id" := ids.question(i), "context" := projectId])]
  {
  }

  /** `parseAndAddQuestions`: each extracted question is asked of the client, in order. */
  method ParseAndAddQuestions(p: Project, pmId: string, content: string, ids: Ids, now: int)
    modifies p
    ensures var qs := ClientQuestions(content);
      && p.pendingQuestions == old(p.pendingQuestions) + ClientAsks(qs, pmId, p.id, ids, now)
      && p.communications == old(p.communications) + AskMessages(qs, pmId, p.id, ids, now)
    ensures p.requirements == old(p.requirements) && p.stories == old(p.stories) && p.phase == old(p.phase)
  {
    var qs := ExtractClientQuestions(content);
    for i := 0 to |qs|
      invariant p.pendingQuestions == old(p.pendingQuestions) + ClientAsks(qs[..i], pmId, p.id, ids, now)
      invariant p.communications == old(p.communications) + AskMessages(qs[..i], pmId, p.id, ids, now)
      invariant p.requirements == old(p.requirements) && p.stories == old(p.stories) && p.phase == old(p.phase)
    {
      AsksSnoc(qs, i, pmId, p.id, ids, now);
      var q := p.AskQuestion(ids.question(i), ids.asked(i), qs[i], "pm", pmId, "client", p.id, now);
    }
    assert qs[..|qs|] == qs;
  }

  // ---------------------------------------------------------------------------
  // formatArtifacts / formatAcceptanceCriteria
  // ---------------------------------------------------------------------------

  function ArtifactLines(artifacts: seq<Artifact>): string {
    if artifacts == [] then ""
    else "- " + artifacts[0].kind + ": " + artifacts[0].path + "\n" + ArtifactLines(artifacts[1..])
  }

  function CriteriaLines(criteria: seq<string>): string {
    if criteria == [] then ""
    else "- " + criteria[0] + "\n" + CriteriaLines(criteria[1..])
  }

  /** `formatArtifacts`: "(none)", or one "- type: path" line per artifact. */
  method FormatArtifacts(artifacts: seq<Artifact>) returns (s: string)
    ensures s == if artifacts == [] then "(none)" else ArtifactLines(artifacts)
  {
    if |artifacts| == 0 {
      return "(none)";
    }
    s := "";
    for i := 0 to |artifacts|
      invariant s + ArtifactLines(artifacts[i..]) == ArtifactLines(artifacts)
    {
      var a := artifacts[i];
      assert artifacts[i..][1..] == artifacts[i + 1..];
      assert s + ArtifactLines(artifacts[i..]) == (s + ("- " + a.kind + ": " + a.path + "\n")) + ArtifactLines(artifacts[i + 1..]);
      s := s + ("- " + a.kind + ": " + a.path + "\n");
    }
  }

  /** `formatAcceptanceCriteria`: "(none specified)", or one "- criterion" line per criterion. */
  method FormatAcceptanceCriteria(criteria: seq<string>) returns (s: string)
    ensures s == if criteria == [] then "(none specified)" else CriteriaLines(criteria)
  {
    if |criteria| == 0 {
      return "(none specified)";
    }
    s := "";
    for i := 0 to |criteria|
      invariant s + CriteriaLines(criteria[i..]) == CriteriaLines(criteria)
    {
      assert criteria[i..][1..] == criteria[i + 1..];
      assert s + CriteriaLines(criteria[i..]) == (s + ("- " + criteria[i] + "\n")) + CriteriaLines(criteria[i + 1..]);
      s := s + ("- " + criteria[i] + "\n");
    }
  }

  /** A line without '\n' followed by '\n' reads back as that line, then the rest. */
  lemma LinesCons(head: string, rest: string)
    requires '\n' !in head
    ensures TeamMember.Lines(head + "\n" + rest) == [head] + TeamMember.Lines(rest)
  {
    var t := head + "\n" + rest;
    assert forall k :: 0 <= k < |head| ==> t[k] == head[k];
    TeamMember.LinesAtNewline(t, |head|);
    assert t[..|head|] == head;
    assert t[|head| + 1..] == rest;
  }

  /** Read back line by line, the criteria text is one "- " line per criterion, in order. */
  lemma {:induction false} CriteriaLinesRead(criteria: seq<string>)
    requires forall k :: 0 <= k < |criteria| ==> '\n' !in criteria[k]
    ensures |TeamMember.Lines(CriteriaLines(criteria))| == |criteria|
    ensures forall k :: 0 <= k < |criteria| ==> TeamMember.Lines(CriteriaLines(criteria))[k] == "- " + criteria[k]
  {
    if criteria != [] {
      var line := "- " + criteria[0];
      CriteriaLinesRead(criteria[1..]);
      assert '\n' !in line by {
        assert forall c :: c in line ==> c in "- " || c in criteria[0];
      }
      LinesCons(line, CriteriaLines(criteria[1..]));
      assert CriteriaLines(criteria) == line + "\n" + CriteriaLines(criteria[1..]);
      var ls := TeamMember.Lines(CriteriaLines(criteria));
      assert ls == [line] + TeamMember.Lines(CriteriaLines(criteria[1..]));
      forall k | 0 <= k < |criteria| ensures ls[k] == "- " + criteria[k] {
        if k > 0 {
          assert criteria[1..][k - 1] == criteria[k];
        }
      }
    }
  }

  /** Read back line by line, the artifacts text is one "- type: path" line per artifact. */
  lemma {:induction false} ArtifactLinesRead(artifacts: seq<Artifact>)
    requires forall k :: 0 <= k < |artifacts| ==> '\n' !in artifacts[k].kind && '\n' !in artifacts[k].path
    ensures |TeamMember.Lines(ArtifactLines(artifacts))| == |artifacts|
    ensures forall k :: 0 <= k < |artifacts| ==>
      TeamMember.Lines(ArtifactLines(artifacts))[k] == "- " + artifacts[k].kind + ": " + artifacts[k].path
  {
    if artifacts != [] {
      var a := artifacts[0];
      var line := "- " + a.kind + ": " + a.path;
      ArtifactLinesRead(artifacts[1..]);
      assert '\n' !in line by {
        assert forall c :: c in line ==> c in "- " || c in a.kind || c in ": " || c in a.path;
      }
      LinesCons(line, ArtifactLines(artifacts[1..]));
      assert ArtifactLines(artifacts) == line + "\n" + ArtifactLines(artifacts[1..]);
      var ls := TeamMember.Lines(ArtifactLines(artifacts));
      assert ls == [line] + TeamMember.Lines(ArtifactLines(artifacts[1..]));
      forall k | 0 <= k < |artifacts| ensures ls[k] == "- " + artifacts[k].kind + ": " + artifacts[k].path {
        if k > 0 {
          assert artifacts[1..][k - 1] == artifacts[k];
        }
      }
    }
  }

  // ---------------------------------------------------------------------------
  // Planning and task breakdown
  // ---------------------------------------------------------------------------

  datatype PlanningOutcome = NoManager | AwaitingClient | ReadyForBreakdown

  /** The requirements a reply yields: none when the chat call failed. */
  function PlannedRequirements(author: string, reply: Option<string>, decode: string -> Option<seq<RequirementFields>>,
                               ids: Ids): seq<Requirement>
  {
    if reply.Some? then RequirementsIn(reply.value, author, decode, ids.parsed) else []
  }

  /** The requirements as `AddRequirement` stores them: a fresh ID, the parsed fields, no stories. */
  function Stored(reqs: seq<Requirement>, ids: Ids): seq<Requirement> {
    seq(|reqs|, i requires 0 <= i < |reqs| =>
      Requirement(ids.stored(i), reqs[i].title, reqs[i].description, reqs[i].priority, reqs[i].createdBy, []))
  }

  /** The client questions the PM's analysis raises: only when it mentions the marker. */
  function AnalysisQuestions(analysis: Option<string>): seq<string> {
    if analysis.Some? && Contains(analysis.value, QuestionsMarker) then ClientQuestions(analysis.value) else []
  }

  /** The PM's analysis in `runPlanningPhase`: its client questions are asked, and its text is given back. */
  method ConsiderAnalysis(p: Project, pm: string, analysis: Option<string>, ids: Ids, now: int) returns (text: string)
    modifies p
    ensures text == if analysis.Some? then analysis.value else ""
    ensures p.pendingQuestions == old(p.pendingQuestions) + ClientAsks(AnalysisQuestions(analysis), pm, p.id, ids, now)
    ensures p.communications == old(p.communications) + AskMessages(AnalysisQuestions(analysis), pm, p.id, ids, now)
    ensures p.requirements == old(p.requirements) && p.stories == old(p.stories) && p.phase == old(p.phase)
  {
    text := "";
    if analysis.Some? {
      text := analysis.value;
      if Contains(text, QuestionsMarker) {
        ParseAndAddQuestions(p, pm, text, ids, now);
      }
    }
  }

  /**
   * `runPlanningPhase`, up to the task breakdown it chains to. `pmId`/`baId`
   * are the team's PM and BA (`None` when it has none), `analysis` the PM's
   * reply and `reqReply` the requirements reply of the BA, or of the PM when
   * there is no BA. The project ends blocked exactly when a question is pending.
   */
  method RunPlanningPhase(p: Project, pmId: Option<string>, baId: Option<string>, analysis: Option<string>,
                          reqReply: Option<string>, decode: string -> Option<seq<RequirementFields>>,
                          ids: Ids, now: int)
    returns (outcome: PlanningOutcome)
    modifies p
    ensures p.stories == old(p.stories)
    ensures pmId.None? ==>
      && outcome == NoManager && p.phase == Planning
      && p.requirements == old(p.requirements) && p.pendingQuestions == old(p.pendingQuestions)
      && p.communications == old(p.communications) + [PhaseMessage(ids.message(0), Planning, now)]
    ensures pmId.Some? ==>
      var pm := pmId.value;
      var text := if analysis.Some? then analysis.value else "";
      var asked := AnalysisQuestions(analysis);
      var author := if baId.Some? then baId.value else pm;
      && p.pendingQuestions == old(p.pendingQuestions) + ClientAsks(asked, pm, p.id, ids, now)
      && p.requirements == old(p.requirements) + Stored(PlannedRequirements(author, reqReply, decode, ids), ids)
      && (outcome == AwaitingClient <==> |p.pendingQuestions| > 0)
      && (outcome == AwaitingClient ==> p.phase == Blocked)
      && (outcome != AwaitingClient ==> outcome == ReadyForBreakdown && p.phase == Planning)
      && p.communications == old(p.communications) + [PhaseMessage(ids.message(0), Planning, now)]
           + AskMessages(asked, pm, p.id, ids, now)
           + [Communication(ids.message(1), "message", pm, "all", text, now, map[])]
           + (if outcome == AwaitingClient then [PhaseMessage(ids.message(2), Blocked, now)] else [])
  {
    p.SetPhase(Planning, ids.message(0), now);
    if pmId.None? {
      return NoManager;
    }
    var pm := pmId.value;
    var text := ConsiderAnalysis(p, pm, analysis, ids, now);
    p.AddCommunication(ids.message(1), "message", pm, "all", text, map[], now);
    var author := if baId.Some? then baId.value else pm;
    var reqs: seq<Requirement> := [];
    if reqReply.Some? {
      reqs := ParseRequirements(reqReply.value, author, decode, ids.parsed);
    }
    StoreRequirements(p, reqs, ids, now);
    if |p.pendingQuestions| > 0 {
      p.SetPhase(Blocked, ids.message(2), now);
      return AwaitingClient;
    }
    return ReadyForBreakdown;
  }

  /** The loop of `runPlanningPhase` that adds each parsed requirement to the project, in order. */
  method StoreRequirements(p: Project, reqs: seq<Requirement>, ids: Ids, now: int)
    modifies p
    ensures p.requirements == old(p.requirements) + Stored(reqs, ids)
    ensures p.communications == old(p.communications) && p.stories == old(p.stories)
    ensures p.pendingQuestions == old(p.pendingQuestions) && p.phase == old(p.phase)
  {
    for i := 0 to |reqs|
      invariant p.requirements == old(p.requirements) + Stored(reqs[..i], ids)
      invariant p.communications == old(p.communications) && p.stories == old(p.stories)
      invariant p.pendingQuestions == old(p.pendingQuestions) && p.phase == old(p.phase)
    {
      var r := p.AddRequirement(ids.stored(i), reqs[i].title, reqs[i].description, reqs[i].priority, reqs[i].createdBy, now);
      assert Stored(reqs[..i + 1], ids) == Stored(reqs[..i], ids) + [r];
    }
    assert reqs[..|reqs|] == reqs;
  }

  /** The requirements after linking each new story, in order, to its requirement. */
  function LinkAll(reqs: seq<Requirement>, drafts: seq<StoryDraft>, ids: Ids): seq<Requirement>
    decreases |drafts|
  {
    if drafts == [] then reqs
    else
      var n := |drafts| - 1;
      LinkStory(LinkAll(reqs, drafts[..n], ids), drafts[n].requirementId, ids.stored(n))
  }

  /** Linking stories never adds, drops, renames or reorders requirements. */
  lemma {:induction false} LinkAllKeepsRequirements(reqs: seq<Requirement>, drafts: seq<StoryDraft>, ids: Ids)
    ensures |LinkAll(reqs, drafts, ids)| == |reqs|
    ensures forall j :: 0 <= j < |reqs| ==>
      LinkAll(reqs, drafts, ids)[j].id == reqs[j].id && LinkAll(reqs, drafts, ids)[j].title == reqs[j].title
    decreases |drafts|
  {
    if drafts != [] {
      var n := |drafts| - 1;
      var prev := LinkAll(reqs, drafts[..n], ids);
      LinkAllKeepsRequirements(reqs, drafts[..n], ids);
      LinkStoryOnlyFirst(prev, drafts[n].requirementId, ids.stored(n));
    }
  }

  /** A stored story built from a draft: the draft's fields, the stored ID, backlog, unassigned. */
  predicate StoredAs(s: Story, d: StoryDraft, id: string)
    reads s
  {
    && s.id == id && s.title == d.title && s.description == d.description && s.kind == d.kind
    && s.assignedRole == d.assignedRole && s.acceptanceCriteria == d.criteria && s.requirementId == d.requirementId
    && s.status == Backlog && s.assignedMember == ""
  }

  /** `after` is `before` followed by one stored story per draft, in order. */
  predicate StoredFrom(after: seq<Story>, before: seq<Story>, drafts: seq<StoryDraft>, ids: Ids)
    reads after
  {
    && |after| == |before| + |drafts| && after[..|before|] == before
    && forall k :: |before| <= k < |after| ==>
         StoredAs(after[k], drafts[k - |before|], ids.stored(k - |before|))
  }

  /** The drafts the PM's story reply yields: none without a PM or when the call failed. */
  function BreakdownDrafts(pmId: Option<string>, reply: Option<string>, decode: string -> Option<seq<StoryFields>>,
                           ids: Ids): seq<StoryDraft>
  {
    if pmId.Some? && reply.Some? then StoriesIn(reply.value, decode, ids.parsed) else []
  }

  /** The loop of `runTaskBreakdownPhase`: one `CreateStory` per draft, in order. */
  method StoreDrafts(p: Project, drafts: seq<StoryDraft>, ids: Ids, now: int)
    modifies p
    ensures StoredFrom(p.stories, old(p.stories), drafts, ids)
    ensures forall k :: |old(p.stories)| <= k < |p.stories| ==> fresh(p.stories[k])
    ensures p.requirements == LinkAll(old(p.requirements), drafts, ids)
    ensures p.phase == old(p.phase) && p.pendingQuestions == old(p.pendingQuestions)
    ensures p.communications == old(p.communications)
  {
    ghost var n0 := |p.stories|;
    assert drafts[..0] == [];
    for i := 0 to |drafts|
      invariant StoredFrom(p.stories, old(p.stories), drafts[..i], ids)
      invariant forall k :: n0 <= k < |p.stories| ==> fresh(p.stories[k])
      invariant p.requirements == LinkAll(old(p.requirements), drafts[..i], ids)
      invariant p.phase == old(p.phase) && p.pendingQuestions == old(p.pendingQuestions)
      invariant p.communications == old(p.communications)
    {
      ghost var prev := p.stories;
      ghost var reqs := p.requirements;
      var story := StoreNext(p, drafts, i, ids, now, old(p.stories));
      assert drafts[..i + 1][..i] == drafts[..i];
      assert p.requirements == LinkStory(reqs, drafts[..i + 1][i].requirementId, ids.stored(i));
      assert forall k :: n0 <= k < |prev| ==> p.stories[k] == prev[k];
    }
    assert drafts[..|drafts|] == drafts;
  }

  /** One turn of the loop: the next draft stored as a fresh backlog story after the ones before it. */
  method StoreNext(p: Project, drafts: seq<StoryDraft>, i: nat, ids: Ids, now: int, ghost before: seq<Story>)
    returns (story: Story)
    requires i < |drafts|
    requires StoredFrom(p.stories, before, drafts[..i], ids)
    modifies p
    ensures fresh(story) && p.stories == old(p.stories) + [story]
    ensures StoredFrom(p.stories, before, drafts[..i + 1], ids)
    ensures p.requirements == LinkStory(old(p.requirements), drafts[i].requirementId, ids.stored(i))
    ensures p.phase == old(p.phase) && p.pendingQuestions == old(p.pendingQuestions)
    ensures p.communications == old(p.communications)
  {
    var d := drafts[i];
    ghost var prev := p.stories;
    story := p.CreateStory(ids.stored(i), d.requirementId, d.title, d.description, d.kind, d.assignedRole, d.criteria, now);
    assert StoredAs(story, drafts[..i + 1][i], ids.stored(i));
    assert forall k :: 0 <= k < |prev| ==> p.stories[k] == prev[k];
    assert forall j :: 0 <= j < i ==> drafts[..i + 1][j] == drafts[..i][j];
  }

  /** `runTaskBreakdownPhase`, up to the execution phase it chains to: one backlog story per draft. */
  method RunTaskBreakdownPhase(p: Project, pmId: Option<string>, reply: Option<string>,
                               decode: string -> Option<seq<StoryFields>>, ids: Ids, now: int)
    modifies p
    ensures StoredFrom(p.stories, old(p.stories), BreakdownDrafts(pmId, reply, decode, ids), ids)
    ensures forall k :: |old(p.stories)| <= k < |p.stories| ==> fresh(p.stories[k])
    ensures p.requirements == LinkAll(old(p.requirements), BreakdownDrafts(pmId, reply, decode, ids), ids)
    ensures p.phase == TaskBreakdown && p.pendingQuestions == old(p.pendingQuestions)
    ensures p.communications == old(p.communications) + [PhaseMessage(ids.message(0), TaskBreakdown, now)]
  {
    p.SetPhase(TaskBreakdown, ids.message(0), now);
    if pmId.None? {
      assert BreakdownDrafts(pmId, reply, decode, ids) == [];
      assert p.stories[..|p.stories|] == p.stories;
      assert StoredFrom(p.stories, old(p.stories), [], ids);
      return;
    }
    var drafts: seq<StoryDraft> := [];
    if reply.Some? {
      drafts := ParseStories(reply.value, decode, ids.parsed);
    }
    assert drafts == BreakdownDrafts(pmId, reply, decode, ids);
    StoreDrafts(p, drafts, ids, now);
  }

  // ---------------------------------------------------------------------------
  // Execution: round-robin assignment
  // ---------------------------------------------------------------------------

  /** The engineers a story may go to: by its role, all engineers for any other role. */
  function PoolFor(role: string, backend: seq<string>, frontend: seq<string>, all: seq<string>): seq<string> {
    if role == "backend" then backend else if role == "frontend" then frontend else all
  }

  /** No story object appears twice (`CreateStory` only ever appends fresh ones). */
  predicate Distinct(stories: seq<Story>) {
    forall i, j :: 0 <= i < j < |stories| ==> stories[i] != stories[j]
  }

  /**
   * The assignment half of `runExecutionPhase` (the engineers' work is not
   * modelled): story i goes to pool[i mod |pool|] and becomes ready; a story
   * whose pool is empty stays as it was; with no engineers at all nothing is
   * assigned and `started` is false, so no review follows.
   */
  method RunExecutionPhase(p: Project, backend: seq<string>, frontend: seq<string>, engineers: seq<string>,
                           commId: string, now: int)
    returns (started: bool)
    requires Distinct(p.stories)
    modifies p, p.stories
    ensures p.phase == Execution && p.stories == old(p.stories)
    ensures p.requirements == old(p.requirements) && p.pendingQuestions == old(p.pendingQuestions)
    ensures p.communications == old(p.communications) + [PhaseMessage(commId, Execution, now)]
    ensures started <==> backend + frontend + engineers != []
    ensures forall i :: 0 <= i < |p.stories| ==>
      var s := p.stories[i];
      var pool := PoolFor(s.assignedRole, backend, frontend, backend + frontend + engineers);
      && s.assignedRole == old(s.assignedRole) && s.title == old(s.title)
      && s.startedAt == old(s.startedAt) && s.completedAt == old(s.completedAt)
      && (if started && pool != [] then s.assignedMember == pool[i % |pool|] && s.status == Ready
          else s.assignedMember == old(s.assignedMember) && s.status == old(s.status))
  {
    p.SetPhase(Execution, commId, now);
    var all := backend + frontend + engineers;
    if |all| == 0 {
      return false;
    }
    var stories := p.stories;
    for i := 0 to |stories|
      invariant p.stories == stories && p.phase == Execution
      invariant p.requirements == old(p.requirements) && p.pendingQuestions == old(p.pendingQuestions)
      invariant p.communications == old(p.communications) + [PhaseMessage(commId, Execution, now)]
      invariant forall k :: 0 <= k < |stories| ==>
        var s := stories[k];
        var pool := PoolFor(s.assignedRole, backend, frontend, all);
        && s.assignedRole == old(s.assignedRole) && s.title == old(s.title)
        && s.startedAt == old(s.startedAt) && s.completedAt == old(s.completedAt)
        && (if k < i && pool != [] then s.assignedMember == pool[k % |pool|] && s.status == Ready
            else s.assignedMember == old(s.assignedMember) && s.status == old(s.status))
    {
      var story := stories[i];
      var pool := PoolFor(story.assignedRole, backend, frontend, all);
      if |pool| > 0 {
        story.assignedMember := pool[i % |pool|];
        story.UpdateStatus(Ready, now);
      }
    }
    return true;
  }

  // ---------------------------------------------------------------------------
  // Review
  // ---------------------------------------------------------------------------

  /** The QA messages for the first `n` stories: one per story in review whose review call succeeded. */
  function ReviewMessages(stories: seq<Story>, replies: seq<Option<string>>, qaId: string, ids: Ids, now: int, n: nat)
    : seq<Communication>
    requires n <= |stories| && |replies| == |stories|
    reads stories
  {
    if n == 0 then []
    else
      var s := stories[n - 1];
      ReviewMessages(stories, replies, qaId, ids, now, n - 1) +
        (if s.status == InReview && replies[n - 1].Some? then
           [Communication(ids.message(n + 1), "message", qaId, "pm", "Review of '" + s.title + "': " + replies[n - 1].value,
                          now, map["story_id" := s.id])]
         else [])
  }

  /**
   * `runReviewPhase`: without a QA member the project goes straight to
   * complete; otherwise every story in review whose review call succeeds
   * (`replies[i]`) gets a review message and becomes done, and the project
   * ends complete.
   */
  method RunReviewPhase(p: Project, qaId: Option<string>, replies: seq<Option<string>>, ids: Ids, now: int)
    requires Distinct(p.stories) && |replies| == |p.stories|
    modifies p, p.stories
    ensures p.phase == Complete && p.stories == old(p.stories)
    ensures p.requirements == old(p.requirements) && p.pendingQuestions == old(p.pendingQuestions)
    ensures qaId.None? ==>
      p.communications == old(p.communications) + [PhaseMessage(ids.message(0), Review, now), PhaseMessage(ids.message(1), Complete, now)]
    ensures qaId.Some? ==>
      p.communications == old(p.communications) + [PhaseMessage(ids.message(0), Review, now)]
        + old(ReviewMessages(p.stories, replies, qaId.value, ids, now, |p.stories|))
        + [PhaseMessage(ids.message(1), Complete, now)]
    ensures forall i :: 0 <= i < |p.stories| ==>
      var s := p.stories[i];
      && s.assignedMember == old(s.assignedMember) && s.startedAt == old(s.startedAt) && s.title == old(s.title)
      && (if qaId.Some? && old(s.status) == InReview && replies[i].Some? then s.status == Done && s.completedAt == Some(now)
          else s.status == old(s.status) && s.completedAt == old(s.completedAt))
  {
    p.SetPhase(Review, ids.message(0), now);
    if qaId.None? {
      p.SetPhase(Complete, ids.message(1), now);
      return;
    }
    ReviewStories(p, qaId.value, replies, ids, now);
    p.SetPhase(Complete, ids.message(1), now);
  }

  /** The loop of `runReviewPhase` over the stories, with the project in review. */
  method ReviewStories(p: Project, qa: string, replies: seq<Option<string>>, ids: Ids, now: int)
    requires Distinct(p.stories) && |replies| == |p.stories|
    modifies p, p.stories
    ensures p.stories == old(p.stories) && p.phase == old(p.phase)
    ensures p.requirements == old(p.requirements) && p.pendingQuestions == old(p.pendingQuestions)
    ensures p.communications == old(p.communications) + old(ReviewMessages(p.stories, replies, qa, ids, now, |p.stories|))
    ensures forall i :: 0 <= i < |p.stories| ==>
      var s := p.stories[i];
      && s.assignedMember == old(s.assignedMember) && s.startedAt == old(s.startedAt) && s.title == old(s.title)
      && (if old(s.status) == InReview && replies[i].Some? then s.status == Done && s.completedAt == Some(now)
          else s.status == old(s.status) && s.completedAt == old(s.completedAt))
  {
    var stories := p.stories;
    for i := 0 to |stories|
      invariant p.stories == stories && p.phase == old(p.phase)
      invariant p.requirements == old(p.requirements) && p.pendingQuestions == old(p.pendingQuestions)
      invariant p.communications == old(p.communications) + old(ReviewMessages(stories, replies, qa, ids, now, i))
      invariant forall k :: 0 <= k < |stories| ==>
        var s := stories[k];
        && s.assignedMember == old(s.assignedMember) && s.startedAt == old(s.startedAt) && s.title == old(s.title)
        && (if k < i && old(s.status) == InReview && replies[k].Some? then s.status == Done && s.completedAt == Some(now)
            else s.status == old(s.status) && s.completedAt == old(s.completedAt))
    {
      var story := stories[i];
      if story.status == InReview && replies[i].Some? {
        p.AddCommunication(ids.message(i + 2), "message", qa, "pm", "Review of '" + story.title + "': " + replies[i].value,
                           map["story_id" := story.id], now);
        story.UpdateStatus(Done, now);
      }
    }
  }

  // ---------------------------------------------------------------------------
  // The client's side: answers and pending questions
  // ---------------------------------------------------------------------------

  /** The questions still waiting for the client, in order. */
  function StillPending(qs: seq<Question>): seq<Question> {
    if qs == [] then []
    else StillPending(qs[..|qs| - 1]) + (if qs[|qs| - 1].status == "pending" then [qs[|qs| - 1]] else [])
  }

  /** `StillPending` keeps exactly the pending questions, and is empty exactly when none is pending. */
  lemma {:induction false} StillPendingExact(qs: seq<Question>)
    ensures forall q :: q in StillPending(qs) <==> q in qs && q.status == "pending"
    ensures StillPending(qs) == [] <==> forall i :: 0 <= i < |qs| ==> qs[i].status != "pending"
  {
    if qs != [] {
      var n := |qs| - 1;
      StillPendingExact(qs[..n]);
      assert qs == qs[..n] + [qs[n]];
      if StillPending(qs) == [] {
        forall i | 0 <= i < |qs| ensures qs[i].status != "pending" {
          if i < n {
            assert qs[..n][i] == qs[i];
          }
        }
      }
    }
  }

  class Orchestrator {
    var manager: ProjectManager
    var active: Project?

    constructor ()
      ensures active == null && fresh(manager) && manager.projects == map[]
    {
      manager := new ProjectManager();
      active := null;
    }

    /**
     * `StartProject`, without the planning goroutine it launches: a project
     * named "project-" and the first 8 characters of a uuid, whose description
     * is the client's request, becomes the active one.
     */
    method StartProject(clientRequest: string, uid: string, projectId: string, commId: string, now: int)
      returns (p: Project)
      requires |uid| >= 8
      modifies this, manager
      ensures fresh(p) && active == p && manager == old(manager)
      ensures p.id == projectId && p.name == "project-" + uid[..8] && p.description == clientRequest
      ensures p.phase == Initiated && p.requirements == [] && p.stories == [] && p.pendingQuestions == []
      ensures p.communications == [Communication(commId, "message", "client", "pm", clientRequest, now, map[])]
      ensures manager.projects == old(manager.projects)[projectId := p]
    {
      p := manager.CreateProject(projectId, commId, "project-" + uid[..8], clientRequest, clientRequest, now);
      active := p;
    }

    /**
     * `ProvideAnswer`: an error without an active project or for an unknown
     * question; otherwise the answer is recorded and `resume` says whether the
     * task breakdown starts again: no question is still pending and the
     * project is blocked.
     */
    method ProvideAnswer(questionId: string, answer: string, commId: string, now: int)
      returns (r: Result<bool, string>)
      modifies active
      ensures active == old(active)
      ensures active == null ==> r == Err("no active project")
      ensures active != null ==>
        var i := FirstQuestion(old(active.pendingQuestions), questionId);
        && (r.Err? <==> i == |old(active.pendingQuestions)|)
        && (r.Err? ==> r.error == "question not found: " + questionId && active.pendingQuestions == old(active.pendingQuestions)
                       && active.communications == old(active.communications))
        && (r.Ok? ==>
              var q := old(active.pendingQuestions)[i];
              && active.pendingQuestions == old(active.pendingQuestions)[i := q.(answer := answer, answeredBy := "client", status := "answered", answeredAt := now)]
              && active.communications == old(active.communications) + [Communication(commId, "answer", "client", q.fromMember, answer, now, map["question_id" := questionId])]
              && active.updatedAt == now
              && (r.value <==> (forall k :: 0 <= k < |active.pendingQuestions| ==> active.pendingQuestions[k].status != "pending")
                               && active.phase == Blocked))
      ensures active != null ==> active.phase == old(active.phase) && active.stories == old(active.stories)
    {
      if active == null {
        return Err("no active project");
      }
      var project := active;
      var res := project.AnswerQuestion(questionId, answer, "client", commId, now);
      if res.Err? {
        return Err(res.error);
      }
      var allAnswered := true;
      var qs := project.pendingQuestions;
      var k := 0;
      while k < |qs|
        invariant 0 <= k <= |qs|
        invariant allAnswered
        invariant forall j :: 0 <= j < k ==> qs[j].status != "pending"
      {
        if qs[k].status == "pending" {
          allAnswered := false;
          break;
        }
        k := k + 1;
      }
      return Ok(allAnswered && project.phase == Blocked);
    }

    /** `GetPendingQuestions`: nothing without an active project, else the pending questions in order. */
    method GetPendingQuestions() returns (r: Option<seq<Question>>)
      ensures active == null ==> r == None
      ensures active != null ==> r == Some(StillPending(active.pendingQuestions))
    {
      if active == null {
        return None;
      }
      var qs := active.pendingQuestions;
      var pending: seq<Question> := [];
      for k := 0 to |qs|
        invariant pending == StillPending(qs[..k])
      {
        assert qs[..k + 1][..k] == qs[..k];
        if qs[k].status == "pending" {
          pending := pending + [qs[k]];
        }
      }
      assert qs[..|qs|] == qs;
      return Some(pending);
    }
  }
}
