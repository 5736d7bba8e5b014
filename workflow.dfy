/**
 * The project workflow state of `internal/team/workflow.go`: a project's
 * requirements, stories, client questions and communication log, all
 * updated in place. IDs (uuid) and timestamps (time.Now) are parameters.
 */
module Workflow {
  import opened Wrappers

  datatype ProjectPhase = Initiated | Planning | Requirements | TaskBreakdown | Execution | Review | Complete | Blocked

  function PhaseName(p: ProjectPhase): string {
    match p
    case Initiated => "initiated"
    case Planning => "planning"
    case Requirements => "requirements"
    case TaskBreakdown => "task_breakdown"
    case Execution => "execution"
    case Review => "review"
    case Complete => "complete"
    case Blocked => "blocked"
  }

  datatype StoryStatus = Backlog | Ready | InProgress | StoryBlocked | InReview | Done

  datatype Requirement = Requirement(id: string, title: string, description: string, priority: string, createdBy: string, stories: seq<string>)

  datatype Question = Question(
    id: string, content: string, fromRole: string, fromMember: string, toRole: string, context: string,
    status: string, answer: string, answeredBy: string, createdAt: int, answeredAt: int)

  datatype Communication = Communication(id: string, kind: string, from: string, to: string, content: string, timestamp: int, metadata: map<string, string>)

  datatype Artifact = Artifact(id: string, kind: string, path: string, createdBy: string, createdAt: int)

  class Story {
    const id: string
    var title: string
    var description: string
    var kind: string
    var acceptanceCriteria: seq<string>
    var requirementId: string
    var assignedRole: string
    var assignedMember: string
    var status: StoryStatus
    var startedAt: Option<int>
    var completedAt: Option<int>
    var artifacts: seq<Artifact>
    var questions: seq<Question>

    /** The story `CreateStory` builds: status backlog, no artifacts, questions or timestamps. */
    constructor (id: string, reqId: string, title: string, description: string, kind: string, assignedRole: string, criteria: seq<string>)
      ensures this.id == id && this.requirementId == reqId && this.title == title && this.description == description
      ensures this.kind == kind && this.assignedRole == assignedRole && this.acceptanceCriteria == criteria
      ensures assignedMember == "" && status == Backlog && startedAt == None && completedAt == None
      ensures artifacts == [] && questions == []
    {
      this.id, this.requirementId, this.title, this.description := id, reqId, title, description;
      this.kind, this.assignedRole, this.acceptanceCriteria := kind, assignedRole, criteria;
      assignedMember, status, startedAt, completedAt := "", Backlog, None, None;
      artifacts, questions := [], [];
    }

    /** `UpdateStatus`: StartedAt only on the first move to in_progress; CompletedAt on every move to done. */
    method UpdateStatus(s: StoryStatus, now: int)
      modifies this
      ensures status == s
      ensures startedAt == if s == InProgress && old(startedAt) == None then Some(now) else old(startedAt)
      ensures completedAt == if s == Done then Some(now) else old(completedAt)
      ensures artifacts == old(artifacts) && questions == old(questions) && assignedRole == old(assignedRole)
      ensures assignedMember == old(assignedMember) && title == old(title)
    {
      status := s;
      if s == InProgress && startedAt == None {
        startedAt := Some(now);
      }
      if s == Done {
        completedAt := Some(now);
      }
    }

    method AddArtifact(artifactId: string, kind: string, path: string, createdBy: string, now: int)
      modifies this
      ensures artifacts == old(artifacts) + [Artifact(artifactId, kind, path, createdBy, now)]
      ensures status == old(status) && questions == old(questions)
    {
      artifacts := artifacts + [Artifact(artifactId, kind, path, createdBy, now)];
    }

    /** `Story.AskQuestion`: the context is the story's own ID. */
    method AskQuestion(qid: string, content: string, fromRole: string, fromMember: string, toRole: string, now: int)
      returns (q: Question)
      modifies this
      ensures q == Question(qid, content, fromRole, fromMember, toRole, id, "pending", "", "", now, 0)
      ensures questions == old(questions) + [q]
      ensures status == old(status) && artifacts == old(artifacts)
    {
      q := Question(qid, content, fromRole, fromMember, toRole, id, "pending", "", "", now, 0);
      questions := questions + [q];
    }
  }

  /** The requirements after linking `storyId` to the FIRST requirement with ID `reqId`. */
  function LinkStory(reqs: seq<Requirement>, reqId: string, storyId: string): (r: seq<Requirement>)
    ensures |r| == |reqs|
  {
    if reqs == [] then []
    else if reqs[0].id == reqId then [reqs[0].(stories := reqs[0].stories + [storyId])] + reqs[1..]
    else [reqs[0]] + LinkStory(reqs[1..], reqId, storyId)
  }

  /** The index of the first element with a given ID, or the length. */
  function FirstReq(reqs: seq<Requirement>, reqId: string): (i: nat)
    ensures i <= |reqs|
    ensures i < |reqs| ==> reqs[i].id == reqId
    ensures forall j :: 0 <= j < i ==> reqs[j].id != reqId
  {
    if reqs == [] then 0 else if reqs[0].id == reqId then 0 else 1 + FirstReq(reqs[1..], reqId)
  }

  /** Linking changes only the first matching requirement, and only by appending the story ID. */
  lemma {:induction false} LinkStoryOnlyFirst(reqs: seq<Requirement>, reqId: string, storyId: string)
    ensures var r := LinkStory(reqs, reqId, storyId); var i := FirstReq(reqs, reqId);
      && (forall j :: 0 <= j < |reqs| && j != i ==> r[j] == reqs[j])
      && (i < |reqs| ==> r[i] == reqs[i].(stories := reqs[i].stories + [storyId]))
      && (i == |reqs| ==> r == reqs)
  {
    if reqs != [] && reqs[0].id != reqId {
      LinkStoryOnlyFirst(reqs[1..], reqId, storyId);
      var r := LinkStory(reqs, reqId, storyId);
      assert r[1..] == LinkStory(reqs[1..], reqId, storyId);
    }
  }

  function FirstQuestion(qs: seq<Question>, qid: string): (i: nat)
    ensures i <= |qs|
    ensures i < |qs| ==> qs[i].id == qid
    ensures forall j :: 0 <= j < i ==> qs[j].id != qid
  {
    if qs == [] then 0 else if qs[0].id == qid then 0 else 1 + FirstQuestion(qs[1..], qid)
  }

  function StoriesWithRole(stories: seq<Story>, role: string): (r: seq<Story>)
    reads stories
  {
    if stories == [] then []
    else
      var last := stories[|stories| - 1];
      StoriesWithRole(stories[..|stories| - 1], role) + (if last.assignedRole == role then [last] else [])
  }

  function StoriesWithStatus(stories: seq<Story>, s: StoryStatus): (r: seq<Story>)
    reads stories
  {
    if stories == [] then []
    else
      var last := stories[|stories| - 1];
      StoriesWithStatus(stories[..|stories| - 1], s) + (if last.status == s then [last] else [])
  }

  /** The role filter keeps exactly the stories with that role, in their original order. */
  lemma {:induction false} StoriesWithRoleExact(stories: seq<Story>, role: string)
    ensures forall x :: x in StoriesWithRole(stories, role) <==> x in stories && x.assignedRole == role
    ensures |StoriesWithRole(stories, role)| <= |stories|
  {
    if stories != [] {
      StoriesWithRoleExact(stories[..|stories| - 1], role);
      assert stories == stories[..|stories| - 1] + [stories[|stories| - 1]];
    }
  }

  /** The status filter keeps exactly the stories with that status. */
  lemma {:induction false} StoriesWithStatusExact(stories: seq<Story>, s: StoryStatus)
    ensures forall x :: x in StoriesWithStatus(stories, s) <==> x in stories && x.status == s
    ensures |StoriesWithStatus(stories, s)| <= |stories|
  {
    if stories != [] {
      StoriesWithStatusExact(stories[..|stories| - 1], s);
      assert stories == stories[..|stories| - 1] + [stories[|stories| - 1]];
    }
  }

  /** The status_update `SetPhase` broadcasts. */
  function PhaseMessage(commId: string, p: ProjectPhase, now: int): Communication {
    Communication(commId, "status_update", "system", "all", "Project phase changed to: " + PhaseName(p), now, map[])
  }

  class Project {
    const id: string
    var name: string
    var description: string
    var phase: ProjectPhase
    var clientId: string
    var createdAt: int
    var updatedAt: int
    var requirements: seq<Requirement>
    var stories: seq<Story>
    var pendingQuestions: seq<Question>
    var communications: seq<Communication>

    /** The project half of `CreateProject`: phase initiated, client "client", one client → pm message. */
    constructor (id: string, commId: string, name: string, description: string, clientRequest: string, now: int)
      ensures this.id == id && this.name == name && this.description == description
      ensures phase == Initiated && clientId == "client" && createdAt == now && updatedAt == now
      ensures requirements == [] && stories == [] && pendingQuestions == []
      ensures communications == [Communication(commId, "message", "client", "pm", clientRequest, now, map[])]
    {
      this.id, this.name, this.description := id, name, description;
      phase, clientId, createdAt, updatedAt := Initiated, "client", now, now;
      requirements, stories, pendingQuestions := [], [], [];
      communications := [Communication(commId, "message", "client", "pm", clientRequest, now, map[])];
    }

    /** `AddRequirement`: exactly one new requirement, with no stories, at the end. */
    method AddRequirement(reqId: string, title: string, description: string, priority: string, createdBy: string, now: int)
      returns (r: Requirement)
      modifies this
      ensures r == Requirement(reqId, title, description, priority, createdBy, [])
      ensures requirements == old(requirements) + [r]
      ensures stories == old(stories) && pendingQuestions == old(pendingQuestions)
      ensures communications == old(communications) && phase == old(phase) && updatedAt == now
    {
      r := Requirement(reqId, title, description, priority, createdBy, []);
      requirements := requirements + [r];
      updatedAt := now;
    }

    /** `CreateStory`: a new backlog story, linked to the first requirement with the ID, if any. */
    method CreateStory(storyId: string, reqId: string, title: string, description: string, kind: string,
                       assignedRole: string, criteria: seq<string>, now: int)
      returns (story: Story)
      modifies this
      ensures fresh(story) && story.status == Backlog && story.id == storyId && story.requirementId == reqId
      ensures story.assignedRole == assignedRole && story.acceptanceCriteria == criteria
      ensures story.title == title && story.description == description && story.kind == kind && story.assignedMember == ""
      ensures stories == old(stories) + [story]
      ensures requirements == LinkStory(old(requirements), reqId, storyId)
      ensures pendingQuestions == old(pendingQuestions) && communications == old(communications)
      ensures phase == old(phase) && updatedAt == now
    {
      story := new Story(storyId, reqId, title, description, kind, assignedRole, criteria);
      stories := stories + [story];
      var i := 0;
      while i < |requirements|
        invariant 0 <= i <= |requirements|
        invariant forall j :: 0 <= j < i ==> requirements[j].id != reqId
        invariant requirements == old(requirements)
      {
        if requirements[i].id == reqId {
          break;
        }
        i := i + 1;
      }
      LinkStoryOnlyFirst(requirements, reqId, storyId);
      ghost var linked := LinkStory(requirements, reqId, storyId);
      if i < |requirements| {
        requirements := requirements[i := requirements[i].(stories := requirements[i].stories + [storyId])];
      }
      assert requirements == linked;
      updatedAt := now;
    }

    /** `Project.AskQuestion`: always one "question" communication; pending only when asked of the client. */
    method AskQuestion(qid: string, commId: string, content: string, fromRole: string, fromMember: string,
                       toRole: string, context: string, now: int)
      returns (q: Question)
      modifies this
      ensures q == Question(qid, content, fromRole, fromMember, toRole, context, "pending", "", "", now, 0)
      ensures pendingQuestions == old(pendingQuestions) + (if toRole == "client" then [q] else [])
      ensures communications == old(communications) +
        [Communication(commId, "question", fromMember, toRole, content, now, map["question_id" := qid, "context" := context])]
      ensures requirements == old(requirements) && stories == old(stories) && phase == old(phase)
    {
      q := Question(qid, content, fromRole, fromMember, toRole, context, "pending", "", "", now, 0);
      if toRole == "client" {
        pendingQuestions := pendingQuestions + [q];
      }
      communications := communications +
        [Communication(commId, "question", fromMember, toRole, content, now, map["question_id" := qid, "context" := context])];
      updatedAt := now;
    }

    /**
     * `AnswerQuestion`: the first pending entry with the ID becomes answered and an
     * "answer" message goes to its asker; an unknown ID is an error and changes nothing.
     */
    method AnswerQuestion(qid: string, answer: string, answeredBy: string, commId: string, now: int)
      returns (r: Result<(), string>)
      modifies this
      ensures var i := FirstQuestion(old(pendingQuestions), qid);
        && (r.Ok? <==> i < |old(pendingQuestions)|)
        && (r.Err? ==> r.error == "question not found: " + qid && pendingQuestions == old(pendingQuestions)
                       && communications == old(communications) && updatedAt == old(updatedAt))
        && (r.Ok? ==>
              var q := old(pendingQuestions)[i];
              && pendingQuestions == old(pendingQuestions)[i := q.(answer := answer, answeredBy := answeredBy, status := "answered", answeredAt := now)]
              && communications == old(communications) + [Communication(commId, "answer", answeredBy, q.fromMember, answer, now, map["question_id" := qid])]
              && updatedAt == now)
      ensures requirements == old(requirements) && stories == old(stories) && phase == old(phase)
    {
      var i := 0;
      while i < |pendingQuestions|
        invariant 0 <= i <= |pendingQuestions|
        invariant forall j :: 0 <= j < i ==> pendingQuestions[j].id != qid
      {
        if pendingQuestions[i].id == qid {
          var q := pendingQuestions[i];
          assert FirstQuestion(pendingQuestions, qid) == i;
          pendingQuestions := pendingQuestions[i := q.(answer := answer, answeredBy := answeredBy, status := "answered", answeredAt := now)];
          communications := communications + [Communication(commId, "answer", answeredBy, q.fromMember, answer, now, map["question_id" := qid])];
          updatedAt := now;
          return Ok(());
        }
        i := i + 1;
      }
      return Err("question not found: " + qid);
    }

    /** `SetPhase`: the new phase and one status_update from "system" to "all". */
    method SetPhase(p: ProjectPhase, commId: string, now: int)
      modifies this
      ensures phase == p && updatedAt == now
      ensures communications == old(communications) + [PhaseMessage(commId, p, now)]
      ensures requirements == old(requirements) && stories == old(stories) && pendingQuestions == old(pendingQuestions)
    {
      phase := p;
      updatedAt := now;
      communications := communications +
        [Communication(commId, "status_update", "system", "all", "Project phase changed to: " + PhaseName(p), now, map[])];
    }

    method AddCommunication(commId: string, kind: string, from: string, to: string, content: string,
                            metadata: map<string, string>, now: int)
      modifies this
      ensures communications == old(communications) + [Communication(commId, kind, from, to, content, now, metadata)]
      ensures updatedAt == now && phase == old(phase) && requirements == old(requirements)
      ensures stories == old(stories) && pendingQuestions == old(pendingQuestions)
    {
      communications := communications + [Communication(commId, kind, from, to, content, now, metadata)];
      updatedAt := now;
    }

    /** `GetStoriesForRole`: the stories assigned to `role`, in order. */
    method GetStoriesForRole(role: string) returns (r: seq<Story>)
      ensures r == StoriesWithRole(stories, role)
    {
      r := [];
      for k := 0 to |stories|
        invariant r == StoriesWithRole(stories[..k], role)
      {
        assert stories[..k + 1][..k] == stories[..k];
        if stories[k].assignedRole == role {
          r := r + [stories[k]];
        }
      }
      assert stories[..|stories|] == stories;
    }

    /** `GetReadyStories`: the stories whose status is ready, in order. */
    method GetReadyStories() returns (r: seq<Story>)
      ensures r == StoriesWithStatus(stories, Ready)
    {
      r := [];
      for k := 0 to |stories|
        invariant r == StoriesWithStatus(stories[..k], Ready)
      {
        assert stories[..k + 1][..k] == stories[..k];
        if stories[k].status == Ready {
          r := r + [stories[k]];
        }
      }
      assert stories[..|stories|] == stories;
    }
  }

  /** `ProjectManager`: projects keyed by their ID. */
  class ProjectManager {
    var projects: map<string, Project>

    constructor ()
      ensures projects == map[]
    {
      projects := map[];
    }

    /** `CreateProject`: a fresh project stored under its ID. */
    method CreateProject(id: string, commId: string, name: string, description: string, clientRequest: string, now: int)
      returns (p: Project)
      modifies this
      ensures fresh(p) && p.id == id && p.name == name && p.description == description
      ensures p.phase == Initiated && p.clientId == "client"
      ensures p.requirements == [] && p.stories == [] && p.pendingQuestions == []
      ensures p.communications == [Communication(commId, "message", "client", "pm", clientRequest, now, map[])]
      ensures projects == old(projects)[id := p]
    {
      p := new Project(id, commId, name, description, clientRequest, now);
      projects := projects[id := p];
    }

    /** `GetProject`: nil for an unknown ID. */
    function GetProject(id: string): (p: Option<Project>)
      reads this
      ensures p.Some? <==> id in projects
      ensures p.Some? ==> p.value == projects[id]
    {
      if id in projects then Some(projects[id]) else None
    }

    /** `ListProjects`: every project once, in no particular order. */
    method ListProjects() returns (r: seq<Project>)
      ensures forall p :: p in r <==> p in projects.Values
    {
      r := [];
      var left := projects.Keys;
      while left != {}
        invariant left <= projects.Keys
        invariant forall p :: p in r <==> exists k :: k in projects.Keys - left && projects[k] == p
        decreases left
      {
        var k :| k in left;
        r := r + [projects[k]];
        left := left - {k};
      }
    }
  }
}
