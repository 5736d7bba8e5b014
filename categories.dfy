/**
 * Role-based tool access: each built-in tool belongs to one category, each
 * role may use a fixed list of categories, and tools outside the table are
 * allowed for everyone.
 */
module ToolCategories {

  datatype ToolCategory = FileSystem | Command | Git | Planning | Testing | Documentation | Communication | HTTP
  {
    function Name(): string {
      match this
      case FileSystem => "filesystem"
      case Command => "command"
      case Git => "git"
      case Planning => "planning"
      case Testing => "testing"
      case Documentation => "documentation"
      case Communication => "communication"
      case HTTP => "http"
    }
  }

  const AllCategories: seq<ToolCategory> :=
    [FileSystem, Command, Git, Planning, Testing, Documentation, Communication, HTTP]

  /** `RoleToolMapping`. */
  const RoleToolMapping: map<string, seq<ToolCategory>> := map[
    "engineer" := [FileSystem, Command, Git, Communication],
    "pm" := [Planning, Communication],
    "qa" := [Testing, Command, Communication],
    "ba" := [Documentation, Communication],
    "default" := AllCategories]

  /** `ToolCategoryMapping`. */
  const ToolCategoryMapping: map<string, ToolCategory> := map[
    "read_file" := FileSystem, "write_file" := FileSystem, "edit_file" := FileSystem,
    "list_files" := FileSystem, "search_files" := FileSystem,
    "run_command" := Command,
    "git_status" := Git, "git_diff" := Git, "git_commit" := Git, "git_log" := Git, "git_branch" := Git,
    "create_task" := Planning, "update_task" := Planning, "list_tasks" := Planning,
    "assign_task" := Planning, "create_report" := Planning, "delegate_task" := Planning,
    "run_tests" := Testing, "create_bug_report" := Testing, "verify_fix" := Testing, "list_test_results" := Testing,
    "create_doc" := Documentation, "create_requirement" := Documentation, "create_spec" := Documentation,
    "ask_colleague" := Communication, "report_progress" := Communication,
    "http_request" := HTTP]

  /** `GetRoleCategories`: the mapped list, or the default list for an unknown role. */
  function GetRoleCategories(role: string): (cs: seq<ToolCategory>)
    ensures role in RoleToolMapping ==> cs == RoleToolMapping[role]
    ensures role !in RoleToolMapping ==> cs == AllCategories
  {
    if role in RoleToolMapping then RoleToolMapping[role] else RoleToolMapping["default"]
  }

  /** The access rule: unknown tools are allowed, known ones by category. */
  predicate Allowed(toolName: string, role: string) {
    toolName !in ToolCategoryMapping || ToolCategoryMapping[toolName] in GetRoleCategories(role)
  }

  /** `IsToolAllowedForRole`. */
  method IsToolAllowedForRole(toolName: string, role: string) returns (ok: bool)
    ensures ok <==> Allowed(toolName, role)
  {
    if toolName !in ToolCategoryMapping {
      return true;
    }
    var category := ToolCategoryMapping[toolName];
    var allowed := GetRoleCategories(role);
    for i := 0 to |allowed|
      invariant category !in allowed[..i]
    {
      if allowed[i] == category {
        return true;
      }
    }
    assert allowed[..|allowed|] == allowed;
    return false;
  }

  /** `GetAllowedToolsForRole`: every known tool the role may use, each once, in map order. */
  method GetAllowedToolsForRole(role: string) returns (tools: seq<string>)
    ensures forall t :: t in tools <==> t in ToolCategoryMapping && Allowed(t, role)
    ensures forall i, j :: 0 <= i < j < |tools| ==> tools[i] != tools[j]
  {
    var categories := GetRoleCategories(role);
    var categorySet: set<ToolCategory> := {};
    for i := 0 to |categories|
      invariant categorySet == set c | c in categories[..i]
    {
      assert categories[..i + 1] == categories[..i] + [categories[i]];
      categorySet := categorySet + {categories[i]};
    }
    assert categories[..|categories|] == categories;
    tools := [];
    var left := ToolCategoryMapping.Keys;
    while left != {}
      invariant left <= ToolCategoryMapping.Keys
      invariant forall t :: t in tools <==> t in ToolCategoryMapping && t !in left && Allowed(t, role)
      invariant forall i, j :: 0 <= i < j < |tools| ==> tools[i] != tools[j]
      decreases left
    {
      var tool :| tool in left;
      if ToolCategoryMapping[tool] in categorySet {
        tools := tools + [tool];
      }
      left := left - {tool};
    }
  }

  /** The default list holds every category, so unrecognised roles may use every tool. */
  lemma UnknownRoleAllowsEverything(toolName: string, role: string)
    requires role !in RoleToolMapping
    ensures Allowed(toolName, role)
  {
    if toolName in ToolCategoryMapping {
      var c := ToolCategoryMapping[toolName];
      assert c in AllCategories by {
        match c
        case FileSystem => assert AllCategories[0] == c;
        case Command => assert AllCategories[1] == c;
        case Git => assert AllCategories[2] == c;
        case Planning => assert AllCategories[3] == c;
        case Testing => assert AllCategories[4] == c;
        case Documentation => assert AllCategories[5] == c;
        case Communication => assert AllCategories[6] == c;
        case HTTP => assert AllCategories[7] == c;
      }
    }
  }

  /** A product manager cannot read files; an engineer cannot make HTTP requests; QA can run commands. */
  lemma RoleExamples()
    ensures !Allowed("read_file", "pm")
    ensures !Allowed("http_request", "engineer")
    ensures Allowed("run_command", "qa") && Allowed("ask_colleague", "ba")
    ensures Allowed("not_a_builtin", "pm")
  {
    assert ToolCategoryMapping["read_file"] == FileSystem;
    assert ToolCategoryMapping["http_request"] == HTTP;
    assert ToolCategoryMapping["run_command"] == Command;
    assert ToolCategoryMapping["ask_colleague"] == Communication;
  }
}
