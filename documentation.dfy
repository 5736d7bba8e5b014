/**
 * The documentation tools: create_doc, create_requirement and create_spec,
 * and the file-name sanitiser create_doc uses. The file system and the
 * clock are parameters: `unix` is the time in seconds that goes into an
 * ID, `now` the instant recorded, `stamp` that instant in RFC 3339 form.
 */
module Documentation {
  import opened Wrappers
  import opened GoStrings
  import opened FilePath
  import opened ProviderTypes
  import Tools

  // ---------------------------------------------------------------------
  // sanitizeFilename

  /** The characters a sanitised file name keeps: ASCII letters, digits, '-' and '_'. */
  predicate SafeChar(c: char) {
    ('a' <= c <= 'z') || ('A' <= c <= 'Z') || ('0' <= c <= '9') || c == '-' || c == '_'
  }

  /** What one character becomes: itself when safe, '-' for a space, nothing otherwise. */
  function SanitizedChar(c: char): (r: string)
    ensures |r| <= 1
    ensures forall i :: 0 <= i < |r| ==> SafeChar(r[i])
  {
    if SafeChar(c) then [c] else if c == ' ' then "-" else ""
  }

  /** The sanitised name, character by character. */
  function Sanitized(name: string): (r: string)
    ensures |r| <= |name|
  {
    if name == [] then ""
    else Sanitized(name[..|name| - 1]) + SanitizedChar(name[|name| - 1])
  }

  /** `sanitizeFilename`'s loop over the runes of the name. */
  method SanitizeFilename(name: string) returns (result: string)
    ensures result == Sanitized(name)
  {
    result := "";
    for i := 0 to |name|
      invariant result == Sanitized(name[..i])
    {
      assert name[..i + 1][..i] == name[..i];
      var r := name[i];
      if SafeChar(r) {
        result := result + [r];
      } else if r == ' ' {
        result := result + "-";
      }
    }
    assert name[..|name|] == name;
  }

  /** Every character of a sanitised name is safe. */
  lemma {:induction false} SanitizedIsSafe(name: string)
    ensures forall i :: 0 <= i < |Sanitized(name)| ==> SafeChar(Sanitized(name)[i])
  {
    if name != [] {
      SanitizedIsSafe(name[..|name| - 1]);
    }
  }

  /** A name made only of safe characters is left as it is. */
  lemma {:induction false} SanitizedKeepsSafe(name: string)
    requires forall i :: 0 <= i < |name| ==> SafeChar(name[i])
    ensures Sanitized(name) == name
  {
    if name != [] {
      SanitizedKeepsSafe(name[..|name| - 1]);
      assert name == name[..|name| - 1] + [name[|name| - 1]];
    }
  }

  /** Sanitising twice is sanitising once. */
  lemma SanitizedIdempotent(name: string)
    ensures Sanitized(Sanitized(name)) == Sanitized(name)
  {
    SanitizedIsSafe(name);
    SanitizedKeepsSafe(Sanitized(name));
  }

  // ---------------------------------------------------------------------
  // Markdown lists

  /** Criteria numbered as `1. c`, `2. c`, ..., built from the last line. */
  function Numbered(cs: seq<string>): string {
    if cs == [] then ""
    else Numbered(cs[..|cs| - 1]) + Itoa(|cs|) + ". " + cs[|cs| - 1] + "\n"
  }

  /** The same list read from the front, its first line numbered `k`. */
  function NumberedFrom(k: nat, cs: seq<string>): string
    decreases |cs|
  {
    if cs == [] then "" else Itoa(k) + ". " + cs[0] + "\n" + NumberedFrom(k + 1, cs[1..])
  }

  lemma {:induction false} NumberedFromSnoc(k: nat, cs: seq<string>, c: string)
    ensures NumberedFrom(k, cs + [c]) == NumberedFrom(k, cs) + Itoa(k + |cs|) + ". " + c + "\n"
    decreases |cs|
  {
    if cs == [] {
      assert (cs + [c])[1..] == [];
    } else {
      assert (cs + [c])[0] == cs[0];
      assert (cs + [c])[1..] == cs[1..] + [c];
      NumberedFromSnoc(k + 1, cs[1..], c);
    }
  }

  /** The criteria are numbered from 1, one line each, in order. */
  lemma {:induction false} NumberedFromOne(cs: seq<string>)
    ensures Numbered(cs) == NumberedFrom(1, cs)
  {
    if cs != [] {
      var init := cs[..|cs| - 1];
      NumberedFromOne(init);
      NumberedFromSnoc(1, init, cs[|cs| - 1]);
      assert init + [cs[|cs| - 1]] == cs;
    }
  }

  /** The loop `create_requirement` writes the criteria with. */
  method NumberCriteria(cs: seq<string>) returns (md: string)
    ensures md == Numbered(cs)
  {
    md := "";
    for i := 0 to |cs|
      invariant md == Numbered(cs[..i])
    {
      assert cs[..i + 1][..i] == cs[..i];
      md := md + Itoa(i + 1) + ". " + cs[i] + "\n";
    }
    assert cs[..|cs|] == cs;
  }

  /** One item of a bullet list. */
  function BulletLine(x: string): string {
    "- " + x + "\n"
  }

  /** A bullet list, one line per item, built from the last line. */
  function Bullets(xs: seq<string>): string {
    if xs == [] then "" else Bullets(xs[..|xs| - 1]) + BulletLine(xs[|xs| - 1])
  }

  /** The bullet list of two lists is the two bullet lists one after the other. */
  lemma {:induction false} BulletsAppend(xs: seq<string>, ys: seq<string>)
    ensures Bullets(xs + ys) == Bullets(xs) + Bullets(ys)
    decreases |ys|
  {
    if ys == [] {
      assert xs + ys == xs;
    } else {
      var init := ys[..|ys| - 1];
      var last := ys[|ys| - 1];
      BulletsAppend(xs, init);
      assert (xs + ys)[..|xs + ys| - 1] == xs + init;
      assert (xs + ys)[|xs + ys| - 1] == last;
      assert Bullets(xs + ys) == Bullets(xs + init) + BulletLine(last);
      assert Bullets(ys) == Bullets(init) + BulletLine(last);
    }
  }

  /** Every item is one line of the list. */
  lemma {:induction false} BulletsList(xs: seq<string>, i: int)
    requires 0 <= i < |xs|
    ensures Contains(Bullets(xs), BulletLine(xs[i]))
    decreases |xs|
  {
    var init := xs[..|xs| - 1];
    if i == |xs| - 1 {
      ContainsExtend(Bullets(init), BulletLine(xs[i]), BulletLine(xs[i]));
    } else {
      assert init[i] == xs[i];
      BulletsList(init, i);
      ContainsPrefix(Bullets(init), BulletLine(xs[|xs| - 1]), BulletLine(xs[i]));
    }
  }

  /** `b` contains `sub` when `b` occurs in `a + b` and holds `sub`; the case `b == sub` included. */
  lemma ContainsExtend(a: string, b: string, sub: string)
    requires b == sub || Contains(b, sub)
    ensures Contains(a + b, sub)
  {
    var k := if b == sub then 0 else Index(b, sub);
    assert At(b, sub, k);
    assert (a + b)[|a| + k..|a| + k + |sub|] == b[k..k + |sub|];
    assert At(a + b, sub, |a| + k);
  }

  /** What `a` contains, `a + b` contains. */
  lemma ContainsPrefix(a: string, b: string, sub: string)
    requires Contains(a, sub)
    ensures Contains(a + b, sub)
  {
    var k := Index(a, sub);
    assert (a + b)[k..k + |sub|] == a[k..k + |sub|];
    assert At(a + b, sub, k);
  }

  /** The loop `create_spec` writes its requirement and component lists with. */
  method BulletList(xs: seq<string>) returns (md: string)
    ensures md == Bullets(xs)
  {
    md := "";
    for i := 0 to |xs|
      invariant md == Bullets(xs[..i])
    {
      assert xs[..i + 1][..i] == xs[..i];
      md := md + BulletLine(xs[i]);
    }
    assert xs[..|xs|] == xs;
  }

  /** `a + b + c` contains `b`. */
  lemma ContainsMiddle(a: string, b: string, c: string)
    ensures Contains(a + b + c, b)
  {
    assert (a + b + c)[|a|..|a| + |b|] == b;
    assert At(a + b + c, b, |a|);
  }

  /** The file a tool writes and what it writes there. */
  datatype MarkdownFile = MarkdownFile(path: string, content: string)

  /** What a documentation tool hands back: its reply and the markdown file it writes. */
  datatype Created = Created(reply: Json, markdown: MarkdownFile)

  // ---------------------------------------------------------------------
  // create_doc

  datatype Document = Document(
    id: string,
    title: string,
    docType: string,
    content: string,
    author: string,
    version: string,
    status: string,
    path: string,
    createdAt: int,
    updatedAt: int)

  /** The document's file: `docs/<sanitised title>.md` under the artifact directory. */
  function DocPath(artifactPath: string, title: string): string {
    JoinAll([artifactPath, "docs", Sanitized(title) + ".md"])
  }

  /** The document `create_doc` records. */
  function DocDraft(args: map<string, Json>, artifactPath: string, author: string, unix: int, now: int): (r: Result<Document, string>)
    ensures Tools.ArgRequired(args, "title").None? ==> r == Err("title is required")
    ensures Tools.ArgRequired(args, "title").Some? && Tools.ArgRequired(args, "content").None? ==>
      r == Err("content is required")
    ensures r.Ok? ==> && r.value.title == args["title"].s && r.value.content == args["content"].s
                      && r.value.docType == Tools.ArgStringOr(args, "type", "doc")
                      && r.value.version == "1.0" && r.value.status == "draft"
                      && r.value.id == "DOC-" + FormatInt(unix) && r.value.author == author
                      && r.value.path == DocPath(artifactPath, r.value.title)
  {
    match Tools.ArgRequired(args, "title")
    case None => Err("title is required")
    case Some(title) =>
      match Tools.ArgRequired(args, "content")
      case None => Err("content is required")
      case Some(content) =>
        Ok(Document("DOC-" + FormatInt(unix), title, Tools.ArgStringOr(args, "type", "doc"), content, author,
                    "1.0", "draft", DocPath(artifactPath, title), now, now))
  }

  /** The markdown form of a document. */
  function DocMarkdown(doc: Document, stamp: string): string {
    ("# " + doc.title + "\n")
      + ("\n*Author: " + doc.author + "*\n*Version: " + doc.version + "*\n*Status: " + doc.status
         + "*\n*Created: " + stamp + "*\n\n---\n\n" + doc.content + "\n")
  }

  function DocReply(doc: Document): Json {
    JObj(map["id" := JStr(doc.id), "title" := JStr(doc.title), "path" := JStr(doc.path),
             "type" := JStr(doc.docType), "status" := JStr(doc.status), "created_at" := JInt(doc.createdAt)])
  }

  /** `create_doc`: `mkdirAll` and `write` give the errors of making the directory and writing the file. */
  function CreateDocOutcome(args: map<string, Json>, artifactPath: string, author: string, unix: int, now: int, stamp: string,
                            mkdirAll: string -> Option<string>, write: MarkdownFile -> Option<string>): Result<Created, string>
  {
    match DocDraft(args, artifactPath, author, unix, now)
    case Err(e) => Err(e)
    case Ok(doc) =>
      match mkdirAll(Dir(doc.path))
      case Some(e) => Err("create docs directory: " + e)
      case None =>
        var file := MarkdownFile(doc.path, DocMarkdown(doc, stamp));
        match write(file)
        case Some(e) => Err("write document: " + e)
        case None => Ok(Created(DocReply(doc), file))
  }

  /** `CreateDocTool.Execute`. */
  method CreateDoc(args: map<string, Json>, artifactPath: string, author: string, unix: int, now: int, stamp: string,
                   mkdirAll: string -> Option<string>, write: MarkdownFile -> Option<string>) returns (r: Result<Created, string>)
    ensures r == CreateDocOutcome(args, artifactPath, author, unix, now, stamp, mkdirAll, write)
  {
    var title := Tools.ArgRequired(args, "title");
    if title.None? {
      return Err("title is required");
    }
    var content := Tools.ArgRequired(args, "content");
    if content.None? {
      return Err("content is required");
    }
    var docType := "doc";
    if Tools.ArgString(args, "type").Some? {
      docType := args["type"].s;
    }
    var docPath := DocPath(artifactPath, title.value);
    var doc := Document("DOC-" + FormatInt(unix), title.value, docType, content.value, author, "1.0", "draft",
                        docPath, now, now);
    var md := DocMarkdown(doc, stamp);
    var err := mkdirAll(Dir(docPath));
    if err.Some? {
      return Err("create docs directory: " + err.value);
    }
    err := write(MarkdownFile(docPath, md));
    if err.Some? {
      return Err("write document: " + err.value);
    }
    return Ok(Created(DocReply(doc), MarkdownFile(docPath, md)));
  }

  /**
   * A created document is a draft of version 1.0, of type "doc" unless a
   * type is given, written under `docs` in a file whose name is made of
   * safe characters and that starts with its title as a heading.
   */
  lemma CreateDocDefaults(args: map<string, Json>, artifactPath: string, author: string, unix: int, now: int, stamp: string,
                          mkdirAll: string -> Option<string>, write: MarkdownFile -> Option<string>)
    requires CreateDocOutcome(args, artifactPath, author, unix, now, stamp, mkdirAll, write).Ok?
    ensures var c := CreateDocOutcome(args, artifactPath, author, unix, now, stamp, mkdirAll, write).value;
      var title := args["title"].s;
      && c.reply.JObj? && c.reply.fields["status"] == JStr("draft")
      && (Tools.ArgString(args, "type").None? ==> c.reply.fields["type"] == JStr("doc"))
      && c.reply.fields["id"] == JStr("DOC-" + FormatInt(unix))
      && c.markdown.path == JoinAll([artifactPath, "docs", Sanitized(title) + ".md"])
      && (forall i :: 0 <= i < |Sanitized(title)| ==> SafeChar(Sanitized(title)[i]))
      && HasPrefix(c.markdown.content, "# " + title + "\n")
      && write(c.markdown).None?
  {
    var doc := DocDraft(args, artifactPath, author, unix, now).value;
    var file := MarkdownFile(doc.path, DocMarkdown(doc, stamp));
    assert CreateDocOutcome(args, artifactPath, author, unix, now, stamp, mkdirAll, write) == Ok(Created(DocReply(doc), file));
    SanitizedIsSafe(doc.title);
    DocHeading(doc, stamp);
  }

  /** The markdown of a document opens with its title as a heading. */
  lemma DocHeading(doc: Document, stamp: string)
    ensures HasPrefix(DocMarkdown(doc, stamp), "# " + doc.title + "\n")
  {
    var head := "# " + doc.title + "\n";
    PrefixOfConcat(head, DocMarkdown(doc, stamp)[|head|..]);
  }

  lemma PrefixOfConcat(a: string, b: string)
    ensures HasPrefix(a + b, a)
  {
    assert (a + b)[..|a|] == a;
  }

  // ---------------------------------------------------------------------
  // create_requirement

  datatype Requirement = Requirement(
    id: string,
    title: string,
    description: string,
    reqType: string,
    priority: string,
    status: string,
    author: string,
    rationale: string,
    criteria: seq<string>,
    createdAt: int,
    updatedAt: int)

  /** The requirement `create_requirement` records. */
  function RequirementDraft(args: map<string, Json>, author: string, unix: int, now: int): (r: Result<Requirement, string>)
    ensures Tools.ArgRequired(args, "title").None? ==> r == Err("title is required")
    ensures Tools.ArgRequired(args, "title").Some? && Tools.ArgRequired(args, "description").None? ==>
      r == Err("description is required")
    ensures r.Ok? ==> && r.value.title == args["title"].s && r.value.description == args["description"].s
                      && r.value.reqType == Tools.ArgStringOr(args, "type", "functional")
                      && r.value.priority == Tools.ArgStringOr(args, "priority", "medium")
                      && r.value.status == "proposed" && r.value.author == author
                      && r.value.rationale == Tools.ArgStringOr(args, "rationale", "")
                      && r.value.id == "REQ-" + FormatInt(unix)
                      && r.value.criteria == Tools.StringsArg(args, "acceptance_criteria")
  {
    match Tools.ArgRequired(args, "title")
    case None => Err("title is required")
    case Some(title) =>
      match Tools.ArgRequired(args, "description")
      case None => Err("description is required")
      case Some(description) =>
        Ok(Requirement("REQ-" + FormatInt(unix), title, description, Tools.ArgStringOr(args, "type", "functional"),
                       Tools.ArgStringOr(args, "priority", "medium"), "proposed", author,
                       Tools.ArgStringOr(args, "rationale", ""), Tools.StringsArg(args, "acceptance_criteria"), now, now))
  }

  /** The markdown of a requirement before its optional sections. */
  function RequirementHeader(req: Requirement): string {
    "# " + req.title + "\n\n**ID:** " + req.id + "\n**Type:** " + req.reqType + "\n**Priority:** " + req.priority
      + "\n**Status:** " + req.status + "\n**Author:** " + req.author + "\n\n## Description\n\n" + req.description + "\n"
  }

  function RationaleSection(rationale: string): string {
    "\n## Rationale\n\n" + rationale + "\n"
  }

  function CriteriaSection(cs: seq<string>): string {
    "\n## Acceptance Criteria\n\n" + Numbered(cs)
  }

  /** The markdown form of a requirement. */
  function RequirementMarkdown(req: Requirement): string {
    RequirementHeader(req)
      + (if req.rationale != "" then RationaleSection(req.rationale) else "")
      + (if |req.criteria| > 0 then CriteriaSection(req.criteria) else "")
  }

  /** The rationale section is there when there is a rationale. */
  lemma RationaleShown(req: Requirement)
    requires req.rationale != ""
    ensures Contains(RequirementMarkdown(req), RationaleSection(req.rationale))
  {
    var tail := if |req.criteria| > 0 then CriteriaSection(req.criteria) else "";
    assert RequirementMarkdown(req) == RequirementHeader(req) + RationaleSection(req.rationale) + tail;
    ContainsMiddle(RequirementHeader(req), RationaleSection(req.rationale), tail);
  }

  /**
   * Without a rationale the markdown is the header and, when there are
   * criteria, the criteria numbered from 1.
   */
  lemma RationaleOmitted(req: Requirement)
    requires req.rationale == ""
    ensures req.criteria == [] ==> RequirementMarkdown(req) == RequirementHeader(req)
    ensures req.criteria != [] ==>
      RequirementMarkdown(req) == RequirementHeader(req) + "\n## Acceptance Criteria\n\n" + NumberedFrom(1, req.criteria)
  {
    NumberedFromOne(req.criteria);
  }

  /** The markdown ends with the criteria numbered from 1. */
  lemma CriteriaLast(req: Requirement)
    requires req.criteria != []
    ensures HasSuffix(RequirementMarkdown(req), NumberedFrom(1, req.criteria))
  {
    NumberedFromOne(req.criteria);
    var head := RequirementHeader(req) + (if req.rationale != "" then RationaleSection(req.rationale) else "");
    SuffixOfConcat(head, CriteriaSection(req.criteria));
    SuffixOfConcat("\n## Acceptance Criteria\n\n", Numbered(req.criteria));
    SuffixTrans(RequirementMarkdown(req), CriteriaSection(req.criteria), Numbered(req.criteria));
  }

  lemma SuffixOfConcat(a: string, b: string)
    ensures HasSuffix(a + b, b)
  {
    assert (a + b)[|a|..] == b;
  }

  lemma SuffixTrans(a: string, b: string, c: string)
    requires HasSuffix(a, b) && HasSuffix(b, c)
    ensures HasSuffix(a, c)
  {
    assert a[|a| - |c|..] == b[|b| - |c|..];
  }

  function RequirementPath(artifactPath: string, id: string, ext: string): string {
    JoinAll([artifactPath, "requirements", id + ext])
  }

  function RequirementReply(req: Requirement, path: string): Json {
    JObj(map["id" := JStr(req.id), "title" := JStr(req.title), "type" := JStr(req.reqType),
             "priority" := JStr(req.priority), "status" := JStr(req.status), "path" := JStr(path),
             "created_at" := JInt(req.createdAt)])
  }

  /** `create_requirement`: `save` gives the error of writing the requirement as JSON at the path. */
  function CreateRequirementOutcome(args: map<string, Json>, artifactPath: string, author: string, unix: int, now: int,
                                    save: (string, Requirement) -> Option<string>): Result<Created, string>
  {
    match RequirementDraft(args, author, unix, now)
    case Err(e) => Err(e)
    case Ok(req) =>
      var path := RequirementPath(artifactPath, req.id, ".json");
      match save(path, req)
      case Some(e) => Err("save requirement: " + e)
      case None =>
        Ok(Created(RequirementReply(req, path),
                   MarkdownFile(RequirementPath(artifactPath, req.id, ".md"), RequirementMarkdown(req))))
  }

  /** The requirement built from its defaults and the arguments that override them. */
  method BuildRequirement(args: map<string, Json>, title: string, description: string, author: string, unix: int, now: int)
    returns (req: Requirement)
    requires Tools.ArgRequired(args, "title") == Some(title) && Tools.ArgRequired(args, "description") == Some(description)
    ensures Ok(req) == RequirementDraft(args, author, unix, now)
  {
    req := Requirement("REQ-" + FormatInt(unix), title, description, "functional", "medium",
                       "proposed", author, "", [], now, now);
    if Tools.ArgString(args, "type").Some? {
      req := req.(reqType := args["type"].s);
    }
    if Tools.ArgString(args, "priority").Some? {
      req := req.(priority := args["priority"].s);
    }
    if Tools.ArgString(args, "rationale").Some? {
      req := req.(rationale := args["rationale"].s);
    }
    if "acceptance_criteria" in args && args["acceptance_criteria"].JArr? {
      var criteria := Tools.CollectStrings(args["acceptance_criteria"].items);
      req := req.(criteria := criteria);
    }
  }

  /** The markdown version, section by section. */
  method WriteRequirementMarkdown(req: Requirement) returns (md: string)
    ensures md == RequirementMarkdown(req)
  {
    md := RequirementHeader(req);
    if req.rationale != "" {
      md := md + RationaleSection(req.rationale);
    }
    if |req.criteria| > 0 {
      var lines := NumberCriteria(req.criteria);
      md := md + "\n## Acceptance Criteria\n\n" + lines;
    }
  }

  /** `CreateRequirementTool.Execute`: defaults first, then the arguments that override them. */
  method CreateRequirement(args: map<string, Json>, artifactPath: string, author: string, unix: int, now: int,
                           save: (string, Requirement) -> Option<string>) returns (r: Result<Created, string>)
    ensures r == CreateRequirementOutcome(args, artifactPath, author, unix, now, save)
  {
    var title := Tools.ArgRequired(args, "title");
    if title.None? {
      return Err("title is required");
    }
    var description := Tools.ArgRequired(args, "description");
    if description.None? {
      return Err("description is required");
    }
    var req := BuildRequirement(args, title.value, description.value, author, unix, now);
    var reqPath := RequirementPath(artifactPath, req.id, ".json");
    var err := save(reqPath, req);
    if err.Some? {
      return Err("save requirement: " + err.value);
    }
    var md := WriteRequirementMarkdown(req);
    return Ok(Created(RequirementReply(req, reqPath), MarkdownFile(RequirementPath(artifactPath, req.id, ".md"), md)));
  }

  /** A created requirement defaults to functional, medium and proposed, and its files share its ID. */
  lemma CreateRequirementDefaults(args: map<string, Json>, artifactPath: string, author: string, unix: int, now: int,
                                  save: (string, Requirement) -> Option<string>)
    requires CreateRequirementOutcome(args, artifactPath, author, unix, now, save).Ok?
    ensures var c := CreateRequirementOutcome(args, artifactPath, author, unix, now, save).value;
      var id := "REQ-" + FormatInt(unix);
      && c.reply.JObj? && c.reply.fields["status"] == JStr("proposed")
      && (Tools.ArgString(args, "type").None? ==> c.reply.fields["type"] == JStr("functional"))
      && (Tools.ArgString(args, "priority").None? ==> c.reply.fields["priority"] == JStr("medium"))
      && c.reply.fields["path"] == JStr(RequirementPath(artifactPath, id, ".json"))
      && c.markdown.path == RequirementPath(artifactPath, id, ".md")
      && save(RequirementPath(artifactPath, id, ".json"), RequirementDraft(args, author, unix, now).value).None?
      && c.markdown.content == RequirementMarkdown(RequirementDraft(args, author, unix, now).value)
  {
    var req := RequirementDraft(args, author, unix, now).value;
    var path := RequirementPath(artifactPath, req.id, ".json");
    assert CreateRequirementOutcome(args, artifactPath, author, unix, now, save)
      == Ok(Created(RequirementReply(req, path), MarkdownFile(RequirementPath(artifactPath, req.id, ".md"), RequirementMarkdown(req))));
    RequirementReplyFields(req, path);
  }

  lemma RequirementReplyFields(req: Requirement, path: string)
    ensures var f := RequirementReply(req, path).fields;
      && f["status"] == JStr(req.status) && f["type"] == JStr(req.reqType)
      && f["priority"] == JStr(req.priority) && f["path"] == JStr(path)
  {
  }

  // ---------------------------------------------------------------------
  // create_spec

  datatype Spec = Spec(
    id: string,
    title: string,
    description: string,
    author: string,
    version: string,
    status: string,
    requirements: seq<string>,
    components: seq<string>,
    interfaces: Option<map<string, Json>>,
    dataModels: Option<map<string, Json>>,
    path: string,
    createdAt: int,
    updatedAt: int)

  function SpecPath(artifactPath: string, id: string, ext: string): string {
    JoinAll([artifactPath, "specs", id + ext])
  }

  function ObjectArg(args: map<string, Json>, key: string): (r: Option<map<string, Json>>)
    ensures r.Some? <==> key in args && args[key].JObj?
    ensures r.Some? ==> r.value == args[key].fields
  {
    if key in args && args[key].JObj? then Some(args[key].fields) else None
  }

  /** The specification `create_spec` records. */
  function SpecDraft(args: map<string, Json>, artifactPath: string, author: string, unix: int, now: int): (r: Result<Spec, string>)
    ensures Tools.ArgRequired(args, "title").None? ==> r == Err("title is required")
    ensures Tools.ArgRequired(args, "title").Some? && Tools.ArgRequired(args, "description").None? ==>
      r == Err("description is required")
    ensures r.Ok? ==> && r.value.title == args["title"].s && r.value.description == args["description"].s
                      && r.value.version == "1.0" && r.value.status == "draft" && r.value.author == author
                      && r.value.id == "SPEC-" + FormatInt(unix)
                      && r.value.path == SpecPath(artifactPath, r.value.id, ".json")
                      && r.value.requirements == Tools.StringsArg(args, "requirements")
                      && r.value.components == Tools.StringsArg(args, "components")
  {
    match Tools.ArgRequired(args, "title")
    case None => Err("title is required")
    case Some(title) =>
      match Tools.ArgRequired(args, "description")
      case None => Err("description is required")
      case Some(description) =>
        var id := "SPEC-" + FormatInt(unix);
        Ok(Spec(id, title, description, author, "1.0", "draft", Tools.StringsArg(args, "requirements"),
                Tools.StringsArg(args, "components"), ObjectArg(args, "interfaces"), ObjectArg(args, "data_models"),
                SpecPath(artifactPath, id, ".json"), now, now))
  }

  function SpecHeader(spec: Spec, stamp: string): string {
    "# " + spec.title + "\n\n**ID:** " + spec.id + "\n**Version:** " + spec.version + "\n**Status:** " + spec.status
      + "\n**Author:** " + spec.author + "\n**Created:** " + stamp + "\n\n## Overview\n\n" + spec.description + "\n"
  }

  /** The markdown form of a specification: the two lists appear only when not empty. */
  function SpecMarkdown(spec: Spec, stamp: string): string {
    SpecHeader(spec, stamp)
      + (if |spec.requirements| > 0 then "\n## Related Requirements\n\n" + Bullets(spec.requirements) else "")
      + (if |spec.components| > 0 then "\n## Components\n\n" + Bullets(spec.components) else "")
  }

  function SpecReply(spec: Spec): Json {
    JObj(map["id" := JStr(spec.id), "title" := JStr(spec.title), "version" := JStr(spec.version),
             "status" := JStr(spec.status), "path" := JStr(spec.path), "created_at" := JInt(spec.createdAt)])
  }

  /** `create_spec`: `save` gives the error of writing the specification as JSON at the path. */
  function CreateSpecOutcome(args: map<string, Json>, artifactPath: string, author: string, unix: int, now: int, stamp: string,
                             save: (string, Spec) -> Option<string>): Result<Created, string>
  {
    match SpecDraft(args, artifactPath, author, unix, now)
    case Err(e) => Err(e)
    case Ok(spec) =>
      match save(spec.path, spec)
      case Some(e) => Err("save spec: " + e)
      case None =>
        Ok(Created(SpecReply(spec), MarkdownFile(SpecPath(artifactPath, spec.id, ".md"), SpecMarkdown(spec, stamp))))
  }

  /** The specification built from its defaults and the arguments that fill it in. */
  method BuildSpec(args: map<string, Json>, artifactPath: string, title: string, description: string, author: string,
                   unix: int, now: int) returns (spec: Spec)
    requires Tools.ArgRequired(args, "title") == Some(title) && Tools.ArgRequired(args, "description") == Some(description)
    ensures Ok(spec) == SpecDraft(args, artifactPath, author, unix, now)
  {
    spec := Spec("SPEC-" + FormatInt(unix), title, description, author, "1.0", "draft",
                 [], [], None, None, "", now, now);
    if "requirements" in args && args["requirements"].JArr? {
      var reqs := Tools.CollectStrings(args["requirements"].items);
      spec := spec.(requirements := reqs);
    }
    if "components" in args && args["components"].JArr? {
      var comps := Tools.CollectStrings(args["components"].items);
      spec := spec.(components := comps);
    }
    if "interfaces" in args && args["interfaces"].JObj? {
      spec := spec.(interfaces := Some(args["interfaces"].fields));
    }
    if "data_models" in args && args["data_models"].JObj? {
      spec := spec.(dataModels := Some(args["data_models"].fields));
    }
    spec := spec.(path := SpecPath(artifactPath, spec.id, ".json"));
  }

  /** The markdown version, section by section. */
  method WriteSpecMarkdown(spec: Spec, stamp: string) returns (md: string)
    ensures md == SpecMarkdown(spec, stamp)
  {
    md := SpecHeader(spec, stamp);
    if |spec.requirements| > 0 {
      var lines := BulletList(spec.requirements);
      md := md + "\n## Related Requirements\n\n" + lines;
    }
    if |spec.components| > 0 {
      var lines := BulletList(spec.components);
      md := md + "\n## Components\n\n" + lines;
    }
  }

  /** `CreateSpecTool.Execute`. */
  method CreateSpec(args: map<string, Json>, artifactPath: string, author: string, unix: int, now: int, stamp: string,
                    save: (string, Spec) -> Option<string>) returns (r: Result<Created, string>)
    ensures r == CreateSpecOutcome(args, artifactPath, author, unix, now, stamp, save)
  {
    var title := Tools.ArgRequired(args, "title");
    if title.None? {
      return Err("title is required");
    }
    var description := Tools.ArgRequired(args, "description");
    if description.None? {
      return Err("description is required");
    }
    var spec := BuildSpec(args, artifactPath, title.value, description.value, author, unix, now);
    var err := save(spec.path, spec);
    if err.Some? {
      return Err("save spec: " + err.value);
    }
    var md := WriteSpecMarkdown(spec, stamp);
    return Ok(Created(SpecReply(spec), MarkdownFile(SpecPath(artifactPath, spec.id, ".md"), md)));
  }

  /** A created specification is a draft of version 1.0, saved and written under `specs` with its ID. */
  lemma CreateSpecDefaults(args: map<string, Json>, artifactPath: string, author: string, unix: int, now: int, stamp: string,
                           save: (string, Spec) -> Option<string>)
    requires CreateSpecOutcome(args, artifactPath, author, unix, now, stamp, save).Ok?
    ensures var c := CreateSpecOutcome(args, artifactPath, author, unix, now, stamp, save).value;
      var id := "SPEC-" + FormatInt(unix);
      && c.reply.JObj? && c.reply.fields["status"] == JStr("draft") && c.reply.fields["version"] == JStr("1.0")
      && c.reply.fields["path"] == JStr(SpecPath(artifactPath, id, ".json"))
      && c.markdown.path == SpecPath(artifactPath, id, ".md")
      && save(SpecPath(artifactPath, id, ".json"), SpecDraft(args, artifactPath, author, unix, now).value).None?
      && c.markdown.content == SpecMarkdown(SpecDraft(args, artifactPath, author, unix, now).value, stamp)
  {
    var spec := SpecDraft(args, artifactPath, author, unix, now).value;
    assert CreateSpecOutcome(args, artifactPath, author, unix, now, stamp, save)
      == Ok(Created(SpecReply(spec), MarkdownFile(SpecPath(artifactPath, spec.id, ".md"), SpecMarkdown(spec, stamp))));
    SpecReplyFields(spec);
  }

  lemma SpecReplyFields(spec: Spec)
    ensures var f := SpecReply(spec).fields;
      f["status"] == JStr(spec.status) && f["version"] == JStr(spec.version) && f["path"] == JStr(spec.path)
  {
  }

  /** Every requirement and every component of a specification is one bullet line of its markdown. */
  lemma SpecListsEverything(spec: Spec, stamp: string)
    ensures forall i :: 0 <= i < |spec.requirements| ==>
      Contains(SpecMarkdown(spec, stamp), BulletLine(spec.requirements[i]))
    ensures forall i :: 0 <= i < |spec.components| ==>
      Contains(SpecMarkdown(spec, stamp), BulletLine(spec.components[i]))
  {
    var reqs := if |spec.requirements| > 0 then "\n## Related Requirements\n\n" + Bullets(spec.requirements) else "";
    var comps := if |spec.components| > 0 then "\n## Components\n\n" + Bullets(spec.components) else "";
    assert SpecMarkdown(spec, stamp) == SpecHeader(spec, stamp) + reqs + comps;
    forall i | 0 <= i < |spec.requirements|
      ensures Contains(SpecMarkdown(spec, stamp), BulletLine(spec.requirements[i]))
    {
      BulletsList(spec.requirements, i);
      ContainsExtend("\n## Related Requirements\n\n", Bullets(spec.requirements), BulletLine(spec.requirements[i]));
      ContainsExtend(SpecHeader(spec, stamp), reqs, BulletLine(spec.requirements[i]));
      ContainsPrefix(SpecHeader(spec, stamp) + reqs, comps, BulletLine(spec.requirements[i]));
    }
    forall i | 0 <= i < |spec.components|
      ensures Contains(SpecMarkdown(spec, stamp), BulletLine(spec.components[i]))
    {
      BulletsList(spec.components, i);
      ContainsExtend("\n## Components\n\n", Bullets(spec.components), BulletLine(spec.components[i]));
      ContainsExtend(SpecHeader(spec, stamp) + reqs, comps, BulletLine(spec.components[i]));
    }
  }
}
