/**
 * The pure helpers of a team member (`internal/team/member.go`): the
 * marker parser for agent replies, its line splitting and trimming
 * helpers, and the member's conversation context window.
 */
module TeamMember {
  import opened Wrappers
  import opened GoStrings
  import opened ProviderTypes

  /** `DisplayName`: "Name (Title)" unless the name is empty or equals the title. */
  function DisplayName(name: string, title: string): (d: string)
    ensures name == "" || name == title ==> d == title
    ensures name != "" && name != title ==> d == name + " (" + title + ")"
  {
    if name != "" && name != title then name + " (" + title + ")" else title
  }

  /** The stored name of `NewMember`: the given name, or the role title when empty. */
  function MemberName(name: string, title: string): string {
    if name == "" then title else name
  }

  /** `NewMember` followed by `DisplayName`: an unnamed member shows only its title. */
  lemma UnnamedMemberShowsTitle(title: string)
    ensures DisplayName(MemberName("", title), title) == title
  {
  }

  /** `indexOf`: a scan from the left; the same answer as `strings.Index`. */
  method IndexOf(s: string, sub: string) returns (r: int)
    ensures r == Index(s, sub)
    ensures r >= 0 ==> r + |sub| <= |s| && s[r..r + |sub|] == sub
    ensures sub == [] ==> r == 0
  {
    var i := 0;
    while i <= |s| - |sub|
      invariant 0 <= i
      invariant i <= |s| - |sub| + 1 || |s| < |sub|
      invariant forall j :: 0 <= j < i ==> !At(s, sub, j)
    {
      if s[i..i + |sub|] == sub {
        assert At(s, sub, i);
        return i;
      }
      i := i + 1;
    }
    assert forall j :: 0 <= j <= |s| ==> !At(s, sub, j);
    return -1;
  }

  /** The three white-space bytes `trim` strips. */
  predicate IsBlank(c: char) {
    c == ' ' || c == '\t' || c == '\n'
  }

  /** The number of leading blanks. */
  function LeadingBlanks(s: string): (n: nat)
    ensures n <= |s| && (n < |s| ==> !IsBlank(s[n]))
    ensures forall k :: 0 <= k < n ==> IsBlank(s[k])
  {
    if s != [] && IsBlank(s[0]) then 1 + LeadingBlanks(s[1..]) else 0
  }

  /** The end of `s` once trailing blanks are dropped. */
  function TrailingStart(s: string): (e: nat)
    ensures e <= |s| && (e > 0 ==> !IsBlank(s[e - 1]))
    ensures forall k :: e <= k < |s| ==> IsBlank(s[k])
  {
    if s != [] && IsBlank(s[|s| - 1]) then TrailingStart(s[..|s| - 1]) else |s|
  }

  /** What `trim` computes: leading, then trailing ' ', '\t' and '\n' removed. */
  function Trimmed(s: string): string {
    var t := s[LeadingBlanks(s)..];
    t[..TrailingStart(t)]
  }

  /** `trim`: two index loops narrowing [start, end). */
  method Trim(s: string) returns (r: string)
    ensures r == Trimmed(s)
  {
    var start, end := 0, |s|;
    while start < end && IsBlank(s[start])
      invariant 0 <= start <= end == |s|
      invariant forall k :: 0 <= k < start ==> IsBlank(s[k])
    {
      start := start + 1;
    }
    assert start == LeadingBlanks(s);
    ghost var t := s[start..];
    while end > start && IsBlank(s[end - 1])
      invariant start <= end <= |s|
      invariant forall k :: end <= k < |s| ==> IsBlank(s[k])
    {
      end := end - 1;
    }
    assert end - start == TrailingStart(t);
    r := s[start..end];
  }

  /** `trim` returns one contiguous piece of its input with no blank at either end. */
  lemma TrimmedIsInner(s: string)
    ensures var a := LeadingBlanks(s); var r := Trimmed(s); a + |r| <= |s| && r == s[a..a + |r|]
    ensures Trimmed(s) != [] ==> !IsBlank(Trimmed(s)[0]) && !IsBlank(Trimmed(s)[|Trimmed(s)| - 1])
  {
  }

  /** `trim` is idempotent. */
  lemma TrimmedIdempotent(s: string)
    ensures Trimmed(Trimmed(s)) == Trimmed(s)
  {
    var r := Trimmed(s);
    assert LeadingBlanks(r) == 0;
    assert TrailingStart(r) == |r|;
  }

  /** What `splitLines` computes: the pieces between '\n' bytes, with no trailing empty piece. */
  function Lines(text: string): seq<string>
    decreases |text|
  {
    if text == [] then []
    else
      var i := NextIndex(text, '\n');
      if i == |text| then [text] else [text[..i]] + Lines(text[i + 1..])
  }

  /** No line contains '\n', and only the empty text has no lines. */
  lemma {:induction false} LinesShape(text: string)
    ensures forall l :: l in Lines(text) ==> '\n' !in l
    ensures text == [] <==> Lines(text) == []
    decreases |text|
  {
    if text != [] {
      var i := NextIndex(text, '\n');
      assert forall k :: 0 <= k < i ==> text[..i][k] == text[k];
      assert '\n' !in text[..i];
      if i < |text| {
        LinesShape(text[i + 1..]);
        assert Lines(text) == [text[..i]] + Lines(text[i + 1..]);
      } else {
        assert text[..i] == text;
        assert Lines(text) == [text];
      }
    }
  }

  lemma {:induction false} LinesAtNewline(text: string, i: nat)
    requires i < |text| && text[i] == '\n'
    requires forall k :: 0 <= k < i ==> text[k] != '\n'
    ensures Lines(text) == [text[..i]] + Lines(text[i + 1..])
  {
    assert NextIndex(text, '\n') == i;
  }

  /** `splitLines`: a single scan that cuts at each '\n'. */
  method SplitLines(text: string) returns (lines: seq<string>)
    ensures lines == Lines(text)
  {
    lines := [];
    var start := 0;
    var i := 0;
    while i < |text|
      invariant 0 <= start <= i <= |text|
      invariant '\n' !in text[start..i]
      invariant lines + Lines(text[start..]) == Lines(text)
    {
      if text[i] == '\n' {
        SplitStepKeeps(text, lines, start, i);
        lines := lines + [text[start..i]];
        start := i + 1;
        assert text[start..i + 1] == [];
      } else {
        NoNewlineExtends(text, start, i);
      }
      i := i + 1;
    }
    SplitFinish(text, lines, start);
    if start < |text| {
      lines := lines + [text[start..]];
    }
  }

  lemma SplitFinish(text: string, lines: seq<string>, start: nat)
    requires start <= |text|
    requires '\n' !in text[start..|text|]
    requires lines + Lines(text[start..]) == Lines(text)
    ensures (if start < |text| then lines + [text[start..]] else lines) == Lines(text)
  {
    assert forall k :: start <= k < |text| ==> text[k] == text[start..|text|][k - start];
    SplitLast(text, start);
  }

  lemma SplitStepKeeps(text: string, lines: seq<string>, start: nat, i: nat)
    requires start <= i < |text| && text[i] == '\n'
    requires '\n' !in text[start..i]
    requires lines + Lines(text[start..]) == Lines(text)
    ensures (lines + [text[start..i]]) + Lines(text[i + 1..]) == Lines(text)
  {
    var x := text[start..i];
    var rest := Lines(text[i + 1..]);
    NoNewlineBefore(text, start, i);
    SplitStep(text, start, i);
    AppendAssoc(lines, [x], rest);
  }

  lemma NoNewlineExtends(text: string, start: nat, i: nat)
    requires start <= i < |text| && '\n' !in text[start..i] && text[i] != '\n'
    ensures '\n' !in text[start..i + 1]
  {
    assert text[start..i + 1] == text[start..i] + [text[i]];
  }

  lemma NoNewlineBefore(text: string, start: nat, i: nat)
    requires start <= i <= |text| && '\n' !in text[start..i]
    ensures forall k :: start <= k < i ==> text[k] != '\n'
  {
    assert forall k :: start <= k < i ==> text[k] == text[start..i][k - start];
  }

  lemma SplitStep(text: string, start: nat, i: nat)
    requires start <= i < |text| && text[i] == '\n'
    requires forall k :: start <= k < i ==> text[k] != '\n'
    ensures Lines(text[start..]) == [text[start..i]] + Lines(text[i + 1..])
  {
    LinesAtNewline(text[start..], i - start);
    assert text[start..][..i - start] == text[start..i];
    assert text[start..][i - start + 1..] == text[i + 1..];
  }

  lemma SplitLast(text: string, start: nat)
    requires start <= |text|
    requires forall k :: start <= k < |text| ==> text[k] != '\n'
    ensures Lines(text[start..]) == if start < |text| then [text[start..]] else []
  {
    if start < |text| {
      assert NextIndex(text[start..], '\n') == |text| - start;
    }
  }

  /** Joining a line in front of at least one more puts a newline between. */
  lemma JoinCons(head: string, l: seq<string>)
    requires l != []
    ensures Join([head] + l, "\n") == head + "\n" + Join(l, "\n")
  {
    assert ([head] + l)[1..] == l;
  }

  /** Joining the lines with '\n' gives back the text, up to one final '\n'. */
  lemma {:induction false} LinesJoin(text: string)
    ensures Join(Lines(text), "\n") + (if text != [] && text[|text| - 1] == '\n' then "\n" else "") == text
    decreases |text|
  {
    if text != [] {
      var i := NextIndex(text, '\n');
      if i == |text| {
        assert Lines(text) == [text];
      } else {
        var head, rest := text[..i], text[i + 1..];
        assert text == head + "\n" + rest;
        assert Lines(text) == [head] + Lines(rest);
        if rest == [] {
          assert Lines(rest) == [];
          assert Join(Lines(text), "\n") == head;
        } else {
          LinesShape(rest);
          LinesJoin(rest);
          var l := Lines(rest);
          JoinCons(head, l);
          var suffix := if rest[|rest| - 1] == '\n' then "\n" else "";
          assert text[|text| - 1] == rest[|rest| - 1];
          assert head + "\n" + Join(l, "\n") + suffix == head + "\n" + (Join(l, "\n") + suffix);
        }
      }
    }
  }

  datatype ParallelTask = ParallelTask(role: string, content: string)

  /** The task the text after a line's dash yields: a role before the first ':' and the content after it. */
  function BodyTask(body: string): (t: Option<ParallelTask>)
    ensures t.Some? ==> t.value.role != "" && t.value.content != ""
  {
    var colon := Index(body, ":");
    if colon <= 0 then None
    else
      var role := Trimmed(body[..colon]);
      var content := Trimmed(body[colon + 1..]);
      if role != "" && content != "" then Some(ParallelTask(role, content)) else None
  }

  /** The task one line of a "DELEGATE PARALLEL:" block yields, if any. */
  function LineTask(raw: string): (t: Option<ParallelTask>)
    ensures t.Some? ==> t.value.role != "" && t.value.content != ""
    ensures t.Some? ==> |Trimmed(raw)| >= 2 && Trimmed(raw)[0] == '-'
  {
    var line := Trimmed(raw);
    if |line| < 2 || line[0] != '-' then None else BodyTask(Trimmed(line[1..]))
  }

  /** The tasks of a sequence of lines, in order. */
  function TasksOf(lines: seq<string>): seq<ParallelTask> {
    if lines == [] then []
    else
      var last := LineTask(lines[|lines| - 1]);
      TasksOf(lines[..|lines| - 1]) + (if last.Some? then [last.value] else [])
  }

  /** What `parseParallelTasks` computes. */
  function ParallelTasks(text: string): seq<ParallelTask> {
    TasksOf(Lines(text))
  }

  /** A task's role and content are trimmed and non-empty. */
  lemma LineTaskTrimmed(raw: string)
    requires LineTask(raw).Some?
    ensures var t := LineTask(raw).value;
      Trimmed(t.role) == t.role && Trimmed(t.content) == t.content && t.role != "" && t.content != ""
  {
    var body := Trimmed(Trimmed(raw)[1..]);
    var colon := Index(body, ":");
    TrimmedIdempotent(body[..colon]);
    TrimmedIdempotent(body[colon + 1..]);
  }

  /** Every parsed task has a trimmed, non-empty role and content, and there are at most as many tasks as lines. */
  lemma {:induction false} TasksAreTrimmed(lines: seq<string>)
    ensures |TasksOf(lines)| <= |lines|
    ensures forall t :: t in TasksOf(lines) ==>
      Trimmed(t.role) == t.role && Trimmed(t.content) == t.content && t.role != "" && t.content != ""
  {
    if lines != [] {
      TasksAreTrimmed(lines[..|lines| - 1]);
      if LineTask(lines[|lines| - 1]).Some? {
        LineTaskTrimmed(lines[|lines| - 1]);
      }
    }
  }

  /** The colon split of one pass of the `parseParallelTasks` loop. */
  method ParseTaskBody(body: string) returns (t: Option<ParallelTask>)
    ensures t == BodyTask(body)
  {
    var colon := IndexOf(body, ":");
    if colon <= 0 {
      return None;
    }
    var role := Trim(body[..colon]);
    var content := Trim(body[colon + 1..]);
    if role != "" && content != "" {
      return Some(ParallelTask(role, content));
    }
    return None;
  }

  /** One pass of the `parseParallelTasks` loop: the task a line yields, if any. */
  method ParseTaskLine(raw: string) returns (t: Option<ParallelTask>)
    ensures t == LineTask(raw)
  {
    var line := Trim(raw);
    if |line| < 2 || line[0] != '-' {
      return None;
    }
    line := Trim(line[1..]);
    t := ParseTaskBody(line);
  }

  /** `parseParallelTasks`: a loop over the lines appending each well-formed task. */
  method ParseParallelTasks(text: string) returns (tasks: seq<ParallelTask>)
    ensures tasks == ParallelTasks(text)
  {
    tasks := [];
    var lines := SplitLines(text);
    for n := 0 to |lines|
      invariant tasks == TasksOf(lines[..n])
    {
      assert lines[..n + 1][..n] == lines[..n];
      var t := ParseTaskLine(lines[n]);
      if t.Some? {
        tasks := tasks + [t.value];
      }
    }
    assert lines[..|lines|] == lines;
  }

  /** The action `parseResponse` picks. */
  datatype ResponseAction =
    | ParallelDelegate(tasks: seq<ParallelTask>)
    | Delegate(target: string, content: string)
    | Question(content: string)
    | Complete(content: string)
    | Respond(content: string)

  const ParallelMarker: string := "DELEGATE PARALLEL:"
  const DelegateMarker: string := "DELEGATE TO "
  const AskMarker: string := "ASK "
  const CompleteMarker: string := "COMPLETE:"

  /** The parallel tasks after the first "DELEGATE PARALLEL:", or none. */
  function ParallelAfterMarker(response: string): seq<ParallelTask> {
    var idx := Index(response, ParallelMarker);
    if idx < 0 then [] else ParallelTasks(response[idx + |ParallelMarker|..])
  }

  /** The text after the first `marker`, split at its first ':' when that ':' is not at offset 0. */
  function SplitAfter(response: string, marker: string): Option<(string, string)> {
    var idx := Index(response, marker);
    if idx < 0 then None
    else
      var rest := response[idx + |marker|..];
      var colon := Index(rest, ":");
      if colon <= 0 then None else Some((rest[..colon], rest[colon + 1..]))
  }

  /** `parseResponse`: markers are tried in a fixed priority. */
  function ParseResponse(response: string): (a: ResponseAction)
    ensures ParallelAfterMarker(response) != [] ==> a == ParallelDelegate(ParallelAfterMarker(response))
    ensures a.ParallelDelegate? ==> a.tasks != [] && Contains(response, ParallelMarker)
    ensures ParallelAfterMarker(response) == [] && SplitAfter(response, DelegateMarker).Some? ==>
      var (t, c) := SplitAfter(response, DelegateMarker).value;
      a == Delegate(Trimmed(t), Trimmed(c))
    ensures a.Question? ==>
      && SplitAfter(response, AskMarker).Some?
      && Trimmed(SplitAfter(response, AskMarker).value.0) in {"CLIENT", "client"}
    ensures a.Complete? ==> Contains(response, CompleteMarker)
    ensures (!Contains(response, ParallelMarker) && !Contains(response, DelegateMarker) &&
             !Contains(response, AskMarker) && !Contains(response, CompleteMarker)) ==> a == Respond(response)
    ensures a.Respond? ==> a.content == response
  {
    var tasks := ParallelAfterMarker(response);
    if tasks != [] then ParallelDelegate(tasks)
    else match SplitAfter(response, DelegateMarker)
      case Some((t, c)) => Delegate(Trimmed(t), Trimmed(c))
      case None =>
        match SplitAfter(response, AskMarker)
        case Some((t, c)) =>
          var target := Trimmed(t);
          if target == "CLIENT" || target == "client" then Question(Trimmed(c))
          else Delegate(target, Trimmed(c))
        case None =>
          var idx := Index(response, CompleteMarker);
          if idx >= 0 then Complete(Trimmed(response[idx + |CompleteMarker|..]))
          else Respond(response)
  }

  /**
   * The conversation context of one member. `saved` records what the member
   * handed to the team's persistence (`SaveMemberContext`), in order.
   */
  class Conversation {
    var messages: seq<Message>
    var sequence: int
    var saved: seq<(string, string, int)>

    constructor ()
      ensures messages == [] && sequence == 0 && saved == []
    {
      messages, sequence, saved := [], 0, [];
    }

    /**
     * `addToContext`: append, bump the sequence number, persist with the
     * new number, then keep only the last `limit` messages.
     */
    method AddToContext(role: string, content: string, limit: nat)
      modifies this
      ensures sequence == old(sequence) + 1
      ensures saved == old(saved) + [(role, content, old(sequence) + 1)]
      ensures var all := old(messages) + [TextMessage(role, content)];
        messages == if |all| > limit then all[|all| - limit..] else all
      ensures |messages| <= limit || |messages| == |old(messages)| + 1
    {
      messages := messages + [TextMessage(role, content)];
      sequence := sequence + 1;
      saved := saved + [(role, content, sequence)];
      if |messages| > limit {
        messages := messages[|messages| - limit..];
      }
    }

    /** `RestoreContext`: the history's role/content pairs, and a sequence equal to their number. */
    method RestoreContext(history: seq<(string, string)>)
      modifies this
      ensures |messages| == |history| && sequence == |history|
      ensures forall k :: 0 <= k < |history| ==> messages[k] == TextMessage(history[k].0, history[k].1)
      ensures saved == old(saved)
    {
      var restored: seq<Message> := [];
      for k := 0 to |history|
        invariant |restored| == k
        invariant forall j :: 0 <= j < k ==> restored[j] == TextMessage(history[j].0, history[j].1)
      {
        restored := restored + [TextMessage(history[k].0, history[k].1)];
      }
      messages := restored;
      sequence := |history|;
    }

    /** `ClearContext`. */
    method ClearContext()
      modifies this
      ensures messages == [] && sequence == 0 && saved == old(saved)
    {
      messages := [];
      sequence := 0;
    }

    /** `getContextMessages`: a copy of the window. */
    method GetContextMessages() returns (ctx: seq<Message>)
      ensures ctx == messages
    {
      ctx := messages;
    }
  }

  /** The ring-window rule of `addToContext` never keeps more than `limit` messages once over it, and keeps the newest. */
  lemma WindowKeepsNewest(all: seq<Message>, limit: nat)
    requires |all| > limit
    ensures var w := all[|all| - limit..]; |w| == limit && (limit > 0 ==> w[limit - 1] == all[|all| - 1])
  {
  }
}
