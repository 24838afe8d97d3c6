/** The planner agent (src/agents/planner_agent.py): one chat-completions
    request for a goal (re-sent once with "llama-3.1-8b-instant" when the
    first answer is a 400 that mentions "model"), the answer parsed into a
    task list, and a fixed five-step plan whenever anything goes wrong. The
    planner records its work in its own module-level context tracker. The
    HTTP exchanges are parameters: `first` answers the original request,
    `second` the re-sent one. */
module PlannerAgent {
  import opened Common
  import opened PyValue
  import opened Http
  import opened ContextTracking

  /** The model the re-sent request names. */
  const FallbackModel := "llama-3.1-8b-instant"

  /** The tasks of the fallback plan. */
  const FallbackTasks := ["Define requirements", "Design architecture", "Implement modules",
                          "Test and debug", "Deploy and monitor"]

  /** `{"goal": goal, "tasks": tasks}` */
  function PlanValue(goal: string, tasks: seq<string>): Value {
    Dict([("goal", Str(goal)), ("tasks", StrList(tasks))])
  }

  /** What `fallback_plan(goal)` returns. */
  function FallbackPlan(goal: string): Value {
    PlanValue(goal, FallbackTasks)
  }

  // ---------------------------------------------------------------------
  // Parsing the answer

  /** The rest of a line after a list marker (`-`, `*` or digits and a dot), if it starts with one. */
  function AfterMarker(s: string): Option<string> {
    if s != [] && (s[0] == '-' || s[0] == '*') then Some(s[1..])
    else
      var afterDigits := TrimStart(s, IsDigit);
      if |afterDigits| < |s| && afterDigits != [] && afterDigits[0] == '.' then Some(afterDigits[1..])
      else None
  }

  /** `re.match(r"^\s*(?:\d+\.|-|\*)\s+(.*)", line)` followed by
      `match.group(1).strip()`: optional blanks, a marker, at least one
      blank, then the task. */
  function MatchTaskLine(line: string): (r: Option<string>)
    ensures r.Some? ==> Stripped(r.value)
  {
    match AfterMarker(TrimStart(line, IsSpace))
    case None => None
    case Some(rest) =>
      if rest != [] && IsSpace(rest[0]) then
        var t := Strip(rest);
        assert Stripped(t);
        Some(t)
      else None
  }

  /** Neither end of `t` is blank: `t.strip() == t`. */
  predicate Stripped(t: string) {
    t == [] || (!IsSpace(t[0]) && !IsSpace(t[|t| - 1]))
  }

  /** The match of every line, in order. */
  function LineMatches(lines: seq<string>): (ms: seq<Option<string>>)
    ensures |ms| == |lines|
  {
    seq(|lines|, i requires 0 <= i < |lines| => MatchTaskLine(lines[i]))
  }

  /** The matched tasks, in order, the lines that did not match skipped. */
  function Collect(ms: seq<Option<string>>): seq<string> {
    if ms == [] then []
    else Collect(ms[..|ms| - 1]) + (if ms[|ms| - 1].Some? then [ms[|ms| - 1].value] else [])
  }

  /** The tasks the parsing loop collects from `lines`. */
  function ParsedTasks(lines: seq<string>): seq<string> {
    Collect(LineMatches(lines))
  }

  /** The task list `generate_plan` builds from an answer: the parsed tasks,
      or the whole stripped answer as a single task when no line matched. */
  function TaskList(raw: string): (r: seq<string>)
    ensures |r| >= 1
  {
    var parsed := ParsedTasks(Split(Strip(raw), '\n'));
    if parsed == [] then [Strip(raw)] else parsed
  }

  /** The parsing loop: every line's match, in line order. */
  method CollectTasks(lines: seq<string>) returns (tasks: seq<string>)
    ensures tasks == ParsedTasks(lines)
  {
    ghost var ms := LineMatches(lines);
    tasks := [];
    for n := 0 to |lines|
      invariant tasks == Collect(ms[..n])
    {
      var m := MatchTaskLine(lines[n]);
      assert m == ms[n];
      CollectStep(ms, n);
      if m.Some? {
        tasks := tasks + [m.value];
      }
    }
    assert ms[..|lines|] == ms;
  }

  /** The parsing loop and its fallback. */
  method ExtractTasks(raw: string) returns (taskList: seq<string>)
    ensures taskList == TaskList(raw)
    ensures |taskList| >= 1
  {
    taskList := CollectTasks(Split(Strip(raw), '\n'));
    if taskList == [] {
      taskList := [Strip(raw)];
    }
  }

  /** One more line's match extends the collected tasks by at most that task. */
  lemma {:induction false} CollectStep(ms: seq<Option<string>>, n: nat)
    requires n < |ms|
    ensures Collect(ms[..n + 1]) == Collect(ms[..n]) + (if ms[n].Some? then [ms[n].value] else [])
  {
    assert ms[..n + 1][..n] == ms[..n];
  }

  /** Leading blanks are skipped up to the first non-blank character. */
  lemma {:induction false} SkipBlanks(ws: string, tail: string)
    requires forall i :: 0 <= i < |ws| ==> IsSpace(ws[i])
    requires tail != [] && !IsSpace(tail[0])
    ensures TrimStart(ws + tail, IsSpace) == tail
  {
    TrimStartPrefix(ws, tail, IsSpace);
  }

  lemma {:induction false} AfterBullet(bullet: char, rest: string)
    requires bullet == '-' || bullet == '*'
    ensures AfterMarker([bullet] + rest) == Some(rest)
  {
    assert ([bullet] + rest)[1..] == rest;
  }

  lemma {:induction false} AfterNumber(digits: string, rest: string)
    requires digits != [] && forall i :: 0 <= i < |digits| ==> IsDigit(digits[i])
    ensures AfterMarker(digits + ("." + rest)) == Some(rest)
  {
    TrimStartPrefix(digits, "." + rest, IsDigit);
    assert TrimStart("." + rest, IsDigit) == "." + rest;
    assert ("." + rest)[1..] == rest;
    assert (digits + ("." + rest))[0] == digits[0];
  }

  lemma {:induction false} MatchAfterMarker(line: string, rest: string)
    requires AfterMarker(TrimStart(line, IsSpace)) == Some(rest)
    requires rest != [] && IsSpace(rest[0])
    ensures MatchTaskLine(line) == Some(Strip(rest))
  {
  }

  /** The regular expression, read forwards: blanks, a bullet marker, at least
      one blank and a task always match, and the task comes out stripped. */
  lemma {:induction false} BulletLineMatches(ws: string, bullet: char, sp: string, task: string)
    requires forall i :: 0 <= i < |ws| ==> IsSpace(ws[i])
    requires bullet == '-' || bullet == '*'
    requires sp != [] && forall i :: 0 <= i < |sp| ==> IsSpace(sp[i])
    ensures MatchTaskLine(ws + ([bullet] + (sp + task))) == Some(Strip(task))
  {
    SkipBlanks(ws, [bullet] + (sp + task));
    AfterBullet(bullet, sp + task);
    assert (sp + task)[0] == sp[0];
    MatchAfterMarker(ws + ([bullet] + (sp + task)), sp + task);
    StripBlankPrefix(sp, task);
  }

  /** The same for a numbered line such as "12. task". */
  lemma {:induction false} NumberedLineMatches(ws: string, digits: string, sp: string, task: string)
    requires forall i :: 0 <= i < |ws| ==> IsSpace(ws[i])
    requires digits != [] && forall i :: 0 <= i < |digits| ==> IsDigit(digits[i])
    requires sp != [] && forall i :: 0 <= i < |sp| ==> IsSpace(sp[i])
    ensures MatchTaskLine(ws + (digits + ("." + (sp + task)))) == Some(Strip(task))
  {
    assert (digits + ("." + (sp + task)))[0] == digits[0];
    SkipBlanks(ws, digits + ("." + (sp + task)));
    AfterNumber(digits, sp + task);
    assert (sp + task)[0] == sp[0];
    MatchAfterMarker(ws + (digits + ("." + (sp + task))), sp + task);
    StripBlankPrefix(sp, task);
  }

  /** A line whose first non-blank character cannot start a marker never matches. */
  lemma ProseLineDoesNotMatch(line: string)
    requires var t := TrimStart(line, IsSpace); t == [] || (t[0] != '-' && t[0] != '*' && !IsDigit(t[0]))
    ensures MatchTaskLine(line) == None
  {
  }

  /** A list marker: `-`, `*`, or one or more digits and a dot. */
  predicate IsMarker(m: string) {
    m == "-" || m == "*" ||
    (|m| >= 2 && m[|m| - 1] == '.' && forall i :: 0 <= i < |m| - 1 ==> IsDigit(m[i]))
  }

  /** A string `AfterMarker` accepts starts with a marker, and what it leaves is the rest. */
  lemma {:induction false} MarkerPrefix(s: string) returns (m: nat)
    requires AfterMarker(s).Some?
    ensures m <= |s| && IsMarker(s[..m]) && AfterMarker(s).value == s[m..]
  {
    if s != [] && (s[0] == '-' || s[0] == '*') {
      m := 1;
    } else {
      var afterDigits := TrimStart(s, IsDigit);
      TrimStartDropped(s, IsDigit);
      m := |s| - |afterDigits| + 1;
      assert s[m - 1] == afterDigits[0];
    }
  }

  /** What follows the marker of a matching line starts with a blank. */
  lemma {:induction false} MatchedRest(line: string)
    requires MatchTaskLine(line).Some?
    ensures var r := AfterMarker(TrimStart(line, IsSpace));
            r.Some? && r.value != [] && IsSpace(r.value[0]) && MatchTaskLine(line) == Some(Strip(r.value))
  {
  }

  /** Cutting a line at the end of its blanks, after its marker and after
      the blank that follows the marker. */
  lemma {:induction false} CutLine(line: string, s: string, m: nat)
    returns (ws: string, marker: string, sp: string, task: string)
    requires |s| <= |line| && s == line[|line| - |s|..]
    requires forall i :: 0 <= i < |line| - |s| ==> IsSpace(line[i])
    requires m < |s| && IsMarker(s[..m]) && IsSpace(s[m])
    ensures line == ws + (marker + (sp + task))
    ensures forall i :: 0 <= i < |ws| ==> IsSpace(ws[i])
    ensures IsMarker(marker)
    ensures sp != [] && forall i :: 0 <= i < |sp| ==> IsSpace(sp[i])
    ensures Strip(s[m..]) == Strip(task)
  {
    ws, marker, sp, task := line[..|line| - |s|], s[..m], [s[m]], s[m + 1..];
    assert s[m..] == sp + task;
    assert line == ws + (marker + (sp + task)) by {
      assert s == marker + s[m..];
      assert line == ws + s;
    }
    forall i | 0 <= i < |ws|
      ensures IsSpace(ws[i])
    {
      assert ws[i] == line[i];
    }
    StripBlankPrefix(sp, task);
  }

  /** The regular expression, read backwards: a line that matches is blanks,
      a marker, at least one blank and a task, and its match is the task
      stripped. */
  lemma {:induction false} MatchedLineShape(line: string)
    returns (ws: string, marker: string, sp: string, task: string)
    requires MatchTaskLine(line).Some?
    ensures line == ws + (marker + (sp + task))
    ensures forall i :: 0 <= i < |ws| ==> IsSpace(ws[i])
    ensures IsMarker(marker)
    ensures sp != [] && forall i :: 0 <= i < |sp| ==> IsSpace(sp[i])
    ensures MatchTaskLine(line) == Some(Strip(task))
  {
    var s := TrimStart(line, IsSpace);
    MatchedRest(line);
    TrimStartDropped(line, IsSpace);
    var m := MarkerPrefix(s);
    assert s[m..][0] == s[m];
    ws, marker, sp, task := CutLine(line, s, m);
  }

  /** Whatever follows a marker is what `AfterMarker` leaves. */
  lemma {:induction false} AfterAnyMarker(marker: string, rest: string)
    requires IsMarker(marker)
    ensures AfterMarker(marker + rest) == Some(rest)
  {
    if marker == "-" || marker == "*" {
      AfterBullet(marker[0], rest);
      assert [marker[0]] + rest == marker + rest;
    } else {
      var digits := marker[..|marker| - 1];
      assert marker == digits + ".";
      assert digits + ("." + rest) == marker + rest;
      AfterNumber(digits, rest);
    }
  }

  /** A marker not followed by a blank (`-x`, `1.x`, `**bold**`) never matches. */
  lemma {:induction false} MarkerWithoutBlankDoesNotMatch(ws: string, marker: string, rest: string)
    requires forall i :: 0 <= i < |ws| ==> IsSpace(ws[i])
    requires IsMarker(marker)
    requires rest == [] || !IsSpace(rest[0])
    ensures MatchTaskLine(ws + (marker + rest)) == None
  {
    assert (marker + rest)[0] == marker[0];
    SkipBlanks(ws, marker + rest);
    AfterAnyMarker(marker, rest);
  }

  /** A bold heading such as "**Phase 1**" is not a task line. */
  lemma {:induction false} BoldHeadingDoesNotMatch()
    ensures MatchTaskLine("**Phase 1**") == None
  {
    MarkerWithoutBlankDoesNotMatch("", "*", "*Phase 1**");
    assert "" + ("*" + "*Phase 1**") == "**Phase 1**";
  }

  /** Each line contributes at most one task. */
  lemma {:induction false} CollectCount(ms: seq<Option<string>>)
    ensures |Collect(ms)| <= |ms|
  {
    if ms != [] {
      CollectCount(ms[..|ms| - 1]);
    }
  }

  /** Collecting keeps a property every matched task has. */
  lemma {:induction false} CollectStripped(ms: seq<Option<string>>)
    requires forall i :: 0 <= i < |ms| && ms[i].Some? ==> Stripped(ms[i].value)
    ensures forall i :: 0 <= i < |Collect(ms)| ==> Stripped(Collect(ms)[i])
  {
    if ms != [] {
      var init := ms[..|ms| - 1];
      CollectStripped(init);
      var r := Collect(ms);
      forall i | 0 <= i < |r| ensures Stripped(r[i]) {
        if i < |Collect(init)| {
          assert r[i] == Collect(init)[i];
        } else {
          assert r[i] == ms[|ms| - 1].value;
        }
      }
    }
  }

  /** Every parsed task is stripped. */
  lemma {:induction false} ParsedTasksStripped(lines: seq<string>)
    ensures forall i :: 0 <= i < |ParsedTasks(lines)| ==> Stripped(ParsedTasks(lines)[i])
  {
    CollectStripped(LineMatches(lines));
  }

  /** Every task in a task list is stripped. */
  lemma TaskListStripped(raw: string)
    ensures forall i :: 0 <= i < |TaskList(raw)| ==> Stripped(TaskList(raw)[i])
  {
    var lines := Split(Strip(raw), '\n');
    var parsed := ParsedTasks(lines);
    ParsedTasksStripped(lines);
    var r := TaskList(raw);
    if parsed == [] {
      assert r == [Strip(raw)];
      assert Stripped(r[0]);
    } else {
      assert r == parsed;
    }
  }

  lemma {:induction false} StrippedWord(w: string)
    requires w != [] && !IsSpace(w[0]) && !IsSpace(w[|w| - 1])
    ensures Strip(w) == w
  {
  }

  lemma {:induction false} NumberedExample(line: string, d: char, task: string)
    requires IsDigit(d)
    requires line == "" + ([d] + ("." + (" " + task)))
    ensures MatchTaskLine(line) == Some(Strip(task))
  {
    NumberedLineMatches("", [d], " ", task);
  }

  lemma {:induction false} BulletExample(line: string, task: string)
    requires line == "" + (['-'] + (" " + task))
    ensures MatchTaskLine(line) == Some(Strip(task))
  {
    BulletLineMatches("", '-', " ", task);
  }

  lemma {:induction false} FirstLineMatches()
    ensures MatchTaskLine("1. Do A") == Some("Do A")
  {
    NumberedExample("1. Do A", '1', "Do A");
    StrippedWord("Do A");
  }

  /** A single line yields its match, if any, as the only task. */
  lemma {:induction false} ParsedSingle(line: string)
    ensures ParsedTasks([line]) == if MatchTaskLine(line).Some? then [MatchTaskLine(line).value] else []
  {
    var ms := LineMatches([line]);
    assert |ms| == 1 && ms[0] == MatchTaskLine(line);
    assert ms[..|ms| - 1] == [];
    assert Collect(ms) == Collect([]) + (if ms[0].Some? then [ms[0].value] else []);
  }

  /** Collecting matches that are all present keeps every one of them, in order. */
  lemma {:induction false} CollectAllPresent(ms: seq<Option<string>>, tasks: seq<string>)
    requires |tasks| == |ms|
    requires forall i :: 0 <= i < |ms| ==> ms[i] == Some(tasks[i])
    ensures Collect(ms) == tasks
  {
    if ms != [] {
      var n := |ms| - 1;
      CollectAllPresent(ms[..n], tasks[..n]);
      assert ms[n].value == tasks[n];
      assert tasks == tasks[..n] + [tasks[n]];
    }
  }

  /** When every line matches, the tasks are exactly the matches, in line order. */
  lemma {:induction false} ParsedAllMatch(lines: seq<string>, tasks: seq<string>)
    requires |tasks| == |lines|
    requires forall i :: 0 <= i < |lines| ==> MatchTaskLine(lines[i]) == Some(tasks[i])
    ensures ParsedTasks(lines) == tasks
  {
    var ms := LineMatches(lines);
    assert forall i :: 0 <= i < |ms| ==> ms[i] == Some(tasks[i]);
    CollectAllPresent(ms, tasks);
  }

  /** One more line appends its match, if any, to the tasks. */
  lemma {:induction false} ParsedSnoc(lines: seq<string>, line: string)
    ensures ParsedTasks(lines + [line]) ==
            ParsedTasks(lines) + (if MatchTaskLine(line).Some? then [MatchTaskLine(line).value] else [])
  {
    var ms := LineMatches(lines + [line]);
    assert ms[..|ms| - 1] == LineMatches(lines);
    assert ms[|ms| - 1] == MatchTaskLine(line);
  }

  /** Three lines that all match yield their three tasks. */
  lemma {:induction false} ParsedThree(a: string, b: string, c: string, x: string, y: string, z: string)
    requires MatchTaskLine(a) == Some(x) && MatchTaskLine(b) == Some(y) && MatchTaskLine(c) == Some(z)
    ensures ParsedTasks([a, b, c]) == [x, y, z]
  {
    ParsedSingle(a);
    ParsedSnoc([a], b);
    ParsedSnoc([a, b], c);
    SnocThree(a, b, c);
    SnocThree(x, y, z);
  }

  lemma SnocThree<T>(a: T, b: T, c: T)
    ensures [a] + [b] == [a, b] && [a, b] + [c] == [a, b, c]
  {
  }

  /** Three lines without a newline, joined by newlines, split back into those lines. */
  lemma {:induction false} SplitThree(a: string, b: string, c: string)
    requires '\n' !in a && '\n' !in b && '\n' !in c
    ensures Split(a + (['\n'] + (b + (['\n'] + c))), '\n') == [a, b, c]
  {
    SplitPrefix(a, b + (['\n'] + c), '\n');
    SplitPrefix(b, c, '\n');
    SplitNoSep(c, '\n');
  }

  /** An answer of three lines whose outer ends are not blank is read as those three lines. */
  lemma {:induction false} ThreeLineAnswer(a: string, b: string, c: string)
    requires '\n' !in a && '\n' !in b && '\n' !in c
    requires a != [] && !IsSpace(a[0]) && c != [] && !IsSpace(c[|c| - 1])
    ensures Split(Strip(a + (['\n'] + (b + (['\n'] + c)))), '\n') == [a, b, c]
  {
    var raw := a + (['\n'] + (b + (['\n'] + c)));
    assert raw[0] == a[0];
    assert raw[|raw| - 1] == c[|c| - 1];
    StrippedWord(raw);
    SplitThree(a, b, c);
  }

  lemma {:induction false} MixedAnswerLines()
    ensures Split(Strip("1. Do A\n2. Do B\n- Do C"), '\n') == ["1. Do A", "2. Do B", "- Do C"]
  {
    var a, b, c := "1. Do A", "2. Do B", "- Do C";
    assert "1. Do A\n2. Do B\n- Do C" == a + (['\n'] + (b + (['\n'] + c)));
    assert a[0] == '1' && c[|c| - 1] == 'C';
    ThreeLineAnswer(a, b, c);
  }

  lemma {:induction false} SecondLineMatches()
    ensures MatchTaskLine("2. Do B") == Some("Do B")
  {
    NumberedExample("2. Do B", '2', "Do B");
    StrippedWord("Do B");
  }

  lemma {:induction false} BulletLineExample()
    ensures MatchTaskLine("- Do C") == Some("Do C")
  {
    BulletExample("- Do C", "Do C");
    StrippedWord("Do C");
  }

  lemma {:induction false} MixedAnswerTasks()
    ensures ParsedTasks(["1. Do A", "2. Do B", "- Do C"]) == ["Do A", "Do B", "Do C"]
  {
    FirstLineMatches();
    SecondLineMatches();
    BulletLineExample();
    ParsedThree("1. Do A", "2. Do B", "- Do C", "Do A", "Do B", "Do C");
  }

  /** A mixed numbered and bulleted answer yields its three tasks in order. */
  lemma {:induction false} MixedAnswerExample()
    ensures TaskList("1. Do A\n2. Do B\n- Do C") == ["Do A", "Do B", "Do C"]
  {
    MixedAnswerLines();
    MixedAnswerTasks();
  }

  /** A one-item numbered answer yields that item as the only task. */
  lemma {:induction false} NumberedAnswerTasks()
    ensures ParsedTasks(["1. Do A"]) == ["Do A"]
  {
    FirstLineMatches();
    ParsedSingle("1. Do A");
  }

  /** A one-line answer whose ends are not blank is read as that line. */
  lemma {:induction false} OneLineAnswer(w: string)
    requires '\n' !in w && w != [] && !IsSpace(w[0]) && !IsSpace(w[|w| - 1])
    ensures Strip(w) == w && Split(Strip(w), '\n') == [w]
  {
    StrippedWord(w);
    SplitNoSep(w, '\n');
  }

  lemma {:induction false} NumberedAnswerLines()
    ensures Split(Strip("1. Do A"), '\n') == ["1. Do A"]
  {
    var w := "1. Do A";
    assert w[0] == '1' && w[|w| - 1] == 'A';
    OneLineAnswer(w);
  }

  lemma {:induction false} NumberedAnswerExample()
    ensures TaskList("1. Do A") == ["Do A"]
  {
    NumberedAnswerLines();
    NumberedAnswerTasks();
  }

  lemma {:induction false} ProseAnswerLines()
    ensures Strip("just prose") == "just prose"
    ensures Split(Strip("just prose"), '\n') == ["just prose"]
  {
    var w := "just prose";
    assert w[0] == 'j' && w[|w| - 1] == 'e';
    assert '\n' !in w;
    OneLineAnswer(w);
  }

  lemma {:induction false} ProseAnswerTasks()
    ensures ParsedTasks(["just prose"]) == []
  {
    var line := "just prose";
    assert TrimStart(line, IsSpace) == line by {
      assert line[0] == 'j' && !IsSpace(line[0]);
    }
    assert !IsDigit(line[0]);
    ProseLineDoesNotMatch(line);
    ParsedSingle(line);
  }

  /** An answer without list markers becomes a single task. */
  lemma {:induction false} ProseAnswerExample()
    ensures TaskList("just prose") == ["just prose"]
  {
    ProseAnswerLines();
    ProseAnswerTasks();
  }

  // ---------------------------------------------------------------------
  // The request

  /** The response the planner goes on with: a 400 that mentions "model" is
      answered by re-sending the request with the fallback model. */
  function ChosenResponse(first: HttpExchange, second: HttpExchange): HttpExchange {
    if first.Response? && first.status == 400 && Contains(first.text, "model") then second else first
  }

  /** `choices[0]["message"]["content"]`, or None wherever `generate_plan`
      would switch to the fallback plan before touching its context: a raised
      request, a status other than 200, a body that is not JSON, missing or
      empty choices, a first choice without a message, a message without
      "content". Every exception on the way is caught and means the fallback. */
  function AnswerContent(x: HttpExchange): Option<Value> {
    if x.NetworkError? || x.status != 200 || x.body.None? then None
    else
      match AttrGet(x.body.value, "choices", Null)
      case Raised(_) => None
      case Returned(choices) =>
        if !Truthy(choices) || choices.Int? || choices.Bool? then None
        else
          match FirstItem(choices)
          case Raised(_) => None
          case Returned(first) =>
            match AttrGet(first, "message", Null)
            case Raised(_) => None
            case Returned(message) =>
              if message.Dict? && "content" in Keys(message.entries) then Get(message.entries, "content")
              else None
  }

  /** The planner's context and the plan it returns after one `generate_plan`. */
  datatype Planned = Planned(state: ContextState, plan: Value)

  /** `fallback_plan(goal)` on a context. */
  function FallbackRun(s: ContextState, goal: string): Planned {
    Planned(s.WithVariable("structured_plan", FallbackPlan(goal))
             .WithEvent("Fallback plan used", Str("Goal: " + goal)),
            FallbackPlan(goal))
  }

  /** `generate_plan(goal, model=model)` on a context. The answer is recorded
      as "raw_llm_output" before it is parsed, so an answer that is not a
      string (its `strip` raises) leaves that record behind the fallback. */
  function PlanRun(s: ContextState, goal: string, model: string, first: HttpExchange, second: HttpExchange): Planned {
    match AnswerContent(ChosenResponse(first, second))
    case None => FallbackRun(s, goal)
    case Some(raw) =>
      var s1 := s.WithVariable("raw_llm_output", raw);
      if !raw.Str? then FallbackRun(s1, goal)
      else TasksRun(s1, goal, model, TaskList(raw.s))
  }

  /** The end of `generate_plan` once the answer was split into tasks. */
  function TasksRun(s: ContextState, goal: string, model: string, tasks: seq<string>): Planned {
    var plan := PlanValue(goal, tasks);
    Planned(s.WithVariable("used_model", Str(model))
             .WithVariable("structured_plan", plan)
             .WithEvent("Plan generated", Str("Model: " + model)),
            plan)
  }

  /** `generate_plan(goal, model=model)` on the planner's tracker. */
  method GeneratePlan(ctx: ContextTracker, goal: string, model: string, first: HttpExchange, second: HttpExchange)
    returns (plan: Value)
    modifies ctx
    ensures Planned(ctx.State(), plan) == PlanRun(old(ctx.State()), goal, model, first, second)
  {
    var response := first;
    if response.Response? && response.status == 400 && Contains(response.text, "model") {
      response := second;
    }
    var content := AnswerContent(response);
    if content.None? {
      plan := FallbackPlanOn(ctx, goal);
      return;
    }
    var raw := content.value;
    ctx.UpdateVariable("raw_llm_output", raw);
    if !raw.Str? {
      plan := FallbackPlanOn(ctx, goal);
      return;
    }
    var taskList := ExtractTasks(raw.s);
    plan := PlanValue(goal, taskList);
    ctx.UpdateVariable("used_model", Str(model));
    ctx.UpdateVariable("structured_plan", plan);
    ctx.LogEvent("Plan generated", Str("Model: " + model));
  }

  /** `fallback_plan(goal)` on the planner's tracker. */
  method FallbackPlanOn(ctx: ContextTracker, goal: string) returns (plan: Value)
    modifies ctx
    ensures Planned(ctx.State(), plan) == FallbackRun(old(ctx.State()), goal)
  {
    plan := FallbackPlan(goal);
    ctx.UpdateVariable("structured_plan", plan);
    ctx.LogEvent("Fallback plan used", Str("Goal: " + goal));
  }

  /** A plan with a goal and a non-empty list of string tasks. */
  predicate IsStructuredPlan(plan: Value, goal: string) {
    && plan.Dict?
    && Keys(plan.entries) == ["goal", "tasks"]
    && Get(plan.entries, "goal") == Some(Str(goal))
    && var tasks := GetOr(plan.entries, "tasks", Null);
       tasks.List? && tasks.items != [] && forall i :: 0 <= i < |tasks.items| ==> tasks.items[i].Str?
  }

  lemma PlanValueStructured(goal: string, tasks: seq<string>)
    requires |tasks| >= 1
    ensures IsStructuredPlan(PlanValue(goal, tasks), goal)
  {
    var plan := PlanValue(goal, tasks);
    assert plan.entries[1..] == [("tasks", StrList(tasks))];
    assert Keys(plan.entries) == ["goal", "tasks"];
    assert Get(plan.entries[1..], "tasks") == Some(StrList(tasks));
    assert plan.entries[0].0 != "tasks";
    assert GetOr(plan.entries, "tasks", Null) == StrList(tasks);
  }

  /** What every run of `generate_plan` leaves behind, starting from `s`: a
      structured plan for the goal, recorded as "structured_plan", every
      earlier history record kept, and the history ending with "Plan
      generated" or "Fallback plan used". */
  predicate PlanRecorded(s: ContextState, r: Planned, goal: string) {
    && IsStructuredPlan(r.plan, goal)
    && Get(r.state.variables, "structured_plan") == Some(r.plan)
    && |r.state.history| > |s.history| && r.state.history[..|s.history|] == s.history
    && r.state.history[|r.state.history| - 1].event in {"Plan generated", "Fallback plan used"}
  }

  /** A history that extends one extending `s`'s history extends `s`'s too. */
  lemma HistoryExtended(s: ContextState, base: ContextState, h: seq<Event>)
    requires |base.history| >= |s.history| && base.history[..|s.history|] == s.history
    requires |h| > |base.history| && h[..|base.history|] == base.history
    ensures |h| > |s.history| && h[..|s.history|] == s.history
  {
    assert h[..|s.history|] == h[..|base.history|][..|s.history|];
  }

  /** Storing a structured plan and then logging a plan record, on a context
      whose history extends `s`'s, leaves what `PlanRecorded` asks for. */
  lemma StoredPlanRecorded(s: ContextState, base: ContextState, plan: Value, goal: string, e: string, d: Value)
    requires |base.history| >= |s.history| && base.history[..|s.history|] == s.history
    requires IsStructuredPlan(plan, goal)
    requires e in {"Plan generated", "Fallback plan used"}
    ensures PlanRecorded(s, Planned(base.WithVariable("structured_plan", plan).WithEvent(e, d), plan), goal)
  {
    var t := base.WithVariable("structured_plan", plan).WithEvent(e, d);
    PutGet(base.variables, "structured_plan", plan);
    assert t.variables == Put(base.variables, "structured_plan", plan);
    var h := t.history;
    assert h == base.history + [Event("Variable updated", VariableDetail("structured_plan", plan)), Event(e, d)];
    assert h[..|base.history|] == base.history;
    HistoryExtended(s, base, h);
  }

  /** The fallback plan is recorded as the structured plan. */
  lemma FallbackRunRecorded(s: ContextState, base: ContextState, goal: string)
    requires |base.history| >= |s.history| && base.history[..|s.history|] == s.history
    ensures PlanRecorded(s, FallbackRun(base, goal), goal)
  {
    PlanValueStructured(goal, FallbackTasks);
    StoredPlanRecorded(s, base, FallbackPlan(goal), goal, "Fallback plan used", Str("Goal: " + goal));
  }

  /** A plan made of parsed tasks is recorded as the structured plan. */
  lemma TasksRunRecorded(s: ContextState, base: ContextState, goal: string, model: string, tasks: seq<string>)
    requires |base.history| >= |s.history| && base.history[..|s.history|] == s.history
    requires |tasks| >= 1
    ensures PlanRecorded(s, TasksRun(base, goal, model, tasks), goal)
  {
    var s2 := base.WithVariable("used_model", Str(model));
    assert s2.history[..|base.history|] == base.history;
    HistoryExtended(s, base, s2.history);
    PlanValueStructured(goal, tasks);
    StoredPlanRecorded(s, s2, PlanValue(goal, tasks), goal, "Plan generated", Str("Model: " + model));
  }

  /** Whatever the network does, `generate_plan` records a structured plan
      for the goal and ends the history with its outcome. */
  lemma PlanAlwaysStructured(s: ContextState, goal: string, model: string, first: HttpExchange, second: HttpExchange)
    ensures PlanRecorded(s, PlanRun(s, goal, model, first, second), goal)
  {
    var content := AnswerContent(ChosenResponse(first, second));
    if content.None? {
      FallbackRunRecorded(s, s, goal);
    } else if !content.value.Str? {
      var s1 := s.WithVariable("raw_llm_output", content.value);
      FallbackRunRecorded(s, s1, goal);
    } else {
      var s1 := s.WithVariable("raw_llm_output", content.value);
      TasksRunRecorded(s, s1, goal, model, TaskList(content.value.s));
    }
  }

  /** The request is re-sent at most once: a deprecation answer to the re-sent
      request is not retried again, it leads to the fallback plan. */
  lemma DeprecationAnswerTwiceFallsBack(s: ContextState, goal: string, model: string, first: HttpExchange, second: HttpExchange)
    requires first.Response? && first.status == 400 && Contains(first.text, "model")
    requires second.Response? && second.status == 400
    ensures PlanRun(s, goal, model, first, second) == FallbackRun(s, goal)
  {
  }

  /** After the re-sent request succeeds, "used_model" still names the model
      originally asked for, not the model that produced the plan. */
  lemma UsedModelIsRequestedModel(s: ContextState, goal: string, model: string, first: HttpExchange, second: HttpExchange)
    requires first.Response? && first.status == 400 && Contains(first.text, "model")
    requires AnswerContent(second).Some? && AnswerContent(second).value.Str?
    ensures var r := PlanRun(s, goal, model, first, second);
      Get(r.state.variables, "used_model") == Some(Str(model))
  {
    var raw := AnswerContent(second).value;
    var s1 := s.WithVariable("raw_llm_output", raw);
    var s2 := s1.WithVariable("used_model", Str(model));
    PutGet(s1.variables, "used_model", Str(model));
    PutGetOther(s2.variables, "structured_plan", "used_model", PlanValue(goal, TaskList(raw.s)));
  }
}
