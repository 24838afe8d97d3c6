/** Where the test agent looks for generated code
    (src/agents/test_agent.py, `generate_tests_for`): the idea is turned into
    a directory name by `strip`, `lower` and replacing every space with `_`,
    and the code is expected in `./generated/<name>/main.py`. Whether that
    file exists is a parameter (the set of existing paths); what
    `generate_tests` produces for an existing file is a parameter too. */
module TestPaths {
  import opened Common
  import FolderName

  /** `idea.strip().lower().replace(" ", "_")` */
  function SafePath(idea: string): string {
    ReplaceChar(Lower(Strip(idea)), ' ', '_')
  }

  const GeneratedPrefix := "./generated/"
  const MainSuffix := "/main.py"

  /** `f"./generated/{safe_path}/main.py"` */
  function TestFilePath(idea: string): string {
    GeneratedPrefix + SafePath(idea) + MainSuffix
  }

  /** The marker every failure message of the test agent starts with. */
  const Cross := "\U{274C}"

  /** The message for an idea whose code is not there. */
  function NotFound(path: string): string {
    Cross + " Code not found: " + path
  }

  /** `generate_tests_for(idea)`: the not-found message when the derived path
      does not exist, otherwise whatever `generate_tests` gives for it. */
  function GenerateTestsFor(idea: string, existing: set<string>, generateTests: string -> string): (r: string)
    ensures TestFilePath(idea) !in existing ==> r == NotFound(TestFilePath(idea))
    ensures TestFilePath(idea) in existing ==> r == generateTests(TestFilePath(idea))
  {
    var path := TestFilePath(idea);
    if path !in existing then NotFound(path) else generateTests(path)
  }

  /** The directory name has no space in it, keeps the stripped idea's
      length, lower-cases ASCII capitals, and keeps every other character
      (punctuation included) where it was. */
  lemma SafePathShape(idea: string)
    ensures |SafePath(idea)| == |Strip(idea)|
    ensures forall i :: 0 <= i < |SafePath(idea)| ==> SafePath(idea)[i] != ' '
    ensures forall i :: 0 <= i < |SafePath(idea)| ==> !IsUpper(SafePath(idea)[i])
    ensures forall i :: 0 <= i < |SafePath(idea)| && Strip(idea)[i] != ' ' && !IsUpper(Strip(idea)[i]) ==>
      SafePath(idea)[i] == Strip(idea)[i]
    ensures forall i :: 0 <= i < |SafePath(idea)| && Strip(idea)[i] == ' ' ==> SafePath(idea)[i] == '_'
  {
  }

  /** Neither end of the directory name is blank. */
  lemma {:induction false} SafePathEnds(idea: string)
    ensures SafePath(idea) == [] || (!IsSpace(SafePath(idea)[0]) && !IsSpace(SafePath(idea)[|SafePath(idea)| - 1]))
  {
    var t := Strip(idea);
    var p := SafePath(idea);
    if p != [] {
      assert !IsSpace(t[0]) && !IsSpace(t[|t| - 1]);
      assert p[0] == (if LowerChar(t[0]) == ' ' then '_' else LowerChar(t[0]));
      assert p[|p| - 1] == (if LowerChar(t[|t| - 1]) == ' ' then '_' else LowerChar(t[|t| - 1]));
    }
  }

  /** Every character of the directory name is neither a space nor an ASCII
      capital. */
  lemma SafePathChars(idea: string)
    ensures forall i :: 0 <= i < |SafePath(idea)| ==> SafePath(idea)[i] != ' ' && !IsUpper(SafePath(idea)[i])
  {
    var l := Lower(Strip(idea));
    var p := SafePath(idea);
    forall i | 0 <= i < |p| ensures p[i] != ' ' && !IsUpper(p[i]) {
      assert p[i] == (if l[i] == ' ' then '_' else l[i]);
    }
  }

  /** Lower-casing a name without capitals gives it back. */
  lemma LowerFixed(p: string)
    requires forall i :: 0 <= i < |p| ==> !IsUpper(p[i])
    ensures Lower(p) == p
  {
    var l := Lower(p);
    forall i | 0 <= i < |p| ensures l[i] == p[i] {
      assert l[i] == LowerChar(p[i]);
    }
  }

  /** Replacing a character that does not occur gives the string back. */
  lemma ReplaceFixed(p: string, a: char, b: char)
    requires forall i :: 0 <= i < |p| ==> p[i] != a
    ensures ReplaceChar(p, a, b) == p
  {
    var r := ReplaceChar(p, a, b);
    forall i | 0 <= i < |p| ensures r[i] == p[i] {
      assert r[i] == (if p[i] == a then b else p[i]);
    }
  }

  /** Deriving the name twice gives the same name: an idea that already is a
      directory name maps to itself. */
  lemma SafePathIdempotent(idea: string)
    ensures SafePath(SafePath(idea)) == SafePath(idea)
  {
    var p := SafePath(idea);
    SafePathEnds(idea);
    SafePathChars(idea);
    if p != [] {
      StripNonBlankEnds(p);
    }
    assert Strip(p) == p;
    LowerFixed(p);
    ReplaceFixed(p, ' ', '_');
  }

  /** The directory name can be read back from the path. */
  lemma {:induction false} TestFilePathParts(idea: string)
    ensures |TestFilePath(idea)| == |SafePath(idea)| + 20
    ensures TestFilePath(idea)[..12] == GeneratedPrefix
    ensures TestFilePath(idea)[12..|TestFilePath(idea)| - 8] == SafePath(idea)
    ensures TestFilePath(idea)[|TestFilePath(idea)| - 8..] == MainSuffix
  {
    var p := SafePath(idea);
    var t := TestFilePath(idea);
    assert |GeneratedPrefix| == 12 && |MainSuffix| == 8;
    assert t == GeneratedPrefix + (p + MainSuffix);
    assert t[..12] == GeneratedPrefix;
    assert t[12..] == p + MainSuffix;
    assert t[12..|t| - 8] == (p + MainSuffix)[..|p|] == p;
    assert t[|t| - 8..] == (p + MainSuffix)[|p|..] == MainSuffix;
  }

  /** Two ideas share a path exactly when they share a directory name. */
  lemma TestFilePathInjective(a: string, b: string)
    ensures TestFilePath(a) == TestFilePath(b) <==> SafePath(a) == SafePath(b)
  {
    if TestFilePath(a) == TestFilePath(b) {
      TestFilePathParts(a);
      TestFilePathParts(b);
    }
  }

  /** The not-found message starts with the failure marker and ends with the
      path it looked for. */
  lemma NotFoundMessage(idea: string, existing: set<string>, generateTests: string -> string)
    requires TestFilePath(idea) !in existing
    ensures Cross <= GenerateTestsFor(idea, existing, generateTests)
    ensures var r := GenerateTestsFor(idea, existing, generateTests);
      |r| >= |TestFilePath(idea)| && r[|r| - |TestFilePath(idea)|..] == TestFilePath(idea)
  {
    var path := TestFilePath(idea);
    var r := NotFound(path);
    assert r == (Cross + " Code not found: ") + path;
  }

  /** The test agent's directory and the folder `get_folder_name` creates
      (src/main.py) differ whenever the stripped idea holds a character
      other than a letter, a digit, a space or `_`: the test agent keeps it,
      the folder name cannot hold it. "My App!" is looked up as "my_app!"
      but generated as "my_app". */
  lemma PunctuationSplitsNames(idea: string, i: nat)
    requires i < |Strip(idea)|
    requires var c := Strip(idea)[i];
      !FolderName.IsAlnum(c) && !IsUpper(c) && c != ' ' && c != '_'
    ensures SafePath(idea) != FolderName.GetFolderName(idea)
  {
    var c := Strip(idea)[i];
    SafePathShape(idea);
    assert SafePath(idea)[i] == c;
    FolderName.FolderNameShape(idea);
  }
}
