/** Session persistence (src/core/memory_manager.py): one JSON file per
    session id under a save directory. The directory is a map from file path
    to the dictionary the file holds; `json.dump` followed by `json.load`
    gives back the dictionary `get_context()` produced, so a file holds that
    dictionary as `load_context` reads it. */
module MemoryManagement {
  import opened Common
  import opened ContextTracking

  /** The session id `save_context` and `load_context` use by default. */
  const DefaultSession := "latest"

  /** The directory `MemoryManager()` uses by default. */
  const DefaultSaveDir := "memory"

  /** `os.path.join(a, b)` on POSIX: an absolute `b` replaces `a`; otherwise a
      `/` is inserted unless `a` is empty or already ends with one. */
  function PosixJoin(a: string, b: string): (r: string)
    ensures b != [] && b[0] == '/' ==> r == b
    ensures (b == [] || b[0] != '/') && a != [] && a[|a| - 1] != '/' ==> r == a + "/" + b
  {
    if b != [] && b[0] == '/' then b
    else if a == [] || a[|a| - 1] == '/' then a + b
    else a + "/" + b
  }

  /** `os.path.join(self.save_dir, f"{session_id}.json")` */
  function SessionPath(saveDir: string, sessionId: string): string {
    PosixJoin(saveDir, sessionId + ".json")
  }

  /** A relative directory name: it does not start with `/`. */
  predicate Relative(p: string) {
    p == [] || p[0] != '/'
  }

  /** The context `load_context` builds from what the directory holds at `path`. */
  function LoadedFrom(files: map<string, SavedData>, path: string): ContextState {
    if path in files then Loaded(files[path]) else Initial()
  }

  lemma {:induction false} SuffixCancel(a: string, b: string, suffix: string)
    requires a + suffix == b + suffix
    ensures a == b
  {
    assert a == (a + suffix)[..|a|];
    assert b == (b + suffix)[..|b|];
  }

  lemma {:induction false} PrefixCancel(prefix: string, a: string, b: string)
    requires prefix + a == prefix + b
    ensures a == b
  {
    assert a == (prefix + a)[|prefix|..];
    assert b == (prefix + b)[|prefix|..];
  }

  /** With a relative save directory, distinct session ids name distinct files. */
  lemma {:induction false} SessionPathInjective(saveDir: string, id1: string, id2: string)
    requires Relative(saveDir)
    requires id1 != id2
    ensures SessionPath(saveDir, id1) != SessionPath(saveDir, id2)
  {
    var f1, f2 := id1 + ".json", id2 + ".json";
    if f1 == f2 {
      SuffixCancel(id1, id2, ".json");
    }
    var p1, p2 := SessionPath(saveDir, id1), SessionPath(saveDir, id2);
    var abs1, abs2 := f1[0] == '/', f2[0] == '/';
    if abs1 && abs2 {
    } else if !abs1 && !abs2 {
      var sep := if saveDir == [] || saveDir[|saveDir| - 1] == '/' then saveDir else saveDir + "/";
      assert p1 == sep + f1 && p2 == sep + f2;
      if p1 == p2 {
        PrefixCancel(sep, f1, f2);
      }
    } else {
      // One path is absolute, the other starts with the relative directory or
      // with a relative file name.
      var rel, relFile := if abs1 then p2 else p1, if abs1 then f2 else f1;
      assert rel[0] != '/' by {
        if saveDir == [] {
          assert rel == relFile;
        } else {
          assert rel[0] == saveDir[0];
        }
      }
    }
  }

  /** A save directory and the files in it, mutated by `save_context`. */
  class MemoryManager {
    var saveDir: string
    var files: map<string, SavedData>

    /** `MemoryManager(save_dir)`: `os.makedirs` keeps whatever the directory
        already held, given here as `existing`. */
    constructor (dir: string, existing: map<string, SavedData>)
      ensures saveDir == dir && files == existing
    {
      saveDir, files := dir, existing;
    }

    /** `save_context(context, session_id)`: the session's file is
        (over)written with the context's dictionary; no other file changes and
        the context is only read. */
    method SaveContext(context: ContextTracker, sessionId: string)
      modifies this
      ensures saveDir == old(saveDir)
      ensures files == old(files)[SessionPath(saveDir, sessionId) := Snapshot(context.State())]
    {
      var c := context.GetContext();
      files := files[SessionPath(saveDir, sessionId) := Snapshot(c)];
    }

    /** `load_context(session_id)`: a fresh tracker, filled from the session's
        file when there is one and empty otherwise. */
    method LoadContext(sessionId: string) returns (context: ContextTracker)
      ensures fresh(context)
      ensures context.State() == LoadedFrom(files, SessionPath(saveDir, sessionId))
    {
      var path := SessionPath(saveDir, sessionId);
      context := new ContextTracker();
      if path in files {
        context.LoadContext(files[path]);
      }
    }
  }

  /** Saving a context and loading the same session gives back a context with
      the same four fields. */
  lemma SaveLoadRoundTrip(files: map<string, SavedData>, saveDir: string, sessionId: string, s: ContextState)
    ensures LoadedFrom(files[SessionPath(saveDir, sessionId) := Snapshot(s)], SessionPath(saveDir, sessionId)) == s
  {
  }

  /** A session nobody saved loads as an empty tracker. */
  lemma MissingSessionLoadsEmpty(files: map<string, SavedData>, saveDir: string, sessionId: string)
    requires SessionPath(saveDir, sessionId) !in files
    ensures LoadedFrom(files, SessionPath(saveDir, sessionId)) == Initial()
  {
  }

  /** With a relative save directory, saving one session leaves what every
      other session loads unchanged. */
  lemma SaveKeepsOtherSessions(files: map<string, SavedData>, saveDir: string, saved: string, other: string, s: ContextState)
    requires Relative(saveDir)
    requires saved != other
    ensures LoadedFrom(files[SessionPath(saveDir, saved) := Snapshot(s)], SessionPath(saveDir, other))
         == LoadedFrom(files, SessionPath(saveDir, other))
  {
    SessionPathInjective(saveDir, saved, other);
  }

  /** The default session lives at "memory/latest.json". */
  lemma DefaultSessionPath()
    ensures SessionPath(DefaultSaveDir, DefaultSession) == "memory/latest.json"
  {
  }
}
