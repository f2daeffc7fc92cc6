/**
  The file-change filter of a running server (src/model/BuiltInServer.ts:198-214):
  a changed file asks the browser to reload unless its lower-cased path lies
  in editor, version-control, dependency or test folders, or ends like a
  tooling or documentation file.
*/
module ChangeFilter {
  import opened Strings

  /** A path holding one of these is ignored. */
  const IGNORED_FRAGMENTS: seq<string> := ["/.vscode", "/.git", "/node_modules/", "/test/"]

  /** A path ending with one of these is ignored. */
  const IGNORED_ENDINGS: seq<string> :=
    [".eslintrc.json", ".gitignore", ".vscodeignore", ".md", "tsconfig.json", "package.json", "package-lock.json"]

  /** The policy as a table: some fragment occurs in the path or some ending ends it. */
  predicate Ignored(path: string) {
    (exists f :: f in IGNORED_FRAGMENTS && Contains(path, f))
    || (exists e :: e in IGNORED_ENDINGS && EndsWith(path, e))
  }

  /** Whether a change at `path` sends `refresh`. */
  function ShouldRefresh(path: string): bool {
    var p := ToLower(path);
    && !Contains(p, "/.vscode")
    && !Contains(p, "/.git")
    && !Contains(p, "/node_modules/")
    && !Contains(p, "/test/")
    && !EndsWith(p, ".eslintrc.json")
    && !EndsWith(p, ".gitignore")
    && !EndsWith(p, ".vscodeignore")
    && !EndsWith(p, ".md")
    && !EndsWith(p, "tsconfig.json")
    && !EndsWith(p, "package.json")
    && !EndsWith(p, "package-lock.json")
  }

  /** The chain of tests in the source is exactly the table policy. */
  lemma ShouldRefreshFollowsPolicy(path: string)
    ensures ShouldRefresh(path) <==> !Ignored(ToLower(path))
  {
    var p := ToLower(path);
    if ShouldRefresh(path) {
      forall f | f in IGNORED_FRAGMENTS ensures !Contains(p, f) {}
      forall e | e in IGNORED_ENDINGS ensures !EndsWith(p, e) {}
    } else {
      assert IGNORED_FRAGMENTS[0] == "/.vscode" && IGNORED_FRAGMENTS[1] == "/.git";
      assert IGNORED_FRAGMENTS[2] == "/node_modules/" && IGNORED_FRAGMENTS[3] == "/test/";
      assert IGNORED_ENDINGS[0] == ".eslintrc.json" && IGNORED_ENDINGS[1] == ".gitignore";
      assert IGNORED_ENDINGS[2] == ".vscodeignore" && IGNORED_ENDINGS[3] == ".md";
      assert IGNORED_ENDINGS[4] == "tsconfig.json" && IGNORED_ENDINGS[5] == "package.json";
      assert IGNORED_ENDINGS[6] == "package-lock.json";
    }
  }

  /** Two paths that differ only in letter case get the same decision. */
  lemma ShouldRefreshIgnoresCase(a: string, b: string)
    requires SameIgnoringCase(a, b)
    ensures ShouldRefresh(a) == ShouldRefresh(b)
  {
    forall i | 0 <= i < |a| ensures ToLower(a)[i] == ToLower(b)[i] {
      assert AsciiUpper(a[i]) == AsciiUpper(b[i]);
    }
    assert ToLower(a) == ToLower(b);
  }

  /** Markdown files are ignored whatever the case of their extension. */
  lemma MarkdownIgnored(stem: string)
    ensures !ShouldRefresh(stem + ".MD")
  {
    var p := ToLower(stem + ".MD");
    assert p[|p| - 3..] == ".md";
    assert EndsWith(p, ".md");
  }

  /** Anything below a folder whose name starts with `.git` is ignored, `.github` included. */
  lemma GitPrefixedFolderIgnored(parent: string, folder: string, rest: string)
    requires |folder| >= 4 && ToLower(folder[..4]) == ".git"
    ensures !ShouldRefresh(parent + "/" + folder + rest)
  {
    var path := parent + "/" + folder + rest;
    var p := ToLower(path);
    var i := |parent|;
    var word := p[i..i + 5];
    forall j | 0 <= j < 5 ensures word[j] == "/.git"[j] {
      if j == 0 {
        assert path[i] == '/';
      } else {
        assert path[i + j] == folder[..4][j - 1];
        assert ToLower(folder[..4])[j - 1] == AsciiLower(folder[..4][j - 1]);
      }
    }
    assert word == "/.git";
    ContainsAt(p, "/.git", i);
  }
}
