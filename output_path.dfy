/**
 * The default output path of `main` (python-scripts/statement-parser.py:93-95):
 * when no output path is given, the input's base name without its last
 * extension, followed by `_transactions.csv`. `os.path.basename` and
 * `os.path.splitext` are modelled with their POSIX behaviour.
 */
module OutputPath {
  import opened Wrappers

  const Suffix: string := "_transactions.csv"

  /** The position of the last c in s, or -1 (`str.rfind`). */
  function LastIndex(s: string, c: char): (i: int)
    ensures -1 <= i < |s|
    ensures i >= 0 ==> s[i] == c
    ensures forall k :: i < k < |s| ==> s[k] != c
  {
    if s == [] then -1
    else if s[|s| - 1] == c then |s| - 1
    else LastIndex(s[..|s| - 1], c)
  }

  /** `os.path.basename`: what follows the last `/`. */
  function Basename(path: string): (name: string)
    ensures '/' !in name
    ensures |name| <= |path| && name == path[|path| - |name|..]
    ensures |name| == |path| || path[|path| - |name| - 1] == '/'
  {
    var i := LastIndex(path, '/');
    var name := path[i + 1..];
    forall k | 0 <= k < |name| ensures name[k] != '/' {
      assert name[k] == path[i + 1 + k];
    }
    name
  }

  /** Somewhere after its last `/`, stem has a character other than `.`. */
  ghost predicate HasName(stem: string) {
    exists k :: 0 <= k < |stem| && stem[k] != '.' && stem[k] != '/' && '/' !in stem[k..]
  }

  /**
   * `os.path.splitext` cuts path at n: path[n] is its last `.`, no `/` follows
   * it, and what comes before it has a name, not only dots, after its last `/`.
   */
  ghost predicate CutsAt(path: string, n: nat) {
    n < |path| && path[n] == '.' &&
    (forall k :: n < k < |path| ==> path[k] != '.' && path[k] != '/') &&
    HasName(path[..n])
  }

  /**
   * `os.path.splitext(path)[0]`: path without the text from its last `.`, when
   * that `.` comes after the last `/` and something other than a `.` stands
   * between them; otherwise path itself (so ".bashrc" keeps its name).
   */
  function RootOf(path: string): (root: string)
    ensures |root| <= |path| && root == path[..|root|]
    ensures root == path || CutsAt(path, |root|)
    ensures forall n: nat :: CutsAt(path, n) ==> root == path[..n]
  {
    var sep := LastIndex(path, '/');
    var dot := LastIndex(path, '.');
    CutIsLastDot(path, sep, dot);
    if sep < dot && exists k :: sep + 1 <= k < dot && path[k] != '.' then
      assert HasName(path[..dot]) by {
        var k :| sep + 1 <= k < dot && path[k] != '.';
        assert path[..dot][k..] == path[k..dot];
      }
      path[..dot]
    else path
  }

  /** A cut can only be at the last `.`, after the last `/`, past a character other than `.`. */
  lemma CutIsLastDot(path: string, sep: int, dot: int)
    requires sep == LastIndex(path, '/') && dot == LastIndex(path, '.')
    ensures forall n: nat :: CutsAt(path, n) ==>
      n == dot && sep < dot && exists k :: sep + 1 <= k < dot && path[k] != '.'
  {
    forall n: nat | CutsAt(path, n)
      ensures n == dot && sep < dot && exists k :: sep + 1 <= k < dot && path[k] != '.'
    {
      var stem := path[..n];
      var k :| 0 <= k < |stem| && stem[k] != '.' && stem[k] != '/' && '/' !in stem[k..];
      assert path[k] == stem[k];
      NoSlashFrom(path, n, k);
    }
  }

  /** With a cut at n past a name starting at k, no `/` comes at k or after. */
  lemma NoSlashFrom(path: string, n: nat, k: nat)
    requires CutsAt(path, n) && k < n && '/' !in path[..n][k..]
    ensures forall j :: k <= j < |path| ==> path[j] != '/'
  {
    forall j | k <= j < n ensures path[j] != '/' {
      assert path[j] == path[..n][k..][j - k];
    }
  }

  /** A name ending in a `.` and an extension without `.` or `/` loses exactly that extension. */
  lemma RootOfDropsExtension(stem: string, ext: string)
    requires HasName(stem) && '.' !in ext && '/' !in ext
    ensures RootOf(stem + "." + ext) == stem
  {
    var path := stem + "." + ext;
    assert path[..|stem|] == stem;
    forall k | |stem| < k < |path| ensures path[k] != '.' && path[k] != '/' {
      assert path[k] == ext[k - |stem| - 1];
    }
    assert CutsAt(path, |stem|);
  }

  /** Where splitext finds no extension, the name stays whole. */
  lemma RootOfKeepsName(path: string)
    requires forall n: nat :: !CutsAt(path, n)
    ensures RootOf(path) == path
  {
  }

  /** Lines 94-95: the base name, its last extension dropped, then `_transactions.csv`. */
  function DefaultOutputName(pdfPath: string): (name: string)
    ensures |name| >= |Suffix| && name[|name| - |Suffix|..] == Suffix
    ensures '/' !in name
  {
    var base := Basename(pdfPath);
    var root := RootOf(base);
    var name := root + Suffix;
    assert name[|root|..] == Suffix;
    SuffixHasNoSlash();
    forall k | 0 <= k < |name| ensures name[k] != '/' {
      if k < |root| {
        assert name[k] == base[k];
      } else {
        assert name[k] == Suffix[k - |root|];
      }
    }
    name
  }

  lemma SuffixHasNoSlash()
    ensures '/' !in Suffix
  {
  }

  /**
   * A default name is the input's base name, less the extension splitext
   * finds in it if there is one, followed by `_transactions.csv`.
   */
  lemma DefaultOutputNameParts(pdfPath: string)
    ensures var name, base := DefaultOutputName(pdfPath), Basename(pdfPath);
      && (forall n: nat :: CutsAt(base, n) ==> name == base[..n] + Suffix)
      && ((forall n: nat :: !CutsAt(base, n)) ==> name == base + Suffix)
  {
    var base := Basename(pdfPath);
    assert DefaultOutputName(pdfPath) == RootOf(base) + Suffix;
  }

  /** The parsed arguments of `main`; only the output path is reassigned. */
  class Arguments {
    const pdfPath: string
    var output: Option<string>

    constructor (pdfPath: string, output: Option<string>)
      ensures this.pdfPath == pdfPath && this.output == output
    {
      this.pdfPath := pdfPath;
      this.output := output;
    }

    /** Lines 93-95: a missing or empty output path is replaced by the default name. */
    method UseDefaultOutput()
      modifies this
      ensures old(output).None? || old(output) == Some("") ==> output == Some(DefaultOutputName(pdfPath))
      ensures old(output).Some? && old(output) != Some("") ==> output == old(output)
    {
      if output.None? || output == Some("") {
        output := Some(DefaultOutputName(pdfPath));
      }
    }
  }
}
