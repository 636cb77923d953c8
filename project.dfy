/** What the parameter resolvers read from a project: the existence of files
    below the project base directory and the parsed 'package.json'. Both
    are inputs of the model; reading the disk and parsing JSON are not
    modelled. */
module ProjectModel {
  import opened Wrappers
  import opened Text

  /** A flat configuration map, as passed to the scanner. */
  type Config = map<string, string>

  /** The fields of 'package.json' the resolvers read. An empty string stands
      for a field that is absent or falsy; `name` and `version` are options
      because their absence is observable (`slugify(undefined)` throws, and an
      undefined version is dropped by JSON.stringify). */
  datatype Pkg = Pkg(
    name: Option<string>,
    version: Option<string>,
    description: string,
    homepage: string,
    bugsUrl: string,
    repositoryUrl: string,
    nycReportDir: string,
    jestCoverageDirectory: string,
    devDependencies: set<string>,
    dependencies: set<string>,
    peerDependencies: set<string>)

  /** The outcome of reading and parsing 'package.json': the file is missing
      or not valid JSON (an exception), it holds the JSON value `null`, or it
      holds a manifest. */
  datatype PackageFile = Unreadable(reason: string) | NullManifest | Manifest(pkg: Pkg)

  /** The project base directory: which project-relative paths exist, and
      what 'package.json' holds. */
  datatype Project = Project(fileExists: string -> bool, packageFile: PackageFile)

  const PropertiesFile := "sonar-project.properties"
  const XunitReport := "xunit.xml"
  const MochaReporter := "mocha-sonarqube-reporter"

  /** `dependenceExists`: the package is declared in the dev, regular or peer
      dependencies. */
  function DependenceExists(pkg: Pkg, pkgName: string): (r: bool)
    ensures r <==> exists deps | deps in [pkg.devDependencies, pkg.dependencies, pkg.peerDependencies] :: pkgName in deps
  {
    assert pkg.devDependencies == [pkg.devDependencies, pkg.dependencies, pkg.peerDependencies][0];
    assert pkg.dependencies == [pkg.devDependencies, pkg.dependencies, pkg.peerDependencies][1];
    assert pkg.peerDependencies == [pkg.devDependencies, pkg.dependencies, pkg.peerDependencies][2];
    pkgName in pkg.devDependencies || pkgName in pkg.dependencies || pkgName in pkg.peerDependencies
  }

  /** `.filter(Boolean)` on strings: keeps the non-empty ones, in order. */
  function Truthy(s: seq<string>): (r: seq<string>)
    ensures forall x :: x in r <==> x in s && x != ""
    ensures |r| <= |s|
  {
    if s == [] then [] else (if s[0] != "" then [s[0]] else []) + Truthy(s[1..])
  }

  /** No string occurs twice. */
  predicate NoDuplicates(s: seq<string>)
  {
    forall i, j | 0 <= i < j < |s| :: s[i] != s[j]
  }

  /** The index of the first occurrence of `x` in `s`. */
  function FirstIndex(s: seq<string>, x: string): (k: nat)
    requires x in s
    ensures k < |s| && s[k] == x
    ensures forall i | 0 <= i < k :: s[i] != x
  {
    if s[0] == x then 0 else 1 + FirstIndex(s[1..], x)
  }

  /** Appending an element leaves the first occurrences of the others. */
  lemma {:induction false} FirstIndexAppend(s: seq<string>, y: string, x: string)
    requires x in s
    ensures FirstIndex(s + [y], x) == FirstIndex(s, x)
  {
    if s[0] != x {
      assert (s + [y])[1..] == s[1..] + [y];
      FirstIndexAppend(s[1..], y, x);
    }
  }

  /** `FirstIndexAppend` for every element at once. */
  lemma FirstIndicesAppend(s: seq<string>, y: string)
    ensures forall x | x in s :: FirstIndex(s + [y], x) == FirstIndex(s, x)
  {
    forall x | x in s {
      FirstIndexAppend(s, y, x);
    }
  }

  /** `Array.from(new Set(s))` (and lodash `uniq`): the first occurrence of
      every element, in the order of those first occurrences. */
  function Dedup(s: seq<string>): (r: seq<string>)
    ensures NoDuplicates(r)
    ensures forall x :: x in r <==> x in s
    ensures |r| <= |s|
    ensures s != [] ==> r != [] && r[0] == s[0]
  {
    if s == [] then []
    else
      var init := s[..|s| - 1];
      var last := s[|s| - 1];
      var d := Dedup(init);
      assert s == init + [last];
      if last in d then d else d + [last]
  }

  /** `Dedup` keeps the elements in the order of their first occurrences. */
  lemma {:induction false} DedupOrder(s: seq<string>)
    ensures var r := Dedup(s);
            forall i, j | 0 <= i < j < |r| :: FirstIndex(s, r[i]) < FirstIndex(s, r[j])
  {
    if s != [] {
      var init := s[..|s| - 1];
      var last := s[|s| - 1];
      assert s == init + [last];
      var d := Dedup(init);
      DedupOrder(init);
      DedupAppend(init, last);
      FirstIndicesAppend(init, last);
      var r := Dedup(s);
      assert r == if last in init then d else d + [last];
      forall i, j | 0 <= i < j < |r|
        ensures FirstIndex(s, r[i]) < FirstIndex(s, r[j])
      {
        assert r[i] == d[i] && FirstIndex(s, r[i]) == FirstIndex(init, d[i]) < |init|;
        if j < |d| {
          assert r[j] == d[j] && FirstIndex(s, r[j]) == FirstIndex(init, d[j]);
        } else {
          assert r[j] == last && last !in init;
        }
      }
    }
  }

  /** Deduplicating after appending one element. */
  lemma DedupAppend(s: seq<string>, x: string)
    ensures Dedup(s + [x]) == if x in s then Dedup(s) else Dedup(s) + [x]
  {
    assert (s + [x])[..|s|] == s;
  }

  /** Deduplicating one, two and three elements. */
  lemma DedupOne(x: string)
    ensures Dedup([x]) == [x]
  {
    DedupAppend([], x);
    assert [] + [x] == [x];
  }

  lemma DedupTwo(x: string, y: string)
    ensures Dedup([x, y]) == if y == x then [x] else [x, y]
  {
    DedupOne(x);
    DedupAppend([x], y);
    assert [x] + [y] == [x, y];
  }

  lemma DedupThree(x: string, y: string, z: string)
    ensures Dedup([x, y, z]) == [x] + (if y != x then [y] else []) + (if z != x && z != y then [z] else [])
  {
    DedupTwo(x, y);
    DedupAppend([x, y], z);
    assert [x, y] + [z] == [x, y, z];
  }

  /** `filter(Boolean)` on two strings. */
  lemma TruthyPair(a: string, b: string)
    ensures Truthy([a, b]) == (if a != "" then [a] else []) + (if b != "" then [b] else [])
  {
    assert [a, b][1..] == [b];
    assert [b][1..] == [];
  }

  /** The coverage candidates of both resolvers: the truthy of `a` and `b`,
      then 'coverage', each kept at its first occurrence. */
  lemma CandidatesInOrder(a: string, b: string)
    ensures Dedup(Truthy([a, b]) + ["coverage"])
            == (if a != "" then [a] else []) + (if b != "" && b != a then [b] else [])
               + (if a != "coverage" && b != "coverage" then ["coverage"] else [])
  {
    TruthyPair(a, b);
    if a == "" && b == "" {
      assert Truthy([a, b]) + ["coverage"] == ["coverage"];
      DedupOne("coverage");
    } else if a == "" {
      assert Truthy([a, b]) + ["coverage"] == [b, "coverage"];
      DedupTwo(b, "coverage");
    } else if b == "" {
      assert Truthy([a, b]) + ["coverage"] == [a, "coverage"];
      DedupTwo(a, "coverage");
    } else {
      assert Truthy([a, b]) + ["coverage"] == [a, b, "coverage"];
      DedupThree(a, b, "coverage");
    }
  }

  /** The characters of `invalidCharacterRegex`, /[?$*+~.()'"!:@/]/g. */
  const InvalidCharacters: set<char> := {'?', '$', '*', '+', '~', '.', '(', ')', '\'', '"', '!', ':', '@', '/'}

  /** `slugify(name, { remove: invalidCharacterRegex })`, reduced to the step
      the `remove` option controls: every invalid character is dropped and the
      others are kept in order. */
  function Slugify(name: string): (r: string)
    ensures forall c | c in r :: c !in InvalidCharacters
  {
    if name == [] then []
    else (if name[0] in InvalidCharacters then [] else [name[0]]) + Slugify(name[1..])
  }

  /** The slug keeps exactly the valid characters of the name, and is no
      longer than it. */
  lemma {:induction false} SlugifyChars(name: string)
    ensures var r := Slugify(name);
            && (forall c :: c in r <==> c in name && c !in InvalidCharacters)
            && |r| <= |name|
  {
    if name != [] {
      SlugifyChars(name[1..]);
      assert forall c :: c in name <==> c == name[0] || c in name[1..];
    }
  }

  /** Slugifying twice is slugifying once. */
  lemma SlugifyIdempotent(name: string)
    ensures Slugify(Slugify(name)) == Slugify(name)
  {
    SlugifyChars(name);
    SlugifyKeepsValidNames(Slugify(name));
  }

  /** A name without invalid characters is its own slug. */
  lemma {:induction false} SlugifyKeepsValidNames(name: string)
    requires forall c | c in name :: c !in InvalidCharacters
    ensures Slugify(name) == name
  {
    if name != [] {
      assert forall c | c in name[1..] :: c in name;
      SlugifyKeepsValidNames(name[1..]);
      assert [name[0]] + name[1..] == name;
    }
  }

  /** Slugifying distributes over concatenation. */
  lemma {:induction false} SlugifyAppend(a: string, b: string)
    ensures Slugify(a + b) == Slugify(a) + Slugify(b)
  {
    if a == [] {
      assert a + b == b;
    } else {
      assert (a + b)[0] == a[0];
      assert (a + b)[1..] == a[1..] + b;
      SlugifyAppend(a[1..], b);
    }
  }

  /** A scoped package name '@scope/name' gives the key 'scopename' when
      neither part holds an invalid character. */
  lemma ScopedName(scope: string, name: string)
    requires forall c | c in scope :: c !in InvalidCharacters
    requires forall c | c in name :: c !in InvalidCharacters
    ensures Slugify("@" + scope + "/" + name) == scope + name
  {
    var at := "@";
    var slash := "/";
    assert Slugify(at) == [] by {
      assert at[0] in InvalidCharacters && at[1..] == [];
    }
    assert Slugify(slash) == [] by {
      assert slash[0] in InvalidCharacters && slash[1..] == [];
    }
    SlugifyKeepsValidNames(scope);
    SlugifyKeepsValidNames(name);
    SlugifyAppend(at, scope);
    SlugifyAppend(at + scope, slash);
    SlugifyAppend(at + scope + slash, name);
  }
}
