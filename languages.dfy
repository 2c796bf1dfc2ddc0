/** The run table of the sandbox runner: which language keys exist, and for each
    the source-file extension, the container image and the command that builds and
    runs the submission inside the container. */
module Languages {
  import opened Wrappers

  /** One entry of the run table, as a tagged variant. */
  datatype Toolchain = Js | Ts | Py | Java | Cpp

  /** The keys of the run table, in declaration order. */
  const Keys: seq<string> := ["js", "ts", "py", "java", "cpp"]

  function Key(t: Toolchain): string
  {
    match t
    case Js => "js"
    case Ts => "ts"
    case Py => "py"
    case Java => "java"
    case Cpp => "cpp"
  }

  function Extension(t: Toolchain): string
  {
    match t
    case Js => ".js"
    case Ts => ".ts"
    case Py => ".py"
    case Java => ".java"
    case Cpp => ".cpp"
  }

  function DockerImage(t: Toolchain): string
  {
    match t
    case Js => "node:18"
    case Ts => "node:18"
    case Py => "python:3.11"
    case Java => "openjdk:21"
    case Cpp => "gcc:13.2.0"
  }

  /** Looks a key up among the table's own entries only. */
  function Resolve(key: string): (r: Option<Toolchain>)
    ensures r.Some? <==> key in Keys
    ensures r.Some? ==> Key(r.value) == key
  {
    if key == "js" then Some(Js)
    else if key == "ts" then Some(Ts)
    else if key == "py" then Some(Py)
    else if key == "java" then Some(Java)
    else if key == "cpp" then Some(Cpp)
    else None
  }

  /** Resolving is the inverse of naming: every toolchain is found under its own
      key and under no other. */
  lemma ResolveKey(t: Toolchain, key: string)
    ensures Resolve(Key(t)) == Some(t)
    ensures Resolve(key) == Some(t) <==> key == Key(t)
  {
  }

  /** The names every plain JavaScript object inherits from Object.prototype;
      indexing an object literal with one of them yields a truthy value (a
      function, or the prototype object itself for "__proto__"). */
  const ObjectPrototypeMembers: set<string> :=
    {"constructor", "__proto__", "__defineGetter__", "__defineSetter__",
     "__lookupGetter__", "__lookupSetter__", "hasOwnProperty", "isPrototypeOf",
     "propertyIsEnumerable", "toLocaleString", "toString", "valueOf"}

  /** What indexing the run table with a key yields in JavaScript. */
  datatype Lookup =
    | Config(toolchain: Toolchain)  // an own entry of the table
    | Inherited                     // a truthy Object.prototype member, not a config
    | Undefined                     // nothing: the only falsy case

  /** `languageConfigs[key]` as JavaScript evaluates it: own entries first, then
      the prototype chain. */
  function JsLookup(key: string): (r: Lookup)
    ensures r.Config? <==> key in Keys
    ensures r.Config? ==> Key(r.toolchain) == key
    ensures r.Inherited? <==> key in ObjectPrototypeMembers
  {
    match Resolve(key)
    case Some(t) => Config(t)
    case None => if key in ObjectPrototypeMembers then Inherited else Undefined
  }

  /** The lookup the guard against unknown languages evidently intends: own
      entries only, everything else undefined. */
  function OwnLookup(key: string): (r: Lookup)
    ensures !r.Inherited?
    ensures r.Config? <==> key in Keys
    ensures r.Config? ==> Key(r.toolchain) == key
  {
    match Resolve(key)
    case Some(t) => Config(t)
    case None => Undefined
  }

  /** The two lookups disagree exactly on the inherited member names. */
  lemma LookupsDifferOnPrototypeMembers(key: string)
    ensures JsLookup(key) != OwnLookup(key) <==> key in ObjectPrototypeMembers
  {
  }

  /** JavaScript's `s.replace(pattern, replacement)` with a string pattern and
      a replacement holding no `$` patterns (`$&`, `$$`, `` $` ``, `$'`), as at
      runCode.ts:31, which passes "": only the first occurrence is replaced. */
  function ReplaceFirst(s: string, pattern: string, replacement: string): (r: string)
    decreases |s|
  {
    if |pattern| > |s| then s
    else if s[..|pattern|] == pattern then replacement + s[|pattern|..]
    else [s[0]] + ReplaceFirst(s[1..], pattern, replacement)
  }

  /** When the pattern's first character does not occur before it, the first
      occurrence is the one replaced. */
  lemma {:induction false} ReplaceFirstAfterPlainPrefix(a: string, pattern: string, b: string, replacement: string)
    requires |pattern| > 0 && pattern[0] !in a
    ensures ReplaceFirst(a + pattern + b, pattern, replacement) == a + replacement + b
  {
    var s := a + pattern + b;
    if a == [] {
      assert s == pattern + b;
      assert s[..|pattern|] == pattern;
      assert s[|pattern|..] == b;
    } else {
      assert s[0] == a[0] != pattern[0];
      assert s[..|pattern|] != pattern by { assert s[..|pattern|][0] == s[0]; }
      assert s[1..] == a[1..] + pattern + b;
      ReplaceFirstAfterPlainPrefix(a[1..], pattern, b, replacement);
      assert [a[0]] + (a[1..] + replacement + b) == a + replacement + b;
    }
  }

  /** The command that builds and runs `filename` inside the container. */
  function Command(t: Toolchain, filename: string): string
  {
    match t
    case Js => "node " + filename
    case Ts => "sh -c \"npm install -g ts-node typescript && ts-node " + filename + "\""
    case Py => "python " + filename
    case Java => "sh -c \"javac " + filename + " && java " + ReplaceFirst(filename, ".java", "") + "\""
    case Cpp => "sh -c \"g++ " + filename + " -o app && ./app\""
  }

  /** The text `crypto.randomUUID()` produces: 36 lower-case hexadecimal digits
      and dashes in the 8-4-4-4-12 layout. */
  predicate IsUuid(u: string)
  {
    |u| == 36 &&
    forall i :: 0 <= i < |u| ==>
      if i == 8 || i == 13 || i == 18 || i == 23 then u[i] == '-' else u[i] in "0123456789abcdef"
  }

  /** The generated source-file name `code-<uuid><extension>`. */
  function SourceFileName(uuid: string, t: Toolchain): (name: string)
    ensures |name| == 5 + |uuid| + |Extension(t)|
    ensures name[..5] == "code-" && name[5..5 + |uuid|] == uuid
    ensures name[|name| - |Extension(t)|..] == Extension(t)
  {
    "code-" + uuid + Extension(t)
  }

  /** A generated file name holds no '.' before its extension. */
  lemma NoDotInStem(uuid: string)
    requires IsUuid(uuid)
    ensures '.' !in "code-" + uuid
  {
  }

  /** Java compiles the generated file and runs the class named by the file's stem,
      because the first ".java" in a generated name is its extension. */
  lemma JavaRunsFileStem(uuid: string)
    requires IsUuid(uuid)
    ensures Command(Java, SourceFileName(uuid, Java))
         == "sh -c \"javac code-" + uuid + ".java && java code-" + uuid + "\""
  {
    NoDotInStem(uuid);
    JavaRunsStem("code-" + uuid);
    assert SourceFileName(uuid, Java) == ("code-" + uuid) + ".java";
  }

  /** For a stem without '.', the Java command runs the class named by the stem. */
  lemma JavaRunsStem(stem: string)
    requires '.' !in stem
    ensures Command(Java, stem + ".java") == "sh -c \"javac " + stem + ".java && java " + stem + "\""
  {
    ReplaceFirstAfterPlainPrefix(stem, ".java", "", "");
    assert stem + ".java" + "" == stem + ".java";
    assert stem + "" + "" == stem;
  }
}
