/** The isolation policy: the `docker run` command line built for one execution,
    with its fixed resource and network ceilings. */
module Isolation {
  import opened Texts
  import opened Languages

  /** `part` occurs in `s` starting at index `k`. */
  predicate IsAt(s: string, k: int, part: string)
  {
    0 <= k && k + |part| <= |s| && s[k..k + |part|] == part
  }

  /** The `parts` occur in `s` one after another, without overlapping, in order. */
  predicate InOrder(s: string, parts: seq<string>)
    decreases |parts|
  {
    parts == [] ||
    exists k | 0 <= k <= |s| :: IsAt(s, k, parts[0]) && InOrder(s[k + |parts[0]|..], parts[1..])
  }

  /** A part placed in front of text that already holds the rest in order. */
  lemma InOrderCons(a: string, part: string, b: string, rest: seq<string>)
    requires InOrder(b, rest)
    ensures InOrder(a + part + b, [part] + rest)
  {
    var s := a + part + b;
    var parts := [part] + rest;
    assert parts[0] == part && parts[1..] == rest;
    assert s[|a|..|a| + |part|] == part;
    assert s[|a| + |part|..] == b;
    assert IsAt(s, |a|, parts[0]) && InOrder(s[|a| + |parts[0]|..], parts[1..]);
  }

  /** Text in front does not disturb an ordering. */
  lemma InOrderPrefix(a: string, s: string, parts: seq<string>)
    requires InOrder(s, parts)
    ensures InOrder(a + s, parts)
  {
    if parts != [] {
      var k :| 0 <= k <= |s| && IsAt(s, k, parts[0]) && InOrder(s[k + |parts[0]|..], parts[1..]);
      var t := a + s;
      assert t[|a| + k..|a| + k + |parts[0]|] == s[k..k + |parts[0]|];
      assert t[|a| + k + |parts[0]|..] == s[k + |parts[0]|..];
      assert IsAt(t, |a| + k, parts[0]);
    }
  }

  /** Joining keeps every token, in order. */
  lemma {:induction false} JoinedInOrder(parts: seq<string>, sep: string)
    ensures InOrder(Joined(parts, sep), parts)
    decreases |parts|
  {
    if |parts| == 1 {
      SingleInOrder(parts[0]);
    } else if |parts| > 1 {
      var tail := parts[1..];
      JoinedInOrder(tail, sep);
      InOrderFront(parts[0], sep, Joined(tail, sep), tail);
      assert [parts[0]] + tail == parts;
    }
  }

  /** One token in order within itself. */
  lemma SingleInOrder(part: string)
    ensures InOrder(part, [part])
  {
    InOrderCons("", part, "", []);
    assert "" + part + "" == part;
    assert [part] + [] == [part];
  }

  /** A token and a separator in front of text holding the rest in order. */
  lemma InOrderFront(part: string, sep: string, b: string, rest: seq<string>)
    requires InOrder(b, rest)
    ensures InOrder(part + sep + b, [part] + rest)
  {
    InOrderPrefix(sep, b, rest);
    InOrderCons("", part, sep + b, rest);
    assert "" + part + (sep + b) == part + sep + b;
  }

  /** Fixed ceilings of every sandbox. */
  const MountPoint := "/app"
  const MemoryLimit := "256m"
  const CpuShare := ".5"
  const PidsLimit := "64"

  /** Between two tokens of the template: the space before each line-continuation
      backslash, then the four spaces that indent the next line. */
  const Gap := "     "

  /** The flags in the order the command carries them. */
  function IsolationFlags(tempDir: string): seq<string>
  {
    ["--rm", "--workdir " + MountPoint, "-m " + MemoryLimit, "--network none",
     "-v \"" + tempDir + ":" + MountPoint + "\"", "--cpus=\"" + CpuShare + "\"",
     "--pids-limit=" + PidsLimit]
  }

  /** The command line handed to the shell for one execution: "docker run", one
      space, then the flags, the image and the language's command, each line of
      the template joined to the next by the gap. */
  function DockerCommand(tempDir: string, t: Toolchain, filename: string): string
  {
    "docker run " + Joined(IsolationFlags(tempDir) + [DockerImage(t), Command(t, filename)], Gap)
  }

  /** Every command carries all isolation flags, then the image, then the
      language's command, in this order, whatever the language and workspace. */
  lemma DockerCommandFlagsInOrder(tempDir: string, t: Toolchain, filename: string)
    ensures InOrder(DockerCommand(tempDir, t, filename),
                    IsolationFlags(tempDir) + [DockerImage(t), Command(t, filename)])
  {
    var parts := IsolationFlags(tempDir) + [DockerImage(t), Command(t, filename)];
    JoinedInOrder(parts, Gap);
    InOrderPrefix("docker run ", Joined(parts, Gap), parts);
  }
}
