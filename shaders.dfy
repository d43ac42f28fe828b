/** Shader source loading: the `#include` expansion loop over the lines of
    a shader file, the joining of the lines into one source string, and the
    shader's name taken from its path.  A file system is a map from file
    name to the lines a line-by-line read of that file yields; a name it does
    not hold is a file that cannot be read. */
module Shaders {
  import opened GL
  import opened Wrappers
  import opened Sequences

  type FileSystem = map<string, seq<string>>

  const INCLUDE_TOKEN: string := "#include"

  /** pat occurs in s starting at position k. */
  predicate OccursAt(s: string, pat: string, k: nat) {
    k + |pat| <= |s| && s[k..k + |pat|] == pat
  }

  /** std::string::find(pat) != npos */
  function Contains(s: string, pat: string): (r: bool)
    ensures r <==> exists k: nat :: OccursAt(s, pat, k)
    decreases |s|
  {
    if |s| < |pat| then false
    else if s[..|pat|] == pat then
      assert OccursAt(s, pat, 0);
      true
    else
      var r := Contains(s[1..], pat);
      ContainsShift(s, pat);
      r
  }

  lemma ContainsShift(s: string, pat: string)
    requires |s| >= |pat| && s[..|pat|] != pat
    ensures (exists k: nat :: OccursAt(s, pat, k)) <==> exists k: nat :: OccursAt(s[1..], pat, k)
  {
    forall k: nat | OccursAt(s, pat, k) ensures k > 0 && OccursAt(s[1..], pat, k - 1) {
      assert s[1..][k - 1..k - 1 + |pat|] == s[k..k + |pat|];
    }
    forall k: nat | OccursAt(s[1..], pat, k) ensures OccursAt(s, pat, k + 1) {
      assert s[1..][k..k + |pat|] == s[k + 1..k + 1 + |pat|];
    }
  }

  predicate HasInclude(line: string) {
    Contains(line, INCLUDE_TOKEN)
  }

  /** find_last_of(c): the position of the last occurrence of c. */
  function LastIndexOf(s: string, c: char): (r: Option<nat>)
    ensures r.None? <==> c !in s
    ensures r.Some? ==> r.value < |s| && s[r.value] == c && forall k :: r.value < k < |s| ==> s[k] != c
  {
    if s == [] then None
    else if s[|s| - 1] == c then Some(|s| - 1)
    else
      var r := LastIndexOf(s[..|s| - 1], c);
      assert s == s[..|s| - 1] + [s[|s| - 1]];
      r
  }

  /** The file a line includes: the text strictly between its first and its
      last double quote, when the line contains `#include` and its last
      quote comes after its first. */
  function IncludeName(line: string): (r: Option<string>)
    ensures r.Some? <==>
      HasInclude(line) && '"' in line && LastIndexOf(line, '"').value > IndexOf(line, '"')
    ensures r.Some? ==> r.value == line[IndexOf(line, '"') + 1..LastIndexOf(line, '"').value]
  {
    var first, last := IndexOf(line, '"'), LastIndexOf(line, '"');
    if HasInclude(line) && first < |line| && last.Some? && last.value > first
    then Some(line[first + 1..last.value])
    else None
  }

  /** The position of the first line that contains `#include`, or the
      number of lines when there is none. */
  function FirstIncludeLine(lines: seq<string>): (i: nat)
    ensures i <= |lines|
    ensures i < |lines| ==> HasInclude(lines[i])
    ensures forall j :: 0 <= j < i ==> !HasInclude(lines[j])
  {
    if lines == [] then 0
    else if HasInclude(lines[0]) then 0
    else 1 + FirstIncludeLine(lines[1..])
  }

  /** readTextFileLines into an empty vector: the file's lines, or none. */
  function ReadLines(fs: FileSystem, file: string): seq<string> {
    if file in fs then fs[file] else []
  }

  /** One pass of the loop: the first line holding `#include`, when it is a
      well-formed directive, is cleared and the included file's lines are
      inserted before it.  None is the pass that ends the loop. */
  function Step(lines: seq<string>, fs: FileSystem): Option<seq<string>> {
    var i := FirstIncludeLine(lines);
    if i < |lines| && IncludeName(lines[i]).Some?
    then Some(lines[..i] + ReadLines(fs, IncludeName(lines[i]).value) + [""] + lines[i + 1..])
    else None
  }

  /** An accepted directive: the lines before it are kept, the included
      lines come next, then the cleared directive line, then the lines after
      it in their order; the line count grows by the included line count. */
  lemma StepShape(lines: seq<string>, fs: FileSystem)
    requires Step(lines, fs).Some?
    ensures var i, next := FirstIncludeLine(lines), Step(lines, fs).value;
      var inserted := ReadLines(fs, IncludeName(lines[i]).value);
      |next| == |lines| + |inserted| &&
      next[..i] == lines[..i] &&
      next[i..i + |inserted|] == inserted &&
      next[i + |inserted|] == "" &&
      next[i + |inserted| + 1..] == lines[i + 1..]
  {
    var i, next := FirstIncludeLine(lines), Step(lines, fs).value;
    var inserted := ReadLines(fs, IncludeName(lines[i]).value);
    assert next == lines[..i] + inserted + [""] + lines[i + 1..];
    assert next[..i] == lines[..i];
    assert next[i..i + |inserted|] == inserted;
    assert next[i + |inserted| + 1..] == lines[i + 1..];
  }

  /** The loop stops for good at the first line holding `#include` when that
      line is malformed, even if a later line is a well-formed directive. */
  lemma StepStopsAtMalformed(lines: seq<string>, fs: FileSystem)
    requires FirstIncludeLine(lines) < |lines| && IncludeName(lines[FirstIncludeLine(lines)]).None?
    ensures Step(lines, fs) == None
  {
  }

  /** A file that cannot be read still has its directive cleared and
      contributes no lines. */
  lemma StepUnreadable(lines: seq<string>, fs: FileSystem)
    requires Step(lines, fs).Some?
    requires IncludeName(lines[FirstIncludeLine(lines)]).value !in fs
    ensures var i := FirstIncludeLine(lines);
      Step(lines, fs).value == lines[i := ""]
  {
    var i := FirstIncludeLine(lines);
    assert lines[..i] + [] + [""] + lines[i + 1..] == lines[i := ""];
  }

  // Termination.  The loop runs forever on a file that includes itself, so
  // the model demands that includes between known files go strictly down a
  // ghost rank; a pass then lowers the number of directives to expand,
  // counted with multiplicity through nested includes, by one.

  ghost predicate Acyclic(fs: FileSystem, rank: string -> nat) {
    forall f, line :: f in fs && line in fs[f] && IncludeName(line).Some? && IncludeName(line).value in fs ==>
      rank(IncludeName(line).value) < rank(f)
  }

  /** The directives a file expands to, counting nested ones. */
  ghost function FileWeight(fs: FileSystem, rank: string -> nat, f: string): nat
    decreases rank(f), 2
  {
    if f in fs then LinesWeight(fs, rank, fs[f], rank(f)) else 0
  }

  ghost function LinesWeight(fs: FileSystem, rank: string -> nat, lines: seq<string>, bound: nat): nat
    decreases bound, 1, |lines|
  {
    if lines == [] then 0 else LineWeight(fs, rank, lines[0], bound) + LinesWeight(fs, rank, lines[1..], bound)
  }

  ghost function LineWeight(fs: FileSystem, rank: string -> nat, line: string, bound: nat): nat
    decreases bound, 0
  {
    match IncludeName(line)
    case None => 0
    case Some(n) => 1 + if n in fs && rank(n) < bound then FileWeight(fs, rank, n) else 0
  }

  /** The directives a list of lines expands to. */
  ghost function Weight(fs: FileSystem, rank: string -> nat, lines: seq<string>): nat {
    if lines == [] then 0 else TopLineWeight(fs, rank, lines[0]) + Weight(fs, rank, lines[1..])
  }

  ghost function TopLineWeight(fs: FileSystem, rank: string -> nat, line: string): nat {
    match IncludeName(line)
    case None => 0
    case Some(n) => 1 + FileWeight(fs, rank, n)
  }

  lemma {:induction false} WeightConcat(fs: FileSystem, rank: string -> nat, a: seq<string>, b: seq<string>)
    ensures Weight(fs, rank, a + b) == Weight(fs, rank, a) + Weight(fs, rank, b)
  {
    if a == [] {
      assert a + b == b;
    } else {
      assert (a + b)[0] == a[0];
      assert (a + b)[1..] == a[1..] + b;
      WeightConcat(fs, rank, a[1..], b);
    }
  }

  /** Lines whose known includes are all below `bound` weigh the same
      counted either way. */
  lemma {:induction false} WeightBelow(fs: FileSystem, rank: string -> nat, lines: seq<string>, bound: nat)
    requires forall line :: line in lines && IncludeName(line).Some? && IncludeName(line).value in fs ==>
      rank(IncludeName(line).value) < bound
    ensures Weight(fs, rank, lines) == LinesWeight(fs, rank, lines, bound)
  {
    if lines != [] {
      assert forall line :: line in lines[1..] ==> line in lines;
      WeightBelow(fs, rank, lines[1..], bound);
    }
  }

  /** A pass that expands a directive lowers the weight by exactly one. */
  lemma StepWeight(lines: seq<string>, fs: FileSystem, rank: string -> nat)
    requires Acyclic(fs, rank)
    requires Step(lines, fs).Some?
    ensures Weight(fs, rank, Step(lines, fs).value) + 1 == Weight(fs, rank, lines)
  {
    var i := FirstIncludeLine(lines);
    var n := IncludeName(lines[i]).value;
    var inserted := ReadLines(fs, n);
    assert lines == lines[..i] + [lines[i]] + lines[i + 1..];
    WeightConcat(fs, rank, lines[..i] + [lines[i]], lines[i + 1..]);
    WeightConcat(fs, rank, lines[..i], [lines[i]]);
    WeightConcat(fs, rank, lines[..i] + inserted + [""], lines[i + 1..]);
    WeightConcat(fs, rank, lines[..i] + inserted, [""]);
    WeightConcat(fs, rank, lines[..i], inserted);
    assert !HasInclude("") by {
      assert !Contains("", INCLUDE_TOKEN);
    }
    assert Weight(fs, rank, [""]) == 0;
    assert Weight(fs, rank, [lines[i]]) == 1 + FileWeight(fs, rank, n);
    if n in fs {
      WeightBelow(fs, rank, fs[n], rank(n));
    }
  }

  /** The lines the loop ends with: passes repeated until one ends it. */
  ghost function Expanded(fs: FileSystem, rank: string -> nat, lines: seq<string>): seq<string>
    requires Acyclic(fs, rank)
    decreases Weight(fs, rank, lines)
  {
    match Step(lines, fs)
    case None => lines
    case Some(next) =>
      StepWeight(lines, fs, rank);
      Expanded(fs, rank, next)
  }

  /** When the loop ends, either no line contains `#include` or the first
      one that does is malformed. */
  lemma {:induction false} ExpandedIsFinal(fs: FileSystem, rank: string -> nat, lines: seq<string>)
    requires Acyclic(fs, rank)
    ensures var r, i := Expanded(fs, rank, lines), FirstIncludeLine(Expanded(fs, rank, lines));
      i == |r| || IncludeName(r[i]).None?
    decreases Weight(fs, rank, lines)
  {
    match Step(lines, fs)
    case None =>
    case Some(next) =>
      StepWeight(lines, fs, rank);
      ExpandedIsFinal(fs, rank, next);
  }

  /** The shader source: every line followed by a newline. */
  function JoinLines(lines: seq<string>): string {
    if lines == [] then "" else lines[0] + "\n" + JoinLines(lines[1..])
  }

  lemma {:induction false} JoinLinesSnoc(lines: seq<string>, line: string)
    ensures JoinLines(lines + [line]) == JoinLines(lines) + line + "\n"
  {
    if lines != [] {
      assert (lines + [line])[1..] == lines[1..] + [line];
      JoinLinesSnoc(lines[1..], line);
    }
  }

  /** Cut a source back into newline-terminated lines; a final fragment
      without a newline is a line of its own. */
  function SplitLines(s: string): seq<string>
    decreases |s|
  {
    if s == "" then []
    else
      var i := IndexOf(s, '\n');
      if i == |s| then [s] else [s[..i]] + SplitLines(s[i + 1..])
  }

  /** Joining loses nothing: lines without a newline of their own come back
      from the joined source unchanged. */
  lemma {:induction false} SplitJoin(lines: seq<string>)
    requires forall k :: 0 <= k < |lines| ==> '\n' !in lines[k]
    ensures SplitLines(JoinLines(lines)) == lines
  {
    if lines != [] {
      var s := JoinLines(lines);
      var head := lines[0];
      assert s == head + "\n" + JoinLines(lines[1..]);
      assert IndexOf(s, '\n') == |head| by {
        assert s[|head|] == '\n';
        forall j | 0 <= j < |head| ensures s[j] != '\n' {
          assert s[j] == head[j];
        }
        IndexOfFirst(s, '\n', |head|);
      }
      assert s[..|head|] == head;
      assert s[|head| + 1..] == JoinLines(lines[1..]);
      SplitJoin(lines[1..]);
    }
  }

  /** A position holding x with no x before it is where std::find stops. */
  lemma IndexOfFirst<T>(s: seq<T>, x: T, i: nat)
    requires i < |s| && s[i] == x
    requires forall j :: 0 <= j < i ==> s[j] != x
    ensures IndexOf(s, x) == i
  {
  }

  /** The characters after the last '/' of a path, or the whole path when
      it has none: substr(find_last_of("/") + 1), with npos + 1 == 0. */
  function BaseName(path: string): (name: string)
    ensures |name| <= |path| && name == path[|path| - |name|..]
    ensures '/' !in name
    ensures |name| < |path| ==> path[|path| - |name| - 1] == '/'
  {
    match LastIndexOf(path, '/')
    case None => path
    case Some(k) =>
      var name := path[k + 1..];
      assert forall j :: 0 <= j < |name| ==> name[j] == path[k + 1 + j];
      name
  }

  /** The for loop of loadShaderCode that looks for the first line holding
      `#include` and stops at it. */
  method FindIncludeLine(lines: seq<string>) returns (idx: nat)
    ensures idx == FirstIncludeLine(lines)
  {
    idx := 0;
    while idx < |lines|
      invariant 0 <= idx <= |lines|
      invariant forall j :: 0 <= j < idx ==> !HasInclude(lines[j])
    {
      if Contains(lines[idx], INCLUDE_TOKEN) {
        FirstIncludeLineAt(lines, idx);
        return;
      }
      idx := idx + 1;
    }
    FirstIncludeLineAt(lines, idx);
  }

  lemma {:induction false} FirstIncludeLineAt(lines: seq<string>, idx: nat)
    requires idx <= |lines| && (idx < |lines| ==> HasInclude(lines[idx]))
    requires forall j :: 0 <= j < idx ==> !HasInclude(lines[j])
    ensures FirstIncludeLine(lines) == idx
  {
    if lines != [] && idx > 0 {
      FirstIncludeLineAt(lines[1..], idx - 1);
    }
  }

  /** shaderCode.clear() followed by `shaderCode += line + "\n"` per line. */
  method BuildCode(lines: seq<string>) returns (code: string)
    ensures code == JoinLines(lines)
  {
    code := "";
    var i := 0;
    while i < |lines|
      invariant 0 <= i <= |lines|
      invariant code == JoinLines(lines[..i])
    {
      JoinLinesSnoc(lines[..i], lines[i]);
      assert lines[..i + 1] == lines[..i] + [lines[i]];
      code := code + lines[i] + "\n";
      i := i + 1;
    }
    assert lines[..i] == lines;
  }

  /** The body of an accepting pass: clear the directive line, then insert
      the included file's lines before it. */
  method ExpandDirective(lines: seq<string>, idx: nat, fs: FileSystem) returns (next: seq<string>)
    requires idx == FirstIncludeLine(lines) && idx < |lines| && IncludeName(lines[idx]).Some?
    ensures Step(lines, fs) == Some(next)
  {
    var fileName := IncludeName(lines[idx]).value;
    next := lines[idx := ""];
    var inserted := ReadLines(fs, fileName);
    next := next[..idx] + inserted + next[idx..];
    assert next == lines[..idx] + inserted + [""] + lines[idx + 1..] by {
      assert lines[idx := ""][idx..] == [""] + lines[idx + 1..];
      assert lines[idx := ""][..idx] == lines[..idx];
    }
  }

  /** The do-while of loadShaderCode: expand directives until a pass finds
      none to accept, rebuilding the source after every pass. */
  method ExpandIncludes(lines0: seq<string>, fs: FileSystem, ghost rank: string -> nat)
    returns (lines: seq<string>, code: string)
    requires Acyclic(fs, rank)
    ensures lines == Expanded(fs, rank, lines0)
    ensures FirstIncludeLine(lines) == |lines| || IncludeName(lines[FirstIncludeLine(lines)]).None?
    ensures code == JoinLines(lines)
  {
    lines := lines0;
    code := "";
    var found := true;
    while found
      invariant Expanded(fs, rank, lines) == Expanded(fs, rank, lines0)
      invariant !found ==> Step(lines, fs).None? && code == JoinLines(lines)
      decreases Weight(fs, rank, lines), found
    {
      var idx := FindIncludeLine(lines);
      found := idx < |lines| && IncludeName(lines[idx]).Some?;
      if found {
        StepWeight(lines, fs, rank);
        lines := ExpandDirective(lines, idx, fs);
      }
      code := BuildCode(lines);
    }
    ExpandedIsFinal(fs, rank, lines0);
  }

  class Shader {
    var handle: uint32
    /** _code is never assigned by loadShaderCode. */
    var code: string
    var shaderType: uint32
    var name: string
    /** Every call made to the device, in order. */
    ghost var calls: seq<DeviceCall>

    constructor ()
      ensures handle == HANDLE_INVALID && code == "" && shaderType == HANDLE_INVALID
      ensures name == "" && calls == []
    {
      handle := HANDLE_INVALID;
      code := "";
      shaderType := HANDLE_INVALID;
      name := "";
      calls := [];
    }

    /** Read the file, expand its includes, and create and compile a shader
        from the result; a shader that fails to compile is deleted.
        `createdHandle` stands for glCreateShader's result and `compiles`
        for the compile status the device reports. */
    method LoadShaderCode(file: string, shaderType': uint32, fs: FileSystem, ghost rank: string -> nat,
                          createdHandle: uint32, compiles: bool)
      requires Acyclic(fs, rank)
      modifies this`handle, this`shaderType, this`name, this`calls
      ensures handle == createdHandle && shaderType == shaderType'
      ensures name == BaseName(file)
      ensures calls == old(calls) +
        [GlCreateShader(shaderType'),
         GlShaderSource(createdHandle, JoinLines(Expanded(fs, rank, ReadLines(fs, file)))),
         GlCompileShader(createdHandle)] +
        (if compiles then [] else [GlDeleteShader(createdHandle)])
    {
      var lines0 := ReadLines(fs, file);
      var lines, source := ExpandIncludes(lines0, fs, rank);
      handle := createdHandle;
      shaderType := shaderType';
      calls := calls + [GlCreateShader(shaderType'), GlShaderSource(handle, source), GlCompileShader(handle)];
      if !compiles {
        calls := calls + [GlDeleteShader(handle)];
      }
      name := BaseName(file);
    }
  }
}
