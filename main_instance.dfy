/**
 * The pure parts of the process bootstrap: turning a script's (cwd, path)
 * pair into a path relative to the working directory, the return-code rules
 * of the virtual-filesystem callbacks and of the script hooks that call
 * them, and the launch argument vector and entry source of the runtime.
 */
module MainInstance {
  import opened Wrappers
  import opened Values

  /** `needle` occurs in `hay` starting at index `i`. */
  predicate OccursAt(hay: string, needle: string, i: nat) {
    i + |needle| <= |hay| && hay[i..i + |needle|] == needle
  }

  ghost predicate Contains(hay: string, needle: string) {
    exists i: nat :: OccursAt(hay, needle, i)
  }

  /** `i` is where the first occurrence of `needle` in `hay` starts. */
  ghost predicate FirstOccurrence(hay: string, needle: string, i: nat) {
    OccursAt(hay, needle, i) && forall j: nat :: j < i ==> !OccursAt(hay, needle, j)
  }

  /** Dropping the first character of `hay` shifts every occurrence left by one. */
  lemma OccursShift(hay: string, needle: string, j: nat)
    requires |hay| > 0
    ensures OccursAt(hay[1..], needle, j) <==> OccursAt(hay, needle, j + 1)
  {
    if j + 1 + |needle| <= |hay| {
      assert hay[1..][j..j + |needle|] == hay[j + 1..j + 1 + |needle|];
    }
  }

  /**
   * `strstr`: the start of the first occurrence of `needle` anywhere in
   * `hay` (an empty needle occurs at 0), or none.
   */
  function StrStr(hay: CString, needle: CString): (r: Option<nat>)
    ensures r.Some? ==> FirstOccurrence(hay, needle, r.value)
    ensures r.None? <==> !Contains(hay, needle)
    decreases |hay|
  {
    if |needle| > |hay| then None
    else if hay[..|needle|] == needle then
      assert OccursAt(hay, needle, 0);
      Some(0)
    else
      assert !OccursAt(hay, needle, 0);
      match StrStr(hay[1..], needle)
      case None =>
        assert !Contains(hay, needle) by {
          forall i: nat ensures !OccursAt(hay, needle, i) {
            if i > 0 {
              OccursShift(hay, needle, i - 1);
            }
          }
        }
        None
      case Some(k) =>
        assert FirstOccurrence(hay, needle, k + 1) by {
          OccursShift(hay, needle, k);
          forall j: nat | j < k + 1 ensures !OccursAt(hay, needle, j) {
            if j > 0 {
              OccursShift(hay, needle, j - 1);
            }
          }
        }
        Some(k + 1)
  }

  /** What a native callback hands back to the script that called it. */
  datatype ReturnValue = Undefined | IntValue(n: int) | StrValue(s: string)

  /** How the script hooks test a callback's answer (`resolved || ...`). */
  predicate Truthy(v: ReturnValue) {
    match v
    case Undefined => false
    case IntValue(n) => n != 0
    case StrValue(s) => s != ""
  }

  /**
   * The outcome of `argToRelPath`: its return code, the relative path and
   * the full path it writes to its out-parameters (which its callers pass
   * in empty), and the return value it sets for the script.
   */
  datatype RelPathOutcome = RelPathOutcome(rc: int, relpath: string, argPath: string, returnValue: ReturnValue)

  predicate BothStrings(info: seq<ScriptArg>) {
    |info| >= 2 && info[0].JsString? && info[1].JsString?
  }

  /**
   * The relative path of `path` under `cwd`: what follows the first
   * occurrence of `cwd` anywhere in `path`, or none when it does not occur.
   */
  function RelativeTo(path: CString, cwd: CString): (r: Option<string>)
    ensures r.None? <==> !Contains(path, cwd)
    ensures r.Some? ==>
              && |r.value| + |cwd| <= |path|
              && path[|path| - |r.value|..] == r.value
              && FirstOccurrence(path, cwd, |path| - |r.value| - |cwd|)
  {
    match StrStr(path, cwd)
    case None => None
    case Some(k) => Some(path[k + |cwd|..])
  }

  /**
   * `argToRelPath(cwd, path)`: fails with -1 (also handed to the script)
   * unless both arguments are strings and `cwd` occurs somewhere in `path`;
   * otherwise the relative path is what follows the first occurrence.  The
   * full path is written whenever it is asked for and both are strings.
   */
  function ArgToRelPath(info: seq<ScriptArg>, wantArgPath: bool): (r: RelPathOutcome)
    ensures r.rc == 0 || r.rc == -1
    ensures r.rc == -1 <==> !BothStrings(info) || !Contains(CStr(info[1].s), CStr(info[0].s))
    ensures r.rc == -1 ==> r.returnValue == IntValue(-1) && r.relpath == ""
    ensures r.rc == 0 ==>
              && r.returnValue == Undefined
              && RelativeTo(CStr(info[1].s), CStr(info[0].s)) == Some(r.relpath)
    ensures r.argPath == if wantArgPath && BothStrings(info) then CStr(info[1].s) else ""
  {
    if |info| < 2 then RelPathOutcome(-1, "", "", IntValue(-1))
    else if !info[0].JsString? || !info[1].JsString? then RelPathOutcome(-1, "", "", IntValue(-1))
    else
      var cwd, path := CStr(info[0].s), CStr(info[1].s);
      var argPath := if wantArgPath then path else "";
      match RelativeTo(path, cwd)
      case None => RelPathOutcome(-1, "", argPath, IntValue(-1))
      case Some(rel) => RelPathOutcome(0, rel, argPath, Undefined)
  }

  /**
   * A path spelled as the working directory followed by `rel` resolves, and
   * its relative path is exactly `rel`.
   */
  lemma {:induction false} ArgToRelPathUnderCwd(cwd: CString, rel: CString, wantArgPath: bool)
    ensures NoNul(cwd + rel)
    ensures var r := ArgToRelPath([JsString(cwd), JsString(cwd + rel)], wantArgPath);
            r.rc == 0 && r.relpath == rel && r.returnValue == Undefined
  {
    assert forall i :: 0 <= i < |cwd + rel| ==> (cwd + rel)[i] != '\0' by {
      forall i | 0 <= i < |cwd + rel| ensures (cwd + rel)[i] != '\0' {
        if i >= |cwd| {
          assert (cwd + rel)[i] == rel[i - |cwd|];
        }
      }
    }
    var path: CString := cwd + rel;
    CStrOfCString(cwd);
    CStrOfCString(path);
    assert path[..|cwd|] == cwd;
    assert StrStr(path, cwd) == Some(0);
    assert path[|cwd|..] == rel;
  }

  /**
   * The virtual-filesystem handler the host installs: `stat` of a relative
   * path, `realpath` of (full path, relative path) giving a return code and
   * a resolved path, and `readFile` of a relative path giving a return code
   * and what it wrote to its string writer, if anything.
   */
  datatype VfsHandler = VfsHandler(
    stat: string -> int,
    realpath: (string, string) -> (int, string),
    readFile: string -> (int, Option<string>))

  /** The VFS handler is consulted: one is installed and `cwd` occurs in `path`. */
  ghost predicate VfsConsulted(cwd: string, path: ScriptArg, vfs: Option<VfsHandler>) {
    vfs.Some? && path.JsString? && Contains(CStr(path.s), CStr(cwd))
  }

  /**
   * `vfs_internalModuleStat`: -1 when the arguments do not resolve or no
   * handler is installed, otherwise the handler's `stat` of the relative path.
   */
  function InternalModuleStat(info: seq<ScriptArg>, vfs: Option<VfsHandler>): (r: ReturnValue)
    ensures r.IntValue?
    ensures ArgToRelPath(info, false).rc != 0 || vfs.None? ==> r == IntValue(-1)
    ensures ArgToRelPath(info, false).rc == 0 && vfs.Some? ==>
              r == IntValue(vfs.value.stat(ArgToRelPath(info, false).relpath))
  {
    var a := ArgToRelPath(info, false);
    if a.rc < 0 then a.returnValue
    else if vfs.Some? then IntValue(vfs.value.stat(a.relpath))
    else IntValue(-1)
  }

  /**
   * The hooked `internalModuleStat(path)`: the VFS answer when it is not
   * negative, otherwise the original function's.
   */
  function InternalModuleStatHook(cwd: string, path: ScriptArg, vfs: Option<VfsHandler>,
                                  orig: ScriptArg -> int): (r: int)
    ensures !VfsConsulted(cwd, path, vfs) ==> r == orig(path)
    ensures r != orig(path) ==> r >= 0
    ensures VfsConsulted(cwd, path, vfs) ==>
              var n := vfs.value.stat(ArgToRelPath([JsString(cwd), path], false).relpath);
              r == if n >= 0 then n else orig(path)
  {
    match InternalModuleStat([JsString(cwd), path], vfs)
    case IntValue(n) => if n >= 0 then n else orig(path)
    case _ => orig(path)
  }

  /**
   * `vfs_realpathSync` as written: when the arguments do not resolve, the
   * -1 that `argToRelPath` set is what the script gets; otherwise a string
   * only when a handler is installed and its return code is not negative.
   */
  function RealpathSync(info: seq<ScriptArg>, vfs: Option<VfsHandler>): (r: ReturnValue)
    ensures ArgToRelPath(info, true).rc != 0 ==> r == IntValue(-1)
    ensures ArgToRelPath(info, true).rc == 0 ==> !r.IntValue?
    ensures r.StrValue? <==>
              var a := ArgToRelPath(info, true);
              a.rc == 0 && vfs.Some? && vfs.value.realpath(a.argPath, a.relpath).0 >= 0
    ensures r.StrValue? ==>
              var a := ArgToRelPath(info, true);
              vfs.Some? && r.s == vfs.value.realpath(a.argPath, a.relpath).1
  {
    var a := ArgToRelPath(info, true);
    if a.rc < 0 then a.returnValue
    else RealpathAnswer(a, vfs)
  }

  /** What `vfs_realpathSync` hands back once the arguments have resolved. */
  function RealpathAnswer(a: RelPathOutcome, vfs: Option<VfsHandler>): (r: ReturnValue)
    ensures !r.IntValue?
    ensures r.StrValue? <==> vfs.Some? && vfs.value.realpath(a.argPath, a.relpath).0 >= 0
    ensures r.StrValue? ==> vfs.Some? && r.s == vfs.value.realpath(a.argPath, a.relpath).1
  {
    if vfs.None? then Undefined
    else
      var (rc, retval) := vfs.value.realpath(a.argPath, a.relpath);
      if rc >= 0 then StrValue(retval) else Undefined
  }

  /**
   * `vfs_realpathSync` as evidently intended: when the arguments do not
   * resolve it hands back nothing, so the hook falls back.
   */
  function RealpathSyncCorrected(info: seq<ScriptArg>, vfs: Option<VfsHandler>): (r: ReturnValue)
    ensures !r.IntValue?
    ensures r.StrValue? <==>
              var a := ArgToRelPath(info, true);
              a.rc == 0 && vfs.Some? && vfs.value.realpath(a.argPath, a.relpath).0 >= 0
    ensures r.StrValue? ==>
              var a := ArgToRelPath(info, true);
              vfs.Some? && r.s == vfs.value.realpath(a.argPath, a.relpath).1
  {
    var a := ArgToRelPath(info, true);
    if a.rc < 0 then Undefined
    else RealpathAnswer(a, vfs)
  }

  /**
   * The hooked `fs.realpathSync(path, options)` over the callback as
   * written: -1 whenever the arguments do not resolve, and otherwise the
   * same answer as over the corrected callback.
   */
  function RealpathHookAsWritten(cwd: string, path: ScriptArg, options: ScriptArg,
                                 vfs: Option<VfsHandler>, orig: ScriptArg -> ReturnValue): (r: ReturnValue)
    ensures ArgToRelPath([JsString(cwd), path, options], true).rc != 0 ==> r == IntValue(-1)
    ensures ArgToRelPath([JsString(cwd), path, options], true).rc == 0 ==>
              r == RealpathHook(cwd, path, options, vfs, orig)
  {
    var resolved := RealpathSync([JsString(cwd), path, options], vfs);
    if Truthy(resolved) then resolved else orig(path)
  }

  /**
   * The hooked `fs.realpathSync(path, options)` over the corrected callback:
   * it asks the original function whenever the VFS is not consulted or does
   * not resolve the path, and otherwise answers the resolved path.
   */
  function RealpathHook(cwd: string, path: ScriptArg, options: ScriptArg,
                        vfs: Option<VfsHandler>, orig: ScriptArg -> ReturnValue): (r: ReturnValue)
    ensures !VfsConsulted(cwd, path, vfs) ==> r == orig(path)
    ensures r != orig(path) ==> VfsConsulted(cwd, path, vfs) && r.StrValue? && r.s != ""
    ensures VfsConsulted(cwd, path, vfs) ==>
              var a := ArgToRelPath([JsString(cwd), path, options], true);
              var (rc, resolved) := vfs.value.realpath(a.argPath, a.relpath);
              r == if rc >= 0 && resolved != "" then StrValue(resolved) else orig(path)
  {
    var resolved := RealpathSyncCorrected([JsString(cwd), path, options], vfs);
    if Truthy(resolved) then resolved else orig(path)
  }

  /**
   * As written, a path outside the working directory makes the hooked
   * `realpathSync` answer -1 instead of asking the original function.
   */
  lemma RealpathHookLeaksMinusOne(options: ScriptArg, vfs: Option<VfsHandler>, orig: ScriptArg -> ReturnValue)
    ensures !VfsConsulted("/srv/app", JsString("/m.js"), vfs)
    ensures RealpathHookAsWritten("/srv/app", JsString("/m.js"), options, vfs, orig) == IntValue(-1)
  {
    CwdLiteral();
    PathLiteral();
    NotContainedOutsideCwd();
    var info := [JsString("/srv/app"), JsString("/m.js"), options];
    assert CStr(info[1].s) == "/m.js" && CStr(info[0].s) == "/srv/app";
    assert ArgToRelPath(info, true).rc == -1;
    assert RealpathSync(info, vfs) == IntValue(-1);
  }

  lemma CwdLiteral()
    ensures CStr("/srv/app") == "/srv/app"
  {
    CStrOfCString("/srv/app");
  }

  lemma PathLiteral()
    ensures CStr("/m.js") == "/m.js"
  {
    CStrOfCString("/m.js");
  }

  lemma NotContainedOutsideCwd()
    ensures !Contains("/m.js", "/srv/app")
  {
    forall i: nat ensures !OccursAt("/m.js", "/srv/app", i) {
    }
  }

  /**
   * `vfs_readFileSync` as written: when the arguments do not resolve, the -1
   * that `argToRelPath` set is what the script gets; otherwise whatever the
   * handler wrote (its return code is not looked at).
   */
  function ReadFileSync(info: seq<ScriptArg>, vfs: Option<VfsHandler>): (r: ReturnValue)
    ensures ArgToRelPath(info, false).rc != 0 ==> r == IntValue(-1)
    ensures ArgToRelPath(info, false).rc == 0 ==> !r.IntValue?
    ensures r.StrValue? <==>
              var a := ArgToRelPath(info, false);
              a.rc == 0 && vfs.Some? && vfs.value.readFile(a.relpath).1.Some?
    ensures r.StrValue? ==> vfs.Some? && vfs.value.readFile(ArgToRelPath(info, false).relpath).1 == Some(r.s)
  {
    var a := ArgToRelPath(info, false);
    if a.rc < 0 then a.returnValue
    else ReadFileAnswer(a, vfs)
  }

  /** What `vfs_readFileSync` hands back once the arguments have resolved. */
  function ReadFileAnswer(a: RelPathOutcome, vfs: Option<VfsHandler>): (r: ReturnValue)
    ensures !r.IntValue?
    ensures r.StrValue? <==> vfs.Some? && vfs.value.readFile(a.relpath).1.Some?
    ensures r.StrValue? ==> vfs.Some? && vfs.value.readFile(a.relpath).1 == Some(r.s)
  {
    if vfs.None? then Undefined
    else
      match vfs.value.readFile(a.relpath).1
      case Some(data) => StrValue(data)
      case None => Undefined
  }

  /** `vfs_readFileSync` as evidently intended: nothing when the arguments do not resolve. */
  function ReadFileSyncCorrected(info: seq<ScriptArg>, vfs: Option<VfsHandler>): (r: ReturnValue)
    ensures !r.IntValue?
    ensures r.StrValue? <==>
              var a := ArgToRelPath(info, false);
              a.rc == 0 && vfs.Some? && vfs.value.readFile(a.relpath).1.Some?
    ensures r.StrValue? ==> vfs.Some? && vfs.value.readFile(ArgToRelPath(info, false).relpath).1 == Some(r.s)
  {
    var a := ArgToRelPath(info, false);
    if a.rc < 0 then Undefined
    else ReadFileAnswer(a, vfs)
  }

  /**
   * The hooked `fs.readFileSync(path, options)` (and `internalModuleReadJSON`,
   * which asks the same callback) over the callback as written: -1 whenever
   * the arguments do not resolve, and otherwise the same answer as over the
   * corrected callback.
   */
  function ReadFileHookAsWritten(cwd: string, path: ScriptArg, vfs: Option<VfsHandler>,
                                 orig: ScriptArg -> ReturnValue): (r: ReturnValue)
    ensures ArgToRelPath([JsString(cwd), path], false).rc != 0 ==> r == IntValue(-1)
    ensures ArgToRelPath([JsString(cwd), path], false).rc == 0 ==> r == ReadFileHook(cwd, path, vfs, orig)
  {
    var resolved := ReadFileSync([JsString(cwd), path], vfs);
    if Truthy(resolved) then resolved else orig(path)
  }

  /**
   * The hooked `fs.readFileSync(path, options)` over the corrected callback:
   * it asks the original function whenever the VFS is not consulted or
   * wrote nothing, and otherwise answers what the VFS wrote.
   */
  function ReadFileHook(cwd: string, path: ScriptArg, vfs: Option<VfsHandler>,
                        orig: ScriptArg -> ReturnValue): (r: ReturnValue)
    ensures !VfsConsulted(cwd, path, vfs) ==> r == orig(path)
    ensures r != orig(path) ==> VfsConsulted(cwd, path, vfs) && r.StrValue? && r.s != ""
    ensures VfsConsulted(cwd, path, vfs) ==>
              var data := vfs.value.readFile(ArgToRelPath([JsString(cwd), path], false).relpath).1;
              r == if data.Some? && data.value != "" then StrValue(data.value) else orig(path)
  {
    var resolved := ReadFileSyncCorrected([JsString(cwd), path], vfs);
    if Truthy(resolved) then resolved else orig(path)
  }

  /**
   * As written, reading a file given by descriptor (a non-string path) makes
   * the hooked `readFileSync` answer -1 instead of the file's contents.
   */
  lemma ReadFileHookLeaksMinusOne(fd: Value, vfs: Option<VfsHandler>, orig: ScriptArg -> ReturnValue)
    ensures !VfsConsulted("/srv/app", JsOther(fd), vfs)
    ensures ReadFileHookAsWritten("/srv/app", JsOther(fd), vfs, orig) == IntValue(-1)
  {
  }

  /** A `char*` slot of the launch argument vector. */
  datatype CArg = NullPtr | Ptr(s: CString)

  /** `argv[0]`; when `argc` is 0 it is the terminating null pointer. */
  function Argv0(argv: seq<CString>): CArg {
    if argv == [] then NullPtr else Ptr(argv[0])
  }

  function Tail(argv: seq<CString>): seq<CString> {
    if argv == [] then [] else argv[1..]
  }

  /** Each string of `s` as an argument slot, in order. */
  function Ptrs(s: seq<CString>): (r: seq<CArg>)
    ensures |r| == |s|
    ensures forall i :: 0 <= i < |s| ==> r[i] == Ptr(s[i])
  {
    if s == [] then [] else [Ptr(s[0])] + Ptrs(s[1..])
  }

  /**
   * Concatenation regrouped; stated apart so that the argument-vector loop
   * does not have to rediscover it among its other facts.
   */
  lemma AppendAssoc<T>(a: seq<T>, b: seq<T>, c: seq<T>)
    ensures a + b + c == a + (b + c)
  {
  }

  /** Extending a prefix of `s` by one string extends its slots by one. */
  lemma PtrsPrefixStep(s: seq<CString>, j: nat)
    requires j < |s|
    ensures Ptrs(s[..j + 1]) == Ptrs(s[..j]) + [Ptr(s[j])]
  {
    var a, b := Ptrs(s[..j + 1]), Ptrs(s[..j]) + [Ptr(s[j])];
    assert |a| == |b|;
    forall k | 0 <= k < |a| ensures a[k] == b[k] {
    }
  }

  /**
   * The vector the runtime is launched with: the program name, `-e`, a slot
   * for the entry source, then the program's own arguments after the first.
   */
  function LaunchArguments(argv: seq<CString>): (r: seq<CArg>)
    ensures |r| == if argv == [] then 3 else |argv| + 2
    ensures r[0] == Argv0(argv) && r[1] == Ptr("-e") && r[2] == NullPtr
    ensures forall i :: 3 <= i < |r| ==> r[i] == Ptr(argv[i - 2])
  {
    [Argv0(argv), Ptr("-e"), NullPtr] + Ptrs(Tail(argv))
  }

  const RequireHead := "require(\"./"
  const RequireTail := "\");"
  const DefaultEntry: CString := "index"

  /**
   * The source the runtime evaluates: the bootstrap `prelude` that installs
   * the VFS hooks, then a `require` of the entry file, `index` by default.
   */
  function EntrySource(prelude: string, entryFile: Option<CString>): (src: string)
    ensures |src| == |prelude| + |RequireHead| + |entryFile.GetOr(DefaultEntry)| + |RequireTail|
    ensures src[..|prelude|] == prelude
    ensures var n := |src| - |RequireTail|;
            src[n..] == RequireTail && src[|prelude| + |RequireHead|..n] == entryFile.GetOr(DefaultEntry)
    ensures src[|prelude|..|prelude| + |RequireHead|] == RequireHead
  {
    prelude + RequireHead + entryFile.GetOr(DefaultEntry) + RequireTail
  }

  /** The per-run environment's launch arguments and entry source. */
  class RunEnvironment {
    var arguments: seq<CArg>
    var entrypointSrc: string

    constructor ()
      ensures arguments == [] && entrypointSrc == ""
    {
      arguments := [];
      entrypointSrc := "";
    }

    /** Push the launch argument vector of `argv` (`argc` is `|argv|`). */
    method InitializeArguments(argv: seq<CString>)
      modifies this`arguments
      ensures arguments == old(arguments) + LaunchArguments(argv)
    {
      var head := [Argv0(argv), Ptr("-e"), NullPtr];
      var rest := Tail(argv);
      arguments := arguments + head;
      var i := 1;
      while i < |argv|
        invariant 1 <= i <= |rest| + 1
        invariant arguments == old(arguments) + head + Ptrs(rest[..i - 1])
      {
        assert rest[i - 1] == argv[i];
        PtrsPrefixStep(rest, i - 1);
        arguments := arguments + [Ptr(argv[i])];
        i := i + 1;
      }
      assert rest[..i - 1] == rest;
      assert LaunchArguments(argv) == head + Ptrs(rest);
      AppendAssoc(old(arguments), head, Ptrs(rest));
    }

    /**
     * Append the entry source and point slot 2 of the launch vector at it
     * (read as a C string).
     */
    method ComposeEntry(prelude: string, entryFile: Option<CString>)
      requires |arguments| >= 3
      modifies this
      ensures entrypointSrc == old(entrypointSrc) + EntrySource(prelude, entryFile)
      ensures arguments == old(arguments)[2 := Ptr(CStr(entrypointSrc))]
    {
      ghost var o := entrypointSrc;
      var name := entryFile.GetOr(DefaultEntry);
      entrypointSrc := entrypointSrc + (prelude + RequireHead);
      entrypointSrc := entrypointSrc + name;
      entrypointSrc := entrypointSrc + RequireTail;
      assert o + (prelude + RequireHead) + name == o + (prelude + RequireHead + name);
      assert o + (prelude + RequireHead + name) + RequireTail == o + (prelude + RequireHead + name + RequireTail);
      arguments := arguments[2 := Ptr(CStr(entrypointSrc))];
    }
  }
}
