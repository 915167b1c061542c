/** `update_environment` and `build_child_argv` (Mypintool/source/launcher/os_specific_l.c). */
module PinEnvironment {
  import CStrings
  import opened Optional

  /** A `char*`: null, a block of the heap, or a string that is not the launcher's to free. */
  datatype Str = Null | Block(id: int) | Text(text: string)

  // ----- what the environment becomes -----

  function Lookup(env: map<string, string>, name: string): Option<string> {
    if name in env then Some(env[name]) else None
  }

  function OrEmpty(o: Option<string>): string {
    if o.Some? then o.value else ""
  }

  function Arch(wide: bool): string { if wide then "intel64" else "ia32" }

  function Under(dir: string, name: string): string { dir + "/" + name }
  function After(first: string, rest: string): string { first + ":" + rest }

  function Libs(base: string, wide: bool): string { Under(Under(base, Arch(wide)), "lib") }
  function PinCrt(base: string, wide: bool): string { Under(Under(Under(base, Arch(wide)), "runtime"), "pincrt") }
  function XedArch(wide: bool): string { if wide then "xed-intel64" else "xed-ia32" }
  function Xed(base: string, wide: bool): string { Under(Under(Under(base, "extras"), XedArch(wide)), "lib") }

  function VmName(wide: bool): string { if wide then "PIN_VM64_LD_LIBRARY_PATH" else "PIN_VM32_LD_LIBRARY_PATH" }
  function InjectorName(wide: bool): string {
    if wide then "PIN_INJECTOR64_LD_LIBRARY_PATH" else "PIN_INJECTOR32_LD_LIBRARY_PATH"
  }

  /** Each library path is a fixed prefix followed by what the variable held before. */
  function VmPath(env: map<string, string>, base: string, wide: bool): string {
    After(PinCrt(base, wide), After(Libs(base, wide), After(Xed(base, wide), OrEmpty(Lookup(env, VmName(wide))))))
  }

  function InjectorPath(env: map<string, string>, base: string, wide: bool): string {
    After(PinCrt(base, wide), After(Xed(base, wide), OrEmpty(Lookup(env, InjectorName(wide)))))
  }

  const MOVED := ["LD_ASSUME_KERNEL", "LD_BIND_NOW", "LD_PRELOAD"]

  /** The value of every variable afterwards. */
  function FinalValue(env: map<string, string>, base: string, wide: bool, name: string): Option<string> {
    if name == VmName(false) then Some(VmPath(env, base, false))
    else if name == VmName(true) then Some(VmPath(env, base, true))
    else if name == InjectorName(false) then Some(InjectorPath(env, base, false))
    else if name == InjectorName(true) then Some(InjectorPath(env, base, true))
    else if name == "PIN_LD_RESTORE_REQUIRED" then Some("t")
    else if name == "PIN_APP_LD_LIBRARY_PATH" && "LD_LIBRARY_PATH" in env then Some(env["LD_LIBRARY_PATH"])
    else if name == "LD_LIBRARY_PATH" then Some(InjectorPath(env, base, wide))
    else if name == "PIN_APP_LD_ASSUME_KERNEL" && "LD_ASSUME_KERNEL" in env then Some(env["LD_ASSUME_KERNEL"])
    else if name == "PIN_APP_LD_BIND_NOW" && "LD_BIND_NOW" in env then Some(env["LD_BIND_NOW"])
    else if name == "PIN_APP_LD_PRELOAD" && "LD_PRELOAD" in env then Some(env["LD_PRELOAD"])
    else if name in MOVED then None
    else Lookup(env, name)
  }

  predicate Counts(s: string) { 0 < |s| <= CStrings.PATH_MAX_SIZE }

  /**
   What `get_strlen` asserts, and does not truncate: every string that is measured on the way is not empty
   and not too long. It measures the old values when they are set, and all paths but the finished ones.
   */
  predicate Fits(env: map<string, string>, base: string) {
    && Counts(base)
    && (forall wide :: Counts(PinCrt(base, wide)))
    && (forall wide :: Counts(After(Libs(base, wide), After(Xed(base, wide), OrEmpty(Lookup(env, VmName(wide)))))))
    && (forall wide :: Counts(After(Xed(base, wide), OrEmpty(Lookup(env, InjectorName(wide))))))
    && (forall wide :: VmName(wide) in env ==> Counts(env[VmName(wide)]))
    && (forall wide :: InjectorName(wide) in env ==> Counts(env[InjectorName(wide)]))
  }

  lemma PartsCount(dir: string, name: string)
    requires Counts(Under(dir, name)) || Counts(After(dir, name))
    requires dir != ""
    ensures Counts(dir)
    ensures name != "" ==> Counts(name)
  {
  }

  lemma UnderNotEmpty(dir: string, name: string)
    ensures Under(dir, name) != "" && After(dir, name) != ""
  {
  }

  /** So every string on the way can be measured. */
  lemma PathsCount(env: map<string, string>, base: string, wide: bool)
    requires Fits(env, base)
    ensures Counts(base) && Counts(Under(base, "extras")) && Counts(Under(Under(base, "extras"), XedArch(wide)))
    ensures Counts(Xed(base, wide))
    ensures Counts(Under(base, Arch(wide))) && Counts(Under(Under(base, Arch(wide)), "runtime"))
    ensures Counts(PinCrt(base, wide))
    ensures Counts(Libs(base, wide))
    ensures Counts(After(Xed(base, wide), OrEmpty(Lookup(env, VmName(wide)))))
    ensures Counts(After(Libs(base, wide), After(Xed(base, wide), OrEmpty(Lookup(env, VmName(wide))))))
    ensures Counts(After(Xed(base, wide), OrEmpty(Lookup(env, InjectorName(wide)))))
  {
    hide Under, After;
    var old1 := OrEmpty(Lookup(env, VmName(wide)));
    assert Counts(PinCrt(base, wide));
    UnderNotEmpty(base, "extras");
    UnderNotEmpty(Under(base, "extras"), XedArch(wide));
    UnderNotEmpty(Under(Under(base, "extras"), XedArch(wide)), "lib");
    UnderNotEmpty(base, Arch(wide));
    UnderNotEmpty(Under(base, Arch(wide)), "runtime");
    UnderNotEmpty(Under(base, Arch(wide)), "lib");
    UnderNotEmpty(Xed(base, wide), old1);
    PartsCount(Libs(base, wide), After(Xed(base, wide), old1));
    PartsCount(Xed(base, wide), old1);
    PartsCount(Under(Under(base, "extras"), XedArch(wide)), "lib");
    PartsCount(Under(base, "extras"), XedArch(wide));
    PartsCount(Under(Under(base, Arch(wide)), "runtime"), "pincrt");
    PartsCount(Under(base, Arch(wide)), "runtime");
  }

  // ----- the process -----

  function Pinbin(wide: bool): string { if wide then "intel64/bin/pinbin" else "ia32/bin/pinbin" }

  lemma PinbinSpelledOut(base: string, wide: bool)
    ensures Under(base, Pinbin(wide)) == base + (if wide then "/intel64/bin/pinbin" else "/ia32/bin/pinbin")
  {
    if wide {
      assert "/" + "intel64/bin/pinbin" == "/intel64/bin/pinbin";
    } else {
      assert "/" + "ia32/bin/pinbin" == "/ia32/bin/pinbin";
    }
  }

  /** What `pin_*_ld_library_path_extlibs` holds. */
  function VmList(env: map<string, string>, base: string, wide: bool): string {
    After(Libs(base, wide), After(Xed(base, wide), OrEmpty(Lookup(env, VmName(wide)))))
  }

  lemma VmListCounts(env: map<string, string>, base: string, wide: bool)
    requires Fits(env, base)
    ensures Counts(VmList(env, base, wide))
    ensures VmPath(env, base, wide) == After(PinCrt(base, wide), VmList(env, base, wide))
  {
  }

  function InjectorTail(env: map<string, string>, base: string, wide: bool): string {
    After(Xed(base, wide), OrEmpty(Lookup(env, InjectorName(wide))))
  }

  lemma InjectorCounts(env: map<string, string>, base: string, wide: bool)
    requires Fits(env, base)
    ensures Counts(InjectorTail(env, base, wide)) && Counts(PinCrt(base, wide)) && Counts(Xed(base, wide))
    ensures InjectorTail(env, base, wide) == After(Xed(base, wide), OrEmpty(Lookup(env, InjectorName(wide))))
    ensures InjectorPath(env, base, wide) == After(PinCrt(base, wide), InjectorTail(env, base, wide))
  {
    PathsCount(env, base, wide);
  }

  function TextOf(s: Str, blocks: map<int, string>): string {
    match s
    case Null => ""
    case Block(id) => if id in blocks then blocks[id] else ""
    case Text(t) => t
  }

  /** `get_strlen` accepts the string, and it is not a block that has been freed. */
  predicate Fit(s: Str, blocks: map<int, string>) {
    && (s.Block? ==> s.id in blocks)
    && (s != Null ==> 0 < |TextOf(s, blocks)| <= CStrings.PATH_MAX_SIZE)
  }

  lemma OldInjectorFits(env: map<string, string>, base: string, wide: bool, old1: Str)
    requires Fits(env, base)
    requires old1 == if InjectorName(wide) in env then Text(env[InjectorName(wide)]) else Null
    ensures forall blocks {:trigger Fit(old1, blocks)} :: Fit(old1, blocks)
    ensures forall blocks {:trigger TextOf(old1, blocks)} ::
        TextOf(old1, blocks) == OrEmpty(Lookup(env, InjectorName(wide)))
  {
  }

  function SetVm(env: map<string, string>, base: string): map<string, string> {
    env[VmName(false) := VmPath(env, base, false)][VmName(true) := VmPath(env, base, true)]
  }

  /** The saved copy and the new value of `LD_LIBRARY_PATH`. */
  function SetLibraryPath(env: map<string, string>, path: string): map<string, string> {
    (if "LD_LIBRARY_PATH" in env then env["PIN_APP_LD_LIBRARY_PATH" := env["LD_LIBRARY_PATH"]]
      else env)["LD_LIBRARY_PATH" := path]
  }

  function PathsSet(env: map<string, string>, base: string, wide: bool): map<string, string> {
    var vm := SetVm(env, base);
    SetLibraryPath(vm[InjectorName(false) := InjectorPath(vm, base, false)]
      [InjectorName(true) := InjectorPath(vm, base, true)]
      ["PIN_LD_RESTORE_REQUIRED" := "t"], InjectorPath(vm, base, wide))
  }

  function Moved(env: map<string, string>, name: string, saved: string): map<string, string> {
    if name in env then env[saved := env[name]] - {name} else env
  }

  /** Setting the VM paths does not touch the injector variables. */
  lemma InjectorUntouched(env: map<string, string>, base: string, wide: bool)
    ensures Lookup(SetVm(env, base), InjectorName(wide)) == Lookup(env, InjectorName(wide))
    ensures InjectorPath(SetVm(env, base), base, wide) == InjectorPath(env, base, wide)
    ensures InjectorTail(SetVm(env, base), base, wide) == InjectorTail(env, base, wide)
  {
    hide VmPath, Xed, After;
    assert InjectorName(wide)[4] == 'I' && VmName(false)[4] == 'V' && VmName(true)[4] == 'V';
  }

  lemma NamesDiffer()
    ensures VmName(false) != VmName(true) && InjectorName(false) != InjectorName(true)
    ensures forall a, b :: VmName(a) != InjectorName(b)
    ensures forall a :: |VmName(a)| == 24 && |InjectorName(a)| == 30
    ensures forall a :: VmName(a)[0] == 'P' && InjectorName(a)[0] == 'P'
  {
    assert VmName(false)[6] != VmName(true)[6];
    assert InjectorName(false)[12] != InjectorName(true)[12];
  }

  /** The value of a variable before the last three are moved. */
  function PathsValue(env: map<string, string>, base: string, wide: bool, name: string): Option<string> {
    if name == VmName(false) then Some(VmPath(env, base, false))
    else if name == VmName(true) then Some(VmPath(env, base, true))
    else if name == InjectorName(false) then Some(InjectorPath(env, base, false))
    else if name == InjectorName(true) then Some(InjectorPath(env, base, true))
    else if name == "PIN_LD_RESTORE_REQUIRED" then Some("t")
    else if name == "PIN_APP_LD_LIBRARY_PATH" && "LD_LIBRARY_PATH" in env then Some(env["LD_LIBRARY_PATH"])
    else if name == "LD_LIBRARY_PATH" then Some(InjectorPath(env, base, wide))
    else Lookup(env, name)
  }

  lemma PathsSetIs(env: map<string, string>, base: string, wide: bool, name: string)
    ensures Lookup(PathsSet(env, base, wide), name) == PathsValue(env, base, wide, name)
  {
    hide VmPath, InjectorPath, VmName, InjectorName;
    NamesDiffer();
    InjectorUntouched(env, base, false);
    InjectorUntouched(env, base, true);
    assert |"LD_LIBRARY_PATH"| == 15 && |"PIN_LD_RESTORE_REQUIRED"| == 23 && |"PIN_APP_LD_LIBRARY_PATH"| == 23;
    assert "PIN_LD_RESTORE_REQUIRED"[4] != "PIN_APP_LD_LIBRARY_PATH"[4];
  }

  lemma MovedIs(env: map<string, string>, name: string, saved: string, x: string)
    requires name != saved
    ensures Lookup(Moved(env, name, saved), x) ==
      if x == saved && name in env then Lookup(env, name) else if x == name then None else Lookup(env, x)
  {
  }

  lemma MovedNames()
    ensures |"LD_ASSUME_KERNEL"| == 16 && |"LD_BIND_NOW"| == 11 && |"LD_PRELOAD"| == 10 && |"LD_LIBRARY_PATH"| == 15
    ensures |"PIN_APP_LD_ASSUME_KERNEL"| == 24 && |"PIN_APP_LD_BIND_NOW"| == 19 && |"PIN_APP_LD_PRELOAD"| == 18
    ensures |"PIN_LD_RESTORE_REQUIRED"| == 23 && |"PIN_APP_LD_LIBRARY_PATH"| == 23
    ensures forall a :: VmName(a) != "PIN_APP_LD_ASSUME_KERNEL"
  {
    assert forall a :: VmName(a)[4] == 'V';
  }

  /** All steps together, looked at one variable at a time. */
  lemma FinalIs(env: map<string, string>, base: string, wide: bool, m1: map<string, string>, m2: map<string, string>,
      name: string)
    requires m1 == Moved(PathsSet(env, base, wide), "LD_ASSUME_KERNEL", "PIN_APP_LD_ASSUME_KERNEL")
    requires m2 == Moved(m1, "LD_BIND_NOW", "PIN_APP_LD_BIND_NOW")
    ensures Lookup(Moved(m2, "LD_PRELOAD", "PIN_APP_LD_PRELOAD"), name) == FinalValue(env, base, wide, name)
  {
    hide VmPath, InjectorPath, VmName, InjectorName, PathsSet, Moved;
    NamesDiffer();
    MovedNames();
    var m0 := PathsSet(env, base, wide);
    PathsSetIs(env, base, wide, name);
    PathsSetIs(env, base, wide, "LD_ASSUME_KERNEL");
    PathsSetIs(env, base, wide, "LD_BIND_NOW");
    PathsSetIs(env, base, wide, "LD_PRELOAD");
    MovedIs(m0, "LD_ASSUME_KERNEL", "PIN_APP_LD_ASSUME_KERNEL", name);
    MovedIs(m0, "LD_ASSUME_KERNEL", "PIN_APP_LD_ASSUME_KERNEL", "LD_BIND_NOW");
    MovedIs(m0, "LD_ASSUME_KERNEL", "PIN_APP_LD_ASSUME_KERNEL", "LD_PRELOAD");
    MovedIs(m1, "LD_BIND_NOW", "PIN_APP_LD_BIND_NOW", name);
    MovedIs(m1, "LD_BIND_NOW", "PIN_APP_LD_BIND_NOW", "LD_PRELOAD");
    MovedIs(m2, "LD_PRELOAD", "PIN_APP_LD_PRELOAD", name);
  }

  lemma EnvironmentIsFinal(env: map<string, string>, base: string, wide: bool, r: map<string, string>)
    requires r == Moved(Moved(Moved(PathsSet(env, base, wide), "LD_ASSUME_KERNEL", "PIN_APP_LD_ASSUME_KERNEL"),
                              "LD_BIND_NOW", "PIN_APP_LD_BIND_NOW"), "LD_PRELOAD", "PIN_APP_LD_PRELOAD")
    ensures forall name :: Lookup(r, name) == FinalValue(env, base, wide, name)
  {
    var m1 := Moved(PathsSet(env, base, wide), "LD_ASSUME_KERNEL", "PIN_APP_LD_ASSUME_KERNEL");
    forall name ensures Lookup(r, name) == FinalValue(env, base, wide, name) {
      hide *;
      FinalIs(env, base, wide, m1, Moved(m1, "LD_BIND_NOW", "PIN_APP_LD_BIND_NOW"), name);
    }
  }

  lemma SameBlocks(m: map<int, string>, r: map<int, string>)
    requires forall k :: k in r <==> k in m
    requires forall k :: k in r ==> r[k] == m[k]
    ensures r == m
  {
    forall k | k in r ensures k in m && r[k] == m[k] {}
    forall k | k in m ensures k in r && r[k] == m[k] {}
    assert r == m;
  }

  predicate Holds(blocks: map<int, string>, s: Str, text: string) {
    s.Block? && s.id in blocks && blocks[s.id] == text
  }

  lemma CountsFit(s: Str, blocks: map<int, string>)
    requires s.Block? && s.id in blocks && Counts(blocks[s.id])
    ensures Fit(s, blocks)
  {
  }

  /** What `getenv` returned can be measured, and is what the old value was. */
  lemma OldFits(env: map<string, string>, base: string, wide: bool, old1: Str)
    requires Fits(env, base)
    requires old1 == if VmName(wide) in env then Text(env[VmName(wide)]) else Null
    ensures forall blocks {:trigger Fit(old1, blocks)} :: Fit(old1, blocks)
    ensures forall blocks {:trigger TextOf(old1, blocks)} :: TextOf(old1, blocks) == OrEmpty(Lookup(env, VmName(wide)))
  {
  }

  predicate Fresh2(a: Str, b: Str, blocks: map<int, string>) {
    a.Block? && b.Block? && a != b && a.id !in blocks && b.id !in blocks
  }

  predicate Fresh4(a: Str, b: Str, c: Str, d: Str, blocks: map<int, string>) {
    Fresh2(a, b, blocks) && Fresh2(c, d, blocks) && a != c && a != d && b != c && b != d
  }

  lemma LibsIs(base: string)
    ensures Arch(false) == "ia32" && Arch(true) == "intel64" && Counts("ia32") && Counts("intel64")
    ensures Counts("lib") && Counts("runtime") && Counts("pincrt")
    ensures Libs(base, false) == Under(Under(base, "ia32"), "lib")
    ensures Libs(base, true) == Under(Under(base, "intel64"), "lib")
    ensures PinCrt(base, false) == Under(Under(Under(base, "ia32"), "runtime"), "pincrt")
    ensures PinCrt(base, true) == Under(Under(Under(base, "intel64"), "runtime"), "pincrt")
  {
  }

  /** Three blocks come and go, two stay. */
  lemma LeftOver(m: map<int, string>, e: int, x: int, y: int, s: string, t: string, u: string, a: int, b: int,
      v: string, w: string)
    requires e !in m && x !in m[e := s] && y !in m[e := s][x := t]
    requires a !in m[e := s][x := t][y := u] - {e} && b !in (m[e := s][x := t][y := u] - {e})[a := v]
    ensures (m[e := s][x := t][y := u] - {e})[a := v][b := w] - {x} - {y} == m[a := v][b := w]
  {
  }

  lemma XedIs(base: string)
    ensures XedArch(false) == "xed-ia32" && XedArch(true) == "xed-intel64" && Counts("xed-ia32")
    ensures Counts("xed-intel64")
    ensures Counts("lib") && Counts("extras")
    ensures Xed(base, false) == Under(Under(Under(base, "extras"), "xed-ia32"), "lib")
    ensures Xed(base, true) == Under(Under(Under(base, "extras"), "xed-intel64"), "lib")
  {
  }

  lemma TextOfBlock(s: Str, blocks: map<int, string>)
    requires s.Block? && s.id in blocks
    ensures TextOf(s, blocks) == blocks[s.id]
  {
  }

  /** Freeing an older block before or after two new ones are made. */
  lemma DropBefore(m: map<int, string>, old0: int, a: int, s: string, b: int, t: string)
    requires a != old0 && b != old0
    ensures m[a := s][b := t] - {old0} == (m - {old0})[a := s][b := t]
  {
  }

  // ----- the same, spelled out -----

  lemma PinCrtSpelledOut(base: string)
    ensures PinCrt(base, false) == base + "/ia32/runtime/pincrt"
    ensures PinCrt(base, true) == base + "/intel64/runtime/pincrt"
  {
    assert "/" + "ia32" + "/" + "runtime" + "/" + "pincrt" == "/ia32/runtime/pincrt";
    assert "/" + "intel64" + "/" + "runtime" + "/" + "pincrt" == "/intel64/runtime/pincrt";
  }

  lemma LibsSpelledOut(base: string)
    ensures Libs(base, false) == base + "/ia32/lib" && Libs(base, true) == base + "/intel64/lib"
  {
    assert "/" + "ia32" + "/" + "lib" == "/ia32/lib" && "/" + "intel64" + "/" + "lib" == "/intel64/lib";
  }

  lemma XedSpelledOut(base: string)
    ensures Xed(base, false) == base + "/extras/xed-ia32/lib" && Xed(base, true) == base + "/extras/xed-intel64/lib"
  {
    assert "/" + "extras" + "/" == "/extras/";
    assert "/extras/" + "xed-ia32" + "/" + "lib" == "/extras/xed-ia32/lib";
    assert "/extras/" + "xed-intel64" + "/" + "lib" == "/extras/xed-intel64/lib";
  }

  lemma PathsSpelledOut(env: map<string, string>, base: string, wide: bool)
    ensures VmPath(env, base, wide) ==
      PinCrt(base, wide) + ":" + Libs(base, wide) + ":" + Xed(base, wide) + ":" + OrEmpty(Lookup(env, VmName(wide)))
    ensures InjectorPath(env, base, wide) ==
      PinCrt(base, wide) + ":" + Xed(base, wide) + ":" + OrEmpty(Lookup(env, InjectorName(wide)))
  {
    hide PinCrt, Libs, Xed, OrEmpty, Lookup;
  }

  /** The new value is the old one, or nothing, behind `prefix`. */
  predicate Extended(env: map<string, string>, r: map<string, string>, name: string, prefix: string) {
    name in r && r[name] == prefix + (if name in env then env[name] else "")
  }

  predicate Unchanged(env: map<string, string>, r: map<string, string>, name: string) {
    (name in r <==> name in env) && (name in env ==> r[name] == env[name])
  }

  /** If `name` was set, its value is now that of `saved`. */
  predicate Saved(env: map<string, string>, r: map<string, string>, name: string, saved: string) {
    if name in env then saved in r && r[saved] == env[name] else Unchanged(env, r, saved)
  }

  predicate PathsReady(env: map<string, string>, base: string, wide: bool, r: map<string, string>) {
    && Extended(env, r, "PIN_VM32_LD_LIBRARY_PATH",
         base + "/ia32/runtime/pincrt" + ":" + (base + "/ia32/lib") + ":" + (base + "/extras/xed-ia32/lib") + ":")
    && Extended(env, r, "PIN_VM64_LD_LIBRARY_PATH",
         base + "/intel64/runtime/pincrt" + ":" + (base + "/intel64/lib") + ":"
           + (base + "/extras/xed-intel64/lib") + ":")
    && Extended(env, r, "PIN_INJECTOR32_LD_LIBRARY_PATH",
         base + "/ia32/runtime/pincrt" + ":" + (base + "/extras/xed-ia32/lib") + ":")
    && Extended(env, r, "PIN_INJECTOR64_LD_LIBRARY_PATH",
         base + "/intel64/runtime/pincrt" + ":" + (base + "/extras/xed-intel64/lib") + ":")
    && Lookup(r, "LD_LIBRARY_PATH") ==
         Lookup(r, if wide then "PIN_INJECTOR64_LD_LIBRARY_PATH" else "PIN_INJECTOR32_LD_LIBRARY_PATH")
  }

  predicate CopiesReady(env: map<string, string>, r: map<string, string>) {
    && Saved(env, r, "LD_LIBRARY_PATH", "PIN_APP_LD_LIBRARY_PATH")
    && Saved(env, r, "LD_ASSUME_KERNEL", "PIN_APP_LD_ASSUME_KERNEL") && "LD_ASSUME_KERNEL" !in r
    && Saved(env, r, "LD_BIND_NOW", "PIN_APP_LD_BIND_NOW") && "LD_BIND_NOW" !in r
    && Saved(env, r, "LD_PRELOAD", "PIN_APP_LD_PRELOAD") && "LD_PRELOAD" !in r
  }

  lemma NamesSpelledOut()
    ensures VmName(false) == "PIN_VM32_LD_LIBRARY_PATH" && VmName(true) == "PIN_VM64_LD_LIBRARY_PATH"
    ensures InjectorName(false) == "PIN_INJECTOR32_LD_LIBRARY_PATH"
    ensures InjectorName(true) == "PIN_INJECTOR64_LD_LIBRARY_PATH"
  {
  }

  /** The variables that `update_environment` touches. */
  const TOUCHED := {
    "PIN_VM32_LD_LIBRARY_PATH", "PIN_VM64_LD_LIBRARY_PATH", "PIN_INJECTOR32_LD_LIBRARY_PATH",
    "PIN_INJECTOR64_LD_LIBRARY_PATH", "LD_LIBRARY_PATH", "PIN_LD_RESTORE_REQUIRED", "PIN_APP_LD_LIBRARY_PATH",
    "LD_ASSUME_KERNEL", "LD_BIND_NOW", "LD_PRELOAD", "PIN_APP_LD_ASSUME_KERNEL", "PIN_APP_LD_BIND_NOW",
    "PIN_APP_LD_PRELOAD"}

  lemma OthersUntouched(env: map<string, string>, base: string, wide: bool, r: map<string, string>, name: string)
    requires Lookup(r, name) == FinalValue(env, base, wide, name) && name !in TOUCHED
    ensures Unchanged(env, r, name)
  {
    hide VmPath, InjectorPath, VmName, InjectorName;
    NamesSpelledOut();
  }

  ghost predicate EnvironmentReady(env: map<string, string>, base: string, wide: bool, r: map<string, string>) {
    && PathsReady(env, base, wide, r) && CopiesReady(env, r) && Lookup(r, "PIN_LD_RESTORE_REQUIRED") == Some("t")
    && forall name :: name !in TOUCHED ==> Unchanged(env, r, name)
  }

  /** Both library paths for one width. */
  lemma ExtendedPaths(env: map<string, string>, base: string, wide: bool, r: map<string, string>, w: bool)
    requires forall name :: Lookup(r, name) == FinalValue(env, base, wide, name)
    ensures Extended(env, r, VmName(w), PinCrt(base, w) + ":" + Libs(base, w) + ":" + Xed(base, w) + ":")
    ensures Extended(env, r, InjectorName(w), PinCrt(base, w) + ":" + Xed(base, w) + ":")
    ensures Lookup(r, "LD_LIBRARY_PATH") == Lookup(r, InjectorName(wide))
  {
    hide PinCrt, Libs, Xed, VmPath, InjectorPath, VmName, InjectorName;
    NamesDiffer();
    PathsSpelledOut(env, base, w);
    assert |"LD_LIBRARY_PATH"| == 15 && |"PIN_LD_RESTORE_REQUIRED"| == 23 && |"PIN_APP_LD_LIBRARY_PATH"| == 23;
    assert Lookup(r, VmName(w)) == Some(VmPath(env, base, w));
    assert Lookup(r, InjectorName(w)) == Some(InjectorPath(env, base, w));
    assert Lookup(r, InjectorName(wide)) == Some(InjectorPath(env, base, wide));
    assert Lookup(r, "LD_LIBRARY_PATH") == Some(InjectorPath(env, base, wide));
  }

  lemma PathsAreReady(env: map<string, string>, base: string, wide: bool, r: map<string, string>)
    requires forall name :: Lookup(r, name) == FinalValue(env, base, wide, name)
    ensures PathsReady(env, base, wide, r)
  {
    hide FinalValue, PinCrt, Libs, Xed, VmName, InjectorName, Extended, Lookup;
    NamesSpelledOut();
    PinCrtSpelledOut(base);
    LibsSpelledOut(base);
    XedSpelledOut(base);
    ExtendedPaths(env, base, wide, r, false);
    ExtendedPaths(env, base, wide, r, true);
  }

  lemma CopyIsReady(env: map<string, string>, base: string, wide: bool, r: map<string, string>, name: string,
      saved: string)
    requires forall x :: Lookup(r, x) == FinalValue(env, base, wide, x)
    requires
      || (name == "LD_LIBRARY_PATH" && saved == "PIN_APP_LD_LIBRARY_PATH")
      || (name == "LD_ASSUME_KERNEL" && saved == "PIN_APP_LD_ASSUME_KERNEL")
      || (name == "LD_BIND_NOW" && saved == "PIN_APP_LD_BIND_NOW")
      || (name == "LD_PRELOAD" && saved == "PIN_APP_LD_PRELOAD")
    ensures Saved(env, r, name, saved) && (name != "LD_LIBRARY_PATH" ==> name !in r)
  {
    hide VmPath, InjectorPath, VmName, InjectorName;
    NamesDiffer();
    MovedNames();
    assert "PIN_LD_RESTORE_REQUIRED"[4] != "PIN_APP_LD_LIBRARY_PATH"[4];
    var now, copy := Lookup(r, name), Lookup(r, saved);
  }

  /** The three variables that pin must not see are gone, and with `LD_LIBRARY_PATH` they are kept for the program. */
  lemma CopiesAreReady(env: map<string, string>, base: string, wide: bool, r: map<string, string>)
    requires forall name :: Lookup(r, name) == FinalValue(env, base, wide, name)
    ensures CopiesReady(env, r)
  {
    hide FinalValue, Saved;
    assert |"LD_ASSUME_KERNEL"| == 16 && |"LD_BIND_NOW"| == 11 && |"LD_PRELOAD"| == 10 && |"LD_LIBRARY_PATH"| == 15;
    CopyIsReady(env, base, wide, r, "LD_LIBRARY_PATH", "PIN_APP_LD_LIBRARY_PATH");
    CopyIsReady(env, base, wide, r, "LD_ASSUME_KERNEL", "PIN_APP_LD_ASSUME_KERNEL");
    CopyIsReady(env, base, wide, r, "LD_BIND_NOW", "PIN_APP_LD_BIND_NOW");
    CopyIsReady(env, base, wide, r, "LD_PRELOAD", "PIN_APP_LD_PRELOAD");
  }

  lemma RestoreIsRequired(env: map<string, string>, base: string, wide: bool, r: map<string, string>)
    requires forall name :: Lookup(r, name) == FinalValue(env, base, wide, name)
    ensures Lookup(r, "PIN_LD_RESTORE_REQUIRED") == Some("t")
  {
    hide VmPath, InjectorPath, VmName, InjectorName;
    NamesDiffer();
    MovedNames();
  }

  /** What `update_environment` leaves. */
  lemma EnvironmentIsReady(env: map<string, string>, base: string, wide: bool, r: map<string, string>)
    requires forall name :: Lookup(r, name) == FinalValue(env, base, wide, name)
    ensures EnvironmentReady(env, base, wide, r)
  {
    hide FinalValue, PathsReady, CopiesReady, Lookup, Unchanged;
    PathsAreReady(env, base, wide, r);
    CopiesAreReady(env, base, wide, r);
    RestoreIsRequired(env, base, wide, r);
    forall name | name !in TOUCHED ensures Unchanged(env, r, name) { OthersUntouched(env, base, wide, r, name); }
  }

  class Process {
    var live: map<int, string>      // allocated blocks
    var next: int                   // blocks below have been given out
    var env: map<string, string>

    ghost predicate Valid() reads this {
      forall k :: k in live ==> k < next
    }

    predicate Readable(s: Str) reads this {
      s.Block? ==> s.id in live
    }

    function Content(s: Str): string
      requires Readable(s)
      reads this
    {
      match s
      case Null => ""
      case Block(id) => live[id]
      case Text(t) => t
    }

    predicate Countable(s: Str) reads this {
      Readable(s) && (s != Null ==> 0 < |Content(s)| <= CStrings.PATH_MAX_SIZE)
    }

    /** `appendPath`; reading a block that has been freed is ruled out. */
    method AppendPath(s1: Str, s2: Str, s3: Str) returns (p: Str)
      requires Valid() && Countable(s1) && Countable(s2) && Countable(s3)
      modifies this
      ensures Valid() && env == old(env) && next == old(next) + 1 && p == Block(old(next))
      ensures live == old(live)[old(next) := old(Content(s1)) + old(Content(s2)) + old(Content(s3))]
    {
      p := Block(next);
      live := live[next := Content(s1) + Content(s2) + Content(s3)];
      next := next + 1;
    }

    /** `if (p) free(p)`; freeing a block twice is ruled out. */
    method Free(p: Str)
      requires Valid() && (p == Null || (p.Block? && p.id in live))
      modifies this
      ensures Valid() && env == old(env) && next == old(next)
      ensures live == if p == Null then old(live) else old(live) - {p.id}
    {
      if p != Null {
        live := live - {p.id};
      }
    }

    method GetEnv(name: string) returns (s: Str)
      ensures s == if name in env then Text(env[name]) else Null
    {
      s := if name in env then Text(env[name]) else Null;
    }

    method SetEnv(name: string, value: Str)
      requires Readable(value)
      modifies `env
      ensures env == old(env)[name := old(Content(value))]
    {
      env := env[name := Content(value)];
    }

    method UnsetEnv(name: string)
      modifies `env
      ensures env == old(env) - {name}
    {
      env := env - {name};
    }

    // The source's one long function, cut at points where few blocks are in hand. `before` is the heap without
    // the blocks of this function, `blocks` those it holds, with what is in them.

    ghost predicate Heap(before: map<int, string>, start: int, blocks: map<int, string>) reads this {
      && Valid() && start <= next
      && (forall k :: k in before ==> k < start)
      && (forall k :: k in blocks ==> start <= k)
      && live == before + blocks
    }

    /** `appendPath(dir, "/", name)` */
    method JoinPath(dir: Str, name: string, ghost before: map<int, string>, ghost start: int,
        ghost blocks: map<int, string>) returns (p: Str)
      requires Heap(before, start, blocks) && Fit(dir, blocks) && Counts(name)
      requires dir != Null
      modifies this
      ensures env == old(env) && p.Block? && p.id !in blocks
      ensures Heap(before, start, blocks[p.id := Under(TextOf(dir, blocks), name)])
    {
      p := AppendPath(dir, Text("/"), Text(name));
    }

    /** `appendPath(first, ":", rest)` */
    method JoinList(first: Str, rest: Str, ghost before: map<int, string>, ghost start: int,
        ghost blocks: map<int, string>) returns (p: Str)
      requires Heap(before, start, blocks) && Fit(first, blocks) && Fit(rest, blocks)
      modifies this
      ensures env == old(env) && p.Block? && p.id !in blocks
      ensures Heap(before, start, blocks[p.id := After(TextOf(first, blocks), TextOf(rest, blocks))])
    {
      p := AppendPath(first, Text(":"), rest);
    }

    method Drop(p: Str, ghost before: map<int, string>, ghost start: int, ghost blocks: map<int, string>)
      requires Heap(before, start, blocks) && p.Block? && p.id in blocks
      modifies this
      ensures env == old(env) && Heap(before, start, blocks - {p.id})
    {
      Free(p);
      assert live == before + (blocks - {p.id});
    }

    method MakeXed(basePath: Str, ghost base: string, ghost before: map<int, string>, ghost start: int,
        ghost blocks: map<int, string>)
      returns (xed32: Str, xed64: Str)
      requires Heap(before, start, blocks) && basePath == Text(base) && Fits(env, base)
      modifies this
      ensures xed32.Block? && xed64.Block? && xed32 != xed64 && xed32.id !in blocks && xed64.id !in blocks
      ensures env == old(env)
      ensures Heap(before, start, blocks[xed32.id := Xed(base, false)][xed64.id := Xed(base, true)])
    {
      hide Heap, Under, Xed, Fits, XedArch;
      PathsCount(env, base, false);
      PathsCount(env, base, true);
      XedIs(base);
      var extras := JoinPath(basePath, "extras", before, start, blocks);
      ghost var b1 := blocks[extras.id := Under(base, "extras")];
      var x32 := JoinPath(extras, "xed-ia32", before, start, b1);
      ghost var b2 := b1[x32.id := Under(Under(base, "extras"), "xed-ia32")];
      var x64 := JoinPath(extras, "xed-intel64", before, start, b2);
      ghost var b3 := b2[x64.id := Under(Under(base, "extras"), "xed-intel64")];
      Drop(extras, before, start, b3);
      ghost var b4 := b3 - {extras.id};
      xed32 := JoinPath(x32, "lib", before, start, b4);
      ghost var b5 := b4[xed32.id := Xed(base, false)];
      xed64 := JoinPath(x64, "lib", before, start, b5);
      ghost var b6 := b5[xed64.id := Xed(base, true)];
      Drop(x32, before, start, b6);
      Drop(x64, before, start, b6 - {x32.id});
      LeftOver(blocks, extras.id, x32.id, x64.id, b1[extras.id], b2[x32.id], b3[x64.id], xed32.id, xed64.id,
        b5[xed32.id], b6[xed64.id]);
    }

    /** The runtime and library directories; the base directories are freed. */
    method MakeLibs(base32: Str, base64: Str, ghost base: string, ghost before: map<int, string>, ghost start: int,
        ghost blocks: map<int, string>)
      returns (run32: Str, run64: Str, libs32: Str, libs64: Str)
      requires Heap(before, start, blocks) && Fits(env, base) && base32.Block? && base64.Block? && base32 != base64
      requires base32.id in blocks && base64.id in blocks
      requires blocks[base32.id] == Under(base, "ia32") && blocks[base64.id] == Under(base, "intel64")
      modifies this
      ensures env == old(env) && Fresh4(run32, run64, libs32, libs64, blocks)
      ensures Heap(before, start, blocks[run32.id := Under(Under(base, "ia32"), "runtime")]
          [run64.id := Under(Under(base, "intel64"), "runtime")]
        [libs32.id := Libs(base, false)][libs64.id := Libs(base, true)] - {base32.id} - {base64.id})
    {
      hide Heap, Under, Libs, Fits, Arch;
      PathsCount(env, base, false);
      PathsCount(env, base, true);
      LibsIs(base);
      run32 := JoinPath(base32, "runtime", before, start, blocks);
      ghost var b1 := blocks[run32.id := Under(Under(base, "ia32"), "runtime")];
      run64 := JoinPath(base64, "runtime", before, start, b1);
      ghost var b2 := b1[run64.id := Under(Under(base, "intel64"), "runtime")];
      libs32 := JoinPath(base32, "lib", before, start, b2);
      ghost var b3 := b2[libs32.id := Libs(base, false)];
      libs64 := JoinPath(base64, "lib", before, start, b3);
      ghost var b4 := b3[libs64.id := Libs(base, true)];
      Drop(base32, before, start, b4);
      Drop(base64, before, start, b4 - {base32.id});
    }

    /** The pincrt directories; the runtime directories are freed. */
    method MakePinCrt(run32: Str, run64: Str, ghost base: string, ghost before: map<int, string>, ghost start: int,
        ghost blocks: map<int, string>)
      returns (crt32: Str, crt64: Str)
      requires Heap(before, start, blocks) && Fits(env, base) && run32.Block? && run64.Block? && run32 != run64
      requires run32.id in blocks && run64.id in blocks
      requires blocks[run32.id] == Under(Under(base, "ia32"), "runtime")
      requires blocks[run64.id] == Under(Under(base, "intel64"), "runtime")
      modifies this
      ensures env == old(env) && Fresh2(crt32, crt64, blocks)
      ensures Heap(before, start,
          blocks[crt32.id := PinCrt(base, false)][crt64.id := PinCrt(base, true)] - {run32.id} - {run64.id})
    {
      hide Heap, Under, PinCrt, Fits, Arch;
      PathsCount(env, base, false);
      PathsCount(env, base, true);
      LibsIs(base);
      crt32 := JoinPath(run32, "pincrt", before, start, blocks);
      ghost var b1 := blocks[crt32.id := PinCrt(base, false)];
      crt64 := JoinPath(run64, "pincrt", before, start, b1);
      ghost var b2 := b1[crt64.id := PinCrt(base, true)];
      Drop(run32, before, start, b2);
      Drop(run64, before, start, b2 - {run32.id});
    }

    /** `setenv(name, p, 1)`, which the launcher gives up on when it fails. */
    method SetEnvTo(name: string, p: Str, ghost before: map<int, string>, ghost start: int,
        ghost blocks: map<int, string>)
      requires Heap(before, start, blocks) && (p.Block? ==> p.id in blocks)
      modifies `env
      ensures env == old(env)[name := TextOf(p, blocks)] && Heap(before, start, blocks)
    {
      SetEnv(name, p);
    }

    /** A join of two blocks, both freed afterwards. */
    method JoinBothDropped(first: Str, rest: Str, ghost before: map<int, string>, ghost start: int,
        ghost blocks: map<int, string>)
      returns (p: Str)
      requires Heap(before, start, blocks) && first.Block? && rest.Block? && first != rest
      requires Fit(first, blocks) && Fit(rest, blocks)
      modifies this
      ensures env == old(env) && p.Block? && p.id !in blocks
      ensures Heap(before, start,
          (blocks - {first.id} - {rest.id})[p.id := After(TextOf(first, blocks), TextOf(rest, blocks))])
    {
      hide Heap, After;
      p := JoinList(first, rest, before, start, blocks);
      ghost var b1 := blocks[p.id := After(TextOf(first, blocks), TextOf(rest, blocks))];
      Drop(first, before, start, b1);
      Drop(rest, before, start, b1 - {first.id});
      assert b1 - {first.id} - {rest.id} ==
        (blocks - {first.id} - {rest.id})[p.id := After(TextOf(first, blocks), TextOf(rest, blocks))];
    }

    /** A join after which the second piece is freed. */
    method JoinRestDropped(first: Str, rest: Str, ghost before: map<int, string>, ghost start: int,
        ghost blocks: map<int, string>) returns (p: Str)
      requires Heap(before, start, blocks) && Fit(first, blocks) && Fit(rest, blocks) && rest.Block? && first != rest
      modifies this
      ensures env == old(env) && p.Block? && p.id !in blocks
      ensures Heap(before, start, (blocks - {rest.id})[p.id := After(TextOf(first, blocks), TextOf(rest, blocks))])
    {
      hide Heap, After;
      p := JoinList(first, rest, before, start, blocks);
      ghost var b1 := blocks[p.id := After(TextOf(first, blocks), TextOf(rest, blocks))];
      Drop(rest, before, start, b1);
      assert b1 - {rest.id} == (blocks - {rest.id})[p.id := After(TextOf(first, blocks), TextOf(rest, blocks))];
    }

    /** The VM paths up to their longest piece; the library directories are freed. */
    method JoinVmLists(xed32: Str, xed64: Str, libs32: Str, libs64: Str,
                       ghost base: string, ghost before: map<int, string>, ghost start: int,
                       ghost blocks: map<int, string>)
      returns (e32: Str, e64: Str)
      requires Heap(before, start, blocks) && Fits(env, base)
      requires Holds(blocks, xed32, Xed(base, false)) && Holds(blocks, xed64, Xed(base, true))
      requires Holds(blocks, libs32, Libs(base, false)) && Holds(blocks, libs64, Libs(base, true))
      requires libs32 != libs64 && libs32 != xed64
      modifies this
      ensures env == old(env) && Fresh2(e32, e64, blocks - {libs32.id} - {libs64.id})
      ensures Heap(before, start, (blocks - {libs32.id} - {libs64.id})[e32.id := VmList(env, base, false)]
          [e64.id := VmList(env, base, true)])
    {
      hide Heap, After, Fits, Xed, Libs, VmName, Counts;
      PathsCount(env, base, false);
      PathsCount(env, base, true);
      var old32 := GetEnv(VmName(false));
      var old64 := GetEnv(VmName(true));
      OldFits(env, base, false, old32);
      OldFits(env, base, true, old64);
      ghost var s32 := After(Xed(base, false), OrEmpty(Lookup(env, VmName(false))));
      ghost var s64 := After(Xed(base, true), OrEmpty(Lookup(env, VmName(true))));
      CountsFit(xed32, blocks);
      var x32 := JoinList(xed32, old32, before, start, blocks);
      ghost var b1 := blocks[x32.id := s32];
      CountsFit(xed64, b1);
      var x64 := JoinList(xed64, old64, before, start, b1);
      ghost var b2 := b1[x64.id := s64];
      CountsFit(libs32, b2);
      CountsFit(x32, b2);
      e32 := JoinBothDropped(libs32, x32, before, start, b2);
      ghost var b3 := (b2 - {libs32.id} - {x32.id})[e32.id := VmList(env, base, false)];
      CountsFit(libs64, b3);
      CountsFit(x64, b3);
      e64 := JoinBothDropped(libs64, x64, before, start, b3);
      ghost var b4 := (b3 - {libs64.id} - {x64.id})[e64.id := VmList(env, base, true)];
      SameBlocks(b4, (blocks - {libs32.id} - {libs64.id})[e32.id := VmList(env, base, false)]
        [e64.id := VmList(env, base, true)]);
    }

    /** `PIN_VM32_LD_LIBRARY_PATH` and `PIN_VM64_LD_LIBRARY_PATH`. */
    method SetVmPaths(e32: Str, e64: Str, crt32: Str, crt64: Str,
                      ghost base: string, ghost before: map<int, string>, ghost start: int,
                      ghost blocks: map<int, string>)
      requires Heap(before, start, blocks) && Fits(env, base)
      requires Holds(blocks, e32, VmList(env, base, false)) && Holds(blocks, e64, VmList(env, base, true))
      requires Holds(blocks, crt32, PinCrt(base, false)) && Holds(blocks, crt64, PinCrt(base, true))
      requires e32 != e64 && e32 != crt32 && e32 != crt64 && e64 != crt32 && e64 != crt64
      modifies this
      ensures Heap(before, start, blocks - {e32.id} - {e64.id})
      ensures env == old(env)[VmName(false) := VmPath(old(env), base, false)]
          [VmName(true) := VmPath(old(env), base, true)]
    {
      hide Heap, After, Fits, PinCrt, VmName, Counts, VmList;
      ghost var env0 := env;
      PathsCount(env, base, false);
      PathsCount(env, base, true);
      VmListCounts(env, base, false);
      VmListCounts(env, base, true);
      CountsFit(crt32, blocks);
      CountsFit(e32, blocks);
      var v32 := JoinRestDropped(crt32, e32, before, start, blocks);
      ghost var b5 := (blocks - {e32.id})[v32.id := VmPath(env0, base, false)];
      CountsFit(crt64, b5);
      CountsFit(e64, b5);
      var v64 := JoinRestDropped(crt64, e64, before, start, b5);
      ghost var b6 := (b5 - {e64.id})[v64.id := VmPath(env0, base, true)];
      SetEnvTo(VmName(false), v32, before, start, b6);
      SetEnvTo(VmName(true), v64, before, start, b6);
      Drop(v32, before, start, b6);
      Drop(v64, before, start, b6 - {v32.id});
      SameBlocks(b6 - {v32.id} - {v64.id}, blocks - {e32.id} - {e64.id});
    }

    /** The tails of the injector paths; the xed directories are freed. */
    method JoinTails(xed32: Str, xed64: Str, ghost env0: map<string, string>,
                     ghost base: string, ghost before: map<int, string>, ghost start: int,
                     ghost blocks: map<int, string>)
      returns (tail32: Str, tail64: Str)
      requires Heap(before, start, blocks) && Fits(env0, base)
      requires forall wide :: Lookup(env, InjectorName(wide)) == Lookup(env0, InjectorName(wide))
      requires Holds(blocks, xed32, Xed(base, false)) && Holds(blocks, xed64, Xed(base, true)) && xed32 != xed64
      modifies this
      ensures env == old(env) && Fresh2(tail32, tail64, blocks)
      ensures Heap(before, start, (blocks - {xed32.id} - {xed64.id})
        [tail32.id := InjectorTail(env0, base, false)][tail64.id := InjectorTail(env0, base, true)])
    {
      hide Heap, After, Fits, Xed, InjectorName, Counts, InjectorTail;
      InjectorCounts(env0, base, false);
      InjectorCounts(env0, base, true);
      var old32 := GetEnv(InjectorName(false));
      var old64 := GetEnv(InjectorName(true));
      OldInjectorFits(env0, base, false, old32);
      OldInjectorFits(env0, base, true, old64);
      CountsFit(xed32, blocks);
      tail32 := JoinList(xed32, old32, before, start, blocks);
      ghost var b1 := blocks[tail32.id := InjectorTail(env0, base, false)];
      CountsFit(xed64, b1);
      tail64 := JoinList(xed64, old64, before, start, b1);
      ghost var b2 := b1[tail64.id := InjectorTail(env0, base, true)];
      Drop(xed32, before, start, b2);
      Drop(xed64, before, start, b2 - {xed32.id});
      SameBlocks(b2 - {xed32.id} - {xed64.id}, (blocks - {xed32.id} - {xed64.id})
        [tail32.id := InjectorTail(env0, base, false)][tail64.id := InjectorTail(env0, base, true)]);
    }

    /** The injector paths; the last directories are freed. */
    method JoinInjectors(tail32: Str, tail64: Str, crt32: Str, crt64: Str, ghost env0: map<string, string>,
                         ghost base: string, ghost before: map<int, string>, ghost start: int,
                         ghost blocks: map<int, string>)
      returns (inj32: Str, inj64: Str)
      requires Heap(before, start, blocks) && Fits(env0, base)
      requires Holds(blocks, tail32, InjectorTail(env0, base, false))
      requires Holds(blocks, tail64, InjectorTail(env0, base, true))
      requires Holds(blocks, crt32, PinCrt(base, false)) && Holds(blocks, crt64, PinCrt(base, true)) && crt32 != crt64
      modifies this
      ensures env == old(env) && Fresh2(inj32, inj64, blocks)
      ensures Heap(before, start, (blocks - {crt32.id} - {crt64.id})
        [inj32.id := InjectorPath(env0, base, false)][inj64.id := InjectorPath(env0, base, true)])
    {
      hide Heap, After, Fits, PinCrt, InjectorName, Counts, InjectorTail, InjectorPath;
      InjectorCounts(env0, base, false);
      InjectorCounts(env0, base, true);
      CountsFit(crt32, blocks);
      CountsFit(tail32, blocks);
      inj32 := JoinList(crt32, tail32, before, start, blocks);
      ghost var b1 := blocks[inj32.id := InjectorPath(env0, base, false)];
      CountsFit(crt64, b1);
      CountsFit(tail64, b1);
      inj64 := JoinList(crt64, tail64, before, start, b1);
      ghost var b2 := b1[inj64.id := InjectorPath(env0, base, true)];
      Drop(crt32, before, start, b2);
      Drop(crt64, before, start, b2 - {crt32.id});
      SameBlocks(b2 - {crt32.id} - {crt64.id}, (blocks - {crt32.id} - {crt64.id})
        [inj32.id := InjectorPath(env0, base, false)][inj64.id := InjectorPath(env0, base, true)]);
    }

    /** From the injector variables to `LD_LIBRARY_PATH`; the last blocks are freed. */
    method SetInjectorPaths(inj32: Str, inj64: Str, tail32: Str, tail64: Str, is64Bit: bool,
                            ghost before: map<int, string>, ghost start: int, ghost blocks: map<int, string>)
      requires Heap(before, start, blocks) && inj32.Block? && inj64.Block? && tail32.Block? && tail64.Block?
      requires Fresh4(inj32, inj64, tail32, tail64, map[]) && blocks.Keys == {inj32.id, inj64.id, tail32.id, tail64.id}
      modifies this
      ensures Heap(before, start, map[])
      ensures env == SetLibraryPath(old(env)[InjectorName(false) := blocks[inj32.id]]
          [InjectorName(true) := blocks[inj64.id]]
        ["PIN_LD_RESTORE_REQUIRED" := "t"], if is64Bit then blocks[inj64.id] else blocks[inj32.id])
    {
      hide Heap, SetLibraryPath, InjectorName, Fit;
      TextOfBlock(inj32, blocks);
      TextOfBlock(inj64, blocks);
      SetEnvTo(InjectorName(false), inj32, before, start, blocks);
      SetEnvTo(InjectorName(true), inj64, before, start, blocks);
      SetEnvTo("PIN_LD_RESTORE_REQUIRED", Text("t"), before, start, blocks);
      ReplaceLibraryPath(if is64Bit then inj64 else inj32, before, start, blocks);
      DropFour(inj32, tail32, inj64, tail64, before, start, blocks);
    }

    method ReplaceLibraryPath(path: Str, ghost before: map<int, string>, ghost start: int,
        ghost blocks: map<int, string>)
      requires Heap(before, start, blocks) && path.Block? && path.id in blocks
      modifies this
      ensures Heap(before, start, blocks) && env == SetLibraryPath(old(env), blocks[path.id])
    {
      hide Heap;
      var ldLibraryPath := GetEnv("LD_LIBRARY_PATH");
      if ldLibraryPath != Null {
        SetEnvTo("PIN_APP_LD_LIBRARY_PATH", ldLibraryPath, before, start, blocks);
      }
      SetEnvTo("LD_LIBRARY_PATH", path, before, start, blocks);
    }

    method DropFour(a: Str, b: Str, c: Str, d: Str, ghost before: map<int, string>, ghost start: int,
        ghost blocks: map<int, string>)
      requires Heap(before, start, blocks) && Fresh4(a, c, b, d, map[]) && blocks.Keys == {a.id, c.id, b.id, d.id}
      modifies this
      ensures Heap(before, start, map[]) && env == old(env)
    {
      hide Heap;
      Drop(a, before, start, blocks);
      Drop(b, before, start, blocks - {a.id});
      Drop(c, before, start, blocks - {a.id} - {b.id});
      Drop(d, before, start, blocks - {a.id} - {b.id} - {c.id});
      SameBlocks(blocks - {a.id} - {b.id} - {c.id} - {d.id}, map[]);
    }

    /** `if (x = getenv(name)) { setenv(saved, x); unsetenv(name); }` */
    method MoveVariable(name: string, saved: string, ghost before: map<int, string>, ghost start: int)
      requires Heap(before, start, map[])
      modifies this
      ensures Heap(before, start, map[]) && env == Moved(old(env), name, saved)
    {
      var incoming := GetEnv(name);
      if incoming != Null {
        SetEnvTo(saved, incoming, before, start, map[]);
        UnsetEnv(name);
      }
    }

    /**
     `update_environment`: every block that is allocated is freed once and not read afterwards, the heap is
     left as it was, and every variable ends up with its `FinalValue`.
     */
    method UpdateEnvironment(base: string, is64Bit: bool)
      requires Valid() && Fits(env, base)
      modifies this
      ensures Valid() && live == old(live)
      ensures forall name :: Lookup(env, name) == FinalValue(old(env), base, is64Bit, name)
      ensures EnvironmentReady(old(env), base, is64Bit, env)
    {
      hide Heap, Xed, Libs, PinCrt, Under, VmList, VmPath, InjectorPath, InjectorTail, Fits, EnvironmentReady;
      ghost var before, start, env0 := live, next, env;
      HeapStarts();
      MakeAndSet(base, is64Bit, before, start);
      MoveVariable("LD_ASSUME_KERNEL", "PIN_APP_LD_ASSUME_KERNEL", before, start);
      MoveVariable("LD_BIND_NOW", "PIN_APP_LD_BIND_NOW", before, start);
      MoveVariable("LD_PRELOAD", "PIN_APP_LD_PRELOAD", before, start);
      HeapEnds(before, start);
      EnvironmentIsFinal(env0, base, is64Bit, env);
      EnvironmentIsReady(env0, base, is64Bit, env);
    }

    lemma HeapStarts()
      requires Valid()
      ensures Heap(live, next, map[])
    {
      assert live + map[] == live;
    }

    lemma HeapEnds(before: map<int, string>, start: int)
      requires Heap(before, start, map[])
      ensures live == before && Valid()
    {
      assert before + map[] == before;
    }

    /** Everything up to `LD_LIBRARY_PATH`. */
    method MakeAndSet(base: string, is64Bit: bool, ghost before: map<int, string>, ghost start: int)
      requires Heap(before, start, map[]) && Fits(env, base)
      modifies this
      ensures Heap(before, start, map[]) && env == PathsSet(old(env), base, is64Bit)
    {
      hide Heap, Xed, Libs, PinCrt, Under, VmList, InjectorTail, Fits, SetLibraryPath;
      ghost var env0 := env;
      PathsCount(env, base, false);
      LibsIs(base);
      var basePath := Text(base);
      var base32 := JoinPath(basePath, "ia32", before, start, map[]);
      ghost var m1: map<int, string> := map[base32.id := Under(base, "ia32")];
      var base64 := JoinPath(basePath, "intel64", before, start, m1);
      ghost var m2 := m1[base64.id := Under(base, "intel64")];
      var xed32, xed64 := MakeXed(basePath, base, before, start, m2);
      ghost var m3 := m2[xed32.id := Xed(base, false)][xed64.id := Xed(base, true)];
      var run32, run64, libs32, libs64 := MakeLibs(base32, base64, base, before, start, m3);
      ghost var m4 := m3[run32.id := Under(Under(base, "ia32"), "runtime")]
          [run64.id := Under(Under(base, "intel64"), "runtime")]
        [libs32.id := Libs(base, false)][libs64.id := Libs(base, true)] - {base32.id} - {base64.id};
      var crt32, crt64 := MakePinCrt(run32, run64, base, before, start, m4);
      ghost var m5 := m4[crt32.id := PinCrt(base, false)][crt64.id := PinCrt(base, true)] - {run32.id} - {run64.id};
      ghost var six := map[xed32.id := Xed(base, false)][xed64.id := Xed(base, true)][libs32.id := Libs(base, false)]
        [libs64.id := Libs(base, true)][crt32.id := PinCrt(base, false)][crt64.id := PinCrt(base, true)];
      SameBlocks(m5, six);
      SetAll(xed32, xed64, libs32, libs64, crt32, crt64, is64Bit, base, before, start, six);
    }

    method SetAll(xed32: Str, xed64: Str, libs32: Str, libs64: Str, crt32: Str, crt64: Str, is64Bit: bool,
                  ghost base: string, ghost before: map<int, string>, ghost start: int, ghost six: map<int, string>)
      requires Heap(before, start, six) && Fits(env, base)
      requires Fresh4(xed32, xed64, libs32, libs64, map[])
      requires Fresh2(crt32, crt64, map[xed32.id := ""][xed64.id := ""][libs32.id := ""][libs64.id := ""])
      requires six == map[xed32.id := Xed(base, false)][xed64.id := Xed(base, true)][libs32.id := Libs(base, false)]
        [libs64.id := Libs(base, true)][crt32.id := PinCrt(base, false)][crt64.id := PinCrt(base, true)]
      modifies this
      ensures Heap(before, start, map[]) && env == PathsSet(old(env), base, is64Bit)
    {
      hide Heap, Xed, Libs, PinCrt, VmList, InjectorTail, Fits, SetLibraryPath;
      ghost var env0 := env;
      var e32, e64 := JoinVmLists(xed32, xed64, libs32, libs64, base, before, start, six);
      ghost var m1 := (six - {libs32.id} - {libs64.id})[e32.id := VmList(env, base, false)]
          [e64.id := VmList(env, base, true)];
      SetVmPaths(e32, e64, crt32, crt64, base, before, start, m1);
      ghost var four := map[xed32.id := Xed(base, false)][xed64.id := Xed(base, true)][crt32.id := PinCrt(base, false)]
          [crt64.id := PinCrt(base, true)];
      SameBlocks(m1 - {e32.id} - {e64.id}, four);
      SetInjectors(xed32, xed64, crt32, crt64, is64Bit, env0, base, before, start, four);
    }

    method SetInjectors(xed32: Str, xed64: Str, crt32: Str, crt64: Str, is64Bit: bool, ghost env0: map<string, string>,
                        ghost base: string, ghost before: map<int, string>, ghost start: int,
                        ghost four: map<int, string>)
      requires Heap(before, start, four) && Fits(env0, base) && env == SetVm(env0, base)
      requires Fresh4(xed32, xed64, crt32, crt64, map[])
      requires four == map[xed32.id := Xed(base, false)][xed64.id := Xed(base, true)][crt32.id := PinCrt(base, false)]
          [crt64.id := PinCrt(base, true)]
      modifies this
      ensures Heap(before, start, map[]) && env == PathsSet(env0, base, is64Bit)
    {
      hide Heap, Xed, Libs, PinCrt, VmList, InjectorTail, InjectorPath, Fits, SetLibraryPath, SetVm;
      InjectorUntouched(env0, base, false);
      InjectorUntouched(env0, base, true);
      var tail32, tail64 := JoinTails(xed32, xed64, env0, base, before, start, four);
      ghost var m2 := (four - {xed32.id} - {xed64.id})
        [tail32.id := InjectorTail(env0, base, false)][tail64.id := InjectorTail(env0, base, true)];
      var inj32, inj64 := JoinInjectors(tail32, tail64, crt32, crt64, env0, base, before, start, m2);
      ghost var last := (m2 - {crt32.id} - {crt64.id})
        [inj32.id := InjectorPath(env0, base, false)][inj64.id := InjectorPath(env0, base, true)];
      assert last.Keys == {inj32.id, inj64.id, tail32.id, tail64.id};
      SetInjectorPaths(inj32, inj64, tail32, tail64, is64Bit, before, start, last);
    }

    // ----- build_child_argv -----

    /** `find_driver_name`: a new block with the name of the running executable, whatever it is asked about. */
    method FindDriverName(driver: string) returns (s: Str)
      requires Valid()
      modifies this
      ensures Valid() && env == old(env) && next == old(next) + 1 && s == Block(old(next))
      ensures live == old(live)[old(next) := driver]
    {
      s := Block(next);
      live := live[next := driver];
      next := next + 1;
    }

    /** Build a name, ask for the driver, and free both. */
    method CheckBinary(base: string, name: string, driver: string)
      requires Valid() && Counts(base) && Counts(name)
      modifies this
      ensures Valid() && live == old(live) && next >= old(next) && env == old(env)
    {
      var s1 := AppendPath(Text(base), Text("/"), Text(name));
      var s2 := FindDriverName(driver);
      Free(s1);
      Free(s2);
      assert live == old(live);
    }

    /** The names of the two binaries, the host's first. */
    method BuildNames(base: string, is64Bit: bool) returns (first: Str, third: Str)
      requires Valid() && Counts(base)
      modifies this
      ensures Valid() && env == old(env) && first.Block? && third.Block? && first != third
      ensures first.id !in old(live) && third.id !in old(live)
      ensures live == old(live)
        [first.id := base + (if is64Bit then "/intel64/bin/pinbin" else "/ia32/bin/pinbin")]
        [third.id := base + (if is64Bit then "/ia32/bin/pinbin" else "/intel64/bin/pinbin")]
    {
      PinbinSpelledOut(base, is64Bit);
      PinbinSpelledOut(base, !is64Bit);
      first := AppendPath(Text(base), Text("/"), Text(Pinbin(is64Bit)));
      third := AppendPath(Text(base), Text("/"), Text(Pinbin(!is64Bit)));
    }

    /**
     `build_child_argv`: the binary of the host's architecture, the switch naming the other one, the user's
     arguments, the launcher's own from the second on, and a null; all within the block allocated for them.
     `userVector` is the block that `user_argv` points to, which is freed, or null.
     */
    method BuildChildArgv(base: string, is64Bit: bool, driver: string, argv: seq<Str>, userArgv: seq<Str>,
        userVector: Str)
      returns (child: array<Str>)
      requires Valid() && Counts(base)
      requires userVector == Null || (userVector.Block? && userVector.id in live)
      modifies this
      ensures Valid() && fresh(child) && env == old(env) && child.Length == |argv| + |userArgv| + 4
      ensures var rest := if argv == [] then [] else argv[1..];
        var used := 3 + |userArgv| + |rest| + 1;
        && used <= child.Length && child[0].Block? && child[2].Block? && child[0] != child[2]
        && child[..used] == [child[0], Text(if is64Bit then "-p32" else "-p64"), child[2]] + userArgv + rest + [Null]
        && child[0].id !in old(live) && child[2].id !in old(live)
        && live == (if userVector == Null then old(live) else old(live) - {userVector.id})
             [child[0].id := base + (if is64Bit then "/intel64/bin/pinbin" else "/ia32/bin/pinbin")]
             [child[2].id := base + (if is64Bit then "/ia32/bin/pinbin" else "/intel64/bin/pinbin")]
    {
      child := new Str[|argv| + |userArgv| + 4](_ => Null);
      CheckBinary(base, "ia32/bin/pinbin", driver);
      CheckBinary(base, "intel64/bin/pinbin", driver);
      ghost var name1 := base + (if is64Bit then "/intel64/bin/pinbin" else "/ia32/bin/pinbin");
      ghost var name3 := base + (if is64Bit then "/ia32/bin/pinbin" else "/intel64/bin/pinbin");
      var first, third := BuildNames(base, is64Bit);
      FillArgv(child, first, Text(if is64Bit then "-p32" else "-p64"), third, argv, userArgv);
      if userVector != Null { DropBefore(old(live), userVector.id, first.id, name1, third.id, name3); }
      Free(userVector);
    }

    /** The assignments to `child_argv[child_argv_ind++]`. */
    method FillArgv(child: array<Str>, first: Str, switch: Str, third: Str, argv: seq<Str>, userArgv: seq<Str>)
      requires child.Length == |argv| + |userArgv| + 4
      modifies child
      ensures var rest := if argv == [] then [] else argv[1..];
        && 3 + |userArgv| + |rest| + 1 <= child.Length
        && child[..3 + |userArgv| + |rest| + 1] == [first, switch, third] + userArgv + rest + [Null]
    {
      ghost var head := [first, switch, third];
      child[0], child[1], child[2] := first, switch, third;
      var ind := 3;
      var userArg := 0;
      while userArg < |userArgv|
        invariant userArg <= |userArgv| && ind == 3 + userArg
        invariant child[..ind] == head + userArgv[..userArg]
      {
        child[ind] := userArgv[userArg];
        ind := ind + 1;
        userArg := userArg + 1;
      }
      ghost var rest := if argv == [] then [] else argv[1..];
      var arg := 1;
      while arg < |argv|
        invariant 1 <= arg <= |argv| || (argv == [] && arg == 1)
        invariant ind == 3 + |userArgv| + arg - 1
        invariant child[..ind] == head + userArgv + rest[..arg - 1]
      {
        child[ind] := argv[arg];
        ind := ind + 1;
        arg := arg + 1;
      }
      child[ind] := Null;
      ind := ind + 1;
      assert rest[..arg - 1] == rest;
    }
  }
}
