/** `check_file_in_dir`, `search_in_path` and `find_base_path` (Mypintool/source/launcher/utils.c). */
module PathSearch {
  import opened CStrings
  import opened Optional
  import opened Splitting

  const COLON: Byte := 58
  const SLASH: Byte := 47

  /** How many blocks the allocator has given out and not got back. */
  class Blocks {
    var live: int
  }

  // ----- what the search is to find -----

  function FullName(dir: seq<Byte>, exe: seq<Byte>): seq<Byte> { dir + [SLASH] + exe }

  function FirstDir(dirs: seq<seq<Byte>>, exe: seq<Byte>, isProgram: seq<Byte> -> bool): Option<seq<Byte>> {
    if dirs == [] then None
    else if isProgram(FullName(dirs[0], exe)) then Some(dirs[0])
    else FirstDir(dirs[1..], exe, isProgram)
  }

  /** The directories looked at until one holds the program. */
  function Probes(dirs: seq<seq<Byte>>, exe: seq<Byte>, isProgram: seq<Byte> -> bool): nat {
    if dirs == [] then 0
    else if isProgram(FullName(dirs[0], exe)) then 1
    else 1 + Probes(dirs[1..], exe, isProgram)
  }

  /** `FirstDir` gives the first directory of the list that holds the program, if any does. */
  lemma {:induction false} FirstDirIsFirst(dirs: seq<seq<Byte>>, exe: seq<Byte>, isProgram: seq<Byte> -> bool)
    ensures match FirstDir(dirs, exe, isProgram)
      case None => (forall d :: d in dirs ==> !isProgram(d + [47] + exe)) && Probes(dirs, exe, isProgram) == |dirs|
      case Some(dir) =>
        var k := Probes(dirs, exe, isProgram) - 1;
        0 <= k < |dirs| && dirs[k] == dir && isProgram(dir + [47] + exe)
        && forall j :: 0 <= j < k ==> !isProgram(dirs[j] + [47] + exe)
    decreases |dirs|
  {
    if dirs != [] && !isProgram(FullName(dirs[0], exe)) {
      FirstDirIsFirst(dirs[1..], exe, isProgram);
      assert dirs == [dirs[0]] + dirs[1..];
    }
  }

  /** `found` is the first of `dirs`, joined with a slash to the name, that is a program. */
  ghost predicate FirstHolding(dirs: seq<seq<Byte>>, exe: seq<Byte>, isProgram: seq<Byte> -> bool, found: seq<Byte>) {
    exists k :: 0 <= k < |dirs| && dirs[k] == found && isProgram(dirs[k] + [47] + exe)
      && forall j :: 0 <= j < k ==> !isProgram(dirs[j] + [47] + exe)
  }

  lemma {:induction false} FirstDirHolds(dirs: seq<seq<Byte>>, exe: seq<Byte>, isProgram: seq<Byte> -> bool)
    ensures match FirstDir(dirs, exe, isProgram)
      case None => forall d :: d in dirs ==> !isProgram(d + [47] + exe)
      case Some(dir) => FirstHolding(dirs, exe, isProgram, dir)
  {
    FirstDirIsFirst(dirs, exe, isProgram);
  }

  // ----- the code -----

  method StrDup(p: Ptr, blocks: Blocks) returns (copy: array<Byte>)
    requires p.At? && Good(p)
    modifies blocks
    ensures fresh(copy) && copy[..] == Chars(p) + [0] && blocks.live == old(blocks.live) + 1
  {
    StringEnds(p.buffer[..], p.offset);
    var len := 0;
    while p.buffer[p.offset + len] != 0
      invariant len <= |Chars(p)|
      decreases |Chars(p)| - len
    {
      len := len + 1;
    }
    copy := new Byte[len + 1](j requires 0 <= j < len + 1
      && p.offset + j < p.buffer.Length reads p.buffer => p.buffer[p.offset + j]);
    blocks.live := blocks.live + 1;
  }

  /** `strchr(s + from, b)`, with -1 for null. */
  method StrChr(s: array<Byte>, from: nat, b: Byte) returns (k: int)
    requires Terminated(s[..], from) && b != 0
    ensures var text := StringAt(s[..], from);
      k == if UpTo(text, b) == |text| then -1 else from + UpTo(text, b)
  {
    StringEnds(s[..], from);
    ghost var text := StringAt(s[..], from);
    hide StringAt, Terminated, UpTo;
    k := from;
    while s[k] != 0
      invariant from <= k <= from + |text| && b !in text[..k - from]
      decreases from + |text| - k
    {
      assert k < from + |text| && text[k - from] == s[k];
      if s[k] == b {
        UpToIs(text, b, k - from);
        return;
      }
      assert text[..k + 1 - from] == text[..k - from] + [text[k - from]];
      k := k + 1;
    }
    assert text[..|text|] == text;
    UpToIs(text, b, |text|);
    k := -1;
  }

  function StringOf(buffer: array<Byte>): seq<Byte>
    reads buffer
  {
    StringAt(buffer[..], 0)
  }

  /**
   `isProgram` stands for `check_file_exists` and `check_not_directory`. The block it builds the name in is never
   freed.
   */
  method CheckFileInDir(fn: Ptr, dir: Ptr, isProgram: seq<Byte> -> bool, blocks: Blocks) returns (found: bool)
    requires fn.At? && dir.At? && Countable(fn) && Countable(dir)
    modifies blocks
    ensures found == isProgram(Chars(dir) + [47] + Chars(fn)) && blocks.live == old(blocks.live) + 1
  {
    var slash := new Byte[2](j => if j == 0 then SLASH else 0);
    StringIs(slash[..], 0, 1);
    assert Chars(At(slash, 0)) == slash[..][0..1] == [SLASH];
    var buff := AppendPath(dir, At(slash, 0), fn);
    blocks.live := blocks.live + 1;
    found := isProgram(StringOf(buff));
  }

  /** The copy of PATH while it is being cut: separators before `dir` are NULs, all else is untouched. */
  ghost predicate CutBefore(copy: seq<Byte>, path: seq<Byte>, dir: nat) {
    && dir <= |path| && |copy| == |path| + 1 && copy[|path|] == 0
    && forall k :: 0 <= k < |path| ==> copy[k] == if k < dir && path[k] == COLON then 0 else path[k]
  }

  lemma {:induction false} TailOfCopy(copy: seq<Byte>, path: seq<Byte>, dir: nat)
    requires CutBefore(copy, path, dir) && 0 !in path
    ensures Terminated(copy, dir) && StringAt(copy, dir) == path[dir..]
  {
    assert forall k :: dir <= k < |path| ==> copy[k] == path[k] && path[k] in path;
    StringIs(copy, dir, |path|);
    assert copy[dir..|path|] == path[dir..];
  }

  lemma {:induction false} CutOne(copy: seq<Byte>, path: seq<Byte>, dir: nat, sep: nat)
    requires CutBefore(copy, path, dir) && 0 !in path && dir <= sep < |path| && path[sep] == COLON
    requires COLON !in path[dir..sep]
    ensures var cut := copy[sep := 0];
      CutBefore(cut, path, sep + 1) && Terminated(cut, dir) && StringAt(cut, dir) == path[dir..sep]
  {
    var cut := copy[sep := 0];
    assert forall k :: dir <= k < sep ==> path[dir..sep][k - dir] == path[k];
    assert forall k :: dir <= k < sep ==> path[k] != COLON && path[k] in path;
    StringIs(cut, dir, sep);
    assert cut[dir..sep] == path[dir..sep];
  }

  /** What is left to search when the cursor is at `dir`. */
  ghost predicate SearchFrom(path: seq<Byte>, dir: nat, exe: seq<Byte>, isProgram: seq<Byte> -> bool, tried: nat)
    requires dir <= |path|
  {
    && FirstDir(Split(path, COLON), exe, isProgram) == FirstDir(Split(path[dir..], COLON), exe, isProgram)
    && Probes(Split(path, COLON), exe, isProgram) == tried + Probes(Split(path[dir..], COLON), exe, isProgram)
    && forall c :: c in Split(path[dir..], COLON) ==> c in Split(path, COLON)
  }

  lemma {:induction false} FirstOfParts(head: seq<Byte>, tail: seq<seq<Byte>>, exe: seq<Byte>,
      isProgram: seq<Byte> -> bool)
    ensures head in [head] + tail && forall c :: c in tail ==> c in [head] + tail
    ensures FirstDir([head] + tail, exe, isProgram) ==
        if isProgram(FullName(head, exe)) then Some(head) else FirstDir(tail, exe, isProgram)
    ensures Probes([head] + tail, exe, isProgram) ==
        if isProgram(FullName(head, exe)) then 1 else 1 + Probes(tail, exe, isProgram)
  {
    assert ([head] + tail)[1..] == tail;
  }

  lemma {:induction false} SearchOn(path: seq<Byte>, dir: nat, sep: nat, exe: seq<Byte>, isProgram: seq<Byte> -> bool,
      tried: nat)
    requires dir <= |path| && SearchFrom(path, dir, exe, isProgram, tried)
    requires sep == dir + UpTo(path[dir..], COLON) < |path|
    ensures path[dir..sep] in Split(path, COLON)
    ensures isProgram(FullName(path[dir..sep], exe)) ==>
      && FirstDir(Split(path, COLON), exe, isProgram) == Some(path[dir..sep])
      && Probes(Split(path, COLON), exe, isProgram) == tried + 1
    ensures !isProgram(FullName(path[dir..sep], exe)) ==> SearchFrom(path, sep + 1, exe, isProgram, tried + 1)
  {
    hide FullName, UpTo;
    var rest := path[dir..];
    SplitAtFirst(rest, COLON);
    assert rest[..sep - dir] == path[dir..sep] && rest[sep - dir + 1..] == path[sep + 1..];
    FirstOfParts(path[dir..sep], Split(path[sep + 1..], COLON), exe, isProgram);
  }

  lemma {:induction false} SearchLast(path: seq<Byte>, dir: nat, exe: seq<Byte>, isProgram: seq<Byte> -> bool,
      tried: nat)
    requires dir <= |path| && SearchFrom(path, dir, exe, isProgram, tried) && UpTo(path[dir..], COLON) == |path[dir..]|
    ensures path[dir..] in Split(path, COLON)
    ensures FirstDir(Split(path, COLON), exe, isProgram) ==
        if isProgram(FullName(path[dir..], exe)) then Some(path[dir..]) else None
    ensures Probes(Split(path, COLON), exe, isProgram) == tried + 1
  {
    var parts := Split(path[dir..], COLON);
    assert parts == [path[dir..]] && parts[0] in parts;
    assert FirstDir(parts[1..], exe, isProgram) == None && Probes(parts[1..], exe, isProgram) == 0;
    assert FirstDir(parts, exe, isProgram) == if isProgram(FullName(parts[0], exe)) then Some(parts[0]) else None;
  }

  /** `if (check_file_in_dir(exename, dir, buff)) path = strdup(dir)` */
  method TryDir(exename: Ptr, dir: Ptr, isProgram: seq<Byte> -> bool, blocks: Blocks) returns (path: array?<Byte>)
    requires exename.At? && dir.At? && Countable(exename) && Countable(dir)
    modifies blocks
    ensures path != null <==> isProgram(FullName(Chars(dir), Chars(exename)))
    ensures path != null ==> fresh(path) && path[..] == Chars(dir) + [0]
    ensures blocks.live == old(blocks.live) + if path == null then 1 else 2
  {
    var found := CheckFileInDir(exename, dir, isProgram, blocks);
    path := null;
    if found {
      path := StrDup(dir, blocks);
    }
  }

  lemma SearchStart(path: seq<Byte>, exe: seq<Byte>, isProgram: seq<Byte> -> bool)
    ensures SearchFrom(path, 0, exe, isProgram, 0)
  {
    assert path[0..] == path;
  }

  lemma IsCountable(p: Ptr)
    requires Good(p) && (p.At? ==> 0 < |Chars(p)| <= PATH_MAX_SIZE)
    ensures Countable(p)
  {
  }

  lemma IsGood(p: Ptr)
    requires p.At? ==> Terminated(p.buffer[..], p.offset)
    ensures Good(p)
  {
  }

  method CopyPath(envPath: Ptr, blocks: Blocks) returns (syspath: array<Byte>)
    requires envPath.At? && Good(envPath)
    modifies blocks
    ensures fresh(syspath) && CutBefore(syspath[..], Chars(envPath), 0) && 0 !in Chars(envPath)
    ensures blocks.live == old(blocks.live) + 1
  {
    ghost var whole := Chars(envPath);
    StringEnds(envPath.buffer[..], envPath.offset);
    assert forall k :: 0 <= k < |whole| ==> whole[k] == envPath.buffer[envPath.offset + k];
    syspath := StrDup(envPath, blocks);
  }

  method NextSeparator(syspath: array<Byte>, dir: nat, ghost whole: seq<Byte>) returns (dirsep: int)
    requires CutBefore(syspath[..], whole, dir) && 0 !in whole && dir <= |whole|
    ensures var k := UpTo(whole[dir..], COLON);
      dirsep == if k == |whole[dir..]| then -1 else dir + k
    ensures dirsep != -1 ==> dir <= dirsep < |whole|
  {
    TailOfCopy(syspath[..], whole, dir);
    dirsep := StrChr(syspath, dir, COLON);
  }

  /** `*dirsep = 0` */
  method Cut(syspath: array<Byte>, dir: nat, dirsep: nat, ghost whole: seq<Byte>)
    requires CutBefore(syspath[..], whole, dir) && 0 !in whole
    requires dirsep == dir + UpTo(whole[dir..], COLON) < |whole|
    modifies syspath
    ensures CutBefore(syspath[..], whole, dirsep + 1)
    ensures Good(At(syspath, dir)) && Chars(At(syspath, dir)) == whole[dir..dirsep]
  {
    assert whole[dir..][..dirsep - dir] == whole[dir..dirsep];
    assert whole[dir..][dirsep - dir] == whole[dirsep];
    CutOne(syspath[..], whole, dir, dirsep);
    syspath[dirsep] := 0;
  }

  /** The directory behind the last separator. */
  method TryTail(exename: Ptr, syspath: array<Byte>, dir: nat, ghost whole: seq<Byte>, isProgram: seq<Byte> -> bool,
      blocks: Blocks)
      returns (path: array?<Byte>)
    requires exename.At? && Countable(exename) && CutBefore(syspath[..], whole, dir) && 0 !in whole && dir <= |whole|
    requires 0 < |whole[dir..]| <= PATH_MAX_SIZE
    modifies blocks
    ensures path != null <==> isProgram(FullName(whole[dir..], Chars(exename)))
    ensures path != null ==> fresh(path) && path[..] == whole[dir..] + [0]
    ensures blocks.live == old(blocks.live) + if path == null then 1 else 2
  {
    hide StringAt, Terminated, CutBefore, Countable, Good;
    TailOfCopy(syspath[..], whole, dir);
    IsGood(At(syspath, dir));
    IsCountable(At(syspath, dir));
    path := TryDir(exename, At(syspath, dir), isProgram, blocks);
  }

  /**
   `search_in_path`: the first directory of PATH that holds the program, in a new block, or null when none
   does. PATH itself is left alone. One block is left behind for every directory looked at.
   */
  method SearchInPath(exename: Ptr, envPath: Ptr, isProgram: seq<Byte> -> bool, blocks: Blocks)
      returns (path: array?<Byte>)
    requires exename.At? && Countable(exename) && envPath.At? && Good(envPath)
    requires forall c :: c in Split(Chars(envPath), COLON) ==> 0 < |c| <= PATH_MAX_SIZE
    modifies blocks
    ensures var dir := FirstDir(Split(Chars(envPath), 58), Chars(exename), isProgram);
      && (path == null <==> dir == None)
      && (path != null ==> fresh(path) && path[..] == dir.value + [0])
    ensures blocks.live == old(blocks.live)
      + Probes(Split(Chars(envPath), COLON), Chars(exename), isProgram) + if path == null then 0 else 1
  {
    hide Split, FirstDir, Probes, StringAt, Terminated, UpTo, FullName, Countable, CutBefore, SearchFrom, Good;
    ghost var whole, exe := Chars(envPath), Chars(exename);
    var syspath := CopyPath(envPath, blocks);
    SearchStart(whole, exe, isProgram);
    blocks.live := blocks.live + 1;    // buff, which is never written
    var dir := 0;
    ghost var tried := 0;
    var dirsep := NextSeparator(syspath, dir, whole);
    while dirsep != -1
      invariant dir <= |whole| && CutBefore(syspath[..], whole, dir) && fresh(syspath)
      invariant dirsep == if UpTo(whole[dir..], COLON) == |whole[dir..]| then -1 else dir + UpTo(whole[dir..], COLON)
      invariant dir <= dirsep < |whole| || dirsep == -1
      invariant SearchFrom(whole, dir, exe, isProgram, tried)
      invariant blocks.live == old(blocks.live) + 2 + tried
      decreases |whole| - dir
    {
      SearchOn(whole, dir, dirsep, exe, isProgram, tried);
      Cut(syspath, dir, dirsep, whole);
      IsCountable(At(syspath, dir));
      path := TryDir(exename, At(syspath, dir), isProgram, blocks);
      if path != null {
        blocks.live := blocks.live - 2;   // free(syspath), free(buff)
        return;
      }
      dir, tried := dirsep + 1, tried + 1;
      dirsep := NextSeparator(syspath, dir, whole);
    }
    SearchLast(whole, dir, exe, isProgram, tried);
    path := TryTail(exename, syspath, dir, whole, isProgram, blocks);
    blocks.live := blocks.live - 2;
  }

  // ----- find_base_path -----

  /** The part of `name` before its last slash. */
  function BeforeLastSlash(name: seq<Byte>): seq<Byte>
    requires SLASH in name
  {
    if name[|name| - 1] == SLASH then name[..|name| - 1] else BeforeLastSlash(name[..|name| - 1])
  }

  function BasePath(name: seq<Byte>, path: seq<Byte>, isProgram: seq<Byte> -> bool): seq<Byte> {
    if SLASH in name then BeforeLastSlash(name)
    else match FirstDir(Split(path, COLON), name, isProgram)
      case Some(dir) => dir
      case None => name
  }

  lemma {:induction false} BeforeLastSlashIs(name: seq<Byte>, k: nat)
    requires k < |name| && name[k] == SLASH && SLASH !in name[k + 1..]
    ensures BeforeLastSlash(name) == name[..k]
    decreases |name|
  {
    var n := |name| - 1;
    if k < n {
      assert name[n] == name[k + 1..][n - k - 1];
      assert name[..n][k + 1..] == name[k + 1..][..n - k - 1];
      BeforeLastSlashIs(name[..n], k);
      assert name[..n][..k] == name[..k];
    }
  }

  lemma {:induction false} LastSlashSplits(name: seq<Byte>) returns (file: seq<Byte>)
    requires SLASH in name
    ensures 47 !in file && name == BeforeLastSlash(name) + [47] + file
    decreases |name|
  {
    var n := |name| - 1;
    assert name == name[..n] + [name[n]];
    if name[n] == SLASH {
      file := [];
    } else {
      var rest := LastSlashSplits(name[..n]);
      file := rest + [name[n]];
    }
  }

  /** The base path, a slash and the file make up a name with a slash; for other names PATH is searched. */
  lemma {:induction false} BasePathSpelledOut(name: seq<Byte>, path: seq<Byte>, isProgram: seq<Byte> -> bool)
    ensures var base := BasePath(name, path, isProgram);
      && (47 in name ==> exists file :: 47 !in file && name == base + [47] + file)
      && (47 !in name ==>
            || FirstHolding(Split(path, 58), name, isProgram, base)
            || (base == name && forall d :: d in Split(path, 58) ==> !isProgram(d + [47] + name)))
  {
    hide BeforeLastSlash, FirstHolding;
    if 47 in name {
      var file := LastSlashSplits(name);
    } else {
      FirstDirHolds(Split(path, COLON), name, isProgram);
    }
  }

  /** `strrchr(s, '/')`, with -1 for null. */
  method LastSlash(s: array<Byte>, ghost text: seq<Byte>) returns (k: int)
    requires s[..] == text + [0]
    ensures -1 <= k < |text| && (k == -1 ==> SLASH !in text)
    ensures k >= 0 ==> text[k] == SLASH && SLASH !in text[k + 1..]
  {
    k := s.Length - 2;
    while k >= 0 && s[k] != SLASH
      invariant -1 <= k < |text|
      invariant forall j :: k < j < |text| ==> s[j] != SLASH
    {
      k := k - 1;
    }
    assert forall j :: 0 <= j < |text| ==> s[j] == text[j];
  }

  lemma {:induction false} CutText(memory: seq<Byte>, name: seq<Byte>, x: nat)
    requires x < |name| && |memory| == |name| + 1 && memory[x] == 0 && memory[..x] == name[..x] && 0 !in name[..x]
    ensures Terminated(memory, 0) && StringAt(memory, 0) == name[..x]
  {
    assert forall k :: 0 <= k < x ==> memory[k] == memory[..x][k] && memory[..x][k] in name[..x];
    StringIs(memory, 0, x);
    assert memory[0..x] == memory[..x];
  }

  lemma {:induction false} PartsHaveNoNul(s: seq<Byte>)
    requires 0 !in s
    ensures forall c :: c in Split(s, COLON) ==> 0 !in c
    decreases |s|
  {
    var k := UpTo(s, COLON);
    if k < |s| { PartsHaveNoNul(s[k + 1..]); }
  }

  /** A directory found in PATH is a piece of it. */
  lemma {:induction false} FoundHasNoNul(exe: seq<Byte>, path: seq<Byte>, isProgram: seq<Byte> -> bool)
    ensures 0 !in path ==> match FirstDir(Split(path, COLON), exe, isProgram)
      case Some(dir) => 0 !in dir
      case None => true
  {
    if 0 !in path {
      PartsHaveNoNul(path);
      FirstDirIsFirst(Split(path, COLON), exe, isProgram);
    }
  }

  /** `find_base_path`: the directory part of the name, or where PATH finds it, or the name itself. */
  method FindBasePath(filename: Ptr, envPath: Ptr, isProgram: seq<Byte> -> bool, blocks: Blocks)
      returns (path: array<Byte>)
    requires filename.At? && Good(filename)
    requires SLASH !in Chars(filename) ==> Countable(filename) && envPath.At? && Good(envPath)
    requires SLASH !in Chars(filename) ==> forall c :: c in Split(Chars(envPath), COLON) ==> 0 < |c| <= PATH_MAX_SIZE
    modifies blocks
    ensures fresh(path) && Terminated(path[..], 0)
    ensures StringAt(path[..], 0) == BasePath(Chars(filename), Chars(envPath), isProgram)
    ensures blocks.live == old(blocks.live) + 1
      + if SLASH in Chars(filename) then 0 else Probes(Split(Chars(envPath), COLON), Chars(filename), isProgram)
  {
    hide Split, FirstDir, Probes, StringAt, Terminated, BeforeLastSlash;
    ghost var name := Chars(filename);
    assert 0 !in name by { StringEnds(filename.buffer[..], filename.offset); }
    var copy := StrDup(filename, blocks);
    var x := LastSlash(copy, name);
    if x != -1 {
      BeforeLastSlashIs(name, x);
      copy[x] := 0;
      assert 0 !in name[..x];
      CutText(copy[..], name, x);
      path := copy;
    } else {
      var found := SearchInPath(filename, envPath, isProgram, blocks);
      if found != null {
        blocks.live := blocks.live - 1;
        FoundHasNoNul(name, Chars(envPath), isProgram);
        assert 0 !in Chars(envPath) by { StringEnds(envPath.buffer[..], envPath.offset); }
        path := found;
        TextThenNul(path[..], path[..path.Length - 1]);
      } else {
        path := copy;
        TextThenNul(path[..], name);
      }
    }
  }
}
