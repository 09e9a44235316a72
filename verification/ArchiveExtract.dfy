// The extraction loop: entry and size budgets over a stream of archive members,
// with int64 counters as in the source, and every exit including the errors.
module ArchiveExtract {
  import opened Options
  import opened ArchivePath

  newtype int64 = x: int | -0x8000_0000_0000_0000 <= x < 0x8000_0000_0000_0000

  const MAX_ENTRIES: int64 := 64
  const MAX_TOTAL_SIZE: int64 := 536_870_912 // 512 MiB
  const MAX_FILE_SIZE: int64 := 268_435_456  // 256 MiB

  datatype Kind = Regular | Directory | Link | Other

  // One answer of the tar reader. available is what the reader would deliver for
  // the member; the flags are the outcomes of the file-system calls.
  datatype Item =
    | ReadError
    | Member(kind: Kind, name: string, size: int64, available: nat, mkdirOk: bool, openOk: bool, chmodOk: bool, copyOk: bool)

  datatype ExtractError =
    | ReadFailed | TooManyEntries | BadPath(why: PathError) | LinkNotAllowed | UnsupportedType
    | MemberTooLarge | ArchiveTooLarge | IOFailed | LargerThanDeclared | NoBinary

  datatype Written = Written(path: string, bytes: nat)

  function TotalBytes(files: seq<Written>): nat {
    if files == [] then 0 else TotalBytes(files[..|files| - 1]) + files[|files| - 1].bytes
  }

  predicate AllWithin(files: seq<Written>, limit: int) {
    forall f :: f in files ==> f.bytes <= limit
  }

  function Base(path: string): string {
    var p := Elements(path);
    if p == [] then "/" else p[|p| - 1]
  }

  predicate IsBinaryName(base: string) { base == "bedrud" || base == "bedrud.exe" }

  function Target(root: seq<string>, name: string): string {
    Rooted(root + Keep(Split(ReplaceBackslashes(name))))
  }

  // A path strictly below the root.
  ghost predicate Below(root: seq<string>, path: string) {
    exists segs :: segs != [] && AllPlain(segs) && path == Rooted(root + segs)
  }

  function LastSegment(name: string): string {
    var segs := Keep(Split(ReplaceBackslashes(name)));
    if segs == [] then "" else segs[|segs| - 1]
  }

  // A regular member whose last path segment is bedrud or bedrud.exe.
  predicate IsBinary(item: Item) {
    item.Member? && item.kind == Regular && IsBinaryName(LastSegment(item.name))
  }

  function ItemSize(item: Item): nat {
    if item.Member? && item.kind == Regular then item.available else 0
  }

  // Bytes of the regular members.
  function DataSize(items: seq<Item>): nat {
    if items == [] then 0 else DataSize(items[..|items| - 1]) + ItemSize(items[|items| - 1])
  }

  // The member extracts without error after `before` bytes.
  predicate Extracts(item: Item, before: nat) {
    item.Member? && Acceptable(item.name) && item.mkdirOk &&
    (item.kind == Directory ||
     (item.kind == Regular && 0 <= item.size <= MAX_FILE_SIZE && before + item.size as int <= MAX_TOTAL_SIZE as int &&
      item.openOk && (IsBinary(item) ==> item.chmodOk) && item.copyOk && item.available <= item.size as int))
  }

  predicate AllExtract(items: seq<Item>) {
    items == [] ||
    (AllExtract(items[..|items| - 1]) && Extracts(items[|items| - 1], DataSize(items[..|items| - 1])))
  }

  lemma {:induction false} AllExtractPrefix(items: seq<Item>, k: nat)
    requires AllExtract(items) && k < |items|
    ensures AllExtract(items[..k]) && Extracts(items[k], DataSize(items[..k]))
  {
    var front := items[..|items| - 1];
    if k < |front| {
      AllExtractPrefix(front, k);
      assert front[..k] == items[..k] && front[k] == items[k];
    }
  }

  // The last regular member named bedrud or bedrud.exe.
  function LastBinary(items: seq<Item>): (k: Option<nat>)
    ensures k.Some? ==> k.value < |items| && items[k.value].Member?
  {
    if items == [] then None
    else if IsBinary(items[|items| - 1]) then Some(|items| - 1)
    else LastBinary(items[..|items| - 1])
  }

  lemma {:induction false} LastIsBinary(items: seq<Item>)
    requires LastBinary(items).Some?
    ensures IsBinary(items[LastBinary(items).value])
  {
    var front := items[..|items| - 1];
    if LastBinary(items) == LastBinary(front) {
      LastIsBinary(front);
    }
  }

  lemma {:induction false} NoLaterBinary(items: seq<Item>, k: nat)
    requires k < |items| && IsBinary(items[k])
    ensures LastBinary(items).Some? && k <= LastBinary(items).value
  {
    var front := items[..|items| - 1];
    if k < |front| {
      assert front[k] == items[k];
      NoLaterBinary(front, k);
    }
  }

  // The file system below the extraction root.
  class Disk {
    var files: seq<Written>
    var dirs: seq<string>

    ghost predicate Confined(root: seq<string>) reads this {
      (forall f :: f in files ==> Below(root, f.path)) && (forall d :: d in dirs ==> Below(root, d) || d == Rooted(root))
    }

    constructor ()
      ensures files == [] && dirs == []
    {
      files, dirs := [], [];
    }
  }

  // filepath.Dir of a path below the root.
  function Dir(path: string): string {
    var p := Elements(path);
    if p == [] then "/" else Rooted(p[..|p| - 1])
  }

  lemma DirRooted(segs: seq<string>)
    requires segs != [] && AllPlain(segs)
    ensures Dir(Rooted(segs)) == Rooted(segs[..|segs| - 1])
  {
    SplitRooted(segs);
  }

  lemma AllPlainConcat(a: seq<string>, b: seq<string>)
    requires AllPlain(a) && AllPlain(b)
    ensures AllPlain(a + b)
  {
  }

  lemma DirBelow(root: seq<string>, path: string)
    requires AllPlain(root) && Below(root, path)
    ensures Below(root, Dir(path)) || Dir(path) == Rooted(root)
  {
    var segs :| segs != [] && AllPlain(segs) && path == Rooted(root + segs);
    var up := segs[..|segs| - 1];
    AllPlainConcat(root, segs);
    DirRooted(root + segs);
    assert (root + segs)[..|root + segs| - 1] == root + up;
    if up == [] { assert root + up == root; }
  }

  lemma AppendFile(files: seq<Written>, f: Written)
    ensures TotalBytes(files + [f]) == TotalBytes(files) + f.bytes
  {
    assert (files + [f])[..|files|] == files;
  }

  lemma TargetBelow(root: seq<string>, name: string)
    requires AllPlain(root) && Acceptable(name)
    ensures Below(root, Target(root, name)) && Target(root, name) != ""
  {
    AcceptedPathStaysBelow(root, name);
  }

  lemma BaseRooted(root: seq<string>, segs: seq<string>)
    requires AllPlain(root) && AllPlain(segs) && segs != []
    ensures Base(Rooted(root + segs)) == segs[|segs| - 1]
  {
    AllPlainConcat(root, segs);
    SplitRooted(root + segs);
    assert Elements(Rooted(root + segs)) == root + segs;
  }

  lemma BaseOfTarget(root: seq<string>, name: string)
    requires AllPlain(root) && Acceptable(name)
    ensures Base(Target(root, name)) == LastSegment(name)
  {
    AcceptedPathStaysBelow(root, name);
    BaseRooted(root, Keep(Split(ReplaceBackslashes(name))));
  }

  // Writes one regular member; n bytes reach the disk even when the copy fails.
  method WriteMember(root: seq<string>, item: Item, target: string, disk: Disk) returns (r: Result<int64, ExtractError>)
    requires item.Member? && item.kind == Regular && 0 <= item.size <= MAX_FILE_SIZE
    requires AllPlain(root) && Acceptable(item.name) && target == Target(root, item.name)
    requires disk.Confined(root)
    modifies disk
    ensures disk.Confined(root)
    ensures r.Ok? <==> item.mkdirOk && item.openOk && (IsBinary(item) ==> item.chmodOk) && item.copyOk && item.available <= item.size as int
    ensures r.Ok? ==> r.value as int == item.available && disk.files == old(disk.files) + [Written(target, item.available)]
    ensures r.Ok? ==> disk.dirs == old(disk.dirs) + [Dir(target)]
    ensures r.Err? ==>
              (disk.files == old(disk.files) ||
               exists n: nat :: n <= item.size as int + 1 && disk.files == old(disk.files) + [Written(target, n)])
  {
    TargetBelow(root, item.name);
    DirBelow(root, target);
    BaseOfTarget(root, item.name);
    if !item.mkdirOk { return Err(IOFailed); }
    disk.dirs := disk.dirs + [Dir(target)];
    if !item.openOk { return Err(IOFailed); }
    if IsBinaryName(Base(target)) && !item.chmodOk {
      disk.files := disk.files + [Written(target, 0)]; // created, still empty
      return Err(IOFailed);
    }
    var limit: int64 := item.size + 1;
    var n: int64 := if item.available <= limit as int then item.available as int64 else limit;
    disk.files := disk.files + [Written(target, n as int)];
    if !item.copyOk { return Err(IOFailed); }
    if n > item.size { return Err(LargerThanDeclared); }
    return Ok(n);
  }

  lemma PartialWrite(before: seq<Written>, after: seq<Written>, path: string, size: int64)
    requires after == before || exists n: nat :: n <= size as int + 1 && after == before + [Written(path, n)]
    requires 0 <= size
    ensures TotalBytes(after) <= TotalBytes(before) + size as int + 1
    ensures AllWithin(before, MAX_FILE_SIZE as int) && size <= MAX_FILE_SIZE ==> AllWithin(after, MAX_FILE_SIZE as int + 1)
  {
    if n: nat :| n <= size as int + 1 && after == before + [Written(path, n)] {
      AppendFile(before, Written(path, n));
    }
  }

  // What the member adds to the files on disk.
  function Files(root: seq<string>, item: Item): seq<Written> {
    if item.Member? && item.kind == Regular then [Written(Target(root, item.name), item.available)] else []
  }

  // The directories it makes sure of: itself, or the one its file goes to.
  function Dirs(root: seq<string>, item: Item): seq<string> {
    if item.Member? && item.kind == Directory then [Target(root, item.name)]
    else if item.Member? && item.kind == Regular then [Dir(Target(root, item.name))]
    else []
  }

  // The loop's accounts: bytes extracted, and the path of the last binary.
  datatype Progress = Progress(total: int64, found: string)

  // One member after the entry budget let it in.
  method ExtractMember(root: seq<string>, item: Item, p: Progress, disk: Disk) returns (r: Result<Progress, ExtractError>)
    requires AllPlain(root) && item.Member? && 0 <= p.total <= MAX_TOTAL_SIZE && disk.Confined(root)
    modifies disk
    ensures disk.Confined(root)
    ensures r.Ok? <==> Extracts(item, p.total as int)
    ensures r.Ok? ==> disk.files == old(disk.files) + Files(root, item) && disk.dirs == old(disk.dirs) + Dirs(root, item)
    ensures r.Ok? ==> r.value.total as int == p.total as int + ItemSize(item) <= MAX_TOTAL_SIZE as int
    ensures r.Ok? ==> r.value.found == if IsBinary(item) then Target(root, item.name) else p.found
    ensures r.Ok? && IsBinary(item) ==> Below(root, r.value.found) && r.value.found != ""
    ensures r.Err? ==> TotalBytes(disk.files) <= TotalBytes(old(disk.files)) + (MAX_TOTAL_SIZE - p.total) as int + 1
    ensures AllWithin(old(disk.files), MAX_FILE_SIZE as int) ==> AllWithin(disk.files, MAX_FILE_SIZE as int + (if r.Ok? then 0 else 1))
  {
    AcceptedPathStaysBelow(root, item.name);
    match item.kind {
      case Directory =>
        var clean := SafeArchivePath(Rooted(root), item.name);
        if clean.Err? { return Err(BadPath(clean.error)); }
        if !item.mkdirOk { return Err(IOFailed); }
        disk.dirs := disk.dirs + [clean.value];
        return Ok(p);
      case Link => return Err(LinkNotAllowed);
      case Other => return Err(UnsupportedType);
      case Regular =>
        if item.size < 0 || item.size > MAX_FILE_SIZE { return Err(MemberTooLarge); }
        if p.total + item.size > MAX_TOTAL_SIZE { return Err(ArchiveTooLarge); }
        var target := SafeArchivePath(Rooted(root), item.name);
        if target.Err? { return Err(BadPath(target.error)); }
        var written := WriteMember(root, item, target.value, disk);
        if written.Err? {
          PartialWrite(old(disk.files), disk.files, target.value, item.size);
          return Err(written.error);
        }
        BaseOfTarget(root, item.name);
        TargetBelow(root, item.name);
        return Ok(Progress(p.total + written.value, if IsBinaryName(Base(target.value)) then target.value else p.found));
    }
  }

  function AllFiles(root: seq<string>, items: seq<Item>): seq<Written> {
    if items == [] then [] else AllFiles(root, items[..|items| - 1]) + Files(root, items[|items| - 1])
  }

  function AllDirs(root: seq<string>, items: seq<Item>): seq<string> {
    if items == [] then [] else AllDirs(root, items[..|items| - 1]) + Dirs(root, items[|items| - 1])
  }

  lemma {:induction false} AllFilesSize(root: seq<string>, items: seq<Item>)
    ensures TotalBytes(AllFiles(root, items)) == DataSize(items)
  {
    if items != [] {
      var front, item := items[..|items| - 1], items[|items| - 1];
      AllFilesSize(root, front);
      if item.Member? && item.kind == Regular {
        AppendFile(AllFiles(root, front), Files(root, item)[0]);
      } else {
        assert AllFiles(root, items) == AllFiles(root, front);
      }
    }
  }

  lemma NextMember(root: seq<string>, done: seq<Item>, item: Item)
    ensures DataSize(done + [item]) == DataSize(done) + ItemSize(item)
    ensures AllExtract(done + [item]) <==> AllExtract(done) && Extracts(item, DataSize(done))
    ensures LastBinary(done + [item]) == if IsBinary(item) then Some(|done|) else LastBinary(done)
    ensures AllFiles(root, done + [item]) == AllFiles(root, done) + Files(root, item)
    ensures AllDirs(root, done + [item]) == AllDirs(root, done) + Dirs(root, item)
  {
    assert (done + [item])[..|done|] == done;
  }

  // found is the path of the last binary, or empty when there is none.
  ghost predicate Finds(root: seq<string>, items: seq<Item>, found: string) {
    match LastBinary(items)
    case None => found == ""
    case Some(k) => found != "" && found == Target(root, items[k].name) && Below(root, found)
  }

  // Where the loop stands after the members in done were extracted.
  ghost predicate Extracted(root: seq<string>, done: seq<Item>, p: Progress, disk: Disk)
    reads disk
  {
    disk.Confined(root) && Accounts(root, done, p, disk.files, disk.dirs)
  }

  ghost predicate Accounts(root: seq<string>, done: seq<Item>, p: Progress, files: seq<Written>, dirs: seq<string>) {
    AllExtract(done) && files == AllFiles(root, done) && dirs == AllDirs(root, done) && AllWithin(files, MAX_FILE_SIZE as int) &&
    p.total as int == DataSize(done) <= MAX_TOTAL_SIZE as int && Finds(root, done, p.found)
  }

  lemma AccountsNext(root: seq<string>, done: seq<Item>, item: Item, p: Progress, p': Progress, files: seq<Written>, dirs: seq<string>)
    requires Accounts(root, done, p, files, dirs) && Extracts(item, p.total as int)
    requires p'.total as int == p.total as int + ItemSize(item) <= MAX_TOTAL_SIZE as int
    requires p'.found == if IsBinary(item) then Target(root, item.name) else p.found
    requires IsBinary(item) ==> Below(root, p'.found) && p'.found != ""
    requires AllWithin(files + Files(root, item), MAX_FILE_SIZE as int)
    ensures Accounts(root, done + [item], p', files + Files(root, item), dirs + Dirs(root, item))
  {
    NextMember(root, done, item);
  }

  method ExtractNext(root: seq<string>, ghost done: seq<Item>, item: Item, p: Progress, disk: Disk) returns (r: Result<Progress, ExtractError>)
    requires AllPlain(root) && item.Member? && Extracted(root, done, p, disk)
    modifies disk
    ensures r.Ok? ==> Extracted(root, done + [item], r.value, disk)
    ensures r.Err? ==> !Extracts(item, DataSize(done)) && disk.Confined(root)
    ensures r.Err? ==> TotalBytes(disk.files) <= MAX_TOTAL_SIZE as int + 1 && AllWithin(disk.files, MAX_FILE_SIZE as int + 1)
  {
    AllFilesSize(root, done);
    r := ExtractMember(root, item, p, disk);
    if r.Ok? { AccountsNext(root, done, item, p, r.value, old(disk.files), old(disk.dirs)); }
  }

  lemma TakeOne(items: seq<Item>, i: nat)
    requires i < |items|
    ensures items[..i + 1] == items[..i] + [items[i]]
  {
  }

  lemma TakeAll(items: seq<Item>)
    ensures items[..|items|] == items
  {
  }

  lemma StopsHere(items: seq<Item>, i: nat)
    requires i < |items| && !Extracts(items[i], DataSize(items[..i]))
    ensures !AllExtract(items)
  {
    if AllExtract(items) { AllExtractPrefix(items, i); }
  }

  // root is the clean absolute destination; entries is how many members were
  // admitted past the entry budget.
  method SafeExtractArchive(root: seq<string>, items: seq<Item>, disk: Disk) returns (r: Result<string, ExtractError>, entries: int64)
    requires AllPlain(root) && disk.files == [] && disk.dirs == []
    modifies disk
    ensures 0 <= entries as int <= |items| && entries <= 64
    ensures disk.Confined(root)
    ensures TotalBytes(disk.files) <= 536_870_913
    ensures AllWithin(disk.files, 268_435_456 + (if r.Ok? then 0 else 1))
    ensures r.Ok? <==> |items| <= 64 && AllExtract(items) && LastBinary(items).Some?
    ensures r.Ok? ==> Finds(root, items, r.value) && entries as int == |items| && disk.files == AllFiles(root, items) && disk.dirs == AllDirs(root, items)
  {
    entries := 0;
    var p := Progress(0, "");
    var i := 0;
    while i < |items|
      invariant 0 <= i <= |items| && entries as int == i && entries <= MAX_ENTRIES
      invariant Extracted(root, items[..i], p, disk)
    {
      AllFilesSize(root, items[..i]);
      if items[i].ReadError? {
        StopsHere(items, i);
        return Err(ReadFailed), entries;
      }
      if entries + 1 > MAX_ENTRIES { return Err(TooManyEntries), entries; }
      entries := entries + 1;
      var step := ExtractNext(root, items[..i], items[i], p, disk);
      if step.Err? {
        StopsHere(items, i);
        return Err(step.error), entries;
      }
      TakeOne(items, i);
      p := step.value;
      i := i + 1;
    }
    TakeAll(items);
    AllFilesSize(root, items);
    if p.found == "" { return Err(NoBinary), entries; }
    return Ok(p.found), entries;
  }

  // ---- binaries by their raw names ----

  predicate NoSeparators(s: string) { forall c :: c in s ==> !IsSeparator(c) }

  lemma ReplaceBefore(dir: string, base: string)
    requires NoSeparators(base)
    ensures ReplaceBackslashes(dir + base) == ReplaceBackslashes(dir) + base
  {
    forall i | 0 <= i < |base| ensures base[i] != '\\' { assert base[i] in base; }
  }

  // The last segment of a name is what follows its last separator, of either kind.
  lemma {:induction false} LastSegmentOf(dir: string, base: string)
    requires dir == "" || IsSeparator(dir[|dir| - 1])
    requires base != "" && base != "." && NoSeparators(base)
    ensures LastSegment(dir + base) == base
  {
    ReplaceBefore(dir, base);
    SplitPlain(base);
    KeepOne(base);
    if dir == "" {
      assert ReplaceBackslashes(dir) + base == base;
    } else {
      var front := ReplaceBackslashes(dir)[..|dir| - 1];
      assert ReplaceBackslashes(dir) + base == front + "/" + base;
      SplitConcat(front, base);
      KeepConcat(Split(front), [base]);
    }
  }

  lemma KeepOne(base: string)
    requires base != "" && base != "."
    ensures Keep([base]) == [base]
  {
    assert [base][..0] == [];
  }

  // After `before` bytes a sound regular member extracts exactly within both budgets.
  lemma BudgetsIff(name: string, size: int64, available: nat, before: nat)
    requires Acceptable(name)
    ensures Extracts(Member(Regular, name, size, available, true, true, true, true), before) <==>
            0 <= size as int <= 268_435_456 && before + size as int <= 536_870_912 && available <= size as int
  {
  }

  // A regular member with an acceptable name and honest size, alone in its
  // archive, extracts exactly within the file budget, and is what the extraction
  // returns exactly if the part after its last separator is bedrud or bedrud.exe.
  lemma {:induction false} OneMemberArchive(dir: string, base: string, size: int64, available: nat)
    requires dir == "" || IsSeparator(dir[|dir| - 1])
    requires base != "" && base != "." && NoSeparators(base) && Acceptable(dir + base)
    ensures var items := [Member(Regular, dir + base, size, available, true, true, true, true)];
            (AllExtract(items) <==> 0 <= size as int <= 268_435_456 && available <= size as int) &&
            (LastBinary(items).Some? <==> base == "bedrud" || base == "bedrud.exe")
  {
    var item := Member(Regular, dir + base, size, available, true, true, true, true);
    var items := [item];
    LastSegmentOf(dir, base);
    assert items[..0] == [] && items[|items| - 1] == item;
    assert IsBinary(item) <==> base == "bedrud" || base == "bedrud.exe";
  }
}
