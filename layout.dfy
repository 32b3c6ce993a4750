/**
 * The "structure rule" of `generateBackend` (src/commands/generators.ts and
 * src/commands/create.ts) and of `generateFrontend` (src/commands/create.ts):
 * for each base path with its list of items, make the base directory, then
 * make every item without a dot a directory and write every item with a
 * dot as an empty file.
 */
module Layout {
  import opened Files

  /** One `[basePath, items]` pair of the structure object, in property order. */
  datatype Entry = Entry(base: string, items: seq<string>)

  /** `item.includes('.')`: the item names a file. */
  predicate IsFileItem(item: string)
  {
    '.' in item
  }

  predicate SlashFreeItems(entries: seq<Entry>)
  {
    forall i, j :: 0 <= i < |entries| && 0 <= j < |entries[i].items| ==> '/' !in entries[i].items[j]
  }

  /** What one item contributes to the files. */
  function ItemFile(full: string, item: string): map<string, Content>
  {
    if IsFileItem(item) then map[JoinPath(full, item) := Text("")] else map[]
  }

  /** What one item contributes to the directories. */
  function ItemDir(full: string, item: string): set<string>
  {
    if IsFileItem(item) then {} else Ancestors(JoinPath(full, item))
  }

  function ItemFiles(full: string, items: seq<string>): map<string, Content>
    decreases |items|
  {
    if items == [] then map[]
    else
      ItemFiles(full, items[..|items| - 1]) + ItemFile(full, items[|items| - 1])
  }

  function ItemDirs(full: string, items: seq<string>): set<string>
    decreases |items|
  {
    if items == [] then {}
    else
      ItemDirs(full, items[..|items| - 1]) + ItemDir(full, items[|items| - 1])
  }

  /** The files the structure rule writes under `root`. */
  function LayoutFiles(root: string, entries: seq<Entry>): map<string, Content>
    decreases |entries|
  {
    if entries == [] then map[]
    else
      var e := entries[|entries| - 1];
      LayoutFiles(root, entries[..|entries| - 1]) + ItemFiles(JoinPath(root, e.base), e.items)
  }

  /** The directories the structure rule makes under `root`. */
  function LayoutDirs(root: string, entries: seq<Entry>): set<string>
    decreases |entries|
  {
    if entries == [] then {}
    else
      var e := entries[|entries| - 1];
      var full := JoinPath(root, e.base);
      LayoutDirs(root, entries[..|entries| - 1]) + Ancestors(full) + ItemDirs(full, e.items)
  }

  /** The outer loop: one base path after the other. */
  method Materialize(disk: Disk, root: string, entries: seq<Entry>)
    requires SlashFreeItems(entries)
    modifies disk
    ensures disk.files == old(disk.files) + LayoutFiles(root, entries)
    ensures disk.dirs == old(disk.dirs) + LayoutDirs(root, entries)
  {
    var i := 0;
    while i < |entries|
      invariant 0 <= i <= |entries|
      invariant disk.files == old(disk.files) + LayoutFiles(root, entries[..i])
      invariant disk.dirs == old(disk.dirs) + LayoutDirs(root, entries[..i])
    {
      var e := entries[i];
      var full := JoinPath(root, e.base);
      disk.EnsureDir(full);
      MaterializeItems(disk, full, e.items);
      LayoutStep(root, entries, i);
      UnionAssoc(old(disk.files), LayoutFiles(root, entries[..i]), ItemFiles(full, e.items));
      i := i + 1;
    }
    assert entries[..i] == entries;
  }

  /** The inner loop over the items of one base path, which already exists. */
  method MaterializeItems(disk: Disk, full: string, items: seq<string>)
    requires full in disk.dirs
    requires forall j :: 0 <= j < |items| ==> '/' !in items[j]
    modifies disk
    ensures disk.files == old(disk.files) + ItemFiles(full, items)
    ensures disk.dirs == old(disk.dirs) + ItemDirs(full, items)
  {
    var j := 0;
    while j < |items|
      invariant 0 <= j <= |items|
      invariant full in disk.dirs
      invariant disk.files == old(disk.files) + ItemFiles(full, items[..j])
      invariant disk.dirs == old(disk.dirs) + ItemDirs(full, items[..j])
    {
      MaterializeItem(disk, full, items[j]);
      ItemsStep(full, items, j);
      UnionAssoc(old(disk.files), ItemFiles(full, items[..j]), ItemFile(full, items[j]));
      j := j + 1;
    }
    assert items[..j] == items;
  }

  /** One item: a directory, or an empty file in the existing base directory. */
  method MaterializeItem(disk: Disk, full: string, item: string)
    requires full in disk.dirs && '/' !in item
    modifies disk
    ensures disk.files == old(disk.files) + ItemFile(full, item)
    ensures disk.dirs == old(disk.dirs) + ItemDir(full, item)
  {
    if !IsFileItem(item) {
      disk.EnsureDir(JoinPath(full, item));
    } else {
      ParentJoin(full, item);
      var r := disk.WriteFile(JoinPath(full, item), Text(""));
    }
  }

  lemma UnionAssoc(a: map<string, Content>, b: map<string, Content>, c: map<string, Content>)
    ensures (a + b) + c == a + (b + c)
  {
  }

  lemma LayoutStep(root: string, entries: seq<Entry>, i: int)
    requires 0 <= i < |entries|
    ensures LayoutFiles(root, entries[..i + 1]) ==
      LayoutFiles(root, entries[..i]) + ItemFiles(JoinPath(root, entries[i].base), entries[i].items)
    ensures LayoutDirs(root, entries[..i + 1]) == LayoutDirs(root, entries[..i]) +
      Ancestors(JoinPath(root, entries[i].base)) + ItemDirs(JoinPath(root, entries[i].base), entries[i].items)
  {
    assert entries[..i + 1][..i] == entries[..i];
  }

  lemma ItemsStep(full: string, items: seq<string>, j: int)
    requires 0 <= j < |items|
    ensures ItemFiles(full, items[..j + 1]) == ItemFiles(full, items[..j]) +
      ItemFile(full, items[j])
    ensures ItemDirs(full, items[..j + 1]) == ItemDirs(full, items[..j]) +
      ItemDir(full, items[j])
  {
    assert items[..j + 1][..j] == items[..j];
  }

  /** Every item with a dot becomes an empty file under its base path. */
  lemma {:induction false} FileItemWritten(root: string, entries: seq<Entry>, i: int, j: int)
    requires 0 <= i < |entries| && 0 <= j < |entries[i].items|
    requires IsFileItem(entries[i].items[j])
    ensures JoinPath(JoinPath(root, entries[i].base), entries[i].items[j]) in LayoutFiles(root, entries)
    ensures LayoutFiles(root, entries)[JoinPath(JoinPath(root, entries[i].base), entries[i].items[j])] == Text("")
    decreases |entries|
  {
    var n := |entries| - 1;
    if i == n {
      ItemFileWritten(JoinPath(root, entries[i].base), entries[i].items, j);
    } else {
      FileItemWritten(root, entries[..n], i, j);
      ItemFilesEmpty(JoinPath(root, entries[n].base), entries[n].items);
    }
  }

  lemma {:induction false} ItemFileWritten(full: string, items: seq<string>, j: int)
    requires 0 <= j < |items| && IsFileItem(items[j])
    ensures JoinPath(full, items[j]) in ItemFiles(full, items)
    ensures ItemFiles(full, items)[JoinPath(full, items[j])] == Text("")
    decreases |items|
  {
    if j < |items| - 1 {
      ItemFileWritten(full, items[..|items| - 1], j);
    }
  }

  /** Every value the structure rule writes is the empty text. */
  lemma {:induction false} ItemFilesEmpty(full: string, items: seq<string>)
    ensures forall k :: k in ItemFiles(full, items) ==> ItemFiles(full, items)[k] == Text("")
    decreases |items|
  {
    if items != [] {
      ItemFilesEmpty(full, items[..|items| - 1]);
    }
  }

  /** Every item without a dot becomes a directory under its base path. */
  lemma {:induction false} DirItemMade(root: string, entries: seq<Entry>, i: int, j: int)
    requires 0 <= i < |entries| && 0 <= j < |entries[i].items|
    requires !IsFileItem(entries[i].items[j])
    ensures JoinPath(JoinPath(root, entries[i].base), entries[i].items[j]) in LayoutDirs(root, entries)
    decreases |entries|
  {
    var n := |entries| - 1;
    if i == n {
      ItemDirMade(JoinPath(root, entries[i].base), entries[i].items, j);
    } else {
      DirItemMade(root, entries[..n], i, j);
    }
  }

  lemma {:induction false} ItemDirMade(full: string, items: seq<string>, j: int)
    requires 0 <= j < |items| && !IsFileItem(items[j])
    ensures JoinPath(full, items[j]) in ItemDirs(full, items)
    decreases |items|
  {
    if j < |items| - 1 {
      ItemDirMade(full, items[..|items| - 1], j);
    }
  }

  /** Only dotted items become files: every written path is one of them. */
  lemma {:induction false} OnlyFileItemsWritten(root: string, entries: seq<Entry>, k: string)
    requires k in LayoutFiles(root, entries)
    ensures exists i, j ::
      0 <= i < |entries| && 0 <= j < |entries[i].items| &&
      IsFileItem(entries[i].items[j]) && k == JoinPath(JoinPath(root, entries[i].base), entries[i].items[j])
    decreases |entries|
  {
    var n := |entries| - 1;
    var e := entries[n];
    if k in ItemFiles(JoinPath(root, e.base), e.items) {
      var j := OnlyFileItemsIn(JoinPath(root, e.base), e.items, k);
      assert entries[n].items[j] == e.items[j];
    } else {
      OnlyFileItemsWritten(root, entries[..n], k);
      var i, j :|
        0 <= i < |entries[..n]| && 0 <= j < |entries[..n][i].items| &&
        IsFileItem(entries[..n][i].items[j]) && k == JoinPath(JoinPath(root, entries[..n][i].base), entries[..n][i].items[j]);
      assert entries[..n][i] == entries[i];
    }
  }

  lemma {:induction false} OnlyFileItemsIn(full: string, items: seq<string>, k: string) returns (j: int)
    requires k in ItemFiles(full, items)
    ensures 0 <= j < |items| && IsFileItem(items[j]) && k == JoinPath(full, items[j])
    decreases |items|
  {
    var n := |items| - 1;
    if IsFileItem(items[n]) && k == JoinPath(full, items[n]) {
      j := n;
    } else {
      j := OnlyFileItemsIn(full, items[..n], k);
    }
  }
}
