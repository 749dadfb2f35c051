/** The knowledge library's folder view (components/KnowledgeExplorer.tsx): files grouped by
    folder, each group sorted under the chosen key and direction, folders listed by name, and
    the per-folder open flags. */
module KnowledgeExplorer {
  import opened Types
  import opened Strings
  import opened Seqs
  import opened Wrappers

  datatype SortKey = Name | CreatedAt | EnabledStatus
  datatype SortDirection = Asc | Desc
  datatype SortConfig = SortConfig(key: SortKey, direction: SortDirection)

  /** The view opens sorted by name, ascending. */
  const InitialSortConfig: SortConfig := SortConfig(Name, Asc)

  /** The folder name used for a file filed under no folder. */
  const Uncategorized: string := "Uncategorized"

  /** The group a file is listed in: its folder, or `Uncategorized` when the folder is empty. */
  function FolderKey(f: KnowledgeFile): (k: string)
    ensures k != ""
    ensures f.folder != "" ==> k == f.folder
  {
    if f.folder == "" then Uncategorized else f.folder
  }

  // ---------------------------------------------------------------------------------------------
  // The comparator

  /** The ascending comparison for one key: names in text order, newest first by creation time,
      enabled files before disabled ones. Negative means `a` is listed first. */
  function KeyComparison(key: SortKey, a: KnowledgeFile, b: KnowledgeFile): int
  {
    match key
    case Name => LexCompare(a.name, b.name)
    case CreatedAt => b.createdAt - a.createdAt
    case EnabledStatus => if a.enabled == b.enabled then 0 else if a.enabled then -1 else 1
  }

  /** The comparator passed to the sort: the key's comparison, negated for a descending config. */
  function Compare(config: SortConfig, a: KnowledgeFile, b: KnowledgeFile): int
  {
    if config.direction == Asc then KeyComparison(config.key, a, b) else -KeyComparison(config.key, a, b)
  }

  /** The descending comparator is the exact negation of the ascending one, and every comparator
      is antisymmetric: swapping the files negates the comparison. */
  lemma ComparatorLaws(key: SortKey, a: KnowledgeFile, b: KnowledgeFile)
    ensures Compare(SortConfig(key, Desc), a, b) == -Compare(SortConfig(key, Asc), a, b)
    ensures forall d :: Compare(SortConfig(key, d), a, b) == -Compare(SortConfig(key, d), b, a)
  {
    LexCompareAntisymmetric(a.name, b.name);
  }

  /** `a` may be listed before `b` under `config`. */
  predicate Precedes(config: SortConfig, a: KnowledgeFile, b: KnowledgeFile)
  {
    Compare(config, a, b) <= 0
  }

  /** The listing order of a config, as the sort sees it. */
  function Order(config: SortConfig): (KnowledgeFile, KnowledgeFile) -> bool
  {
    (a, b) => Precedes(config, a, b)
  }

  /** Every config orders all files, transitively: the sort has a consistent comparator. */
  lemma OrderIsTotalPreorder(config: SortConfig)
    ensures TotalPreorder(Order(config))
  {
    var leq := Order(config);
    forall a, b ensures leq(a, b) || leq(b, a) {
      ComparatorLaws(config.key, a, b);
    }
    forall a, b, c | leq(a, b) && leq(b, c) ensures leq(a, c) {
      if config.key == Name {
        if config.direction == Asc {
          LexCompareTransitive(a.name, b.name, c.name);
        } else {
          LexCompareAntisymmetric(a.name, b.name);
          LexCompareAntisymmetric(b.name, c.name);
          LexCompareAntisymmetric(a.name, c.name);
          LexCompareTransitive(c.name, b.name, a.name);
        }
      }
    }
  }

  /** One group after `sort` with the config's comparator: a sorted permutation of it. */
  function SortFiles(config: SortConfig, files: seq<KnowledgeFile>): (r: seq<KnowledgeFile>)
    ensures multiset(r) == multiset(files) && |r| == |files|
    ensures forall i, j :: 0 <= i < j < |r| ==> Precedes(config, r[i], r[j])
  {
    OrderIsTotalPreorder(config);
    var r := Sort(Order(config), files);
    assert forall i, j :: 0 <= i < j < |r| ==> Order(config)(r[i], r[j]);
    r
  }

  /** Sorted by creation time ascending, a group lists its newest file first. */
  lemma NewestFirst(files: seq<KnowledgeFile>)
    ensures var r := SortFiles(SortConfig(CreatedAt, Asc), files);
            forall i, j :: 0 <= i < j < |r| ==> r[i].createdAt >= r[j].createdAt
  {
    var r := SortFiles(SortConfig(CreatedAt, Asc), files);
    forall i, j | 0 <= i < j < |r| ensures r[i].createdAt >= r[j].createdAt {
      assert Precedes(SortConfig(CreatedAt, Asc), r[i], r[j]);
    }
  }

  /** Sorted by status ascending, every enabled file is listed before every disabled one;
      descending, every disabled file before every enabled one. */
  lemma EnabledFirst(files: seq<KnowledgeFile>)
    ensures var r := SortFiles(SortConfig(EnabledStatus, Asc), files);
            forall i, j :: 0 <= i < |r| && 0 <= j < |r| && r[i].enabled && !r[j].enabled ==> i < j
    ensures var r := SortFiles(SortConfig(EnabledStatus, Desc), files);
            forall i, j :: 0 <= i < |r| && 0 <= j < |r| && !r[i].enabled && r[j].enabled ==> i < j
  {
    OrderIsTotalPreorder(SortConfig(EnabledStatus, Asc));
  }

  // ---------------------------------------------------------------------------------------------
  // Grouping

  /** The folder keys the files are listed under. */
  function FolderKeys(files: seq<KnowledgeFile>): set<string>
  {
    set i | 0 <= i < |files| :: FolderKey(files[i])
  }

  /** The files listed under folder key `k`, in upload order. */
  function FilesIn(files: seq<KnowledgeFile>, k: string): (r: seq<KnowledgeFile>)
    ensures |r| <= |files|
    ensures forall i :: 0 <= i < |files| ==> (files[i] in r <==> FolderKey(files[i]) == k)
    ensures forall j :: 0 <= j < |r| ==> r[j] in files && FolderKey(r[j]) == k
  {
    if files == [] then []
    else
      var init := files[..|files| - 1];
      var last := files[|files| - 1];
      assert files == init + [last];
      FilesIn(init, k) + (if FolderKey(last) == k then [last] else [])
  }

  /** One more file extends its own group by itself and leaves the other groups alone. */
  lemma FilesInStep(files: seq<KnowledgeFile>, i: nat, k: string)
    requires i < |files|
    ensures FilesIn(files[..i + 1], k) == FilesIn(files[..i], k) + (if FolderKey(files[i]) == k then [files[i]] else [])
  {
    assert files[..i + 1][..i] == files[..i];
  }

  /** One more file adds its key to the folder keys. */
  lemma FolderKeysStep(files: seq<KnowledgeFile>, i: nat)
    requires i < |files|
    ensures FolderKeys(files[..i + 1]) == FolderKeys(files[..i]) + {FolderKey(files[i])}
  {
    var before := files[..i];
    var after := files[..i + 1];
    forall k | k in FolderKeys(after) ensures k in FolderKeys(before) + {FolderKey(files[i])} {
      var j :| 0 <= j < i + 1 && FolderKey(after[j]) == k;
      if j < i {
        assert after[j] == before[j];
      }
    }
    forall k | k in FolderKeys(before) ensures k in FolderKeys(after) {
      var j :| 0 <= j < i && FolderKey(before[j]) == k;
      assert after[j] == before[j];
    }
  }

  /** A key no file carries has an empty group. */
  lemma FilesInAbsent(files: seq<KnowledgeFile>, k: string)
    requires k !in FolderKeys(files)
    ensures FilesIn(files, k) == []
  {
  }

  /** The map after the `reduce` has pushed `f` onto its folder's array. */
  function Pushed(grouped: map<string, seq<KnowledgeFile>>, f: KnowledgeFile): map<string, seq<KnowledgeFile>>
  {
    var folder := FolderKey(f);
    grouped[folder := (if folder in grouped then grouped[folder] else []) + [f]]
  }

  /** Pushing file `i` onto the groups of the first `i` files gives the groups of the first `i + 1`. */
  lemma PushedStep(files: seq<KnowledgeFile>, i: nat, grouped: map<string, seq<KnowledgeFile>>)
    requires i < |files|
    requires grouped.Keys == FolderKeys(files[..i])
    requires forall k :: k in grouped ==> grouped[k] == FilesIn(files[..i], k)
    ensures Pushed(grouped, files[i]).Keys == FolderKeys(files[..i + 1])
    ensures forall k :: k in Pushed(grouped, files[i]) ==> Pushed(grouped, files[i])[k] == FilesIn(files[..i + 1], k)
  {
    var folder := FolderKey(files[i]);
    if folder !in grouped {
      FilesInAbsent(files[..i], folder);
    }
    FolderKeysStep(files, i);
    var next := Pushed(grouped, files[i]);
    forall k | k in next ensures next[k] == FilesIn(files[..i + 1], k) {
      FilesInStep(files, i, k);
    }
  }

  /** The names a plain object literal inherits from `Object.prototype`. Reading one of them off
      the accumulator yields a function (or, for `__proto__`, the prototype itself): a truthy
      value, so no array is created, and it has no `push`, so the push throws a `TypeError`. */
  const InheritedNames: set<string> := {
    "constructor", "hasOwnProperty", "isPrototypeOf", "propertyIsEnumerable", "toString",
    "toLocaleString", "valueOf", "__proto__", "__defineGetter__", "__defineSetter__",
    "__lookupGetter__", "__lookupSetter__"
  }

  /** One step of the `reduce`: create the folder's array when the lookup finds nothing, then push
      the file; `None` is the `TypeError` thrown when the lookup finds an inherited member. */
  method Push(grouped: map<string, seq<KnowledgeFile>>, f: KnowledgeFile) returns (next: Option<map<string, seq<KnowledgeFile>>>)
    ensures next.None? <==> FolderKey(f) !in grouped && FolderKey(f) in InheritedNames
    ensures next.Some? ==> next.value == Pushed(grouped, f)
    ensures next.Some? ==> FolderKey(f) in next.value && next.value[FolderKey(f)][|next.value[FolderKey(f)]| - 1] == f
  {
    var folder := FolderKey(f);
    var acc := grouped;
    if folder !in acc && folder !in InheritedNames {
      acc := acc[folder := []];
    }
    if folder !in acc {
      return None;
    }
    next := Some(acc[folder := acc[folder] + [f]]);
  }

  /** The `reduce` that pushes each file onto its folder's array, creating the array on first use.
      It throws exactly when some file's folder key is an inherited name; otherwise it yields one
      group per folder key holding that folder's files in upload order. */
  method GroupFiles(files: seq<KnowledgeFile>) returns (r: Option<map<string, seq<KnowledgeFile>>>)
    ensures r.Some? <==> FolderKeys(files) !! InheritedNames
    ensures r.Some? ==> r.value.Keys == FolderKeys(files)
    ensures r.Some? ==> forall k :: k in r.value ==> r.value[k] == FilesIn(files, k)
  {
    var grouped := map[];
    var i := 0;
    while i < |files|
      invariant 0 <= i <= |files|
      invariant grouped.Keys == FolderKeys(files[..i])
      invariant grouped.Keys !! InheritedNames
      invariant forall k :: k in grouped ==> grouped[k] == FilesIn(files[..i], k)
    {
      PushedStep(files, i, grouped);
      var next := Push(grouped, files[i]);
      if next.None? {
        assert FolderKey(files[i]) in FolderKeys(files);
        return None;
      }
      grouped := next.value;
      i := i + 1;
    }
    assert files[..i] == files;
    r := Some(grouped);
  }

  /** The `for...in` loop: every group sorted in place with the config's comparator. */
  method SortGroups(raw: map<string, seq<KnowledgeFile>>, config: SortConfig) returns (grouped: map<string, seq<KnowledgeFile>>)
    ensures grouped.Keys == raw.Keys
    ensures forall k :: k in grouped ==> grouped[k] == SortFiles(config, raw[k])
  {
    grouped := raw;
    var pending := raw.Keys;
    while pending != {}
      invariant pending <= raw.Keys && grouped.Keys == raw.Keys
      invariant forall k :: k in grouped && k !in pending ==> grouped[k] == SortFiles(config, raw[k])
      decreases |pending|
    {
      var k :| k in pending;
      var sorted := SortFiles(config, raw[k]);
      grouped := grouped[k := sorted];
      pending := pending - {k};
    }
  }

  /** `sortedAndGroupedFiles`: group, then sort every group; the grouping's `TypeError` on an
      inherited folder name escapes the memo. */
  method SortedAndGrouped(files: seq<KnowledgeFile>, config: SortConfig) returns (r: Option<map<string, seq<KnowledgeFile>>>)
    ensures r.Some? <==> FolderKeys(files) !! InheritedNames
    ensures r.Some? ==> r.value.Keys == FolderKeys(files)
    ensures r.Some? ==> forall k :: k in r.value ==> r.value[k] == SortFiles(config, FilesIn(files, k))
  {
    var raw := GroupFiles(files);
    if raw.None? {
      return None;
    }
    var grouped := SortGroups(raw.value, config);
    r := Some(grouped);
  }

  /** Each file is listed in exactly one group: the one for its folder key. */
  lemma GroupingPartitions(files: seq<KnowledgeFile>, config: SortConfig, i: nat, k: string)
    requires i < |files|
    ensures files[i] in FilesIn(files, k) <==> k == FolderKey(files[i])
    ensures files[i] in SortFiles(config, FilesIn(files, k)) <==> k == FolderKey(files[i])
  {
    var g := FilesIn(files, k);
    assert files[i] in SortFiles(config, g) <==> files[i] in multiset(g);
  }

  // ---------------------------------------------------------------------------------------------
  // Group sizes

  /** The sizes of the groups named in `names`, added up. */
  function GroupSizeTotal(files: seq<KnowledgeFile>, names: seq<string>): nat
  {
    if names == [] then 0 else |FilesIn(files, names[0])| + GroupSizeTotal(files, names[1..])
  }

  /** How many times `k` is in `names`. */
  function Occurrences(names: seq<string>, k: string): (n: nat)
    ensures n == 0 <==> k !in names
  {
    if names == [] then 0 else (if names[0] == k then 1 else 0) + Occurrences(names[1..], k)
  }

  predicate Distinct(names: seq<string>)
  {
    forall i, j :: 0 <= i < j < |names| ==> names[i] != names[j]
  }

  /** One more file makes exactly the groups named by its key one larger. */
  lemma {:induction false} GroupSizeStep(files: seq<KnowledgeFile>, f: KnowledgeFile, names: seq<string>)
    ensures GroupSizeTotal(files + [f], names) == GroupSizeTotal(files, names) + Occurrences(names, FolderKey(f))
  {
    assert (files + [f])[..|files|] == files;
    if names != [] {
      GroupSizeStep(files, f, names[1..]);
    }
  }

  lemma {:induction false} OccursOnce(names: seq<string>, k: string)
    requires Distinct(names) && k in names
    ensures Occurrences(names, k) == 1
  {
    if names[0] == k {
      assert k !in names[1..];
    } else {
      OccursOnce(names[1..], k);
    }
  }

  /** The groups partition the files: over distinct names covering every folder key, the group
      sizes add up to the number of files. */
  lemma {:induction false} GroupSizesSum(files: seq<KnowledgeFile>, names: seq<string>)
    requires Distinct(names)
    requires forall i :: 0 <= i < |files| ==> FolderKey(files[i]) in names
    ensures GroupSizeTotal(files, names) == |files|
  {
    if files == [] {
      GroupSizeEmpty(names);
    } else {
      var init := files[..|files| - 1];
      var last := files[|files| - 1];
      assert files == init + [last];
      GroupSizesSum(init, names);
      GroupSizeStep(init, last, names);
      OccursOnce(names, FolderKey(last));
    }
  }

  lemma {:induction false} GroupSizeEmpty(names: seq<string>)
    ensures GroupSizeTotal([], names) == 0
  {
    if names != [] {
      GroupSizeEmpty(names[1..]);
    }
  }

  // ---------------------------------------------------------------------------------------------
  // Folder order

  predicate StrictlyAscending(names: seq<string>)
  {
    forall i, j :: 0 <= i < j < |names| ==> LexCompare(names[i], names[j]) < 0
  }

  /** `x` placed into an ascending list of names. */
  function InsertName(x: string, names: seq<string>): (r: seq<string>)
    ensures |r| == |names| + 1
    ensures forall y :: y in r <==> y == x || y in names
  {
    if names == [] then [x]
    else if LexCompare(x, names[0]) < 0 then [x] + names
    else
      assert names == [names[0]] + names[1..];
      [names[0]] + InsertName(x, names[1..])
  }

  /** A new name placed into an ascending list keeps it ascending. */
  lemma {:induction false} InsertNameAscending(x: string, names: seq<string>)
    requires StrictlyAscending(names) && x !in names
    ensures StrictlyAscending(InsertName(x, names))
  {
    if names == [] {
    } else if LexCompare(x, names[0]) < 0 {
      forall j | 0 < j < |names| ensures LexCompare(x, names[j]) < 0 {
        LexCompareTransitive(x, names[0], names[j]);
        LexCompareZero(x, names[j]);
      }
    } else {
      var rest := InsertName(x, names[1..]);
      assert StrictlyAscending(names[1..]);
      InsertNameAscending(x, names[1..]);
      LexCompareZero(x, names[0]);
      LexCompareAntisymmetric(x, names[0]);
      forall j | 0 <= j < |rest| ensures LexCompare(names[0], rest[j]) < 0 {
        assert rest[j] in rest;
        if rest[j] != x {
          var m :| 0 <= m < |names[1..]| && names[1..][m] == rest[j];
          assert names[m + 1] == rest[j];
        }
      }
    }
  }

  /** `Object.keys(...).sort()`: the group names in ascending text order, each once. */
  method FolderOrder(grouped: map<string, seq<KnowledgeFile>>) returns (names: seq<string>)
    ensures StrictlyAscending(names)
    ensures forall k :: k in names <==> k in grouped
  {
    names := [];
    var pending := grouped.Keys;
    while pending != {}
      invariant pending <= grouped.Keys
      invariant StrictlyAscending(names)
      invariant forall k :: k in names <==> k in grouped && k !in pending
      decreases |pending|
    {
      var k :| k in pending;
      InsertNameAscending(k, names);
      names := InsertName(k, names);
      pending := pending - {k};
    }
  }

  /** Ascending names are distinct. */
  lemma AscendingDistinct(names: seq<string>)
    requires StrictlyAscending(names)
    ensures Distinct(names)
  {
    forall i, j | 0 <= i < j < |names| ensures names[i] != names[j] {
      LexCompareZero(names[i], names[j]);
    }
  }

  /** What the view lists: folder names in ascending order, each with its sorted group. */
  datatype Listing = Listing(names: seq<string>, groups: map<string, seq<KnowledgeFile>>)

  /** The view's listing, or `None` when the memo throws. The names are the folder keys in
      ascending order, each group is its folder's files sorted, and the listed groups hold every
      file exactly once between them. */
  method FolderListing(files: seq<KnowledgeFile>, config: SortConfig) returns (r: Option<Listing>)
    ensures r.Some? <==> FolderKeys(files) !! InheritedNames
    ensures r.Some? ==> StrictlyAscending(r.value.names)
    ensures r.Some? ==> forall k :: k in r.value.names <==> k in FolderKeys(files)
    ensures r.Some? ==> r.value.groups.Keys == FolderKeys(files)
    ensures r.Some? ==> forall k :: k in r.value.groups ==> r.value.groups[k] == SortFiles(config, FilesIn(files, k))
    ensures r.Some? ==> GroupSizeTotal(files, r.value.names) == |files|
  {
    var grouped := SortedAndGrouped(files, config);
    if grouped.None? {
      return None;
    }
    var names := FolderOrder(grouped.value);
    AscendingDistinct(names);
    forall i | 0 <= i < |files| ensures FolderKey(files[i]) in names {
      assert FolderKey(files[i]) in FolderKeys(files);
    }
    GroupSizesSum(files, names);
    r := Some(Listing(names, grouped.value));
  }

  // ---------------------------------------------------------------------------------------------
  // View state

  /** `handleSortChange`: choosing the current key flips the direction; another key starts ascending. */
  function NextSortConfig(current: SortConfig, key: SortKey): (r: SortConfig)
    ensures r.key == key
    ensures current.key == key ==> r.direction != current.direction
    ensures current.key != key ==> r.direction == Asc
  {
    if current.key == key then current.(direction := if current.direction == Asc then Desc else Asc)
    else SortConfig(key, Asc)
  }

  /** Choosing the same key twice restores the config when it was already the key; otherwise it
      leaves that key descending. */
  lemma SortChangeTwice(current: SortConfig, key: SortKey)
    ensures NextSortConfig(NextSortConfig(current, key), key) == if current.key == key then current else SortConfig(key, Desc)
  {
  }

  /** A folder is open when its flag is set; an absent flag reads as closed. */
  predicate IsOpen(openFolders: map<string, bool>, name: string)
  {
    name in openFolders && openFolders[name]
  }

  /** `toggleFolder`: flips the named folder's flag and keeps every other flag. */
  function ToggleFolder(openFolders: map<string, bool>, name: string): (r: map<string, bool>)
    ensures r.Keys == openFolders.Keys + {name}
    ensures IsOpen(r, name) == !IsOpen(openFolders, name)
    ensures forall k :: k != name ==> IsOpen(r, k) == IsOpen(openFolders, k)
    ensures forall k :: k in openFolders && k != name ==> r[k] == openFolders[k]
  {
    openFolders[name := !IsOpen(openFolders, name)]
  }

  /** Toggling a folder twice leaves every folder as open as it was. */
  lemma ToggleFolderTwice(openFolders: map<string, bool>, name: string)
    ensures forall k :: IsOpen(ToggleFolder(ToggleFolder(openFolders, name), name), k) == IsOpen(openFolders, k)
  {
  }
}
