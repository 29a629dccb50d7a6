/** The dataset organiser (src/organize_data.py): from the class folders of
    the extracted archive, copy every .jpg image of a mapped class into
    train or test under its category, 80/20 per class after a shuffle.
    Unzipping, copying and the shuffle's randomness are not modelled: the
    extracted folder is an input, the copies are the output, and the order
    the shuffle leaves each class in is an input that must be a permutation
    of that class's images. */
module OrganizeData {
  import opened Options
  import opened Waste
  import opened Splits
  import DataDir

  /** `CLASS_MAPPING.get(class_name)` */
  function ClassMapping(className: string): (r: Option<Category>)
    ensures r == Some(Organic) <==> className == "trash"
    ensures r == Some(Recyclable) <==> className in {"cardboard", "glass", "metal", "paper", "plastic"}
  {
    if className == "trash" then Some(Organic)
    else if className in {"cardboard", "glass", "metal", "paper", "plastic"} then Some(Recyclable)
    else None
  }

  /** An entry of the extracted root: a folder with the names of the files
      in it, or anything that is not a directory. */
  datatype Entry = Folder(name: string, files: seq<string>) | NotFolder(name: string)

  /** `class_folder.glob("*.jpg")`: the file names ending in ".jpg", each as
      often as it occurs in `files`. The order is the one `files` lists them
      in; the model does not rely on it, since the shuffle that follows may
      leave them in any order. */
  function Jpgs(files: seq<string>): (r: seq<string>)
    ensures forall x :: x in r <==> x in files && EndsWith(x, ".jpg")
    ensures forall x :: multiset(r)[x] == if EndsWith(x, ".jpg") then multiset(files)[x] else 0
    ensures |r| <= |files|
    decreases |files|
  {
    if |files| == 0 then []
    else
      assert files == [files[0]] + files[1..];
      (if EndsWith(files[0], ".jpg") then [files[0]] else []) + Jpgs(files[1..])
  }

  /** One `shutil.copy(extracted_root/className/name, <split>/category/name)`. */
  datatype Copy = Copy(className: string, name: string, split: Split, category: Category)

  function CopiesTo(className: string, names: seq<string>, split: Split, c: Category): (r: seq<Copy>)
    ensures |r| == |names|
    ensures forall j :: 0 <= j < |names| ==> r[j] == Copy(className, names[j], split, c)
    decreases |names|
  {
    if |names| == 0 then [] else [Copy(className, names[0], split, c)] + CopiesTo(className, names[1..], split, c)
  }

  lemma CopiesToAppend(className: string, names: seq<string>, name: string, split: Split, c: Category)
    ensures CopiesTo(className, names + [name], split, c) == CopiesTo(className, names, split, c) + [Copy(className, name, split, c)]
  {
    var lhs := CopiesTo(className, names + [name], split, c);
    var rhs := CopiesTo(className, names, split, c) + [Copy(className, name, split, c)];
    assert |lhs| == |rhs|;
    forall j | 0 <= j < |lhs| ensures lhs[j] == rhs[j] {
      assert (names + [name])[j] == if j < |names| then names[j] else name;
    }
  }

  /** The copies of one mapped class whose images the shuffle left in
      `order`: the first `int(0.8 n)` go to train, the rest to test, each
      keeping its name and the class's category. */
  function ClassCopies(className: string, c: Category, order: seq<string>): (r: seq<Copy>)
    ensures |r| == |order|
    ensures forall j :: 0 <= j < |order| ==>
      && r[j].className == className && r[j].name == order[j] && r[j].category == c
      && (r[j].split == Train <==> j < TrainCount(|order|))
  {
    var parts := Partition(order);
    CopiesTo(className, parts.0, Train, c) + CopiesTo(className, parts.1, Test, c)
  }

  /** What one entry of the extracted root contributes: nothing when it is
      not a folder or its class is unmapped, otherwise its class's copies. */
  function EntryCopies(e: Entry, order: seq<string>): (r: seq<Copy>)
    ensures !e.Folder? || ClassMapping(e.name).None? ==> r == []
    ensures e.Folder? && ClassMapping(e.name).Some? ==> r == ClassCopies(e.name, ClassMapping(e.name).value, order)
  {
    if !e.Folder? then []
    else match ClassMapping(e.name)
      case None => []
      case Some(c) => ClassCopies(e.name, c, order)
  }

  /** The images the loop copies from an entry. */
  function Images(e: Entry): seq<string> {
    if e.Folder? && ClassMapping(e.name).Some? then Jpgs(e.files) else []
  }

  /** `orders[i]` is the order the shuffle left entry i's images in. */
  ghost predicate Shuffled(entries: seq<Entry>, orders: seq<seq<string>>) {
    |orders| == |entries| &&
    forall i :: 0 <= i < |entries| ==> multiset(orders[i]) == multiset(Images(entries[i]))
  }

  /** All copies, in loop order. */
  function Plan(entries: seq<Entry>, orders: seq<seq<string>>): seq<Copy>
    requires |orders| == |entries|
    decreases |entries|
  {
    if |entries| == 0 then []
    else
      var n := |entries| - 1;
      Plan(entries[..n], orders[..n]) + EntryCopies(entries[n], orders[n])
  }

  /** The number of .jpg images across the mapped class folders. */
  function ImageCount(entries: seq<Entry>): nat
    decreases |entries|
  {
    if |entries| == 0 then 0
    else
      var n := |entries| - 1;
      ImageCount(entries[..n]) + |Images(entries[n])|
  }

  /** Every copy comes from a mapped class and goes to that class's
      category; non-folders and unmapped classes contribute nothing. */
  lemma {:induction false} PlanFollowsMapping(entries: seq<Entry>, orders: seq<seq<string>>)
    requires |orders| == |entries|
    ensures forall x :: x in Plan(entries, orders) ==> ClassMapping(x.className) == Some(x.category)
    decreases |entries|
  {
    if |entries| > 0 {
      var n := |entries| - 1;
      PlanFollowsMapping(entries[..n], orders[..n]);
    }
  }

  /** As many copies are made as there are images in mapped classes. */
  lemma {:induction false} PlanSize(entries: seq<Entry>, orders: seq<seq<string>>)
    requires Shuffled(entries, orders)
    ensures |Plan(entries, orders)| == ImageCount(entries)
    decreases |entries|
  {
    if |entries| > 0 {
      var n := |entries| - 1;
      assert Shuffled(entries[..n], orders[..n]);
      PlanSize(entries[..n], orders[..n]);
      assert |multiset(orders[n])| == |multiset(Images(entries[n]))|;
    }
  }

  lemma PlanStep(entries: seq<Entry>, orders: seq<seq<string>>, i: nat)
    requires |orders| == |entries| && i < |entries|
    ensures Plan(entries[..i + 1], orders[..i + 1]) == Plan(entries[..i], orders[..i]) + EntryCopies(entries[i], orders[i])
  {
    assert entries[..i + 1][..i] == entries[..i] && orders[..i + 1][..i] == orders[..i];
  }

  /** One of the two copy loops of a class: copy each name, in order, to
      `split`/`c`, counting every copy in `moved`. */
  method CopyEach(className: string, names: seq<string>, split: Split, c: Category, copies: seq<Copy>, moved: nat)
    returns (copies': seq<Copy>, moved': nat)
    requires moved == |copies|
    ensures copies' == copies + CopiesTo(className, names, split, c)
    ensures moved' == |copies'|
  {
    copies', moved' := copies, moved;
    var j := 0;
    while j < |names|
      invariant 0 <= j <= |names|
      invariant copies' == copies + CopiesTo(className, names[..j], split, c)
      invariant moved' == |copies'|
    {
      assert names[..j + 1] == names[..j] + [names[j]];
      CopiesToAppend(className, names[..j], names[j], split, c);
      copies' := copies' + [Copy(className, names[j], split, c)];
      moved' := moved' + 1;
      j := j + 1;
    }
    assert names[..j] == names;
  }

  /** Stated on its own so that the copy loops' proof does not have to
      derive it among their other facts. */
  lemma AppendAssociative<T>(a: seq<T>, b: seq<T>, c: seq<T>)
    ensures (a + b) + c == a + (b + c)
  {
  }

  /** The two copy loops of one mapped class: the train slice of the
      shuffled order, then the test slice. */
  method CopyClass(className: string, c: Category, order: seq<string>, copies: seq<Copy>, moved: nat)
    returns (copies': seq<Copy>, moved': nat)
    requires moved == |copies|
    ensures copies' == copies + ClassCopies(className, c, order)
    ensures moved' == |copies'|
  {
    var parts := Partition(order);
    ghost var train := CopiesTo(className, parts.0, Train, c);
    ghost var test := CopiesTo(className, parts.1, Test, c);
    assert ClassCopies(className, c, order) == train + test;
    copies', moved' := CopyEach(className, parts.0, Train, c, copies, moved);
    copies', moved' := CopyEach(className, parts.1, Test, c, copies', moved');
    AppendAssociative(copies, train, test);
  }

  /** One round of the class-folder loop: skip a non-folder or an unmapped
      class, otherwise copy the class's images. */
  method CopyEntry(e: Entry, order: seq<string>, copies: seq<Copy>, moved: nat)
    returns (copies': seq<Copy>, moved': nat)
    requires moved == |copies|
    ensures copies' == copies + EntryCopies(e, order)
    ensures moved' == |copies'|
  {
    copies', moved' := copies, moved;
    if e.Folder? {
      var target := ClassMapping(e.name);
      if target.Some? {
        copies', moved' := CopyClass(e.name, target.value, order, copies, moved);
      }
    }
  }

  /** The temporary folder the archive is extracted into (`TEMP_DIR`), a
      top-level entry of the data directory. */
  const TempDir := "temp_extract"

  /** The organiser's outcome: the data directory afterwards, the copies
      made, and the `total_moved` count it reports. */
  datatype Outcome = Outcome(tree: DataDir.Tree, copies: seq<Copy>, totalMoved: nat)

  /** `organize_data`, after extraction. `root` is the extracted
      `dataset-resized` folder, None when it is missing. */
  method Organize(tree: DataDir.Tree, root: Option<seq<Entry>>, orders: seq<seq<string>>) returns (r: Outcome)
    requires root.Some? ==> Shuffled(root.value, orders)
    // A missing root: return before touching train and test.
    ensures root.None? ==> r == Outcome(tree, [], 0)
    // Otherwise train and test are reset, then every image of every mapped
    // class is copied, and total_moved counts exactly those copies; finally
    // the temporary folder is removed. Every other entry is kept.
    ensures root.Some? ==>
      && DataDir.Prepared(r.tree) && TempDir !in r.tree
      && (forall x :: x != SplitDir(Train) && x != SplitDir(Test) && x != TempDir ==>
            (x in r.tree <==> x in tree) && (x in tree ==> r.tree[x] == tree[x]))
      && r.copies == Plan(root.value, orders)
      && r.totalMoved == |r.copies| == ImageCount(root.value)
  {
    if root.None? {
      return Outcome(tree, [], 0);
    }
    var entries := root.value;
    PlanSize(entries, orders);
    var prepared := DataDir.ResetSplits(tree);
    var copies, totalMoved := Copies(entries, orders);
    var cleaned := DataDir.RemoveTree(prepared, TempDir);
    return Outcome(cleaned, copies, totalMoved);
  }

  /** The class-folder loop of `organize_data`. */
  method Copies(entries: seq<Entry>, orders: seq<seq<string>>) returns (copies: seq<Copy>, totalMoved: nat)
    requires |orders| == |entries|
    ensures copies == Plan(entries, orders)
    ensures totalMoved == |copies|
  {
    copies, totalMoved := [], 0;
    var i := 0;
    assert entries[..0] == [] && orders[..0] == [];
    while i < |entries|
      invariant 0 <= i <= |entries|
      invariant copies == Plan(entries[..i], orders[..i])
      invariant totalMoved == |copies|
    {
      PlanStep(entries, orders, i);
      copies, totalMoved := CopyEntry(entries[i], orders[i], copies, totalMoved);
      i := i + 1;
    }
    assert entries[..i] == entries && orders[..i] == orders;
  }
}
