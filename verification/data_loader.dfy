/** The dataset downloader (src/data_loader.py): every labelled image of
    the downloaded dataset is saved under train or test, by its index, in
    its label's category folder. The download itself, image decoding and
    `os.urandom` are not modelled: the items arrive as input, each with
    the random bytes its file name will carry (the source draws four; the
    model accepts any). */
module DataLoader {
  import opened Options
  import opened Waste
  import opened Splits
  import Numerals
  import DataDir
  import OrganizeData

  /** `CLASS_MAPPING.get(label_name)` */
  function ClassMapping(labelName: string): (r: Option<Category>)
    ensures r == Some(Organic) <==> labelName in {"compost", "trash"}
    ensures r == Some(Recyclable) <==> labelName in {"cardboard", "glass", "metal", "paper", "plastic"}
  {
    if labelName in {"compost", "trash"} then Some(Organic)
    else if labelName in {"cardboard", "glass", "metal", "paper", "plastic"} then Some(Recyclable)
    else None
  }

  /** The two scripts map classes the same way except for "compost", which
      only this one knows (as Organic). */
  lemma MappingsAgreeExceptCompost(name: string)
    ensures name != "compost" ==> ClassMapping(name) == OrganizeData.ClassMapping(name)
    ensures ClassMapping("compost") == Some(Organic) && OrganizeData.ClassMapping("compost").None?
  {
  }

  /** A dataset image: its `filename` attribute, None when it has none. */
  datatype Image = Image(filename: Option<string>)

  /** A saved image: the split directory, the category folder and the file name. */
  datatype Saved = Saved(split: Split, category: Category, filename: string)

  /** `f"{label_name}_{name}_{token.hex()}.jpg"` */
  function FileName(labelName: string, image: Image, token: seq<bv8>): (name: string)
    ensures StartsWith(name, labelName + "_") && EndsWith(name, ".jpg")
  {
    var base := if image.filename.Some? then image.filename.value else "img";
    var name := labelName + "_" + base + "_" + Numerals.Hex(token) + ".jpg";
    assert name == (labelName + "_") + (base + "_" + Numerals.Hex(token) + ".jpg");
    assert name == (labelName + "_" + base + "_" + Numerals.Hex(token)) + ".jpg";
    name
  }

  /** `save_image`: an unmapped label saves nothing; otherwise the image
      goes to train when `split` is "train" and to test for any other
      value, in its label's category folder. */
  function SaveImage(image: Image, labelName: string, split: string, token: seq<bv8>): (r: Option<Saved>)
    ensures r.None? <==> ClassMapping(labelName).None?
    ensures r.Some? ==>
      && r.value.category == ClassMapping(labelName).value
      && (r.value.split == Train <==> split == SplitDir(Train))
      && StartsWith(r.value.filename, labelName + "_") && EndsWith(r.value.filename, ".jpg")
  {
    match ClassMapping(labelName)
    case None => None
    case Some(c) =>
      var directory := if split == "train" then Train else Test;
      Some(Saved(directory, c, FileName(labelName, image, token)))
  }

  /** One dataset row: the image, its label's name, and the random bytes
      drawn for its file name. */
  datatype Item = Item(image: Image, labelName: string, token: seq<bv8>)

  /** `main`, after the download: reset the data directory, then save each
      item, the first `int(0.8 n)` to train and the rest to test. `saved[i]`
      is what item i produced. */
  method Ingest(tree: DataDir.Tree, items: seq<Item>) returns (tree': DataDir.Tree, saved: seq<Option<Saved>>)
    ensures DataDir.Prepared(tree') && tree'.Keys == {SplitDir(Train), SplitDir(Test)}
    ensures |saved| == |items|
    ensures forall i :: 0 <= i < |items| ==>
      && (saved[i].Some? <==> ClassMapping(items[i].labelName).Some?)
      && (saved[i].Some? ==> saved[i].value.category == ClassMapping(items[i].labelName).value)
      && (saved[i].Some? ==> (saved[i].value.split == Train <==> i < TrainCount(|items|)))
    // Each item is saved under the name its own label, image and random bytes give.
    ensures forall i :: 0 <= i < |items| ==>
      saved[i] == SaveImage(items[i].image, items[i].labelName, SplitDir(Route(i, |items|)), items[i].token)
    ensures forall i :: 0 <= i < |items| && saved[i].Some? ==>
      saved[i].value.filename == FileName(items[i].labelName, items[i].image, items[i].token)
  {
    tree' := DataDir.ResetDataDir(tree);
    var trainCount := TrainCount(|items|);
    saved := [];
    var i := 0;
    while i < |items|
      invariant 0 <= i <= |items| && |saved| == i
      invariant forall j :: 0 <= j < i ==> saved[j] == SaveImage(items[j].image, items[j].labelName, SplitDir(Route(j, |items|)), items[j].token)
    {
      var split := if i < trainCount then "train" else "test";
      saved := saved + [SaveImage(items[i].image, items[i].labelName, split, items[i].token)];
      i := i + 1;
    }
  }

  /** The images saved to `split`, in item order. */
  function SavedTo(saved: seq<Option<Saved>>, split: Split): seq<Saved>
    decreases |saved|
  {
    if |saved| == 0 then []
    else
      var n := |saved| - 1;
      SavedTo(saved[..n], split) + (if saved[n].Some? && saved[n].value.split == split then [saved[n].value] else [])
  }

  lemma {:induction false} SavedToAppend(a: seq<Option<Saved>>, b: seq<Option<Saved>>, split: Split)
    ensures SavedTo(a + b, split) == SavedTo(a, split) + SavedTo(b, split)
    decreases |b|
  {
    if |b| == 0 {
      assert a + b == a;
    } else {
      var n := |b| - 1;
      assert (a + b)[..|a| + n] == a + b[..n];
      SavedToAppend(a, b[..n], split);
    }
  }

  lemma {:induction false} SavedToNone(saved: seq<Option<Saved>>, split: Split)
    requires forall i :: 0 <= i < |saved| ==> saved[i].None? || saved[i].value.split != split
    ensures SavedTo(saved, split) == []
    decreases |saved|
  {
    if |saved| > 0 {
      SavedToNone(saved[..|saved| - 1], split);
    }
  }

  /** Item order and the 80/20 cut together decide the splits: whatever
      train receives comes from the first `int(0.8 n)` items and whatever
      test receives from the rest, in item order, exactly as slicing the
      list would (see `Splits.RouteAgreesWithPartition`). */
  lemma {:induction false} SplitsLikeSlicing(saved: seq<Option<Saved>>)
    requires forall i :: 0 <= i < |saved| && saved[i].Some? ==>
      (saved[i].value.split == Train <==> i < TrainCount(|saved|))
    ensures SavedTo(saved, Train) == SavedTo(Partition(saved).0, Train)
    ensures SavedTo(saved, Test) == SavedTo(Partition(saved).1, Test)
    ensures SavedTo(Partition(saved).0, Test) == [] && SavedTo(Partition(saved).1, Train) == []
  {
    var k := TrainCount(|saved|);
    var train, test := saved[..k], saved[k..];
    assert train + test == saved;
    SavedToAppend(train, test, Train);
    SavedToAppend(train, test, Test);
    forall i | 0 <= i < |test| ensures test[i].None? || test[i].value.split != Train {
      assert test[i] == saved[k + i];
    }
    SavedToNone(test, Train);
    forall i | 0 <= i < |train| ensures train[i].None? || train[i].value.split != Test {
      assert train[i] == saved[i];
    }
    SavedToNone(train, Test);
  }
}
