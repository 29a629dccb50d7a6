/** The data directory both dataset scripts prepare: top-level entries
    (`train`, `test`, and whatever else lives there), each holding named
    subfolders of files. Only directory structure is modelled; file
    contents are not. */
module DataDir {
  import opened Waste

  type Tree = map<string, map<string, set<string>>>

  /** The subfolders of `top`, empty when it does not exist. */
  function Sub(t: Tree, top: string): map<string, set<string>> {
    if top in t then t[top] else map[]
  }

  function Names(cats: seq<Category>): set<string> {
    set c | c in cats :: Name(c)
  }

  /** `shutil.rmtree(top)` when it exists. */
  function RemoveTree(t: Tree, top: string): (r: Tree)
    ensures top !in r
    ensures forall x :: x != top ==> (x in r <==> x in t) && (x in t ==> r[x] == t[x])
  {
    t - {top}
  }

  /** Every entry other than train and test is the same in `t` and `r`. */
  ghost predicate SameElsewhere(t: Tree, r: Tree) {
    forall x :: x != SplitDir(Train) && x != SplitDir(Test) ==>
      (x in r <==> x in t) && (x in t ==> r[x] == t[x])
  }

  /** `top` in `r` holds the folders it held in `t` plus the named ones,
      the new ones empty. */
  predicate Grown(t: Tree, r: Tree, top: string, names: set<string>) {
    && Sub(r, top).Keys == Sub(t, top).Keys + names
    && forall k :: k in Sub(r, top) ==> Sub(r, top)[k] == (if k in Sub(t, top) then Sub(t, top)[k] else {})
  }

  /** `(top / sub).mkdir(parents=True, exist_ok=True)`: an existing folder
      keeps its files, a new one is empty. */
  function MakeDir(t: Tree, top: string, sub: string): (r: Tree)
    ensures Grown(t, r, top, {sub})
    ensures forall x :: x != top ==> (x in r <==> x in t) && (x in t ==> r[x] == t[x])
  {
    var folders := Sub(t, top);
    t[top := folders[sub := if sub in folders then folders[sub] else {}]]
  }

  lemma GrownTwice(t: Tree, u: Tree, r: Tree, top: string, a: set<string>, b: set<string>)
    requires Grown(t, u, top, a) && Grown(u, r, top, b)
    ensures Grown(t, r, top, a + b)
  {
    forall k | k in Sub(r, top)
      ensures Sub(r, top)[k] == (if k in Sub(t, top) then Sub(t, top)[k] else {})
    {
      if k in Sub(u, top) {
        assert Sub(u, top)[k] == (if k in Sub(t, top) then Sub(t, top)[k] else {});
      } else {
        assert k !in Sub(t, top);
      }
    }
  }

  /** One round of the setup loop: the category folder under train, then under test. */
  function MakeCategoryDir(t: Tree, name: string): (r: Tree)
    ensures Grown(t, r, SplitDir(Train), {name}) && Grown(t, r, SplitDir(Test), {name})
    ensures SameElsewhere(t, r)
  {
    var u := MakeDir(t, SplitDir(Train), name);
    var r := MakeDir(u, SplitDir(Test), name);
    assert Sub(r, SplitDir(Train)) == Sub(u, SplitDir(Train));
    assert Sub(u, SplitDir(Test)) == Sub(t, SplitDir(Test));
    r
  }

  lemma SameElsewhereTwice(t: Tree, u: Tree, r: Tree)
    requires SameElsewhere(t, u) && SameElsewhere(u, r)
    ensures SameElsewhere(t, r)
  {
  }

  lemma NamesOfCons(cats: seq<Category>)
    requires |cats| > 0
    ensures Names(cats) == {Name(cats[0])} + Names(cats[1..])
  {
    forall x | x in Names(cats) ensures x in {Name(cats[0])} + Names(cats[1..]) {
      var c :| c in cats && Name(c) == x;
      if c != cats[0] {
        assert c in cats[1..];
      }
    }
  }

  /** The setup loop: `for category in [...]`, make the category folder
      under train and under test. Nothing else in the tree changes. */
  function MakeCategoryDirs(t: Tree, cats: seq<Category>): (r: Tree)
    ensures Grown(t, r, SplitDir(Train), Names(cats)) && Grown(t, r, SplitDir(Test), Names(cats))
    ensures SameElsewhere(t, r)
    decreases |cats|
  {
    if |cats| == 0 then
      assert Names(cats) == {};
      t
    else
      var name := Name(cats[0]);
      var u := MakeCategoryDir(t, name);
      var r := MakeCategoryDirs(u, cats[1..]);
      NamesOfCons(cats);
      GrownTwice(t, u, r, SplitDir(Train), {name}, Names(cats[1..]));
      GrownTwice(t, u, r, SplitDir(Test), {name}, Names(cats[1..]));
      SameElsewhereTwice(t, u, r);
      r
  }

  /** Both splits hold exactly an empty Organic and an empty Recyclable folder. */
  predicate Prepared(t: Tree) {
    && SplitDir(Train) in t && t[SplitDir(Train)] == map[Name(Organic) := {}, Name(Recyclable) := {}]
    && SplitDir(Test) in t && t[SplitDir(Test)] == map[Name(Organic) := {}, Name(Recyclable) := {}]
  }

  lemma FreshSplitsPrepared(t: Tree, r: Tree)
    requires SplitDir(Train) !in t && SplitDir(Test) !in t
    requires Grown(t, r, SplitDir(Train), Names(Categories)) && Grown(t, r, SplitDir(Test), Names(Categories))
    ensures Prepared(r)
  {
    assert Names(Categories) == {Name(Organic), Name(Recyclable)};
    assert Name(Organic) in Sub(r, SplitDir(Train)) && Name(Organic) in Sub(r, SplitDir(Test));
    var emptyFolders: map<string, set<string>> := map[Name(Organic) := {}, Name(Recyclable) := {}];
    assert Sub(r, SplitDir(Train)) == emptyFolders;
    assert Sub(r, SplitDir(Test)) == emptyFolders;
  }

  /** `setup_directories` of organize_data.py: train and test are removed
      and recreated with exactly the two empty category folders; every other
      entry of the data directory is kept as it was. */
  function ResetSplits(t: Tree): (r: Tree)
    ensures Prepared(r)
    ensures SameElsewhere(t, r)
  {
    var wiped := RemoveTree(RemoveTree(t, SplitDir(Train)), SplitDir(Test));
    var r := MakeCategoryDirs(wiped, Categories);
    FreshSplitsPrepared(wiped, r);
    r
  }

  /** `setup_directories` of data_loader.py: the whole data directory is
      removed, so afterwards it holds only train and test, each with exactly
      the two empty category folders. */
  function ResetDataDir(t: Tree): (r: Tree)
    ensures Prepared(r)
    ensures r.Keys == {SplitDir(Train), SplitDir(Test)}
  {
    var empty: Tree := map[];
    var r := MakeCategoryDirs(empty, Categories);
    FreshSplitsPrepared(empty, r);
    r
  }
}
