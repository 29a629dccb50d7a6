/** The two waste categories every part of the system agrees on, and the two
    dataset splits the data scripts write into. */
module Waste {
  import opened Options

  datatype Category = Organic | Recyclable

  /** The spelling of a category in folder names, query parameters and messages. */
  function Name(c: Category): string {
    match c
    case Organic => "Organic"
    case Recyclable => "Recyclable"
  }

  /** The category whitelist: exactly the two spellings `Name` produces are
      accepted, and each is read back as the category it names. */
  function Parse(s: string): (r: Option<Category>)
    ensures r.Some? ==> Name(r.value) == s
    ensures r.None? ==> forall c: Category :: Name(c) != s
  {
    if s == "Organic" then Some(Organic)
    else if s == "Recyclable" then Some(Recyclable)
    else None
  }

  lemma ParseName(c: Category)
    ensures Parse(Name(c)) == Some(c)
  {
  }

  /** Both data scripts create the category folders in this order. */
  const Categories: seq<Category> := [Organic, Recyclable]

  datatype Split = Train | Test

  /** The directory of a split under the data root. */
  function SplitDir(s: Split): string {
    match s
    case Train => "train"
    case Test => "test"
  }
}
