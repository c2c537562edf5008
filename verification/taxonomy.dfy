/** The genre taxonomy: a fixed two-level tree (genre -> subgenre -> ordered
    leaf names) and the flat set of leaves that is the only admissible
    classification target besides the unmapped marker. */
module Taxonomy {

  /** One subgenre of the tree with its leaves, in declaration order. */
  datatype Subgenre = Subgenre(name: string, leaves: seq<string>)

  /** The whole tree, keyed by top-level genre; the subgenres of a genre keep
      the order in which they are declared. */
  const Tree: map<string, seq<Subgenre>> := map[
    "Fiction" := [
      Subgenre("Romance", ["Slow-burn", "Enemies-to-Lovers", "Second Chance"]),
      Subgenre("Thriller", ["Espionage", "Psychological", "Legal Thriller"]),
      Subgenre("Sci-Fi", ["Hard Sci-Fi", "Space Opera", "Cyberpunk"]),
      Subgenre("Horror", ["Psychological Horror", "Gothic", "Slasher"])
    ]
  ]

  /** The subgenres under "Fiction", the genre the leaf set is built from. */
  const Fiction: seq<Subgenre> := Tree["Fiction"]

  /** The leaves of all subgenres, one subgenre after another. */
  function LeafList(subgenres: seq<Subgenre>): seq<string>
  {
    if subgenres == [] then []
    else LeafList(subgenres[..|subgenres| - 1]) + subgenres[|subgenres| - 1].leaves
  }

  /** The flat set of valid leaf categories. */
  const ValidLeaves: set<string> := set l | l in LeafList(Fiction)

  /** The twelve leaf names of the tree, written out. */
  function LeafNames(): set<string> {
    {
      "Slow-burn", "Enemies-to-Lovers", "Second Chance",
      "Espionage", "Psychological", "Legal Thriller",
      "Hard Sci-Fi", "Space Opera", "Cyberpunk",
      "Psychological Horror", "Gothic", "Slasher" }
  }

  /** The twelve names are pairwise distinct. */
  lemma LeafNamesDistinct()
    ensures |LeafNames()| == 12
  {
  }

  /** The leaf set is exactly the twelve names of the tree, and the flattened
      tree has as many entries as the set has members: no leaf name repeats,
      within a subgenre or across subgenres. */
  lemma LeafSet()
    ensures ValidLeaves == LeafNames()
    ensures |ValidLeaves| == 12
    ensures |LeafList(Fiction)| == |ValidLeaves|
  {
    var romance, thriller, scifi, horror := Fiction[0], Fiction[1], Fiction[2], Fiction[3];
    assert Fiction == [romance, thriller, scifi, horror];
    assert Fiction[..3] == [romance, thriller, scifi];
    assert Fiction[..3][..2] == [romance, thriller];
    assert Fiction[..3][..2][..1] == [romance];
    assert [romance][..0] == [];
    assert LeafList([romance]) == romance.leaves;
    assert LeafList([romance, thriller]) == romance.leaves + thriller.leaves;
    assert LeafList([romance, thriller, scifi]) == romance.leaves + thriller.leaves + scifi.leaves;
    assert LeafList(Fiction) == romance.leaves + thriller.leaves + scifi.leaves + horror.leaves;
    LeafNamesDistinct();
  }

  /** The start-up check: the taxonomy has at least one leaf. */
  lemma ValidLeavesNonEmpty()
    ensures ValidLeaves != {}
  {
    LeafSet();
  }

  /** A name is a valid leaf exactly when some subgenre under "Fiction"
      lists it. */
  lemma ValidLeafMembership(name: string)
    ensures name in ValidLeaves <==> exists k :: 0 <= k < |Fiction| && name in Fiction[k].leaves
  {
    LeafListMembership(Fiction, name);
  }

  /** A name occurs in the flattened list exactly when it stands in some
      subgenre's leaf list. */
  lemma {:induction false} LeafListMembership(subgenres: seq<Subgenre>, name: string)
    ensures name in LeafList(subgenres) <==> exists k :: 0 <= k < |subgenres| && name in subgenres[k].leaves
  {
    if subgenres != [] {
      var init := subgenres[..|subgenres| - 1];
      LeafListMembership(init, name);
      assert forall k :: 0 <= k < |init| ==> init[k] == subgenres[k];
    }
  }

  /** The unmapped marker and the names of the genre and of its subgenres
      are not leaves. */
  lemma MarkerIsNotALeaf()
    ensures "[UNMAPPED]" !in ValidLeaves
    ensures "Fiction" !in ValidLeaves
    ensures forall k :: 0 <= k < |Fiction| ==> Fiction[k].name !in ValidLeaves
  {
    LeafSet();
    OtherNamesAreNotLeafNames();
  }

  /** No inner name of the tree, nor the marker, is among the twelve leaf
      names. */
  lemma OtherNamesAreNotLeafNames()
    ensures "[UNMAPPED]" !in LeafNames()
    ensures "Fiction" !in LeafNames()
    ensures forall k :: 0 <= k < |Fiction| ==> Fiction[k].name !in LeafNames()
  {
    forall k | 0 <= k < |Fiction|
      ensures Fiction[k].name !in LeafNames()
    {
      assert Fiction[k].name in {"Romance", "Thriller", "Sci-Fi", "Horror"};
    }
  }
}
