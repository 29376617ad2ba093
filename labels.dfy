/** The list-editing rule shared by the skills list and a project's tech
    stack: add the trimmed input unless it is blank or already present,
    and remove a label by filtering out every copy of it. */
module Labels {
  import opened Text

  /** No label occurs twice. */
  predicate Distinct(s: seq<string>) {
    forall i, j :: 0 <= i < j < |s| ==> s[i] != s[j]
  }

  /** The guard of the add handlers: the trimmed input is non-blank and not
      yet in the list (exact, case-sensitive comparison). */
  predicate Admits(labels: seq<string>, input: string) {
    Trim(input) != "" && Trim(input) !in labels
  }

  /** The list after an add: grows by one exactly when the guard holds, keeps
      every earlier label where it was, afterwards holds the trimmed input
      (unless it is blank), gains nothing else, and stays free of duplicates. */
  function AddLabel(labels: seq<string>, input: string): (r: seq<string>)
    ensures |r| == |labels| + (if Admits(labels, input) then 1 else 0)
    ensures r[..|labels|] == labels
    ensures Trim(input) != "" ==> Trim(input) in r
    ensures forall x :: x in r ==> x in labels || x == Trim(input)
    ensures Distinct(labels) ==> Distinct(r)
  {
    if Admits(labels, input) then labels + [Trim(input)] else labels
  }

  /** `labels.filter(l => l !== target)`: every copy of `target` goes, every
      other label keeps its number of occurrences. */
  function RemoveLabel(labels: seq<string>, target: string): (r: seq<string>)
    ensures multiset(r) == multiset(labels)[target := 0]
    ensures target !in r
    ensures |r| <= |labels|
  {
    if labels == [] then []
    else
      assert labels == [labels[0]] + labels[1..];
      if labels[0] == target then RemoveLabel(labels[1..], target)
      else [labels[0]] + RemoveLabel(labels[1..], target)
  }

  /** Removal works piecewise, so the surviving labels keep their relative order. */
  lemma {:induction false} RemoveLabelAppend(a: seq<string>, b: seq<string>, target: string)
    ensures RemoveLabel(a + b, target) == RemoveLabel(a, target) + RemoveLabel(b, target)
    decreases |a|
  {
    if a == [] {
      assert a + b == b;
    } else {
      assert (a + b)[0] == a[0] && (a + b)[1..] == a[1..] + b;
      RemoveLabelAppend(a[1..], b, target);
    }
  }

  /** Removing a target that is not there changes nothing. */
  lemma {:induction false} RemoveAbsentLabel(labels: seq<string>, target: string)
    requires target !in labels
    ensures RemoveLabel(labels, target) == labels
    decreases |labels|
  {
    if labels != [] {
      RemoveAbsentLabel(labels[1..], target);
    }
  }

  /** Removing the same target twice is removing it once. */
  lemma RemoveLabelIdempotent(labels: seq<string>, target: string)
    ensures RemoveLabel(RemoveLabel(labels, target), target) == RemoveLabel(labels, target)
  {
    RemoveAbsentLabel(RemoveLabel(labels, target), target);
  }

  /** A list without duplicates stays without duplicates after a removal. */
  lemma {:induction false} RemoveLabelKeepsDistinct(labels: seq<string>, target: string)
    requires Distinct(labels)
    ensures Distinct(RemoveLabel(labels, target))
    decreases |labels|
  {
    if labels != [] {
      var rest := RemoveLabel(labels[1..], target);
      RemoveLabelKeepsDistinct(labels[1..], target);
      if labels[0] != target {
        assert labels[0] !in labels[1..];
        assert multiset(rest)[labels[0]] == multiset(labels[1..])[labels[0]] == 0;
      }
    }
  }

  /** Removing the target an accepted add just appended restores the list:
      remove undoes add. */
  lemma RemoveUndoesAdd(labels: seq<string>, input: string)
    requires Admits(labels, input)
    ensures RemoveLabel(AddLabel(labels, input), Trim(input)) == labels
  {
    var t := Trim(input);
    RemoveLabelAppend(labels, [t], t);
    RemoveAbsentLabel(labels, t);
    assert RemoveLabel([t], t) == [];
  }
}
