/**
 * The recyclability decision of the webcam prototype: the labels returned by the
 * image-labelling service are lower-cased and the image is reported as recyclable
 * when one of them is, exactly, an entry of a fixed list. Capturing the image,
 * calling the service and deleting the file are input/output and are not modelled.
 */
module LabelMatch {
  import opened JsText

  /** The labels that make an image recyclable. */
  const RecyclableItems: seq<string> :=
    ["plastic bottle", "glass bottle", "aluminum can", "cardboard", "paper", "tin can", "mason jar"]

  /** Declared beside the recyclable list but never consulted by the decision. */
  const NonRecyclableItems: seq<string> :=
    ["food waste", "styrofoam", "plastic bag", "ceramic", "contaminated paper", "waxed paper"]

  datatype Verdict = Recyclable | NonRecyclable

  /** `labels.some(label => recyclableItems.includes(label))`. */
  function AnyListed(labels: seq<string>): (r: bool)
    ensures r <==> exists i :: 0 <= i < |labels| && labels[i] in RecyclableItems
  {
    if labels == [] then false
    else if labels[0] in RecyclableItems then true
    else
      var r := AnyListed(labels[1..]);
      assert forall i :: 1 <= i < |labels| ==> labels[i] == labels[1..][i - 1];
      r
  }

  /** `labelAnnotations.map(label => label.description.toLowerCase())`. */
  function LowerAll(descriptions: seq<string>): (labels: seq<string>)
    ensures |labels| == |descriptions|
    ensures forall i :: 0 <= i < |descriptions| ==> labels[i] == ToLower(descriptions[i])
  {
    seq(|descriptions|, i requires 0 <= i < |descriptions| => ToLower(descriptions[i]))
  }

  /** The verdict the prototype logs for one image. */
  function Classify(descriptions: seq<string>): (v: Verdict)
    ensures v == Recyclable <==>
              exists i :: 0 <= i < |descriptions| && ToLower(descriptions[i]) in RecyclableItems
    ensures descriptions == [] ==> v == NonRecyclable
  {
    var labels := LowerAll(descriptions);
    assert forall i :: 0 <= i < |descriptions| ==> labels[i] == ToLower(descriptions[i]);
    if AnyListed(labels) then Recyclable else NonRecyclable
  }

  /** Lower-casing is idempotent, so labels that are already lower-case are matched as they are. */
  lemma ToLowerIdempotent(s: string)
    ensures ToLower(ToLower(s)) == ToLower(s)
  {
  }

  /** The verdict on the raw descriptions equals the verdict on their lower-cased forms. */
  lemma LowerCasingFirstChangesNothing(descriptions: seq<string>)
    ensures Classify(LowerAll(descriptions)) == Classify(descriptions)
  {
    var labels := LowerAll(descriptions);
    forall i | 0 <= i < |descriptions| ensures ToLower(labels[i]) == ToLower(descriptions[i]) {
      ToLowerIdempotent(descriptions[i]);
    }
  }

  /** A match survives into any list that holds every label of the first one. */
  lemma {:induction false} MatchCarriesOver(a: seq<string>, b: seq<string>)
    requires forall x :: x in a ==> x in b
    ensures Classify(a) == Recyclable ==> Classify(b) == Recyclable
  {
    if Classify(a) == Recyclable {
      var i :| 0 <= i < |a| && ToLower(a[i]) in RecyclableItems;
      assert a[i] in b;
      var j :| 0 <= j < |b| && b[j] == a[i];
    }
  }

  /**
   * Only which labels occur matters: two label lists with the same elements, in any
   * order and with any repetitions, get the same verdict.
   */
  lemma OrderAndDuplicatesIrrelevant(a: seq<string>, b: seq<string>)
    requires forall x :: x in a <==> x in b
    ensures Classify(a) == Classify(b)
  {
    MatchCarriesOver(a, b);
    MatchCarriesOver(b, a);
  }

  /** The two lists are disjoint. */
  lemma ListsDisjoint()
    ensures forall x :: x in NonRecyclableItems ==> x !in RecyclableItems
  {
  }

  /**
   * The non-recyclable list never influences the outcome: adding a label that lower-cases
   * to one of its entries leaves the verdict as it was.
   */
  lemma {:induction false} NonRecyclableLabelIsInert(descriptions: seq<string>, extra: string)
    requires ToLower(extra) in NonRecyclableItems
    ensures Classify(descriptions + [extra]) == Classify(descriptions)
  {
    ListsDisjoint();
    var d := descriptions + [extra];
    assert d[|descriptions|] == extra;
    if Classify(d) == Recyclable {
      var i :| 0 <= i < |d| && ToLower(d[i]) in RecyclableItems;
      assert i < |descriptions| && d[i] == descriptions[i];
    }
    if Classify(descriptions) == Recyclable {
      var i :| 0 <= i < |descriptions| && ToLower(descriptions[i]) in RecyclableItems;
      assert d[i] == descriptions[i];
    }
  }

  /**
   * Matching is exact, not by substring: a label longer than every listed name, such as
   * "plastic bottle cap", is never a match even when it contains one.
   */
  lemma LongerLabelNeverMatches(d: string)
    requires |d| > 14
    ensures Classify([d]) == NonRecyclable
  {
  }

  /** Matching ignores letter case: "Paper" is recyclable. */
  lemma CaseIsIgnored()
    ensures Classify(["Paper"]) == Recyclable
  {
    var l := ToLower("Paper");
    assert l[0] == 'p' && l[1] == 'a' && l[2] == 'p' && l[3] == 'e' && l[4] == 'r';
    assert l == "paper";
    assert l == RecyclableItems[4];
  }
}
