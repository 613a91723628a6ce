/** `VariantsManager` of src/Variants.ts: the editable elements of the page,
    each with an optional `data-editor-id` and its inner HTML, and the
    variations applied to them, by editor id. */
module Variants {

  import opened Interfaces
  import Text

  /** `Variation`: the replacement inner HTML, when there is one. */
  datatype Variation = Variation(html: Option<string>)

  /** What the manager reads and writes of an element: `dataset.editorId` and `innerHTML`. */
  datatype Element = Element(editorId: Option<string>, html: string)

  /** `!el.dataset.editorId`: an absent or empty id. */
  predicate LacksId(e: Element)
  {
    e.editorId.None? || e.editorId.value == ""
  }

  /** The id given to the element at `index` when it has none. */
  function GeneratedId(index: nat): (id: string)
    ensures |id| > 7 && id[..7] == "editor-" && id[7..] == Text.IntToString(index)
  {
    "editor-" + Text.IntToString(index)
  }

  /** Element `index` once `assignEditorIds` has visited it. */
  function WithEditorId(e: Element, index: nat): Element
  {
    if LacksId(e) then e.(editorId := Some(GeneratedId(index))) else e
  }

  /** The elements after `assignEditorIds`. */
  function WithEditorIds(els: seq<Element>): (r: seq<Element>)
    ensures |r| == |els|
  {
    seq(|els|, i requires 0 <= i < |els| => WithEditorId(els[i], i))
  }

  /** Every element ends up with a non-empty id, its own when it had one and
      `editor-<index>` otherwise, and keeps its HTML. */
  lemma EditorIdsAssigned(els: seq<Element>)
    ensures var r := WithEditorIds(els);
      forall i :: 0 <= i < |els| ==>
        !LacksId(r[i]) && r[i].html == els[i].html &&
        (!LacksId(els[i]) ==> r[i].editorId == els[i].editorId) &&
        (LacksId(els[i]) ==> r[i].editorId == Some(GeneratedId(i)))
  {
  }

  /** Assigning ids a second time changes nothing. */
  lemma EditorIdsIdempotent(els: seq<Element>)
    ensures WithEditorIds(WithEditorIds(els)) == WithEditorIds(els)
  {
    EditorIdsAssigned(els);
  }

  /** Two elements that both lacked an id get different ids. */
  lemma GeneratedIdsDistinct(els: seq<Element>, i: nat, j: nat)
    requires i < j < |els| && LacksId(els[i]) && LacksId(els[j])
    ensures WithEditorIds(els)[i].editorId != WithEditorIds(els)[j].editorId
  {
    if GeneratedId(i) == GeneratedId(j) {
      Text.IntToStringInjective(i, j);
    }
  }

  /** Ids are not promised to be unique: an element that already carries
      `editor-0` shares it with the first element when that one had none. */
  lemma IdsMayCollide()
    ensures var r := WithEditorIds([Element(None, "a"), Element(Some(GeneratedId(0)), "b")]);
      r[0].editorId == r[1].editorId
  {
  }

  /** `elements.find(e => e.dataset.editorId === editorId)`, as the index of the first match. */
  function FindElement(els: seq<Element>, editorId: string): (r: Option<nat>)
    ensures r.Some? ==> r.value < |els| && els[r.value].editorId == Some(editorId)
    ensures r.Some? ==> forall j :: 0 <= j < r.value ==> els[j].editorId != Some(editorId)
    ensures r.None? ==> forall j :: 0 <= j < |els| ==> els[j].editorId != Some(editorId)
  {
    if els == [] then None
    else if els[0].editorId == Some(editorId) then Some(0)
    else match FindElement(els[1..], editorId)
      case None => None
      case Some(k) => Some(k + 1)
  }

  /** After `init`, the id of every element finds an element, that one or an
      earlier one carrying the same id. */
  lemma EveryIdFound(els: seq<Element>, i: nat)
    requires i < |els|
    ensures var r := WithEditorIds(els);
      r[i].editorId.Some? && FindElement(r, r[i].editorId.value).Some? &&
      FindElement(r, r[i].editorId.value).value <= i
  {
    EditorIdsAssigned(els);
  }

  class VariantsManager {
    var elements: seq<Element>
    var variations: map<string, Variation>

    constructor ()
      ensures elements == [] && variations == map[]
    {
      elements := [];
      variations := map[];
    }

    /** `init`: `collected` is what `collectElements` selects from the document. */
    method Init(collected: seq<Element>)
      modifies this
      ensures elements == WithEditorIds(collected) && variations == old(variations)
    {
      elements := collected;
      AssignEditorIds();
    }

    /** `assignEditorIds`: give every element without an id `editor-<index>`. */
    method AssignEditorIds()
      modifies this
      ensures elements == WithEditorIds(old(elements)) && variations == old(variations)
    {
      ghost var els := elements;
      var index := 0;
      while index < |elements|
        invariant 0 <= index <= |elements| == |els|
        invariant forall k :: 0 <= k < index ==> elements[k] == WithEditorId(els[k], k)
        invariant elements[index..] == els[index..]
        invariant variations == old(variations)
      {
        assert elements[index] == els[index] by {
          assert elements[index..][0] == els[index..][0];
        }
        if LacksId(elements[index]) {
          elements := elements[index := elements[index].(editorId := Some(GeneratedId(index)))];
        }
        index := index + 1;
      }
      assert elements == WithEditorIds(els);
    }

    /** `applyVariation`: nothing when no element has the id; otherwise record
        the variation under the id and, when it has HTML, put it in the first
        element with that id. */
    method ApplyVariation(editorId: string, variation: Variation)
      modifies this
      ensures var found := FindElement(old(elements), editorId);
        (found.None? ==> elements == old(elements) && variations == old(variations)) &&
        (found.Some? ==>
           variations == old(variations)[editorId := variation] &&
           elements == if variation.html.Some?
                       then old(elements)[found.value := old(elements)[found.value].(html := variation.html.value)]
                       else old(elements))
    {
      var found := FindElement(elements, editorId);
      if found.None? {
        return;
      }
      var i := found.value;
      variations := variations[editorId := variation];
      if variation.html.Some? {
        elements := elements[i := elements[i].(html := variation.html.value)];
      }
    }

    /** `getVariations`. */
    method GetVariations() returns (v: map<string, Variation>)
      ensures v == variations
    {
      return variations;
    }
  }
}
