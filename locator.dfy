/**
 * `_find_bag_object`: scan the document's `ObjectStates` for the first
 * element whose `Name` is "Bag". The element is identified by its position,
 * so that the caller can write the changed Bag back in place.
 */
module Locator {
  import opened Json

  /** Where the scan ended. `ScanFailed` is the Python exception raised by `.get` on a non-dict. */
  datatype Located = Found(index: nat) | NotFound | ScanFailed

  const BagTag: JSON := JStr("Bag")

  predicate IsBag(x: JSON)
  {
    x.JObj? && Get(x.obj, "Name", JNull) == BagTag
  }

  /** Elements `from` to `to` (exclusive) are dicts and none of them is a Bag. */
  predicate NoBagBetween(xs: seq<JSON>, from: nat, to: nat)
    requires from <= to <= |xs|
  {
    forall j :: from <= j < to ==> xs[j].JObj? && !IsBag(xs[j])
  }

  /** The loop `for obj in object_states`, from position `i` on. */
  function Scan(xs: seq<JSON>, i: nat): (r: Located)
    requires i <= |xs|
    ensures r.Found? ==> i <= r.index < |xs| && IsBag(xs[r.index]) && NoBagBetween(xs, i, r.index)
    ensures r.NotFound? <==> NoBagBetween(xs, i, |xs|)
    ensures r.ScanFailed? ==>
      exists j :: i <= j < |xs| && !xs[j].JObj? && NoBagBetween(xs, i, j)
    decreases |xs| - i
  {
    if i == |xs| then NotFound
    else if !xs[i].JObj? then ScanFailed
    else if IsBag(xs[i]) then Found(i)
    else Scan(xs, i + 1)
  }

  /** The `ObjectStates` array of a document, when it has one. */
  predicate HasStates(doc: JSON)
  {
    doc.JObj? && "ObjectStates" in doc.obj && doc.obj["ObjectStates"].JArr?
  }

  function States(doc: JSON): seq<JSON>
    requires HasStates(doc)
  {
    doc.obj["ObjectStates"].arr
  }

  /**
   * `_find_bag_object(data)`. A missing `ObjectStates` is treated as an
   * empty list; iterating an empty string or dict finds nothing; iterating
   * anything else that is not an array of dicts raises.
   */
  function FindBag(doc: JSON): (r: Located)
    ensures r.Found? ==>
      HasStates(doc) && r.index < |States(doc)| && IsBag(States(doc)[r.index])
      && NoBagBetween(States(doc), 0, r.index)
    ensures HasStates(doc) ==> (r.NotFound? <==> NoBagBetween(States(doc), 0, |States(doc)|))
    ensures HasStates(doc) && r.ScanFailed? ==>
      exists j :: 0 <= j < |States(doc)| && !States(doc)[j].JObj? && NoBagBetween(States(doc), 0, j)
    ensures doc.JObj? && "ObjectStates" !in doc.obj ==> r.NotFound?
    ensures !doc.JObj? ==> r.ScanFailed?
  {
    if !doc.JObj? then ScanFailed
    else
      match Get(doc.obj, "ObjectStates", JArr([]))
      case JArr(xs) => Scan(xs, 0)
      case JStr(s) => if s == "" then NotFound else ScanFailed
      case JObj(m) => if m == map[] then NotFound else ScanFailed
      case _ => ScanFailed
  }
}
