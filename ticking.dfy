/** What one `Scene.tick(n)` does, as functions. First `objects.forEach`
    runs the scene-level `ontick` of each sprite set stored under an array
    index, in index order; sets stored under other names (every name but a
    canonical decimal one) are not visited. Then every entry runs its own
    `ontick` and, if its (possibly changed) name resolves, its sprite set's
    `element.ontick` template with the element as receiver. */
module Ticking {
  import opened JsArrays
  import opened GameObjects

  /** `true` when `name` resolves to a sprite set with an element template. */
  predicate HasTemplate(objects: map<string, SpriteSet>, name: string) {
    name in objects && objects[name].elementOnTick.Some?
  }

  /** One entry after the tick hooks have run on it. */
  function TickEntry(objects: map<string, SpriteSet>, n: int, entry: Entry): (r: Entry)
    ensures entry.Marker? ==> r == entry
    ensures entry.Elem? ==> r.Elem? && r.onTick == entry.onTick
  {
    match entry
    case Marker(_) => entry
    case Elem(e, own) =>
      var e1 := if own.Some? then own.value(n, e) else e;
      if HasTemplate(objects, e1.name)
      then Elem(objects[e1.name].elementOnTick.value(n, e1), own)
      else Elem(e1, own)
  }

  /** The order of the two hooks on one element: the element's own `ontick`
      runs first, and the template that runs after it is the one of the name
      the first hook left, applied to the element as that hook left it. */
  lemma TickEntryOrder(objects: map<string, SpriteSet>, n: int, e: Element, own: Option<TickHook>)
    ensures own.None? && !HasTemplate(objects, e.name) ==>
      TickEntry(objects, n, Elem(e, own)) == Elem(e, own)
    ensures own.None? && HasTemplate(objects, e.name) ==>
      TickEntry(objects, n, Elem(e, own)) == Elem(objects[e.name].elementOnTick.value(n, e), own)
    ensures own.Some? && !HasTemplate(objects, own.value(n, e).name) ==>
      TickEntry(objects, n, Elem(e, own)) == Elem(own.value(n, e), own)
    ensures own.Some? && HasTemplate(objects, own.value(n, e).name) ==>
      TickEntry(objects, n, Elem(e, own))
      == Elem(objects[own.value(n, e).name].elementOnTick.value(n, own.value(n, e)), own)
  {
  }

  /** The element list after `elements.forEach(...)`: each entry ticked in
      place, all with the same tick number. The list keeps its length, its
      markers where they were, and every element's own hook. */
  function TickEntries(objects: map<string, SpriteSet>, n: int, es: seq<Entry>): (r: seq<Entry>)
    ensures |r| == |es|
    ensures forall i :: 0 <= i < |es| && es[i].Marker? ==> r[i] == es[i]
    ensures forall i :: 0 <= i < |es| && es[i].Elem? ==> r[i].Elem? && r[i].onTick == es[i].onTick
  {
    seq(|es|, i requires 0 <= i < |es| => TickEntry(objects, n, es[i]))
  }

  /** The names `objects.forEach` runs `ontick` for among the array indices
      below `k`, in index order. */
  function ObjectTicksBelow(objects: map<string, SpriteSet>, k: nat): seq<string>
  {
    if k == 0 then []
    else
      var key := Decimal(k - 1);
      ObjectTicksBelow(objects, k - 1)
      + (if key in objects && objects[key].hasOnTick then [key] else [])
  }

  /** The names whose scene-level `ontick` runs, in the order it runs:
      array indices, each visited once, in increasing order. */
  function ObjectTicks(objects: map<string, SpriteSet>): (r: seq<string>)
    ensures AscendingIndices(r, MaxArrayLength)
  {
    ObjectTicksAscending(objects, MaxArrayLength);
    ObjectTicksBelow(objects, MaxArrayLength)
  }

  /** Past the array's `length` there are no index keys to visit. */
  lemma {:induction false} ObjectTicksStopAtLength(objects: map<string, SpriteSet>, len: nat, k: nat)
    requires IsArrayLength(objects.Keys, len) && len <= k <= MaxArrayLength
    ensures ObjectTicksBelow(objects, k) == ObjectTicksBelow(objects, len)
    decreases k
  {
    if k > len {
      ObjectTicksStopAtLength(objects, len, k - 1);
      DecimalCanonical(k - 1);
      assert IsArrayIndex(Decimal(k - 1));
      assert Decimal(k - 1) !in objects;
    }
  }

  lemma {:induction false} ObjectTicksBelowMembers(objects: map<string, SpriteSet>, k: nat, name: string)
    requires k <= MaxArrayLength
    ensures name in ObjectTicksBelow(objects, k) <==>
      (name in objects && IsArrayIndex(name) && ParseDecimal(name) < k && objects[name].hasOnTick)
    decreases k
  {
    if k > 0 {
      ObjectTicksBelowMembers(objects, k - 1, name);
      DecimalCanonical(k - 1);
      if name == Decimal(k - 1) {
        assert ParseDecimal(name) == k - 1;
      } else if IsArrayIndex(name) {
        CanonicalRoundTrip(name);
        assert ParseDecimal(name) != k - 1;
      }
    }
  }

  /** A sprite set's scene-level `ontick` runs exactly when the set is
      stored under an array index and declares one: names such as "lamp"
      never tick at scene level. */
  lemma ObjectTicksExactly(objects: map<string, SpriteSet>, name: string)
    ensures name in ObjectTicks(objects) <==>
      (name in objects && IsArrayIndex(name) && objects[name].hasOnTick)
  {
    ObjectTicksBelowMembers(objects, MaxArrayLength, name);
  }

  /** The visited names come in strictly increasing index order (so none is
      visited twice). */
  ghost predicate AscendingIndices(r: seq<string>, k: nat) {
    && (forall i :: 0 <= i < |r| ==> IsArrayIndex(r[i]) && ParseDecimal(r[i]) < k)
    && (forall i, j :: 0 <= i < j < |r| ==> ParseDecimal(r[i]) < ParseDecimal(r[j]))
  }

  lemma {:induction false} ObjectTicksAscending(objects: map<string, SpriteSet>, k: nat)
    requires k <= MaxArrayLength
    ensures AscendingIndices(ObjectTicksBelow(objects, k), k)
    decreases k
  {
    if k > 0 {
      ObjectTicksAscending(objects, k - 1);
      DecimalCanonical(k - 1);
      var pre := ObjectTicksBelow(objects, k - 1);
      var key := Decimal(k - 1);
      assert IsArrayIndex(key) && ParseDecimal(key) == k - 1;
      var r := ObjectTicksBelow(objects, k);
      assert r == pre + (if key in objects && objects[key].hasOnTick then [key] else []);
      forall i | 0 <= i < |r|
        ensures IsArrayIndex(r[i]) && ParseDecimal(r[i]) < k
      {
        if i < |pre| { assert r[i] == pre[i]; } else { assert r[i] == key; }
      }
      forall i, j | 0 <= i < j < |r|
        ensures ParseDecimal(r[i]) < ParseDecimal(r[j])
      {
        assert r[i] == pre[i];
        if j < |pre| { assert r[j] == pre[j]; } else { assert r[j] == key; }
      }
    }
  }
}
