/** The first step of the panel: each access method is classified by its type into a radio
    item, the items are bucketed by type, and the radio list is built from the buckets in a
    fixed type order. Harmony methods are held apart and only raise `hasHarmony`. */
module AccessMethodRadioList {
  import opened Wrappers
  import opened AccessMethodTypes

  /** One entry of the radio list: the id, title and subtitle the method is shown with.
      (The description and details copy of each entry is not modelled.) */
  datatype RadioItem = RadioItem(
    id: string,
    methodKey: string,
    title: string,
    subtitle: Option<string>,
    name: Option<string>)

  /** The position of a type's bucket in the radio list; Harmony (4) is not in it. */
  function TypeRank(t: MethodType): nat {
    match t
    case Opendap => 0
    case Esi => 1
    case EchoOrders => 2
    case Download => 3
    case Harmony => 4
  }

  /** The same rank, read back from the subtitle an item is displayed with. */
  function SubtitleRank(subtitle: Option<string>): nat {
    match subtitle
    case None => 3
    case Some(s) =>
      if s == "OPeNDAP" then 0
      else if s == "ESI" then 1
      else if s == "ECHO Orders" then 2
      else 4
  }

  /** The `switch (type)` of the render pass: the radio item of a method of a known type. */
  function Describe(collectionId: string, methodKey: string, t: MethodType, name: Option<string>): (r: RadioItem)
    ensures r.methodKey == methodKey && r.name == name
    ensures SubtitleRank(r.subtitle) == TypeRank(t)
    ensures var prefix := collectionId + "_access-method__";
      && |prefix| <= |r.id| && r.id[..|prefix|] == prefix
      && (t != Download ==> |methodKey| <= |r.id| && r.id[|r.id| - |methodKey|..] == methodKey)
  {
    var prefix := collectionId + "_access-method__";
    match t
    case Download => RadioItem(prefix + "direct-download", methodKey, "Direct Download", None, name)
    case EchoOrders => RadioItem(prefix + "customize_" + methodKey, methodKey, "Stage For Delivery", Some("ECHO Orders"), name)
    case Esi => RadioItem(prefix + "customize_" + methodKey, methodKey, "Customize", Some("ESI"), name)
    case Opendap => RadioItem(prefix + "opendap_" + methodKey, methodKey, "Customize", Some("OPeNDAP"), name)
    case Harmony => RadioItem(prefix + "harmony_" + methodKey, methodKey, "Customize", Some("Harmony"), name)
  }

  /** Two download methods get the same id, which is also their React `key`: the id of a
      download item does not depend on the method key. */
  lemma DownloadIdsCollide(collectionId: string, key1: string, key2: string, name1: Option<string>, name2: Option<string>)
    ensures Describe(collectionId, key1, Download, name1).id == Describe(collectionId, key2, Download, name2).id
  {
  }

  /** The method of `e` has type `t`. */
  predicate OfType(e: Entry, t: MethodType) {
    TypeOf(e.accessMethod) == Some(t)
  }

  /** The radio item of a method of a known type. */
  function ItemOf(collectionId: string, e: Entry): RadioItem
    requires TypeOf(e.accessMethod).Some?
  {
    Describe(collectionId, e.key, TypeOf(e.accessMethod).value, e.accessMethod.name)
  }

  /** The bucket `accessMethodsByType[t]` once every method has been visited: the radio items
      of the methods of type `t`, in the order of `accessMethods`. */
  function ItemsOfType(collectionId: string, methods: AccessMethods, t: MethodType): (r: seq<RadioItem>)
    ensures |r| <= |methods|
    ensures forall x :: x in r ==> SubtitleRank(x.subtitle) == TypeRank(t)
    decreases |methods|
  {
    if methods == [] then []
    else
      var init, last := methods[..|methods| - 1], methods[|methods| - 1];
      ItemsOfType(collectionId, init, t) + (if OfType(last, t) then [ItemOf(collectionId, last)] else [])
  }

  /** The indices of the methods of type `t`, increasing. */
  function Positions(methods: AccessMethods, t: MethodType): (ps: seq<nat>)
    ensures forall i :: 0 <= i < |ps| ==> ps[i] < |methods| && OfType(methods[ps[i]], t)
    ensures forall i, j :: 0 <= i < j < |ps| ==> ps[i] < ps[j]
    decreases |methods|
  {
    if methods == [] then []
    else
      var n := |methods| - 1;
      Positions(methods[..n], t) + (if OfType(methods[n], t) then [n] else [])
  }

  /** The bucket of type `t` is the methods of that type, picked out at increasing indices:
      it keeps the order of `accessMethods`. */
  lemma {:induction false} ItemsAtPositions(collectionId: string, methods: AccessMethods, t: MethodType)
    ensures |ItemsOfType(collectionId, methods, t)| == |Positions(methods, t)|
    ensures forall i :: 0 <= i < |Positions(methods, t)| ==>
      ItemsOfType(collectionId, methods, t)[i] == ItemOf(collectionId, methods[Positions(methods, t)[i]])
    decreases |methods|
  {
    if methods != [] {
      var n := |methods| - 1;
      ItemsAtPositions(collectionId, methods[..n], t);
      var ps := Positions(methods[..n], t);
      assert Positions(methods, t) == ps + (if OfType(methods[n], t) then [n] else []);
      assert ItemsOfType(collectionId, methods, t)
          == ItemsOfType(collectionId, methods[..n], t)
             + (if OfType(methods[n], t) then [ItemOf(collectionId, methods[n])] else []);
      forall i | 0 <= i < |ps|
        ensures methods[..n][ps[i]] == methods[ps[i]]
      {
      }
    }
  }

  /** Every method of type `t` has its index among the positions of `t`. */
  lemma {:induction false} PositionsComplete(methods: AccessMethods, t: MethodType, k: nat)
    requires k < |methods| && OfType(methods[k], t)
    ensures k in Positions(methods, t)
    decreases |methods|
  {
    var n := |methods| - 1;
    assert Positions(methods, t) == Positions(methods[..n], t) + (if OfType(methods[n], t) then [n] else []);
    if k < n {
      assert methods[..n][k] == methods[k];
      PositionsComplete(methods[..n], t, k);
    }
  }

  /** Some method has type Harmony. */
  predicate HasHarmony(methods: AccessMethods) {
    exists i :: 0 <= i < |methods| && OfType(methods[i], Harmony)
  }

  /** The items are grouped by type, in ascending rank. */
  predicate RankSorted(r: seq<RadioItem>) {
    forall i, j :: 0 <= i < j < |r| ==> SubtitleRank(r[i].subtitle) <= SubtitleRank(r[j].subtitle)
  }

  /** Appending a group of items whose ranks are all `k` to items of rank at most `k`
      keeps the ranks ascending. */
  lemma AppendGroup(a: seq<RadioItem>, b: seq<RadioItem>, k: nat)
    requires RankSorted(a) && forall x :: x in a ==> SubtitleRank(x.subtitle) <= k
    requires forall x :: x in b ==> SubtitleRank(x.subtitle) == k
    ensures RankSorted(a + b) && forall x :: x in a + b ==> SubtitleRank(x.subtitle) <= k
  {
    forall i, j | 0 <= i < j < |a + b|
      ensures SubtitleRank((a + b)[i].subtitle) <= SubtitleRank((a + b)[j].subtitle)
    {
      if j >= |a| {
        assert (a + b)[j] in b;
        assert (a + b)[i] in a || (a + b)[i] in b;
      }
    }
  }

  /** The radio list: OPeNDAP, then ESI, then ECHO ORDERS, then download methods. */
  function RadioList(collectionId: string, methods: AccessMethods): (r: seq<RadioItem>)
    ensures RankSorted(r)
    ensures forall x :: x in r ==> SubtitleRank(x.subtitle) < TypeRank(Harmony)
  {
    var o := ItemsOfType(collectionId, methods, Opendap);
    var s := ItemsOfType(collectionId, methods, Esi);
    var e := ItemsOfType(collectionId, methods, EchoOrders);
    var d := ItemsOfType(collectionId, methods, Download);
    AppendGroup([], o, 0);
    AppendGroup(o, s, 1);
    AppendGroup(o + s, e, 2);
    AppendGroup(o + s + e, d, 3);
    o + s + e + d
  }

  /** A method of a known type is offered in the radio list exactly when it is not Harmony. */
  lemma RadioListMembership(collectionId: string, methods: AccessMethods, k: nat)
    requires k < |methods| && TypeOf(methods[k].accessMethod).Some?
    ensures ItemOf(collectionId, methods[k]) in RadioList(collectionId, methods)
        <==> TypeOf(methods[k].accessMethod) != Some(Harmony)
  {
    var t := TypeOf(methods[k].accessMethod).value;
    var item := ItemOf(collectionId, methods[k]);
    if t != Harmony {
      PositionsComplete(methods, t, k);
      ItemsAtPositions(collectionId, methods, t);
      var ps := Positions(methods, t);
      var i :| 0 <= i < |ps| && ps[i] == k;
      assert item in ItemsOfType(collectionId, methods, t);
    } else {
      assert SubtitleRank(item.subtitle) == TypeRank(Harmony);
    }
  }

  /** The "No access methods exist for this collection." alert is shown. */
  predicate ShowsNoMethodsAlert(collectionId: string, methods: AccessMethods) {
    |RadioList(collectionId, methods)| == 0 && !HasHarmony(methods)
  }

  /** The number of methods whose type is truthy, i.e. that are pushed onto a bucket. */
  function CountTyped(methods: AccessMethods): nat
    decreases |methods|
  {
    if methods == [] then 0
    else
      var n := |methods| - 1;
      CountTyped(methods[..n]) + (if Truthy(methods[n].accessMethod.methodType) then 1 else 0)
  }

  /** The five buckets hold one item per typed method: untyped methods are skipped. */
  lemma {:induction false} BucketsCount(collectionId: string, methods: AccessMethods)
    requires TypesKnown(methods)
    ensures |ItemsOfType(collectionId, methods, Opendap)| + |ItemsOfType(collectionId, methods, Esi)|
          + |ItemsOfType(collectionId, methods, EchoOrders)| + |ItemsOfType(collectionId, methods, Download)|
          + |ItemsOfType(collectionId, methods, Harmony)| == CountTyped(methods)
    decreases |methods|
  {
    if methods != [] {
      var n := |methods| - 1;
      assert TypesKnown(methods[..n]) by {
        forall i | 0 <= i < n ensures methods[..n][i] == methods[i] { }
      }
      BucketsCount(collectionId, methods[..n]);
      assert Truthy(methods[n].accessMethod.methodType) ==> TypeOf(methods[n].accessMethod).Some?;
    }
  }

  /** `hasHarmony` is set exactly when the Harmony bucket is not empty. */
  lemma {:induction false} HasHarmonyIffBucket(collectionId: string, methods: AccessMethods)
    ensures HasHarmony(methods) <==> |ItemsOfType(collectionId, methods, Harmony)| > 0
  {
    ItemsAtPositions(collectionId, methods, Harmony);
    var ps := Positions(methods, Harmony);
    if HasHarmony(methods) {
      var k :| 0 <= k < |methods| && OfType(methods[k], Harmony);
      PositionsComplete(methods, Harmony, k);
    }
    if |ps| > 0 {
      assert OfType(methods[ps[0]], Harmony);
    }
  }

  /** The "no access methods" alert shows exactly when no method has a (truthy) type. */
  lemma {:induction false} NoMethodsAlertIffUntyped(collectionId: string, methods: AccessMethods)
    requires TypesKnown(methods)
    ensures ShowsNoMethodsAlert(collectionId, methods) <==> CountTyped(methods) == 0
  {
    BucketsCount(collectionId, methods);
    HasHarmonyIffBucket(collectionId, methods);
  }

  /** Visiting one more method extends the bucket of its type, and only that one. */
  lemma ItemsOfTypeSnoc(collectionId: string, methods: AccessMethods, i: nat, t: MethodType)
    requires i < |methods|
    ensures ItemsOfType(collectionId, methods[..i + 1], t)
         == ItemsOfType(collectionId, methods[..i], t)
          + (if OfType(methods[i], t) then [ItemOf(collectionId, methods[i])] else [])
  {
    assert methods[..i + 1][..i] == methods[..i];
  }

  /** `byType` holds, for each type, the bucket built from the methods `visited`. */
  predicate BucketsHold(byType: map<MethodType, seq<RadioItem>>, collectionId: string, visited: AccessMethods) {
    forall t :: t in byType && byType[t] == ItemsOfType(collectionId, visited, t)
  }

  /** The render pass's `forEach` over `Object.keys(accessMethods)`: pushes each typed method's
      radio item onto the bucket of its type and notes whether a Harmony method was seen. */
  method BucketByType(collectionId: string, methods: AccessMethods)
    returns (byType: map<MethodType, seq<RadioItem>>, hasHarmony: bool)
    requires TypesKnown(methods)
    ensures forall t :: t in byType && byType[t] == ItemsOfType(collectionId, methods, t)
    ensures hasHarmony == HasHarmony(methods)
  {
    byType := map[Download := [], EchoOrders := [], Esi := [], Opendap := [], Harmony := []];
    hasHarmony := false;
    forall t ensures t in byType && byType[t] == ItemsOfType(collectionId, methods[..0], t) {
      match t
      case Download =>
      case EchoOrders =>
      case Esi =>
      case Opendap =>
      case Harmony =>
    }
    for i := 0 to |methods|
      invariant BucketsHold(byType, collectionId, methods[..i])
      invariant hasHarmony == HasHarmony(methods[..i])
    {
      var methodKey, accessMethod := methods[i].key, methods[i].accessMethod;
      if Truthy(accessMethod.methodType) {
        var t := TypeOf(accessMethod).value;
        var item := Describe(collectionId, methodKey, t, accessMethod.name);
        if t == Harmony {
          hasHarmony := true;
        }
        byType := byType[t := byType[t] + [item]];
      }
      forall u ensures u in byType && byType[u] == ItemsOfType(collectionId, methods[..i + 1], u) {
        ItemsOfTypeSnoc(collectionId, methods, i, u);
      }
      assert hasHarmony == HasHarmony(methods[..i + 1]) by {
        if OfType(methods[i], Harmony) {
          assert OfType(methods[..i + 1][i], Harmony);
        } else {
          forall k | 0 <= k < i + 1 && OfType(methods[..i + 1][k], Harmony)
            ensures k < i && OfType(methods[..i][k], Harmony)
          {
          }
        }
      }
    }
    assert methods[..|methods|] == methods;
  }
}
