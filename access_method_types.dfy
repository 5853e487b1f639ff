/** The props the AccessMethod panel reads: the collection's access methods, the selected
    method key, and the user's temporal and spatial selection. */
module AccessMethodTypes {
  import opened Wrappers

  /** One value of the `accessMethods` prop, reduced to the properties the panel reads.
      A property that is `undefined` is `None`; the render-time defaults (`= false`, `= []`)
      are applied where they are read, as the component does. */
  datatype Method = Method(
    methodType: Option<string>,
    name: Option<string>,
    enableTemporalSubsetting: Option<bool>,
    enableSpatialSubsetting: Option<bool>,
    enableConcatenateDownload: Option<bool>,
    hasForm: bool,
    supportedOutputFormats: Option<seq<string>>,
    supportedOutputProjections: Option<seq<string>>,
    supportsTemporalSubsetting: Option<bool>,
    supportsShapefileSubsetting: Option<bool>,
    supportsBoundingBoxSubsetting: Option<bool>,
    supportsVariableSubsetting: Option<bool>,
    supportsConcatenation: Option<bool>,
    defaultConcatenation: Option<bool>)

  /** The empty object `{}` that the component substitutes for a missing method. */
  const NoMethod: Method :=
    Method(None, None, None, None, None, false, None, None, None, None, None, None, None, None)

  /** One own property of the `accessMethods` object: its key and its value. */
  datatype Entry = Entry(key: string, accessMethod: Method)

  /** The `accessMethods` object, as its properties in `Object.keys` order. A JavaScript
      object holds each key once (`KeysDistinct`); the operations do not rely on it. */
  type AccessMethods = seq<Entry>

  /** No key occurs twice, as in any JavaScript object. */
  predicate KeysDistinct(methods: AccessMethods) {
    forall i, j :: 0 <= i < j < |methods| ==> methods[i].key != methods[j].key
  }

  /** The five access-method types the panel knows. */
  datatype MethodType = Download | EchoOrders | Esi | Opendap | Harmony

  /** The case labels of the render pass's `switch (type)`. */
  function ParseType(s: string): (r: Option<MethodType>)
    ensures r.Some? ==> s != ""
  {
    if s == "download" then Some(Download)
    else if s == "ECHO ORDERS" then Some(EchoOrders)
    else if s == "ESI" then Some(Esi)
    else if s == "OPeNDAP" then Some(Opendap)
    else if s == "Harmony" then Some(Harmony)
    else None
  }

  /** JavaScript truthiness of an optional string: defined and not empty. */
  predicate Truthy(s: Option<string>) {
    s.Some? && s.value != ""
  }

  /** The type of a method, when it is one of the five. */
  function TypeOf(m: Method): Option<MethodType> {
    match m.methodType
    case None => None
    case Some(s) => ParseType(s)
  }

  /** Every method either has no (truthy) type or one of the five known types. */
  predicate TypesKnown(methods: AccessMethods) {
    forall i :: 0 <= i < |methods| ==>
      Truthy(methods[i].accessMethod.methodType) ==> TypeOf(methods[i].accessMethod).Some?
  }

  /** `accessMethods[key]`: the value of the first property with that key, if any. */
  function Lookup(methods: AccessMethods, key: Option<string>): (r: Option<Method>)
    ensures r.Some? <==> key.Some? && exists i :: 0 <= i < |methods| && methods[i].key == key.value
    ensures r.Some? ==> exists i :: 0 <= i < |methods| && methods[i] == Entry(key.value, r.value)
  {
    if key.None? || methods == [] then None
    else if methods[0].key == key.value then Some(methods[0].accessMethod)
    else Lookup(methods[1..], key)
  }

  /** The `temporal` prop. An undefined date and the empty string both read as "". */
  datatype Temporal = Temporal(startDate: string, endDate: string, isRecurring: bool)

  /** The `spatial` prop: each shape list is `None` when the property is `undefined`. */
  datatype Spatial = Spatial(
    boundingBox: Option<seq<string>>,
    circle: Option<seq<string>>,
    line: Option<seq<string>>,
    point: Option<seq<string>>,
    polygon: Option<seq<string>>)

  /** At least one spatial shape is defined. */
  predicate HasSpatialShape(s: Spatial) {
    s.boundingBox.Some? || s.circle.Some? || s.line.Some? || s.point.Some? || s.polygon.Some?
  }

  /** The props of the component that its logic reads. */
  datatype Props = Props(
    accessMethods: AccessMethods,
    selectedAccessMethod: Option<string>,
    collectionId: string,
    isActive: bool,
    temporal: Temporal,
    spatial: Spatial)

  /** The selected method, if the selected key names one. */
  function SelectedMethod(p: Props): (r: Option<Method>)
    ensures r.None? <==> (|| p.selectedAccessMethod.None?
                          || forall i :: 0 <= i < |p.accessMethods| ==> p.accessMethods[i].key != p.selectedAccessMethod.value)
    ensures r.Some? ==> exists i :: 0 <= i < |p.accessMethods|
                          && p.accessMethods[i] == Entry(p.selectedAccessMethod.value, r.value)
  {
    Lookup(p.accessMethods, p.selectedAccessMethod)
  }

  /** In an object, looking up the key of any property finds that property's own value. */
  lemma {:induction false} LookupDistinct(methods: AccessMethods, i: nat)
    requires KeysDistinct(methods) && i < |methods|
    ensures Lookup(methods, Some(methods[i].key)) == Some(methods[i].accessMethod)
    decreases i
  {
    if i > 0 {
      assert methods[0].key != methods[i].key;
      var rest := methods[1..];
      assert KeysDistinct(rest) by {
        forall a, b | 0 <= a < b < |rest| ensures rest[a].key != rest[b].key {
          assert rest[a] == methods[a + 1] && rest[b] == methods[b + 1];
        }
      }
      assert rest[i - 1] == methods[i];
      LookupDistinct(rest, i - 1);
    }
  }
}
