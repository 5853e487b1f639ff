# Access method panel and portal configuration

This project models two pieces of the Earthdata Search client in Dafny.

**The `AccessMethod` component** is the panel where a user picks how a collection's data is
delivered, then customizes it. The model covers:

- The component state: three checkbox flags for temporal subsetting, spatial subsetting and
  concatenation.
  - The constructor derives them from the props.
  - `UNSAFE_componentWillReceiveProps` switches temporal subsetting off for a recurring date.
    It reads the props the component still holds, not the incoming ones.
  - Every handler sets its own flag, if it has one, and reports the change to the parent
    through a callback prop.
- The render pass.
  - Access methods are classified by type into radio items and bucketed by type.
  - The radio list is built as OPeNDAP, ESI, ECHO ORDERS, download. Harmony methods are kept
    apart and only raise `hasHarmony`.
  - Output formats are filtered through the OUS or Harmony mapping. Projections are offered
    for Harmony keys only.
  - The panel decides whether customization is available.
  - The selected temporal range is described as "… to …", "… ongoing" or "Up to …".

The component is a `class` (`AccessMethodPanel.AccessMethodComponent`). Its fields are the
props, the three state fields and a log of the callback calls. Its methods are the
constructor, the props hook, the handlers and `Render`. Each method is proved against pure
functions (`InitialState`, `PropsChangeStep`, `ApplyUpdate`, `RadioList`, `FormatOptionsFor`,
…), and the lemmas state their properties. The `forEach` that fills the buckets is a loop
(`BucketByType`), proved equal to the per-type bucket function `ItemsOfType`.

**Portal configuration** (`Portals`):

- `isDefaultPortal` compares an id with the configured default portal.
- `buildConfig` resolves a portal's partial configuration over the base portal (`edsc`),
  which is itself over the hard defaults. It then sets `portalId` to the portal's own id and
  `parentConfig` to the base id.

The merge is a deep merge over a JSON-like datatype:

- objects merge key by key;
- a missing key falls through to the lower layer;
- any other value, `null` and arrays included, replaces the lower value whole.

Proved about it:

- precedence portal > base > defaults at every path;
- an explicit `null` survives;
- building twice gives the same configuration;
- resolving the base portal applies its layer once.

The implementation file `util/portals.js` is not part of this model. Only its test is, so
the merge is the model's own, and the claims stop at what that test asserts and what follows
from the stated layering.

## Model

| member | source | states |
|---|---|---|
| AccessMethodTypes.Lookup | static/src/js/components/AccessMethod/AccessMethod.js:58 | `accessMethods[selectedAccessMethod]` finds a method exactly when some property has that key, and what it finds is that property's value |
| AccessMethodTypes.SelectedMethod | static/src/js/components/AccessMethod/AccessMethod.js:400 | the selected method is absent exactly when no key is selected or no property has the selected key; otherwise it is the value of a property with that key |
| AccessMethodTypes.LookupDistinct | static/src/js/components/AccessMethod/AccessMethod.js:58 | in an object (each key once), looking up any property's key finds that property's own value |
| AccessMethodTypes.ParseType | static/src/js/components/AccessMethod/AccessMethod.js:324-372 | the five `case` labels of the type switch are the only recognised types, and none is the empty (falsy) string |
| AccessMethodPanel.InitialState | static/src/js/components/AccessMethod/AccessMethod.js:58-83 | temporal subsetting is the method's own flag, else off exactly for a recurring date; spatial is the method's own flag, else on exactly when some shape is defined; concatenation is the method's flag, and undefined when no method is selected |
| AccessMethodPanel.AccessMethodComponent.constructor | static/src/js/components/AccessMethod/AccessMethod.js:39-83 | the constructed state equals `InitialState` of the props and no callback has been made |
| AccessMethodPanel.ConcatenateChecked | static/src/js/components/AccessMethod/AccessMethod.js:418-422 | the box is checked exactly when the state holds true, or the state is undefined and the selected method's `defaultConcatenation` is true |
| AccessMethodPanel.InitialConcatenation | static/src/js/components/AccessMethod/AccessMethod.js:415-421 | the concatenation box first shows the method's `enableConcatenateDownload`, else its `defaultConcatenation`, else false; with no selected method it is unchecked |
| AccessMethodPanel.PropsChangeStep | static/src/js/components/AccessMethod/AccessMethod.js:95-106 | a recurring date turns temporal subsetting off, and every other field (all fields, without a recurring date) keeps its value |
| AccessMethodPanel.PropsChangeStepIdempotent | static/src/js/components/AccessMethod/AccessMethod.js:95-106 | repeating the props hook with the same temporal selection changes nothing more |
| AccessMethodPanel.AccessMethodComponent.ReceiveProps | static/src/js/components/AccessMethod/AccessMethod.js:95-106 | the new state is `PropsChangeStep` of the old state and the temporal selection of the props held before the change; then the props become the incoming ones; no callback is made |
| AccessMethodPanel.ApplyUpdate | static/src/js/components/AccessMethod/AccessMethod.js:164-219 | a toggle sets exactly its own field to the checkbox value; format and projection selections change no field |
| AccessMethodPanel.ApplyUpdateIdempotent | static/src/js/components/AccessMethod/AccessMethod.js:164-219 | applying the same update twice is applying it once |
| AccessMethodPanel.IndependentUpdatesCommute | static/src/js/components/AccessMethod/AccessMethod.js:164-219 | updates of different fields commute |
| AccessMethodPanel.ToggleBackRestores | static/src/js/components/AccessMethod/AccessMethod.js:183-219 | toggling a box and toggling it back restores the state |
| AccessMethodPanel.AccessMethodComponent.HandleToggleTemporalSubsetting | static/src/js/components/AccessMethod/AccessMethod.js:183-200 | the state is `ApplyUpdate` of the temporal toggle, the props are unchanged, and one `onUpdateAccessMethod` call with the collection id, the selected key and `enableTemporalSubsetting` is appended |
| AccessMethodPanel.AccessMethodComponent.HandleToggleSpatialSubsetting | static/src/js/components/AccessMethod/AccessMethod.js:202-219 | as above, for `enableSpatialSubsetting` |
| AccessMethodPanel.AccessMethodComponent.HandleConcatenationSelection | static/src/js/components/AccessMethod/AccessMethod.js:164-181 | as above, for `enableConcatenateDownload`, which becomes defined |
| AccessMethodPanel.AccessMethodComponent.EmitUpdate | static/src/js/components/AccessMethod/AccessMethod.js:137-144 | one `onUpdateAccessMethod` call with the collection id, the selected key and the update is appended, and nothing else changes |
| AccessMethodPanel.AccessMethodComponent.HandleOutputFormatSelection | static/src/js/components/AccessMethod/AccessMethod.js:130-145 | the state and props are unchanged, and one `onUpdateAccessMethod` call carrying `selectedOutputFormat` is appended |
| AccessMethodPanel.AccessMethodComponent.HandleOutputProjectionSelection | static/src/js/components/AccessMethod/AccessMethod.js:147-162 | the state and props are unchanged, and one `onUpdateAccessMethod` call carrying `selectedOutputProjection` is appended |
| AccessMethodPanel.AccessMethodComponent.HandleAccessMethodSelection | static/src/js/components/AccessMethod/AccessMethod.js:119-128 | the state and props are unchanged, and one `onSelectAccessMethod` call with the collection id and the chosen key is appended |
| AccessMethodPanel.AccessMethodComponent.HandleHarmonyTypeAccessMethodSelection | static/src/js/components/AccessMethod/AccessMethod.js:108-117 | the state and props are unchanged, and one `onSelectHarmonyType` call with the collection id is appended |
| AccessMethodRadioList.Describe | static/src/js/components/AccessMethod/AccessMethod.js:324-372 | a classified item keeps the method's key and service name, and its subtitle places it in its type's group (none for download); every id starts with the collection id and `_access-method__`, and every id other than the download one ends with the method's key |
| AccessMethodRadioList.DownloadIdsCollide | static/src/js/components/AccessMethod/AccessMethod.js:326 | two download methods get the same id (also their React `key`), whatever their keys and names |
| AccessMethodRadioList.ItemsOfType | static/src/js/components/AccessMethod/AccessMethod.js:313-391 | a type's bucket has at most one item per method, and every item in it carries that type's subtitle |
| AccessMethodRadioList.Positions | static/src/js/components/AccessMethod/AccessMethod.js:313 | the positions of the methods of a type are in range, of that type and strictly increasing (`Object.keys` order) |
| AccessMethodRadioList.ItemsAtPositions | static/src/js/components/AccessMethod/AccessMethod.js:313-391 | the bucket of a type is exactly the items of the methods of that type, in key order |
| AccessMethodRadioList.PositionsComplete | static/src/js/components/AccessMethod/AccessMethod.js:378-390 | no method of a type is left out of its bucket |
| AccessMethodRadioList.BucketByType | static/src/js/components/AccessMethod/AccessMethod.js:303-391 | the loop leaves every bucket equal to `ItemsOfType`, and `hasHarmony` set exactly when some method has type Harmony |
| AccessMethodRadioList.RadioList | static/src/js/components/AccessMethod/AccessMethod.js:393-398 | the list is grouped OPeNDAP, ESI, ECHO Orders, download, in that order, and holds no Harmony item |
| AccessMethodRadioList.RadioListMembership | static/src/js/components/AccessMethod/AccessMethod.js:364-398 | a method of a known type is offered in the radio list exactly when its type is not Harmony |
| AccessMethodRadioList.BucketsCount | static/src/js/components/AccessMethod/AccessMethod.js:378-390 | the five buckets together hold exactly one item per method with a truthy type |
| AccessMethodRadioList.HasHarmonyIffBucket | static/src/js/components/AccessMethod/AccessMethod.js:364-372 | `hasHarmony` holds exactly when the Harmony bucket is not empty |
| AccessMethodRadioList.NoMethodsAlertIffUntyped | static/src/js/components/AccessMethod/AccessMethod.js:534 | the "No access methods" alert shows exactly when no method has a truthy type |
| AccessMethodRadioList.ShowsNoMethodsAlert | static/src/js/components/AccessMethod/AccessMethod.js:534 | the alert condition; `NoMethodsAlertIffUntyped` characterises it as "no method has a truthy type" |
| AccessMethodRadioList.HasHarmony | static/src/js/components/AccessMethod/AccessMethod.js:364-372 | some method has type Harmony; `HasHarmonyIffBucket` ties it to the Harmony bucket and `BucketByType` to the loop's flag |
| AccessMethodOptions.Includes | static/src/js/components/AccessMethod/AccessMethod.js:427 | `includes` holds exactly when the substring occurs at some offset |
| AccessMethodOptions.MappedFormats | static/src/js/components/AccessMethod/AccessMethod.js:434-436 | the filter keeps exactly the formats the mapping knows, each as many times as it is listed, in the original order |
| AccessMethodOptions.FormatOptions | static/src/js/components/AccessMethod/AccessMethod.js:439-441 | one option per kept format, shown as the format and valued with its mapped value |
| AccessMethodOptions.ProjectionOptions | static/src/js/components/AccessMethod/AccessMethod.js:459-461 | one option per projection, shown and valued as the projection itself |
| AccessMethodOptions.DeriveOutputOptions | static/src/js/components/AccessMethod/AccessMethod.js:424-462 | the format options use the Harmony mapping for a Harmony key, else the OUS mapping for `opendap`, else there are none; projection options exist only for Harmony keys |
| AccessMethodOptions.IsOpendapKey | static/src/js/components/AccessMethod/AccessMethod.js:424 | the OPeNDAP branch is taken exactly for the key `opendap` |
| AccessMethodOptions.IsHarmonyKey | static/src/js/components/AccessMethod/AccessMethod.js:427 | the Harmony branch is taken exactly for a defined key in which `harmony` occurs |
| AccessMethodOptions.KeyClassification | static/src/js/components/AccessMethod/AccessMethod.js:424-427 | `opendap` is not a Harmony key, and every key containing `harmony` is a Harmony key and not the OPeNDAP key |
| AccessMethodOptions.FormatOptionsFor | static/src/js/components/AccessMethod/AccessMethod.js:429-456 | format options exist only for an OPeNDAP or Harmony key; each is a format the method supports, valued through the Harmony mapping for a Harmony key and the OUS mapping otherwise |
| AccessMethodOptions.ProjectionOptionsFor | static/src/js/components/AccessMethod/AccessMethod.js:444-461 | projection options exist only for a Harmony key, and then there is one per supported projection |
| AccessMethodOptions.IsCustomizationAvailable | static/src/js/components/AccessMethod/AccessMethod.js:470-477 | the availability test; `CustomizationAvailability` characterises it against the raw method and mappings |
| AccessMethodOptions.CustomizationAvailability | static/src/js/components/AccessMethod/AccessMethod.js:470-477 | customization is available exactly when a subsetting or concatenation is supported, a form is active, or the selected mapping knows a supported format (or, for Harmony, a projection exists) |
| AccessMethodOptions.SelectedTemporalDisplay | static/src/js/components/AccessMethod/AccessMethod.js:509-521 | a range text exists exactly when a start or end date is set, and is "start to end", "start ongoing" or "Up to end" in the three cases |
| AccessMethodPanel.AccessMethodComponent.Render | static/src/js/components/AccessMethod/AccessMethod.js:285-534 | the rendered decisions are the radio list, `hasHarmony`, the alert, the format and projection options, the availability, the no-customization note and the checkbox values given by the functions above; the range text exists exactly when a date is set and is "start to end", "start ongoing" or "Up to end" built from the formatted dates |
| Portals.Merge | static/src/js/util/__tests__/portals.test.js:27 | the merged value is an object exactly when the higher layer is, holds the keys of both layers, and is the higher value itself when that is not an object |
| Portals.MergeAtPath | static/src/js/util/__tests__/portals.test.js:27 | where the higher layer sets a path, the result there is that value merged over the lower layer's value there, or that value alone |
| Portals.MergeLeafWins | static/src/js/util/__tests__/portals.test.js:27 | a non-object value set by the higher layer (`null`, `false` and arrays included) wins |
| Portals.MergeFallsThrough | static/src/js/util/__tests__/portals.test.js:27 | a path the higher layer leaves unset reads as in the lower layer |
| Portals.MergeIdempotent | static/src/js/util/__tests__/portals.test.js:27 | merging a layer over itself gives it back |
| Portals.MergeAbsorbsHigher | static/src/js/util/__tests__/portals.test.js:27 | merging the same higher layer a second time changes nothing |
| Portals.MergeAbsorbsLower | static/src/js/util/__tests__/portals.test.js:27 | merging a result over its own lower layer changes nothing |
| Portals.BuildConfig | static/src/js/util/__tests__/portals.test.js:28-77 | the build fails exactly when the base portal or the portal's id is missing; otherwise `portalId` is the portal's own and `parentConfig` is the base id |
| Portals.BuildConfigPrecedence | static/src/js/util/__tests__/portals.test.js:27 | at every path except the two identity fields, a value set on the portal wins, else one set on the base portal, else the default's |
| Portals.BuildConfigKeepsNull | static/src/js/util/__tests__/portals.test.js:67 | an explicit `null` in the winning layer is `null` in the built configuration, not dropped |
| Portals.BuildConfigIdempotent | static/src/js/util/__tests__/portals.test.js:28 | building from a built configuration gives the same configuration back; the test builds once only, so this is a property of the model's merge, not an assertion of the test |
| Portals.BuildConfigOfBase | static/src/js/util/__tests__/portals.test.js:27 | resolving the base portal gives the base over the defaults (its layer applied once) with the identity fields set |
| Portals.IsDefaultPortal | static/src/js/util/__tests__/portals.test.js:17-23 | an id is the default portal exactly when it is defined and equal to the configured default |
| Portals.IsDefaultPortalExamples | static/src/js/util/__tests__/portals.test.js:12-23 | with `edsc` configured, `edsc` is the default, and `simple`, `edsc` followed by any further text, and `dsc` are not |

## Left out

- JSX, markup, CSS classes and the `EchoForm`, variable and spatial display sub-panels: presentation only. A render is reduced to the decisions listed for `Render`.
- The `description` and `details` copy of each radio item and the Harmony-type radio entry's text: display strings that carry no logic. The Harmony item's details put the method's `name` into the text; `RadioItem.name` keeps that name.
- Date parsing and formatting with `moment`: the formatted start and end displays are parameters of `SelectedTemporalDisplay` and `Render`.
- The OUS and Harmony format mappings: module-level constants of other files, passed as parameters.
- `setState` batching and React's re-render scheduling: each handler's state change is applied at once, in order with its callback.
- The difference between `undefined` and `null` props: an undefined or null selected key is `None`; `isRecurring` undefined reads as false and an undefined date as "". A property literally named `undefined` or `null`, which a missing key would index in the source, is not modelled.
- A callback payload with no selected key, which the source builds under the property name `null` (the default prop), or `undefined` if an undefined key is passed around React's defaults: the model records `None` as the key.
- AccessMethodPanel.AccessMethodComponent.Render: requires every truthy method type to be one of the five known ones. The source throws on an unknown type, at the `push` onto a missing bucket, and that crash is not modelled.
- AccessMethodRadioList.BucketByType: requires the same, for the same reason.
- Duplicate keys: `AccessMethods` is a sequence, which could repeat a key that a JavaScript object holds once. `KeysDistinct` states the object's property, and `LookupDistinct` uses it; the other operations are stated for any sequence.
- A method value that is `undefined` under an existing key, which the render pass replaces by `{}`: every entry of the model carries a method. A `null` method value is not replaced (the `= {}` default applies only to `undefined`) and the render pass throws on it; that crash is not modelled either.
- An undefined collection id: `metadata` defaults to `{}`, so `conceptId` can be undefined, giving ids that start with `undefined_access-method__` and callback payloads with an undefined `collectionId`. The model's `collectionId` is always a string.
- `getApplicationConfig()`: the default portal is an explicit `ApplicationConfig` parameter.
- The implementation of `util/portals.js` and the `availablePortals` data are not part of this model. The merge is a plain deep merge, and the failure cases of `BuildConfig` (missing base portal, missing `portalId`) are the model's own choice.
- Portals.BuildConfig: the `portalBrowser` default derived from the base portal is not modelled, since its rule is not visible.
- Associativity of the three-layer merge is not claimed. It fails for this merge when the middle layer holds a scalar where the outer layers hold objects.
- The literal `idn` fixture of the test (its long texts and link lists) is not restated. Its assertions are covered by the general precedence, null and identity lemmas.
- `EDSCAlert`: a presentational wrapper whose only logic is CSS class composition.
