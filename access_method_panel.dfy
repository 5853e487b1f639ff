/** The AccessMethod component: three checkbox flags kept in its state, the handlers that
    toggle them and report each change to the parent, and the render pass that derives the
    radio list and the customization options from the props and the state. */
module AccessMethodPanel {
  import opened Wrappers
  import opened AccessMethodTypes
  import opened AccessMethodRadioList
  import opened AccessMethodOptions

  /** The component's `this.state`. Temporal and spatial subsetting always hold a value once
      constructed; concatenation stays undefined until a value is known. */
  datatype PanelState = PanelState(
    enableTemporalSubsetting: bool,
    enableSpatialSubsetting: bool,
    enableConcatenateDownload: Option<bool>)

  /** The three state fields, each toggled by one checkbox. */
  datatype Field = TemporalSubsetting | SpatialSubsetting | ConcatenateDownload

  /** The value of one state field (`None` for an undefined one). */
  function Get(s: PanelState, f: Field): Option<bool> {
    match f
    case TemporalSubsetting => Some(s.enableTemporalSubsetting)
    case SpatialSubsetting => Some(s.enableSpatialSubsetting)
    case ConcatenateDownload => s.enableConcatenateDownload
  }

  /** The state the constructor derives from the props. */
  function InitialState(p: Props): (s: PanelState)
    ensures var m := SelectedMethod(p);
      && (if m.Some? && m.value.enableTemporalSubsetting.Some?
          then s.enableTemporalSubsetting == m.value.enableTemporalSubsetting.value
          else s.enableTemporalSubsetting == !p.temporal.isRecurring)
      && (if m.Some? && m.value.enableSpatialSubsetting.Some?
          then s.enableSpatialSubsetting == m.value.enableSpatialSubsetting.value
          else s.enableSpatialSubsetting == HasSpatialShape(p.spatial))
      && s.enableConcatenateDownload == (if m.Some? then m.value.enableConcatenateDownload else None)
  {
    var selected := SelectedMethod(p);
    var m := selected.GetOr(NoMethod);
    var spatial := p.spatial;
    PanelState(
      m.enableTemporalSubsetting.GetOr(!p.temporal.isRecurring),
      m.enableSpatialSubsetting.GetOr(!(spatial.boundingBox.None? && spatial.circle.None? && spatial.line.None?
                                        && spatial.point.None? && spatial.polygon.None?)),
      if selected.Some? then selected.value.enableConcatenateDownload else None)
  }

  /** The change an `onUpdateAccessMethod` call carries for the selected method. */
  datatype MethodUpdate =
    | EnableTemporalSubsetting(checked: bool)
    | EnableSpatialSubsetting(checked: bool)
    | EnableConcatenateDownload(checked: bool)
    | SelectedOutputFormat(format: string)
    | SelectedOutputProjection(projection: string)

  /** One call of a callback prop, as the parent receives it. */
  datatype Event =
    | UpdateAccessMethod(collectionId: string, methodKey: Option<string>, update: MethodUpdate)
    | SelectAccessMethod(collectionId: string, selectedAccessMethod: string)
    | SelectHarmonyType(collectionId: string)

  /** The state field an update also sets locally, if any. */
  function FieldOf(u: MethodUpdate): Option<Field> {
    match u
    case EnableTemporalSubsetting(_) => Some(TemporalSubsetting)
    case EnableSpatialSubsetting(_) => Some(SpatialSubsetting)
    case EnableConcatenateDownload(_) => Some(ConcatenateDownload)
    case _ => None
  }

  /** The `setState` a handler performs along with its update: a toggle sets its own field to
      the checkbox value, and every other field keeps its value. */
  function ApplyUpdate(s: PanelState, u: MethodUpdate): (r: PanelState)
    ensures forall f :: Get(r, f) == if FieldOf(u) == Some(f) then Some(u.checked) else Get(s, f)
  {
    match u
    case EnableTemporalSubsetting(checked) => s.(enableTemporalSubsetting := checked)
    case EnableSpatialSubsetting(checked) => s.(enableSpatialSubsetting := checked)
    case EnableConcatenateDownload(checked) => s.(enableConcatenateDownload := Some(checked))
    case _ => s
  }

  /** Reapplying the same update changes nothing more. */
  lemma ApplyUpdateIdempotent(s: PanelState, u: MethodUpdate)
    ensures ApplyUpdate(ApplyUpdate(s, u), u) == ApplyUpdate(s, u)
  {
  }

  /** Updates of different fields commute: the handlers never interfere with each other. */
  lemma IndependentUpdatesCommute(s: PanelState, u: MethodUpdate, v: MethodUpdate)
    requires FieldOf(u).None? || FieldOf(u) != FieldOf(v)
    ensures ApplyUpdate(ApplyUpdate(s, u), v) == ApplyUpdate(ApplyUpdate(s, v), u)
  {
  }

  /** The update a checkbox of the given field sends. */
  function Toggle(f: Field, checked: bool): (u: MethodUpdate)
    ensures FieldOf(u) == Some(f) && u.checked == checked
  {
    match f
    case TemporalSubsetting => EnableTemporalSubsetting(checked)
    case SpatialSubsetting => EnableSpatialSubsetting(checked)
    case ConcatenateDownload => EnableConcatenateDownload(checked)
  }

  /** Unchecking and re-checking a box (or the reverse) restores the state. */
  lemma ToggleBackRestores(s: PanelState, f: Field, checked: bool)
    requires Get(s, f) == Some(!checked)
    ensures ApplyUpdate(ApplyUpdate(s, Toggle(f, checked)), Toggle(f, !checked)) == s
  {
  }

  /** `UNSAFE_componentWillReceiveProps`: with a recurring date in the current props,
      temporal subsetting is switched off; nothing else changes. */
  function PropsChangeStep(s: PanelState, current: Temporal): (r: PanelState)
    ensures current.isRecurring ==> !r.enableTemporalSubsetting
    ensures forall f :: f != TemporalSubsetting || !current.isRecurring ==> Get(r, f) == Get(s, f)
  {
    if current.isRecurring then s.(enableTemporalSubsetting := false) else s
  }

  /** A second props change with the same temporal selection changes nothing more. */
  lemma PropsChangeStepIdempotent(s: PanelState, current: Temporal)
    ensures PropsChangeStep(PropsChangeStep(s, current), current) == PropsChangeStep(s, current)
  {
  }

  /** The checked state of the concatenation box at render: the state's value, or the
      selected method's `defaultConcatenation`, itself false by default. */
  function ConcatenateChecked(s: PanelState, selected: Option<Method>): (checked: bool)
    ensures checked <==> (|| s.enableConcatenateDownload == Some(true)
                          || (s.enableConcatenateDownload.None? && selected.Some?
                              && selected.value.defaultConcatenation == Some(true)))
  {
    var m := selected.GetOr(NoMethod);
    s.enableConcatenateDownload.GetOr(m.defaultConcatenation.GetOr(false))
  }

  /** Before any toggle, the concatenation box shows the method's own
      `enableConcatenateDownload`, else its `defaultConcatenation`, else false; with no
      selected method it is unchecked. */
  lemma InitialConcatenation(p: Props)
    ensures var m := SelectedMethod(p);
      ConcatenateChecked(InitialState(p), m)
        == (m.Some? && m.value.enableConcatenateDownload.GetOr(m.value.defaultConcatenation.GetOr(false)))
  {
  }

  /** What a render shows, reduced to its decisions. */
  datatype View = View(
    radioList: seq<RadioItem>,
    hasHarmony: bool,
    showsNoMethodsAlert: bool,
    formatOptions: seq<SelectOption>,
    projectionOptions: seq<SelectOption>,
    isCustomizationAvailable: bool,
    showsNoCustomizationNote: bool,
    temporalSubsettingChecked: bool,
    spatialSubsettingChecked: bool,
    concatenateChecked: bool,
    selectedTemporalDisplay: Option<string>)

  /** The mounted component: its props, its three state fields and the callbacks it has made. */
  class AccessMethodComponent {
    var props: Props
    var enableTemporalSubsetting: bool
    var enableSpatialSubsetting: bool
    var enableConcatenateDownload: Option<bool>
    /** The calls made to `onUpdateAccessMethod`, `onSelectAccessMethod` and
        `onSelectHarmonyType`, oldest first. */
    var events: seq<Event>

    /** The state fields as one value. */
    function State(): PanelState
      reads this
    {
      PanelState(enableTemporalSubsetting, enableSpatialSubsetting, enableConcatenateDownload)
    }

    constructor (p: Props)
      ensures props == p && State() == InitialState(p) && events == []
    {
      props := p;
      var selected := SelectedMethod(p);
      var m := selected.GetOr(NoMethod);
      var spatial := p.spatial;
      enableTemporalSubsetting := m.enableTemporalSubsetting.GetOr(!p.temporal.isRecurring);
      enableConcatenateDownload := if selected.Some? then selected.value.enableConcatenateDownload else None;
      enableSpatialSubsetting := m.enableSpatialSubsetting.GetOr(
        !(spatial.boundingBox.None? && spatial.circle.None? && spatial.line.None?
          && spatial.point.None? && spatial.polygon.None?));
      events := [];
    }

    /** The props are about to change to `next`: the recurring check reads the props the
        component still holds, and only then do the props become `next`. */
    method ReceiveProps(next: Props)
      modifies this
      ensures State() == PropsChangeStep(old(State()), old(props).temporal)
      ensures props == next && events == old(events)
    {
      var isRecurring := props.temporal.isRecurring;
      if isRecurring {
        enableTemporalSubsetting := false;
      }
      props := next;
    }

    /** Reports `update` for the selected method to `onUpdateAccessMethod`. */
    method EmitUpdate(update: MethodUpdate)
      modifies this`events
      ensures events == old(events) + [UpdateAccessMethod(props.collectionId, props.selectedAccessMethod, update)]
    {
      events := events + [UpdateAccessMethod(props.collectionId, props.selectedAccessMethod, update)];
    }

    method HandleToggleTemporalSubsetting(checked: bool)
      modifies this
      ensures State() == ApplyUpdate(old(State()), EnableTemporalSubsetting(checked)) && props == old(props)
      ensures events == old(events)
        + [UpdateAccessMethod(props.collectionId, props.selectedAccessMethod, EnableTemporalSubsetting(checked))]
    {
      enableTemporalSubsetting := checked;
      EmitUpdate(EnableTemporalSubsetting(checked));
    }

    method HandleToggleSpatialSubsetting(checked: bool)
      modifies this
      ensures State() == ApplyUpdate(old(State()), EnableSpatialSubsetting(checked)) && props == old(props)
      ensures events == old(events)
        + [UpdateAccessMethod(props.collectionId, props.selectedAccessMethod, EnableSpatialSubsetting(checked))]
    {
      enableSpatialSubsetting := checked;
      EmitUpdate(EnableSpatialSubsetting(checked));
    }

    method HandleConcatenationSelection(checked: bool)
      modifies this
      ensures State() == ApplyUpdate(old(State()), EnableConcatenateDownload(checked)) && props == old(props)
      ensures events == old(events)
        + [UpdateAccessMethod(props.collectionId, props.selectedAccessMethod, EnableConcatenateDownload(checked))]
    {
      enableConcatenateDownload := Some(checked);
      EmitUpdate(EnableConcatenateDownload(checked));
    }

    method HandleOutputFormatSelection(value: string)
      modifies this
      ensures State() == old(State()) && props == old(props)
      ensures events == old(events)
        + [UpdateAccessMethod(props.collectionId, props.selectedAccessMethod, SelectedOutputFormat(value))]
    {
      EmitUpdate(SelectedOutputFormat(value));
    }

    method HandleOutputProjectionSelection(value: string)
      modifies this
      ensures State() == old(State()) && props == old(props)
      ensures events == old(events)
        + [UpdateAccessMethod(props.collectionId, props.selectedAccessMethod, SelectedOutputProjection(value))]
    {
      EmitUpdate(SelectedOutputProjection(value));
    }

    method HandleAccessMethodSelection(methodKey: string)
      modifies this
      ensures State() == old(State()) && props == old(props)
      ensures events == old(events) + [SelectAccessMethod(props.collectionId, methodKey)]
    {
      events := events + [SelectAccessMethod(props.collectionId, methodKey)];
    }

    method HandleHarmonyTypeAccessMethodSelection()
      modifies this
      ensures State() == old(State()) && props == old(props)
      ensures events == old(events) + [SelectHarmonyType(props.collectionId)]
    {
      events := events + [SelectHarmonyType(props.collectionId)];
    }

    /** The decisions of `render`, given the OUS and Harmony format mappings and the formatted
        start and end dates. */
    method Render(ous: map<string, string>, harmony: map<string, string>, startDisplay: string, endDisplay: string)
      returns (v: View)
      requires TypesKnown(props.accessMethods)
      ensures v.radioList == RadioList(props.collectionId, props.accessMethods)
      ensures v.hasHarmony == HasHarmony(props.accessMethods)
      ensures v.showsNoMethodsAlert == ShowsNoMethodsAlert(props.collectionId, props.accessMethods)
      ensures var m := SelectedMethod(props).GetOr(NoMethod);
        && v.formatOptions == FormatOptionsFor(props.selectedAccessMethod, m, ous, harmony)
        && v.projectionOptions == ProjectionOptionsFor(props.selectedAccessMethod, m)
        && v.isCustomizationAvailable
           == IsCustomizationAvailable(m, v.formatOptions, v.projectionOptions, props.isActive)
      ensures v.showsNoCustomizationNote <==> !v.isCustomizationAvailable && Truthy(props.selectedAccessMethod)
      ensures v.temporalSubsettingChecked == enableTemporalSubsetting
      ensures v.spatialSubsettingChecked == enableSpatialSubsetting
      ensures v.concatenateChecked == ConcatenateChecked(State(), SelectedMethod(props))
      ensures var startDate, endDate := props.temporal.startDate, props.temporal.endDate;
        && (v.selectedTemporalDisplay.Some? <==> startDate != "" || endDate != "")
        && (startDate != "" && endDate != "" ==> v.selectedTemporalDisplay == Some(startDisplay + " to " + endDisplay))
        && (startDate != "" && endDate == "" ==> v.selectedTemporalDisplay == Some(startDisplay + " ongoing"))
        && (startDate == "" && endDate != "" ==> v.selectedTemporalDisplay == Some("Up to " + endDisplay))
    {
      var collectionId, methods := props.collectionId, props.accessMethods;
      var byType, hasHarmony := BucketByType(collectionId, methods);
      var radioList := byType[Opendap] + byType[Esi] + byType[EchoOrders] + byType[Download];
      var selectedMethod := SelectedMethod(props).GetOr(NoMethod);
      var enableConcatenate := enableConcatenateDownload.GetOr(selectedMethod.defaultConcatenation.GetOr(false));
      var formatOptions, projectionOptions :=
        DeriveOutputOptions(props.selectedAccessMethod, selectedMethod, ous, harmony);
      var isCustomizationAvailable :=
        IsCustomizationAvailable(selectedMethod, formatOptions, projectionOptions, props.isActive);
      var display := SelectedTemporalDisplay(props.temporal, startDisplay, endDisplay);
      v := View(radioList, hasHarmony, |radioList| == 0 && !hasHarmony, formatOptions, projectionOptions,
                isCustomizationAvailable, !isCustomizationAvailable && Truthy(props.selectedAccessMethod),
                enableTemporalSubsetting, enableSpatialSubsetting,
                enableConcatenate, display);
    }
  }
}
