/** The second step of the panel: which customization options the selected method offers,
    and how the selected temporal range is described. */
module AccessMethodOptions {
  import opened Wrappers
  import opened AccessMethodTypes

  /** `sub` occurs in `s` at offset `i`. */
  predicate OccursAt(s: string, sub: string, i: int) {
    0 <= i && i + |sub| <= |s| && s[i..i + |sub|] == sub
  }

  /** Dropping the first character shifts every occurrence but the one at offset 0. */
  lemma ShiftOccurrences(s: string, sub: string)
    requires |s| > 0 && !OccursAt(s, sub, 0)
    ensures (exists i :: OccursAt(s[1..], sub, i)) <==> exists i :: OccursAt(s, sub, i)
  {
    if exists i :: OccursAt(s[1..], sub, i) {
      var i :| OccursAt(s[1..], sub, i);
      assert s[i + 1..i + 1 + |sub|] == s[1..][i..i + |sub|];
      assert OccursAt(s, sub, i + 1);
    }
    if exists i :: OccursAt(s, sub, i) {
      var i :| OccursAt(s, sub, i);
      assert s[1..][i - 1..i - 1 + |sub|] == s[i..i + |sub|];
      assert OccursAt(s[1..], sub, i - 1);
    }
  }

  /** `s.includes(sub)`: `sub` occurs in `s` at some offset. */
  function Includes(s: string, sub: string): (r: bool)
    ensures r <==> exists i :: OccursAt(s, sub, i)
    decreases |s|
  {
    if |s| < |sub| then false
    else if s[..|sub|] == sub then
      assert OccursAt(s, sub, 0);
      true
    else
      ShiftOccurrences(s, sub);
      Includes(s[1..], sub)
  }

  /** `selectedAccessMethod && selectedAccessMethod === 'opendap'`. */
  predicate IsOpendapKey(key: Option<string>)
    ensures IsOpendapKey(key) <==> key == Some("opendap")
  {
    Truthy(key) && key.value == "opendap"
  }

  /** `selectedAccessMethod && selectedAccessMethod.includes('harmony')`: Harmony keys carry an
      index suffix, since a collection can have several Harmony methods. */
  predicate IsHarmonyKey(key: Option<string>)
    ensures IsHarmonyKey(key) <==> key.Some? && exists i :: OccursAt(key.value, "harmony", i)
  {
    Truthy(key) && Includes(key.value, "harmony")
  }

  /** The `opendap` key is not a Harmony key, so the two branches of the format options never
      compete for it; any key that contains `harmony` is one. */
  lemma KeyClassification(prefix: string, suffix: string)
    ensures IsOpendapKey(Some("opendap")) && !IsHarmonyKey(Some("opendap"))
    ensures IsHarmonyKey(Some(prefix + "harmony" + suffix)) && !IsOpendapKey(Some(prefix + "harmony" + suffix))
  {
    assert "opendap"[..7][0] != "harmony"[0];
    assert !Includes("opendap"[1..], "harmony");
    var key := prefix + "harmony" + suffix;
    assert OccursAt(key, "harmony", |prefix|) by {
      assert key[|prefix|..|prefix| + 7] == "harmony";
    }
    assert |key| >= 7;
  }

  /** `r` is `s` with some elements left out, the rest in their original order. */
  predicate IsSubsequence(r: seq<string>, s: seq<string>)
    decreases |s|
  {
    if r == [] then true
    else if s == [] then false
    else if r[0] == s[0] then IsSubsequence(r[1..], s[1..])
    else IsSubsequence(r, s[1..])
  }

  /** `formats.filter((format) => mapping[format] !== undefined)`: the formats the mapping
      knows, each as often as it is supported, in their original order. */
  function MappedFormats(formats: seq<string>, mapping: map<string, string>): (r: seq<string>)
    ensures forall f :: f in r <==> f in formats && f in mapping
    ensures forall f :: multiset(r)[f] == if f in mapping then multiset(formats)[f] else 0
    ensures IsSubsequence(r, formats)
    decreases |formats|
  {
    if formats == [] then []
    else
      var rest := MappedFormats(formats[1..], mapping);
      assert formats == [formats[0]] + formats[1..];
      if formats[0] in mapping then [formats[0]] + rest
      else
        assert rest != [] ==> rest[0] in mapping;
        rest
  }

  /** One `<option>` of a select: the text shown and the value submitted. */
  datatype SelectOption = SelectOption(text: string, value: string)

  /** The output-format options built from the mapped formats: each labelled with the format
      and valued with what the mapping translates it to. */
  function FormatOptions(formats: seq<string>, mapping: map<string, string>): (r: seq<SelectOption>)
    ensures |r| == |MappedFormats(formats, mapping)|
    ensures forall i :: 0 <= i < |r| ==>
      r[i].text == MappedFormats(formats, mapping)[i] && r[i].text in mapping && r[i].value == mapping[r[i].text]
  {
    var mapped := MappedFormats(formats, mapping);
    seq(|mapped|, i requires 0 <= i < |mapped| => SelectOption(mapped[i], mapping[mapped[i]]))
  }

  /** The output-projection options: each projection labelled and valued with itself. */
  function ProjectionOptions(projections: seq<string>): (r: seq<SelectOption>)
    ensures |r| == |projections|
    ensures forall i :: 0 <= i < |r| ==> r[i].text == projections[i] && r[i].value == projections[i]
  {
    seq(|projections|, i requires 0 <= i < |projections| => SelectOption(projections[i], projections[i]))
  }

  /** The output-format options for the selected key: the Harmony mapping for a Harmony key,
      else the OUS mapping for the `opendap` key, else none. */
  function FormatOptionsFor(key: Option<string>, m: Method, ous: map<string, string>,
                            harmony: map<string, string>): (r: seq<SelectOption>)
    ensures r != [] ==> IsHarmonyKey(key) || IsOpendapKey(key)
    ensures forall i :: 0 <= i < |r| ==> r[i].text in m.supportedOutputFormats.GetOr([])
    ensures forall i :: 0 <= i < |r| ==>
      var mapping := if IsHarmonyKey(key) then harmony else ous;
      r[i].text in mapping && r[i].value == mapping[r[i].text]
  {
    var formats := m.supportedOutputFormats.GetOr([]);
    if IsHarmonyKey(key) then FormatOptions(formats, harmony)
    else if IsOpendapKey(key) then FormatOptions(formats, ous)
    else []
  }

  /** The output-projection options for the selected key: only a Harmony key has any. */
  function ProjectionOptionsFor(key: Option<string>, m: Method): (r: seq<SelectOption>)
    ensures r != [] ==> IsHarmonyKey(key)
    ensures IsHarmonyKey(key) ==> |r| == |m.supportedOutputProjections.GetOr([])|
  {
    if IsHarmonyKey(key) then ProjectionOptions(m.supportedOutputProjections.GetOr([])) else []
  }

  /** The render pass's two `if` blocks over `let` variables: the OPeNDAP block assigns the
      format options first and the Harmony block, evaluated second, overrides them. */
  method DeriveOutputOptions(key: Option<string>, m: Method, ous: map<string, string>, harmony: map<string, string>)
    returns (formatOptions: seq<SelectOption>, projectionOptions: seq<SelectOption>)
    ensures formatOptions == FormatOptionsFor(key, m, ous, harmony)
    ensures projectionOptions == ProjectionOptionsFor(key, m)
    ensures projectionOptions != [] ==> IsHarmonyKey(key)
  {
    var supportedOutputFormats := m.supportedOutputFormats.GetOr([]);
    var supportedOutputProjections := m.supportedOutputProjections.GetOr([]);
    formatOptions := [];
    if IsOpendapKey(key) {
      formatOptions := FormatOptions(supportedOutputFormats, ous);
    }
    projectionOptions := [];
    if IsHarmonyKey(key) {
      formatOptions := FormatOptions(supportedOutputFormats, harmony);
      projectionOptions := ProjectionOptions(supportedOutputProjections);
    }
  }

  /** One of the method's `supports*` subsetting flags is set (each defaults to false). */
  predicate SupportsSubsetting(m: Method) {
    m.supportsVariableSubsetting.GetOr(false)
    || m.supportsTemporalSubsetting.GetOr(false)
    || m.supportsShapefileSubsetting.GetOr(false)
    || m.supportsBoundingBoxSubsetting.GetOr(false)
  }

  /** `isCustomizationAvailable`: step 2 shows customization options. */
  predicate IsCustomizationAvailable(m: Method, formatOptions: seq<SelectOption>,
                                     projectionOptions: seq<SelectOption>, isActive: bool)
  {
    SupportsSubsetting(m)
    || |formatOptions| > 0
    || |projectionOptions| > 0
    || m.supportsConcatenation.GetOr(false)
    || (m.hasForm && isActive)
  }

  /** Customization is available exactly when the method supports a subsetting or
      concatenation, has an active form, or offers an output format its selected mapping
      knows, or (for Harmony) a projection. */
  lemma CustomizationAvailability(key: Option<string>, m: Method, ous: map<string, string>,
                                  harmony: map<string, string>, isActive: bool)
    ensures IsCustomizationAvailable(m, FormatOptionsFor(key, m, ous, harmony), ProjectionOptionsFor(key, m), isActive)
        <==> (|| SupportsSubsetting(m)
              || m.supportsConcatenation.GetOr(false)
              || (m.hasForm && isActive)
              || (IsHarmonyKey(key)
                  && ((exists f :: f in m.supportedOutputFormats.GetOr([]) && f in harmony)
                      || |m.supportedOutputProjections.GetOr([])| > 0))
              || (!IsHarmonyKey(key) && IsOpendapKey(key)
                  && exists f :: f in m.supportedOutputFormats.GetOr([]) && f in ous))
  {
  }

  /** The selected-range text of the temporal subsetting section, from the raw dates (which
      decide the case) and their formatted displays. */
  method SelectedTemporalDisplay(temporal: Temporal, startDisplay: string, endDisplay: string)
    returns (display: Option<string>)
    ensures display.Some? <==> temporal.startDate != "" || temporal.endDate != ""
    ensures temporal.startDate != "" && temporal.endDate != "" ==> display == Some(startDisplay + " to " + endDisplay)
    ensures temporal.startDate != "" && temporal.endDate == "" ==> display == Some(startDisplay + " ongoing")
    ensures temporal.startDate == "" && temporal.endDate != "" ==> display == Some("Up to " + endDisplay)
  {
    var startDate, endDate := temporal.startDate, temporal.endDate;
    display := None;
    if startDate != "" && endDate != "" {
      display := Some(startDisplay + " to " + endDisplay);
    }
    if startDate != "" && endDate == "" {
      display := Some(startDisplay + " ongoing");
    }
    if endDate != "" && startDate == "" {
      display := Some("Up to " + endDisplay);
    }
  }
}
