/** A model of the material settings panel: integer entry fields, sliders and
    a preset selector, each bound to the material controller. Every numeric
    property is shown three times (entry text, slider, controller field), and
    each setter writes one value into all three. */
module PanelMaterials {
  import opened Numerals

  /** The seven material presets, selected by their tag. */
  datatype Materials = Default | Glass | Stone | Emissive | Water | ThickGlass | Gold

  /** The tag of an enum member. */
  function TagValue(m: Materials): string
  {
    match m
    case Default => "default"
    case Glass => "glass"
    case Stone => "stone"
    case Emissive => "emissive"
    case Water => "water"
    case ThickGlass => "thick glass"
    case Gold => "gold"
  }

  /** Looking a member up by its tag; an unknown tag raises ValueError, here `None`. */
  function ParseMaterial(tag: string): (r: Option<Materials>)
    ensures r.Some? ==> TagValue(r.value) == tag
  {
    if tag == "default" then Some(Default)
    else if tag == "glass" then Some(Glass)
    else if tag == "stone" then Some(Stone)
    else if tag == "emissive" then Some(Emissive)
    else if tag == "water" then Some(Water)
    else if tag == "thick glass" then Some(ThickGlass)
    else if tag == "gold" then Some(Gold)
    else None
  }

  /** Lookup by tag finds exactly the member carrying that tag. */
  lemma ParseMaterialIsInverse(tag: string, m: Materials)
    ensures ParseMaterial(tag) == Some(m) <==> TagValue(m) == tag
  {
  }

  /** Every tag that is not one of the seven is refused. */
  lemma ParseMaterialRefuses(tag: string)
    ensures ParseMaterial(tag).None? <==> forall m: Materials :: TagValue(m) != tag
  {
    if ParseMaterial(tag).Some? {
      ParseMaterialIsInverse(tag, ParseMaterial(tag).value);
    }
  }

  // ---------------------------------------------------------------------------
  // Entry validation and the value a Return key press applies
  // ---------------------------------------------------------------------------

  /** The key validator of the integer entries, as written: the proposed text
      passes `str.isdigit`, or is empty. */
  function ValidateInteger(p: string): (ok: bool)
    ensures ok <==> forall i :: 0 <= i < |p| ==> IsDigit(p[i])
  {
    IsDigitString(p) || p == ""
  }

  /** The key validator as intended: the proposed text is made of the decimal
      digits `int` reads, or is empty. */
  function ValidateDecimal(p: string): (ok: bool)
    ensures ok <==> forall i :: 0 <= i < |p| ==> IsDecimal(p[i])
    ensures ok ==> ValidateInteger(p)
  {
    IsDecimalString(p) || p == ""
  }

  /** The text a setter writes into an entry passes either validator exactly
      when the value is not negative. */
  lemma ValidateAcceptsRendering(v: int)
    ensures ValidateDecimal(IntToString(v)) <==> v >= 0
    ensures ValidateInteger(IntToString(v)) <==> v >= 0
  {
    if v < 0 {
      assert !IsDigit(IntToString(v)[0]);
    }
  }

  /** `clamp(x, lo, hi)`: the nearest value to `x` within `[lo, hi]`. */
  function Clamp(x: int, lo: int, hi: int): (r: int)
    requires lo <= hi
    ensures lo <= r <= hi
    ensures lo <= x <= hi ==> r == x
    ensures x < lo ==> r == lo
    ensures x > hi ==> r == hi
  {
    if x < lo then lo else if x > hi then hi else x
  }

  /** What a Return key press in an entry applies: 0 for empty text, otherwise
      the text's integer clamped into [0, 100]; text that `int` refuses raises
      ValueError, here `None`. */
  function EntryValue(text: string): (r: Option<int>)
    ensures r.Some? ==> 0 <= r.value <= 100
    ensures text == "" ==> r == Some(0)
    ensures r.None? <==> text != "" && ParseInt(text).None?
    ensures text != "" && ParseInt(text).Some? ==> r == Some(Clamp(ParseInt(text).value, 0, 100))
  {
    if text == "" then Some(0)
    else match ParseInt(text)
      case None => None
      case Some(n) => Some(Clamp(n, 0, 100))
  }

  /** As written, the validator lets through text that makes the Return
      handler raise: a superscript two passes `str.isdigit`, and `int` refuses it. */
  lemma ValidatorLetsThroughUnreadable()
    ensures ValidateInteger("\U{B2}") && EntryValue("\U{B2}").None?
  {
    assert !IsDecimal("\U{B2}"[0]);
  }

  /** Text the intended validator lets through never makes the Return handler
      raise. */
  lemma {:induction false} ValidatedEntryApplies(text: string)
    requires ValidateDecimal(text)
    ensures EntryValue(text).Some?
  {
    if text != "" {
      assert IsDecimalString(text);
    }
  }

  /** The intended validator accepts exactly the texts the validator as written
      accepts and that the Return handler applies without raising. */
  lemma ValidateDecimalExactly(text: string)
    ensures ValidateDecimal(text) <==> ValidateInteger(text) && EntryValue(text).Some?
  {
    if text != "" && ValidateInteger(text) {
      assert text[0] != '-' && text[0] != '+';
    }
  }

  /** Pressing Return on the text a setter wrote applies that value clamped,
      so a value already in [0, 100] is applied again unchanged. */
  lemma EntryValueOfRendering(v: int)
    ensures EntryValue(IntToString(v)) == Some(Clamp(v, 0, 100))
    ensures 0 <= v <= 100 ==> EntryValue(IntToString(v)) == Some(v)
  {
    IntToStringRoundTrip(v);
    if v < 0 {
      assert IntToString(v)[0] == '-';
    } else {
      assert |NatToString(v)| > 0;
    }
  }

  // ---------------------------------------------------------------------------
  // The controller's routines and the preset dispatch
  // ---------------------------------------------------------------------------

  /** The controller routines the panel invokes by name. */
  datatype Routine =
    | DefaultMaterial | GlassMaterial | StoneMaterial | EmissiveMaterial
    | WaterMaterial | ThickGlassMaterial | GoldMaterial
    | Unsolidify   // set_solidified(model, False)

  /** The preset routine each tag stands for. */
  function RoutineFor(m: Materials): Routine
  {
    match m
    case Default => DefaultMaterial
    case Glass => GlassMaterial
    case Stone => StoneMaterial
    case Emissive => EmissiveMaterial
    case Water => WaterMaterial
    case ThickGlass => ThickGlassMaterial
    case Gold => GoldMaterial
  }

  /** The routines the match of `set_material` runs for tag `m`, with a model
      loaded or not. The default tag falls to `default_values`. */
  function PresetCalls(m: Materials, hasModel: bool): seq<Routine>
  {
    match m
    case Default => [DefaultMaterial] + (if hasModel then [Unsolidify] else [])
    case ThickGlass => if hasModel then [ThickGlassMaterial] else []
    case _ => [RoutineFor(m)]
  }

  /** All routines `set_material` runs for a known tag, in order: first the
      unsolidify of a loaded model, then the match. */
  function SetMaterialCalls(m: Materials, hasModel: bool): seq<Routine>
  {
    (if hasModel then [Unsolidify] else []) + PresetCalls(m, hasModel)
  }

  /** The preset routines of a call sequence, leaving out the unsolidify calls. */
  function Presets(rs: seq<Routine>): (ps: seq<Routine>)
    ensures |ps| <= |rs|
    ensures forall i :: 0 <= i < |ps| ==> ps[i] != Unsolidify
  {
    if rs == [] then []
    else (if rs[0] == Unsolidify then [] else [rs[0]]) + Presets(rs[1..])
  }

  /** Different tags stand for different routines, none of them an unsolidify. */
  lemma RoutineForInjective(m1: Materials, m2: Materials)
    ensures RoutineFor(m1) != Unsolidify
    ensures RoutineFor(m1) == RoutineFor(m2) <==> m1 == m2
  {
  }

  lemma {:induction false} PresetsAppend(a: seq<Routine>, b: seq<Routine>)
    ensures Presets(a + b) == Presets(a) + Presets(b)
  {
    if a != [] {
      assert (a + b)[1..] == a[1..] + b;
      PresetsAppend(a[1..], b);
    } else {
      assert a + b == b;
    }
  }

  /** `set_material` runs exactly one preset routine, the one for its tag,
      except for thick glass with no model loaded, which runs none. */
  lemma SetMaterialRunsItsPreset(m: Materials, hasModel: bool)
    ensures Presets(SetMaterialCalls(m, hasModel))
            == if m == ThickGlass && !hasModel then [] else [RoutineFor(m)]
  {
    var unsolidify := if hasModel then [Unsolidify] else [];
    assert Presets(unsolidify) == [];
    PresetsAppend(unsolidify, PresetCalls(m, hasModel));
    if m == Default {
      PresetsAppend([DefaultMaterial], unsolidify);
    }
  }

  /** The model is unsolidified by `set_material` exactly when one is loaded. */
  lemma SetMaterialUnsolidifies(m: Materials, hasModel: bool)
    ensures Unsolidify in SetMaterialCalls(m, hasModel) <==> hasModel
  {
  }

  // ---------------------------------------------------------------------------
  // The controller, modelled on its fields
  // ---------------------------------------------------------------------------

  /** The material parameters the panel reads and writes: fractions for the
      three sliders and the emissive strength, and the emissive switch. */
  datatype Params = Params(metallic: real, roughness: real, transmission: real, strength: real, emissive: bool)

  /** The parameters after a sequence of routines, each acting by `apply`. */
  function Replay(apply: (Routine, Params) -> Params, p: Params, rs: seq<Routine>): Params
    decreases |rs|
  {
    if rs == [] then p else Replay(apply, apply(rs[0], p), rs[1..])
  }

  /** Python's `int(x)` of a number: truncation toward zero. */
  function Truncate(x: real): (n: int)
    ensures x >= 0.0 ==> 0 <= n && n as real <= x < n as real + 1.0
    ensures x < 0.0 ==> n <= 0 && n as real - 1.0 < x <= n as real
  {
    if x >= 0.0 then x.Floor else -((-x).Floor)
  }

  /** The slider position showing a fraction: `int(x*100)`. */
  function SliderValue(x: real): (n: int)
    ensures x >= 0.0 ==> 0 <= n && n as real <= x * 100.0 < n as real + 1.0
    ensures 0.0 <= x <= 1.0 ==> 0 <= n <= 100
  {
    Truncate(x * 100.0)
  }

  /** The parameters after the sliders are readjusted: each slider value is
      written back through `percent`, and so is the strength when emissive. */
  function Adjusted(percent: int -> real, p: Params): (r: Params)
    ensures r.emissive == p.emissive
    ensures !p.emissive ==> r.strength == p.strength
  {
    p.(metallic := percent(SliderValue(p.metallic)),
       roughness := percent(SliderValue(p.roughness)),
       transmission := percent(SliderValue(p.transmission)),
       strength := if p.emissive then percent(SliderValue(p.strength)) else p.strength)
  }

  /** The material controller: its parameters, the routines it has run, and
      the (unseen) effect of each routine on the parameters. */
  class Material {
    var params: Params
    var calls: seq<Routine>
    const apply: (Routine, Params) -> Params

    constructor (apply: (Routine, Params) -> Params, params: Params)
      ensures this.apply == apply && this.params == params && calls == []
    {
      this.apply := apply;
      this.params := params;
      calls := [];
    }

    method Run(r: Routine)
      modifies this
      ensures calls == old(calls) + [r] && params == apply(r, old(params))
    {
      calls := calls + [r];
      params := apply(r, params);
    }

    method SetMetallic(v: real)
      modifies this`params
      ensures params == old(params).(metallic := v)
    {
      params := params.(metallic := v);
    }

    method SetRoughness(v: real)
      modifies this`params
      ensures params == old(params).(roughness := v)
    {
      params := params.(roughness := v);
    }

    method SetTransmission(v: real)
      modifies this`params
      ensures params == old(params).(transmission := v)
    {
      params := params.(transmission := v);
    }

    method SetEmissiveStrength(v: real)
      modifies this`params
      ensures params == old(params).(strength := v)
    {
      params := params.(strength := v);
    }

    method SetEmissive(on: bool)
      modifies this`params
      ensures params == old(params).(emissive := on)
    {
      params := params.(emissive := on);
    }
  }

  /** The application controller: the material, whether a model is loaded,
      and how many re-renders it was asked for. */
  class Control {
    const material: Material
    var hasModel: bool
    var renders: nat

    constructor (material: Material, hasModel: bool)
      ensures this.material == material && this.hasModel == hasModel && renders == 0
    {
      this.material := material;
      this.hasModel := hasModel;
      renders := 0;
    }

    method ReRender()
      modifies this`renders
      ensures renders == old(renders) + 1
    {
      renders := renders + 1;
    }
  }

  /** The outcome of an event handler: done, or a ValueError it raised. */
  datatype Outcome = Done | ValueError

  // ---------------------------------------------------------------------------
  // The panel
  // ---------------------------------------------------------------------------

  class MaterialWidgets {
    const control: Control
    /** `utils.percent`, which the panel applies before storing a slider value. */
    const percent: int -> real

    var entMetallic: string
    var entRoughness: string
    var entTransmiss: string
    var entEmissive: string
    var sliderMetallic: int
    var sliderRoughness: int
    var sliderTransmiss: int
    /** The emissive strength variable, which the emissive slider is bound to. */
    var emissiveStrength: int
    /** The variable of the emissive check box. */
    var emissive: bool

    /** Entry, slider and controller all show metallic value `v`. */
    predicate MetallicShows(v: int)
      reads this, control.material
    {
      entMetallic == IntToString(v) && sliderMetallic == v && control.material.params.metallic == percent(v)
    }

    predicate RoughnessShows(v: int)
      reads this, control.material
    {
      entRoughness == IntToString(v) && sliderRoughness == v && control.material.params.roughness == percent(v)
    }

    predicate TransmissionShows(v: int)
      reads this, control.material
    {
      entTransmiss == IntToString(v) && sliderTransmiss == v && control.material.params.transmission == percent(v)
    }

    /** The emissive entry shows the strength variable. */
    predicate EmissiveEntryShows()
      reads this
    {
      entEmissive == IntToString(emissiveStrength)
    }

    /** Every slider property is shown consistently in its three places. */
    predicate Synced()
      reads this, control.material
    {
      MetallicShows(sliderMetallic) && RoughnessShows(sliderRoughness)
      && TransmissionShows(sliderTransmiss) && EmissiveEntryShows()
    }

    /** The widgets show the parameters `p`, as `adjust_sliders` displays them. */
    predicate Shows(p: Params)
      reads this
    {
      sliderMetallic == SliderValue(p.metallic) && sliderRoughness == SliderValue(p.roughness)
      && sliderTransmiss == SliderValue(p.transmission)
      && emissiveStrength == SliderValue(p.strength) && emissive == p.emissive
    }

    /** Building the panel applies the default material and shows it. */
    constructor (control: Control, percent: int -> real)
      modifies control`renders, control.material
      ensures this.control == control && this.percent == percent && control.renders == old(control.renders)
      ensures control.material.calls
              == old(control.material.calls) + [DefaultMaterial] + (if control.hasModel then [Unsolidify] else [])
      ensures Shows(Replay(control.material.apply, old(control.material.params),
                           [DefaultMaterial] + (if control.hasModel then [Unsolidify] else [])))
      ensures control.material.params
              == Adjusted(percent, Replay(control.material.apply, old(control.material.params),
                                          [DefaultMaterial] + (if control.hasModel then [Unsolidify] else [])))
      ensures Synced()
    {
      this.control := control;
      this.percent := percent;
      entMetallic, entRoughness, entTransmiss, entEmissive := "", "", "", "";
      sliderMetallic, sliderRoughness, sliderTransmiss := 0, 0, 0;
      emissiveStrength, emissive := 0, false;
      new;
      DefaultValues();
    }

    /** `set_metallic`: writes `value` into the entry, the slider and the
        controller; re-renders only when the slider was released. */
    method SetMetallic(value: int, isReleased: bool)
      modifies this`entMetallic, this`sliderMetallic, control`renders, control.material`params
      ensures MetallicShows(value)
      ensures control.material.params == old(control.material.params).(metallic := percent(value))
      ensures control.renders == old(control.renders) + (if isReleased then 1 else 0)
    {
      entMetallic := IntToString(value);
      sliderMetallic := value;
      control.material.SetMetallic(percent(value));
      if isReleased {
        control.ReRender();
      }
    }

    method SetRoughness(value: int, isReleased: bool)
      modifies this`entRoughness, this`sliderRoughness, control`renders, control.material`params
      ensures RoughnessShows(value)
      ensures control.material.params == old(control.material.params).(roughness := percent(value))
      ensures control.renders == old(control.renders) + (if isReleased then 1 else 0)
    {
      entRoughness := IntToString(value);
      sliderRoughness := value;
      control.material.SetRoughness(percent(value));
      if isReleased {
        control.ReRender();
      }
    }

    method SetTransmission(value: int, isReleased: bool)
      modifies this`entTransmiss, this`sliderTransmiss, control`renders, control.material`params
      ensures TransmissionShows(value)
      ensures control.material.params == old(control.material.params).(transmission := percent(value))
      ensures control.renders == old(control.renders) + (if isReleased then 1 else 0)
    {
      entTransmiss := IntToString(value);
      sliderTransmiss := value;
      control.material.SetTransmission(percent(value));
      if isReleased {
        control.ReRender();
      }
    }

    /** `set_emissive`: shows the strength variable in the entry and stores it
        in the controller; re-renders only when released. */
    method SetEmissive(isReleased: bool)
      modifies this`entEmissive, control`renders, control.material`params
      ensures EmissiveEntryShows()
      ensures control.material.params == old(control.material.params).(strength := percent(emissiveStrength))
      ensures control.renders == old(control.renders) + (if isReleased then 1 else 0)
    {
      entEmissive := IntToString(emissiveStrength);
      control.material.SetEmissiveStrength(percent(emissiveStrength));
      if isReleased {
        control.ReRender();
      }
    }

    /** Return in the metallic entry: applies the entry's value and re-renders. */
    method SetMetallicInput() returns (outcome: Outcome)
      modifies this`entMetallic, this`sliderMetallic, control`renders, control.material`params
      ensures outcome == ValueError <==> EntryValue(old(entMetallic)).None?
      ensures outcome == ValueError ==>
                entMetallic == old(entMetallic) && sliderMetallic == old(sliderMetallic)
                && control.renders == old(control.renders) && control.material.params == old(control.material.params)
      ensures outcome == Done ==>
                var v := EntryValue(old(entMetallic)).value;
                MetallicShows(v) && control.renders == old(control.renders) + 1
                && control.material.params == old(control.material.params).(metallic := percent(v))
    {
      var x := EntryValue(entMetallic);
      if x.None? {
        return ValueError;
      }
      SetMetallic(x.value, true);
      outcome := Done;
    }

    method SetRoughnessInput() returns (outcome: Outcome)
      modifies this`entRoughness, this`sliderRoughness, control`renders, control.material`params
      ensures outcome == ValueError <==> EntryValue(old(entRoughness)).None?
      ensures outcome == ValueError ==>
                entRoughness == old(entRoughness) && sliderRoughness == old(sliderRoughness)
                && control.renders == old(control.renders) && control.material.params == old(control.material.params)
      ensures outcome == Done ==>
                var v := EntryValue(old(entRoughness)).value;
                RoughnessShows(v) && control.renders == old(control.renders) + 1
                && control.material.params == old(control.material.params).(roughness := percent(v))
    {
      var x := EntryValue(entRoughness);
      if x.None? {
        return ValueError;
      }
      SetRoughness(x.value, true);
      outcome := Done;
    }

    method SetTransmissInput() returns (outcome: Outcome)
      modifies this`entTransmiss, this`sliderTransmiss, control`renders, control.material`params
      ensures outcome == ValueError <==> EntryValue(old(entTransmiss)).None?
      ensures outcome == ValueError ==>
                entTransmiss == old(entTransmiss) && sliderTransmiss == old(sliderTransmiss)
                && control.renders == old(control.renders) && control.material.params == old(control.material.params)
      ensures outcome == Done ==>
                var v := EntryValue(old(entTransmiss)).value;
                TransmissionShows(v) && control.renders == old(control.renders) + 1
                && control.material.params == old(control.material.params).(transmission := percent(v))
    {
      var x := EntryValue(entTransmiss);
      if x.None? {
        return ValueError;
      }
      SetTransmission(x.value, true);
      outcome := Done;
    }

    /** Return in the emissive entry: empty text keeps the strength as it was
        (and the entry is refilled with it); otherwise the clamped value becomes
        the strength. Either way the controller gets it and a re-render follows. */
    method SetEmissiveInput() returns (outcome: Outcome)
      modifies this`entEmissive, this`emissiveStrength, control`renders, control.material`params
      ensures outcome == ValueError <==> EntryValue(old(entEmissive)).None?
      ensures outcome == ValueError ==>
                entEmissive == old(entEmissive) && emissiveStrength == old(emissiveStrength)
                && control.renders == old(control.renders) && control.material.params == old(control.material.params)
      ensures outcome == Done ==>
                emissiveStrength == (if old(entEmissive) == "" then old(emissiveStrength)
                                     else EntryValue(old(entEmissive)).value)
                && EmissiveEntryShows() && control.renders == old(control.renders) + 1
                && control.material.params == old(control.material.params).(strength := percent(emissiveStrength))
    {
      if entEmissive != "" {
        var x := EntryValue(entEmissive);
        if x.None? {
          return ValueError;
        }
        emissiveStrength := x.value;
      }
      SetEmissive(true);
      outcome := Done;
    }

    /** `adjust_sliders`: shows the controller's parameters in every widget,
        writing each slider value back into the controller; no re-render. */
    method AdjustSliders()
      modifies this, control`renders, control.material`params
      ensures Shows(old(control.material.params)) && Synced()
      ensures control.material.params == Adjusted(percent, old(control.material.params))
      ensures control.renders == old(control.renders)
    {
      ghost var p := control.material.params;
      SetMetallic(SliderValue(control.material.params.metallic), false);
      SetRoughness(SliderValue(control.material.params.roughness), false);
      SetTransmission(SliderValue(control.material.params.transmission), false);
      emissive := control.material.params.emissive;
      emissiveStrength := SliderValue(control.material.params.strength);
      entEmissive := IntToString(emissiveStrength);
      control.material.SetEmissive(emissive);
      if emissive {
        SetEmissive(false);
      }
    }

    /** `default_values`: the default material, unsolidified when a model is
        loaded, shown in the widgets. */
    method DefaultValues()
      modifies this, control`renders, control.material
      ensures control.material.calls
              == old(control.material.calls) + [DefaultMaterial] + (if control.hasModel then [Unsolidify] else [])
      ensures var p := Replay(control.material.apply, old(control.material.params),
                              [DefaultMaterial] + (if control.hasModel then [Unsolidify] else []));
              Shows(p) && control.material.params == Adjusted(percent, p)
      ensures Synced() && control.renders == old(control.renders)
    {
      ghost var p0 := control.material.params;
      control.material.Run(DefaultMaterial);
      if control.hasModel {
        control.material.Run(Unsolidify);
      }
      ReplayPair(control.material.apply, p0, DefaultMaterial, Unsolidify);
      AdjustSliders();
    }

    /** `set_material`: unsolidifies a loaded model, runs the preset routine of
        the tag (the default tag through `default_values`), readjusts the
        sliders and re-renders. An unknown tag raises ValueError after the
        unsolidify and before anything else. */
    method SetMaterial(tag: string) returns (outcome: Outcome)
      modifies this, control`renders, control.material
      ensures outcome == ValueError <==> ParseMaterial(tag).None?
      ensures outcome == ValueError ==>
                control.material.calls == old(control.material.calls) + (if control.hasModel then [Unsolidify] else [])
                && control.renders == old(control.renders)
                && entMetallic == old(entMetallic) && sliderMetallic == old(sliderMetallic)
                && entRoughness == old(entRoughness) && sliderRoughness == old(sliderRoughness)
                && entTransmiss == old(entTransmiss) && sliderTransmiss == old(sliderTransmiss)
                && entEmissive == old(entEmissive) && emissiveStrength == old(emissiveStrength)
                && emissive == old(emissive)
                && control.material.params == Replay(control.material.apply, old(control.material.params),
                                                     if control.hasModel then [Unsolidify] else [])
      ensures outcome == Done ==>
                var m := ParseMaterial(tag).value;
                var rs := SetMaterialCalls(m, control.hasModel);
                var p := Replay(control.material.apply, old(control.material.params), rs);
                var q := if m == Default then Adjusted(percent, p) else p;
                control.material.calls == old(control.material.calls) + rs
                && Shows(q) && control.material.params == Adjusted(percent, q)
                && Synced() && control.renders == old(control.renders) + 1
    {
      ghost var p0 := control.material.params;
      ghost var c0 := control.material.calls;
      ghost var u: seq<Routine> := if control.hasModel then [Unsolidify] else [];
      if control.hasModel {
        control.material.Run(Unsolidify);
      }
      ReplayPair(control.material.apply, p0, Unsolidify, Unsolidify);
      assert control.material.params == Replay(control.material.apply, p0, u);
      var parsed := ParseMaterial(tag);
      if parsed.None? {
        return ValueError;
      }
      var m := parsed.value;
      SelectPreset(m);
      ReplayAppend(control.material.apply, p0, u, PresetCalls(m, control.hasModel));
      control.ReRender();
      outcome := Done;
    }

    /** The match of `set_material` and the readjustment of the sliders after it. */
    method SelectPreset(m: Materials)
      modifies this, control`renders, control.material
      ensures control.material.calls == old(control.material.calls) + PresetCalls(m, control.hasModel)
      ensures var p := Replay(control.material.apply, old(control.material.params), PresetCalls(m, control.hasModel));
              var q := if m == Default then Adjusted(percent, p) else p;
              Shows(q) && control.material.params == Adjusted(percent, q)
      ensures Synced() && control.renders == old(control.renders)
    {
      if m == Default {
        DefaultValues();
      } else {
        RunPreset(m);
      }
      AdjustSliders();
    }

    /** The match of `set_material` for every tag but the default one. */
    method RunPreset(m: Materials)
      requires m != Default
      modifies control.material
      ensures control.material.calls == old(control.material.calls) + PresetCalls(m, control.hasModel)
      ensures control.material.params
              == Replay(control.material.apply, old(control.material.params), PresetCalls(m, control.hasModel))
    {
      ghost var p0 := control.material.params;
      match m {
        case Glass => control.material.Run(GlassMaterial);
        case Stone => control.material.Run(StoneMaterial);
        case Emissive => control.material.Run(EmissiveMaterial);
        case Water => control.material.Run(WaterMaterial);
        case ThickGlass =>
          if control.hasModel {
            control.material.Run(ThickGlassMaterial);
          }
        case Gold => control.material.Run(GoldMaterial);
      }
      ReplayPair(control.material.apply, p0, RoutineFor(m), Unsolidify);
    }
  }

  /** Replaying one routine and then an optional unsolidify. */
  lemma ReplayPair(apply: (Routine, Params) -> Params, p: Params, r: Routine, s: Routine)
    ensures Replay(apply, p, [r]) == apply(r, p)
    ensures Replay(apply, p, [r, s]) == apply(s, apply(r, p))
  {
    assert [r, s][1..] == [s];
    assert [s][1..] == [];
    assert Replay(apply, apply(r, p), [s]) == apply(s, apply(r, p));
  }

  /** Replaying the calls of `set_material` step by step, as the method runs them. */
  lemma {:induction false} ReplayAppend(apply: (Routine, Params) -> Params, p: Params, a: seq<Routine>, b: seq<Routine>)
    ensures Replay(apply, p, a + b) == Replay(apply, Replay(apply, p, a), b)
    decreases |a|
  {
    if a != [] {
      assert (a + b)[1..] == a[1..] + b;
      ReplayAppend(apply, apply(a[0], p), a[1..], b);
    } else {
      assert a + b == b;
    }
  }
}
