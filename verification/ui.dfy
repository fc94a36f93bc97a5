/** The control panel (modules/ui.js): every input writes one key of the
    active parameter object, typed by its id, and echoes its value, with a
    unit suffix, into a label. The DOM itself is outside the model: the
    labels are a map from control id to the text shown, and `new
    THREE.Color(value)` arrives as a function from strings to colours. */
module Ui {
  import opened JsNum
  import opened JsText
  import opened Params
  import opened App

  /** The panel: the application it edits, whether the controls are shown,
      and the text of each value label, keyed by control id. */
  datatype Panel = Panel(app: App, controlsVisible: bool, shown: map<string, string>)

  /** `new UI(app)`: controls hidden, no label written yet. */
  function NewPanel(app: App): (u: Panel)
    ensures !u.controlsVisible && u.shown == map[] && u.app == app
  {
    Panel(app, false, map[])
  }

  /** The value an edit stores under `id`, or None when the id is ignored
      (modules/ui.js:72-80): ids containing "Color" become colours, whether
      or not the key exists; "zenMode" becomes the boolean `value ===
      'true'`; any other id is written only if the object already owns it,
      as the raw string for colour inputs and `parseFloat(value)` otherwise. */
  function Stored(p: Params, id: string, value: string, ty: string, colourOf: string -> Rgb): (v: Option<Value>)
    ensures v.Some? <==> Contains(id, "Color") || id == "zenMode" || id in p
    ensures v.Some? && v.value.Number? ==> !Contains(id, "Color") && id != "zenMode" && ty != "color"
    ensures Contains(id, "Color") ==> v == Some(Colour(colourOf(value)))
    ensures !Contains(id, "Color") && id == "zenMode" ==> v == Some(Flag(value == "true"))
    ensures !Contains(id, "Color") && id != "zenMode" && id in p ==>
      v == Some(if ty == "color" then Text(value) else Number(ParseFloat(value)))
  {
    if Contains(id, "Color") then Some(Colour(colourOf(value)))
    else if id == "zenMode" then Some(Flag(value == "true"))
    else if id in p then Some(if ty == "color" then Text(value) else Number(ParseFloat(value)))
    else None
  }

  /** The unit a value label carries (modules/ui.js:82-87). The degree sign
      is written in the source file as the two characters U+00C2 U+00B0 (a
      UTF-8 degree sign read as Latin-1), and is kept as written. */
  function Suffix(id: string): string {
    if id == "emissionRate" || id == "lifespan" || id == "ghostDuration" then "s"
    else if id == "spreadAngle" then "\U{00C2}\U{00B0}"
    else ""
  }

  /** `updateParameter(id, value, type)` (modules/ui.js:71-92): the write
      goes through the shared reference `particleParams`, so it lands in
      the active set and in no other. */
  function UpdateParameter(u: Panel, id: string, value: string, ty: string, colourOf: string -> Rgb): (r: Panel)
    ensures r.controlsVisible == u.controlsVisible
    ensures r.shown.Keys == u.shown.Keys + {id}
    ensures |value| <= |r.shown[id]| && r.shown[id][..|value|] == value
    ensures forall other :: other in u.shown && other != id ==> r.shown[other] == u.shown[other]
    ensures r.app == u.app.(sets := r.app.sets) && Consistent(r.app) == Consistent(u.app)
    ensures forall other: SetId :: other != u.app.active ==> r.app.sets.Get(other) == u.app.sets.Get(other)
    ensures var (p, q) := (u.app.sets.Get(u.app.active), r.app.sets.Get(r.app.active));
      && q.Keys <= p.Keys + {id}
      && (forall k :: k in p && k != id ==> k in q && q[k] == p[k])
  {
    var p := u.app.sets.Get(u.app.active);
    var q := match Stored(p, id, value, ty, colourOf)
      case Some(v) => p[id := v]
      case None => p;
    var app := u.app.(sets := u.app.sets.Put(u.app.active, q));
    Panel(app, u.controlsVisible, u.shown[id := value + Suffix(id)])
  }

  /** `toggleControls()` (modules/ui.js:102-115): flips the visibility flag
      and changes nothing else the model sees. */
  function ToggleControls(u: Panel): (r: Panel)
    ensures r.controlsVisible != u.controlsVisible
    ensures r.app == u.app && r.shown == u.shown
  {
    u.(controlsVisible := !u.controlsVisible)
  }

  /** Two toggles restore the panel. */
  lemma ToggleTwice(u: Panel)
    ensures ToggleControls(ToggleControls(u)) == u
  {
  }

  /** The parameter object an edit leaves in place of the active one. */
  function Edited(u: Panel, id: string, value: string, ty: string, colourOf: string -> Rgb): Params {
    var r := UpdateParameter(u, id, value, ty, colourOf);
    r.app.sets.Get(r.app.active)
  }

  /** An edit stores exactly what `Stored` decides under `id`: the key is
      present afterwards precisely when it was before or the id names a
      colour or the zen flag, and an ignored id leaves the object as it was. */
  lemma EditStores(u: Panel, id: string, value: string, ty: string, colourOf: string -> Rgb)
    ensures var (p, q) := (u.app.sets.Get(u.app.active), Edited(u, id, value, ty, colourOf));
      && (id in q <==> id in p || Contains(id, "Color") || id == "zenMode")
      && (Stored(p, id, value, ty, colourOf).Some? ==> q[id] == Stored(p, id, value, ty, colourOf).value)
      && (Stored(p, id, value, ty, colourOf).None? ==> q == p)
  {
  }

  /** An id the active object does not own, that names no colour and is not
      the zen flag, changes nothing but its label. */
  lemma UnknownIdIgnored(u: Panel, id: string, value: string, ty: string, colourOf: string -> Rgb)
    requires id !in u.app.sets.Get(u.app.active) && !Contains(id, "Color") && id != "zenMode"
    ensures UpdateParameter(u, id, value, ty, colourOf).app == u.app
  {
    var p := u.app.sets.Get(u.app.active);
    assert Stored(p, id, value, ty, colourOf) == None;
    assert u.app.sets.Put(u.app.active, p) == u.app.sets by {
      assert u.app.sets.Put(u.app.active, p).Get(u.app.active) == u.app.sets.Get(u.app.active);
    }
  }

  /** The renderer reads both colours as colour objects; no edit can break
      that, because both colour keys contain "Color" and so are always
      written as colours. */
  lemma EditKeepsColours(u: Panel, id: string, value: string, ty: string, colourOf: string -> Rgb)
    requires HasColours(u.app.sets.Get(u.app.active))
    ensures HasColours(Edited(u, id, value, ty, colourOf))
  {
    ContainsInfix("start", "Color", "");
    ContainsInfix("end", "Color", "");
    assert "start" + "Color" + "" == "startColor";
    assert "end" + "Color" + "" == "endColor";
  }

  /** A string without a capital C does not contain "Color". */
  lemma {:induction false} NoColourWithoutC(s: string)
    requires forall k :: 0 <= k < |s| ==> s[k] != 'C'
    ensures !Contains(s, "Color")
    decreases |s|
  {
    if 5 <= |s| {
      assert s[..5] != "Color" by { assert s[..5][0] != 'C'; }
      NoColourWithoutC(s[1..]);
    }
  }

  /** A select whose value is a word (the shipped sets hold "subtractive"
      under `blendMode` and "cube" under `shape`) stores NaN under an
      existing key, since `parseFloat` reads no number from it. */
  lemma WordSelectStoresNaN(u: Panel, id: string, value: string, ty: string, colourOf: string -> Rgb)
    requires id in u.app.sets.Get(u.app.active) && id != "zenMode" && ty != "color"
    requires forall k :: 0 <= k < |id| ==> id[k] != 'C'
    requires value != [] && 'a' <= value[0] <= 'z'
    ensures Edited(u, id, value, ty, colourOf)[id] == Number(NaN)
  {
    NoColourWithoutC(id);
    assert !IsSpace(value[0]) && TrimStart(value) == value;
    ParseFloatOfWord(value);
  }

  /** The blend-mode select turns `blendMode` into NaN in any of the
      shipped sets, which all inherit the key from the base set: its
      options are lower-case words such as "additive". */
  lemma BlendModeBecomesNaN(u: Panel, mode: string, colourOf: string -> Rgb)
    requires "blendMode" in u.app.sets.Get(u.app.active)
    requires mode != [] && 'a' <= mode[0] <= 'z'
    ensures Edited(u, "blendMode", mode, "select-one", colourOf)["blendMode"] == Number(NaN)
  {
    var id := "blendMode";
    assert forall k :: 0 <= k < |id| ==> id[k] != 'C' by {
      assert id == ['b', 'l', 'e', 'n', 'd', 'M', 'o', 'd', 'e'];
    }
    WordSelectStoresNaN(u, id, mode, "select-one", colourOf);
  }

  /** Every shipped set owns `blendMode`. */
  lemma ShippedSetsHaveBlendMode(id: SetId)
    ensures "blendMode" in ShippedSets().Get(id)
  {
    assert "blendMode" in BaseParams();
  }

  /** A range input reports its value as a decimal numeral; storing it under
      an existing key gives back the number on the slider. */
  lemma RangeStoresNumber(u: Panel, id: string, n: nat, colourOf: string -> Rgb)
    requires id in u.app.sets.Get(u.app.active) && id != "zenMode" && !Contains(id, "Color")
    ensures Edited(u, id, NatString(n), "range", colourOf)[id] == Number(Real(n as real))
    ensures NumParam(Edited(u, id, NatString(n), "range", colourOf), id) == Real(n as real)
  {
    ParseNatString(n);
  }

  /** The same for a slider with a fractional step: `whole.fraction` is
      stored as its decimal value. */
  lemma RangeStoresDecimal(u: Panel, id: string, whole: string, fraction: string, colourOf: string -> Rgb)
    requires id in u.app.sets.Get(u.app.active) && id != "zenMode" && !Contains(id, "Color")
    requires AllDigits(whole) && AllDigits(fraction) && whole != []
    ensures NumParam(Edited(u, id, whole + "." + fraction, "range", colourOf), id) == Real(DecimalValue(whole, fraction))
  {
    ParseDecimal(whole, fraction);
  }

  /** An edit is made to the shared object itself: switching to another mode
      and back finds it there. */
  lemma EditSurvivesModeRoundTrip(u: Panel, id: string, value: string, ty: string, colourOf: string -> Rgb, away: string, back: string)
    requires SetFor(back) == u.app.active
    ensures var r := UpdateParameter(u, id, value, ty, colourOf).app;
      var s := SwitchMode(SwitchMode(r, away), back);
      s.sets.Get(s.active) == Edited(u, id, value, ty, colourOf)
  {
    var r := UpdateParameter(u, id, value, ty, colourOf).app;
    SwitchRoundTrip(r, away, back);
  }

  /** The label shows the value followed by its unit: seconds for the three
      durations, a degree sign for the spread angle, nothing otherwise. */
  lemma LabelText(u: Panel, id: string, value: string, ty: string, colourOf: string -> Rgb)
    ensures var t := UpdateParameter(u, id, value, ty, colourOf).shown[id];
      && t[..|value|] == value
      && (id in {"emissionRate", "lifespan", "ghostDuration"} ==> t[|value|..] == "s")
      && (id == "spreadAngle" ==> t[|value|..] == "\U{00C2}\U{00B0}")
      && (id !in {"emissionRate", "lifespan", "ghostDuration", "spreadAngle"} ==> t == value)
  {
    var t := value + Suffix(id);
    assert t[|value|..] == Suffix(id);
  }
}
