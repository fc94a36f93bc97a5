/** Simulation parameters: the flat, openly mutable name -> value objects the
    application shares between the control panel and the simulation
    (app.js:37-91), and the three shipped sets. */
module Params {
  import opened JsNum

  /** What a parameter object can hold under a name. */
  datatype Value = Number(n: Num) | Text(s: string) | Flag(b: bool) | Colour(c: Rgb)

  type Params = map<string, Value>

  /** `p[key]` used as an arithmetic operand: a missing key (`undefined`), a
      string or a colour object become NaN, a boolean becomes 0 or 1.
      JavaScript would coerce a numeric string to its number; the strings
      the application stores are the shipped words and the `#rrggbb` values
      of colour inputs, none of them numeric. */
  function NumParam(p: Params, key: string): Num {
    if key !in p then NaN
    else match p[key]
      case Number(n) => n
      case Flag(b) => if b then One else Zero
      case Text(_) => NaN
      case Colour(_) => NaN
  }

  /** `p[key]` used as a condition. */
  predicate TruthyParam(p: Params, key: string) {
    key in p &&
    match p[key]
      case Number(n) => n.Real? && n.r != 0.0
      case Text(s) => s != ""
      case Flag(b) => b
      case Colour(_) => true
  }

  /** `p[key] === s` */
  predicate TextIs(p: Params, key: string, s: string) {
    key in p && p[key] == Text(s)
  }

  /** Both colours the renderer interpolates are colour objects; reading a
      colour that is not one throws in the source. */
  predicate HasColours(p: Params) {
    "startColor" in p && p["startColor"].Colour? &&
    "endColor" in p && p["endColor"].Colour?
  }

  function ColourParam(p: Params, key: string): Rgb
    requires key in p && p[key].Colour?
  {
    p[key].c
  }

  /** Identity of one of the three parameter objects the application owns. */
  datatype SetId = ZenSet | FluidSet | GlitchSet

  /** The three parameter objects, addressed by identity: assigning
      `particleParams = this.fluidParams` shares the object, it does not copy it. */
  datatype ParamSets = ParamSets(zen: Params, fluid: Params, glitch: Params) {

    function Get(id: SetId): Params {
      match id
      case ZenSet => zen
      case FluidSet => fluid
      case GlitchSet => glitch
    }

    /** Writing through one reference changes that object and no other. */
    function Put(id: SetId, p: Params): (r: ParamSets)
      ensures r.Get(id) == p
      ensures forall other: SetId :: other != id ==> r.Get(other) == Get(other)
    {
      match id
      case ZenSet => this.(zen := p)
      case FluidSet => this.(fluid := p)
      case GlitchSet => this.(glitch := p)
    }
  }

  function N(r: real): Value {
    Number(Real(r))
  }

  /** `baseParams` (app.js:37-53). White is 0xffffff, cyan is 0x00ffff. */
  function BaseParams(): Params {
    map[
      "count" := N(30000.0),
      "emissionRate" := N(69.0),
      "initialSpeed" := N(2.0),
      "spreadAngle" := N(133.0),
      "startColor" := Colour(Rgb(One, One, One)),
      "endColor" := Colour(Rgb(Zero, One, One)),
      "size" := N(0.5),
      "sizeVariation" := N(3.0),
      "opacity" := N(0.7),
      "lifespan" := N(120.0),
      "turbulence" := N(0.5),
      "shape" := Text("cube"),
      "blendMode" := Text("subtractive"),
      "burstSize" := N(99.0),
      "trailDensity" := N(33.0)
    ]
  }

  /** `zenParams`: the base set overlaid with the zen fields (app.js:55-66). */
  function ZenParams(): Params {
    BaseParams() + ZenFields()
  }

  /** The fields `zenParams` adds to or overrides in the base set. */
  function ZenFields(): Params {
    map[
      "gravity" := N(-0.3),
      "airResistance" := N(0.02),
      "windX" := N(-0.3),
      "windY" := N(0.2),
      "windZ" := N(0.1),
      "zenMode" := Flag(true),
      "ghostDuration" := N(30.0),
      "clearingMode" := Flag(false),
      "mode" := Text("zen")
    ]
  }

  /** `fluidParams` (app.js:68-78). */
  function FluidParams(): Params {
    BaseParams() + FluidFields()
  }

  /** The fields `fluidParams` adds to or overrides in the base set. */
  function FluidFields(): Params {
    map[
      "gravity" := N(0.0),
      "airResistance" := N(0.1),
      "viscosity" := N(0.5),
      "buoyancy" := N(0.1),
      "diffusionRate" := N(0.2),
      "swirlIntensity" := N(1.0),
      "mode" := Text("fluid"),
      "zenMode" := Flag(false)
    ]
  }

  /** `glitchParams`: the zen set overlaid with the glitch fields (app.js:80-89). */
  function GlitchParams(): Params {
    ZenParams() + GlitchFields()
  }

  /** The fields `glitchParams` adds to or overrides in the zen set. */
  function GlitchFields(): Params {
    map[
      "attractionForce" := N(1.5),
      "damping" := N(0.92),
      "jitter" := N(0.5),
      "influenceRadius" := N(15.0),
      "snapSpeed" := N(3.0),
      "mode" := Text("glitch"),
      "zenMode" := Flag(false)
    ]
  }

  function ShippedSets(): ParamSets {
    ParamSets(ZenParams(), FluidParams(), GlitchParams())
  }

  /** Every shipped set carries both colour objects the colour pass reads. */
  lemma ShippedSetsHaveColours(id: SetId)
    ensures HasColours(ShippedSets().Get(id))
  {
    ZenHasColours();
    match id
    case ZenSet =>
    case FluidSet =>
      assert "startColor" !in FluidFields() && "endColor" !in FluidFields();
      OverlayKeepsColours(BaseParams(), FluidFields());
    case GlitchSet =>
      assert "startColor" !in GlitchFields() && "endColor" !in GlitchFields();
      OverlayKeepsColours(ZenParams(), GlitchFields());
  }

  lemma ZenHasColours()
    ensures HasColours(ZenParams())
  {
    assert HasColours(BaseParams());
    assert "startColor" !in ZenFields() && "endColor" !in ZenFields();
    OverlayKeepsColours(BaseParams(), ZenFields());
  }

  /** Overlaying fields that leave both colour keys alone keeps the colours. */
  lemma OverlayKeepsColours(p: Params, q: Params)
    requires HasColours(p) && "startColor" !in q && "endColor" !in q
    ensures HasColours(p + q)
  {
  }

  /** Neither force key the glitch model reads is in the base set, the zen
      overlay or the glitch overlay. */
  lemma AnchorKeyAbsent()
    ensures "anchorStrength" !in GlitchParams()
  {
    assert "anchorStrength" !in BaseParams();
    assert "anchorStrength" !in ZenParams();
  }

  lemma JitterKeyAbsent()
    ensures "glitchJitter" !in GlitchParams()
  {
    assert "glitchJitter" !in BaseParams();
    assert "glitchJitter" !in ZenParams();
  }

  /** The glitch set names its anchor and jitter coefficients `attractionForce`
      and `jitter`, while the glitch force model reads `anchorStrength` and
      `glitchJitter`: those read as NaN under the shipped glitch set. */
  lemma GlitchSetLacksForceKeys()
    ensures "attractionForce" in GlitchParams() && "jitter" in GlitchParams()
    ensures NumParam(GlitchParams(), "anchorStrength") == NaN
    ensures NumParam(GlitchParams(), "glitchJitter") == NaN
  {
    AnchorKeyAbsent();
    JitterKeyAbsent();
  }
}
