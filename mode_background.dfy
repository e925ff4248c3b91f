/**
 * The animated backdrop of the player (src/components/ModeBackground.tsx):
 * a constant table from scene to (variant, intensity), a fallback to the
 * standard entry, and a switch from variant to background component.  The
 * animations themselves are not modelled.
 */
module ModeBackground {
  import opened Wrappers
  import opened Types

  datatype Intensity = Low | Medium | High
  datatype Variant = Particles | DrivingStreaks | GymPulse | StandardShader
  datatype Config = Config(variant: Variant, intensity: Intensity)

  /** The background component that gets mounted, with the intensity it is given. */
  datatype Layer =
    | ParticleBackground(intensity: Intensity)
    | DrivingStreakBackground(intensity: Intensity)
    | GymPulseBackground(intensity: Intensity)
    | StandardShaderBackground(intensity: Intensity)

  /** `MODE_BACKGROUND_CONFIG`: one entry per declared scene. */
  const BackgroundConfig: map<SceneMode, Config> := map[
    Standard := Config(StandardShader, Low),
    Gym := Config(GymPulse, Medium),
    Running := Config(Particles, Medium),
    Driving := Config(DrivingStreaks, High),
    Private := Config(Particles, Low)
  ]

  /** The table entry of a scene, or the standard entry for a scene the table lacks. */
  function ConfigFor(scene: SceneMode): (c: Config)
    ensures scene in BackgroundConfig ==> c == BackgroundConfig[scene]
    ensures scene !in BackgroundConfig ==> c == BackgroundConfig[Standard]
  {
    if scene in BackgroundConfig then BackgroundConfig[scene] else BackgroundConfig[Standard]
  }

  /** The component a variant selects; particles is also the switch's default. */
  function LayerFor(c: Config): (l: Layer)
    ensures l.intensity == c.intensity
  {
    match c.variant
    case DrivingStreaks => DrivingStreakBackground(c.intensity)
    case GymPulse => GymPulseBackground(c.intensity)
    case StandardShader => StandardShaderBackground(c.intensity)
    case Particles => ParticleBackground(c.intensity)
  }

  /** The variant a layer shows. */
  function LayerVariant(l: Layer): Variant
  {
    match l
    case ParticleBackground(_) => Particles
    case DrivingStreakBackground(_) => DrivingStreaks
    case GymPulseBackground(_) => GymPulse
    case StandardShaderBackground(_) => StandardShader
  }

  /** The backdrop: nothing while not playing, otherwise the scene's layer. */
  function Background(active: bool, scene: SceneMode): (r: Option<Layer>)
    ensures r.None? <==> !active
    ensures r.Some? ==> LayerVariant(r.value) == ConfigFor(scene).variant
    ensures r.Some? ==> r.value.intensity == ConfigFor(scene).intensity
  {
    if !active then None else Some(LayerFor(ConfigFor(scene)))
  }

  /**
   * The scene table: every declared scene has its own entry, and a value
   * outside the union (and not an inherited object key) is drawn like the
   * standard scene.
   */
  lemma SceneTable(name: string)
    ensures ConfigFor(Standard) == Config(StandardShader, Low)
    ensures ConfigFor(Gym) == Config(GymPulse, Medium)
    ensures ConfigFor(Running) == Config(Particles, Medium)
    ensures ConfigFor(Driving) == Config(DrivingStreaks, High)
    ensures ConfigFor(Private) == Config(Particles, Low)
    ensures ConfigFor(OtherScene(name)) == ConfigFor(Standard)
  {
  }

  /** Selecting a layer and reading its variant back gives the configured variant. */
  lemma {:induction false} LayerRoundTrip(c: Config)
    ensures LayerVariant(LayerFor(c)) == c.variant
  {
    match c.variant
    case DrivingStreaks =>
    case GymPulse =>
    case StandardShader =>
    case Particles =>
  }
}
