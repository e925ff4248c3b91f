/**
 * The two mode unions the player screen works with (src/types/index.ts).
 * Each has one more constructor than the declared union: the source compares
 * the mode against string literals, so a value outside the union is handled
 * by a fallback branch, and the model keeps that branch reachable.
 *
 * The extra constructor's `name` stands for a string that is none of the
 * union's own names: the union members are their own constructors.  Nor is
 * it a property every object inherits (`toString`, `constructor`, ...): for
 * a scene, such a key finds a value in the configuration table instead of
 * falling back, which this model does not capture.  The selectors of the app
 * emit only union members, so neither edge arises from them.
 */
module Types {

  /** How code segments are narrated: 'skip' | 'label' | 'summary'. */
  datatype CodeMode = Skip | Label | Summary | OtherCodeMode(name: string)

  /** The listening scene: 'standard' | 'gym' | 'running' | 'driving' | 'private'. */
  datatype SceneMode = Standard | Gym | Running | Driving | Private | OtherScene(name: string)
}
