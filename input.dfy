/**
 * Keyboard input, reduced to the discrete key codes the scripts poll.
 * `Input.GetKeyDown` in one frame becomes the set of keys that went down
 * in that frame.
 */
module Input {

  /** The key codes the scripts test for; every other key is `Other`. */
  datatype KeyCode = Alpha1 | Alpha2 | Alpha3 | Alpha4 | F | Other(code: nat)

  /** The inspector default of the broadcaster's toggle key. */
  const DefaultToggleKey: KeyCode := F
}
