/** The values that the exploration engine passes around: actions, the coarse
    keys it compares them by, and the samples of its navigation trace. */
module ExplorationTypes {
  import opened Options

  datatype Kind = Tap | Swipe | Input | Back | Replay

  /** semanticActionKey: what identifies a control across captures of a page. */
  datatype ActionKey = ActionKey(kind: Kind, resource: string, className: string, caption: string)

  /** The action half of a blocked edge: a semantic key, or the literal
      "backtrack" that every return action is filed under. */
  datatype EdgeAction = Keyed(key: ActionKey) | Backtracking

  datatype Action = Action(
    id: string,
    kind: Kind,
    resource: string,
    className: string,
    caption: string,
    x: int, y: int, endX: int, endY: int,
    recovery: bool,
    backtrack: bool,
    looksLikeBack: bool,   // resource or label names a back control
    externalRisk: bool)    // label names an account or a share target
  {
    function Key(): ActionKey { ActionKey(kind, resource, className, caption) }

    /** The key under which a step with this action is counted and blocked. */
    function StepKey(): EdgeAction { if backtrack then Backtracking else Keyed(Key()) }

    predicate IsVisibleBackControl() { kind == Tap && !backtrack && looksLikeBack }
  }

  /** One settled transition as the cycle guard sees it. */
  datatype Sample = Sample(from: string, action: EdgeAction, to: string, blockFrom: string)
  {
    function CycleKey(): string { from + "->" + to }
  }

  // ----- Special scenes ------------------------------------------------------

  datatype SceneKind = Ad | LoadFailure | PurchaseFailure | Onboarding | OtherScene(name: string)

  datatype SceneOutcome = Acting | Waiting | Exploring | PolicyRequired | Unhandled

  /** A scene that is not an ordinary page, as the inspection reports it. */
  datatype Scene = Scene(kind: SceneKind, fingerprint: string, outcome: SceneOutcome,
                         action: Option<Action>, fallback: Option<Action>, waitLimit: int)

  /** What a scene's attempts are counted under: its page, its activity, or the
      encounter with the ad. */
  datatype SceneKey = OfPage(kind: SceneKind, fingerprint: string) | OfActivity(kind: SceneKind, activity: string)
                    | OfAd(encounter: nat, activity: string)
}
