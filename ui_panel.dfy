/**
 * `UIPanel`: the visibility of a panel's `Canvas`, the flags of its optional
 * `CanvasGroup`, the flags saved from the group at `Awake`, and whether the
 * panel forwards input (its handler is subscribed to the UI controller's
 * input source).
 *
 * The transitions are first given as functions on a `Panel` value; the
 * `UIPanel` class below updates its fields in place and is proved to follow
 * them.
 */
module UIPanels {
  import opened Types

  datatype GroupFlags = GroupFlags(interactable: bool, blocksRaycasts: bool, ignoreParentGroups: bool)

  /** The group configuration of a hidden panel. */
  const HiddenGroup: GroupFlags := GroupFlags(false, false, true)

  /** The initial values of the saved-flag fields. */
  const DefaultSaved: GroupFlags := GroupFlags(true, true, false)

  /** What the panel signals: its `onShow`/`onHide` events and the same-value warning. */
  datatype Signal = ShowRaised | HideRaised | SameForwardInputWarning

  /**
   * A panel's state. `group` is None when there is no `CanvasGroup`;
   * `subscriptions` counts how many times the input handler is subscribed.
   */
  datatype Panel = Panel(
    enabledOnAwake: bool,
    forwardInputsOnShow: bool,
    canvasEnabled: bool,
    group: Option<GroupFlags>,
    saved: GroupFlags,
    forwardInput: bool,
    subscriptions: nat,
    signals: seq<Signal>)

  /** The panel before `Awake`: the field initialisers and the components as configured. */
  function Initial(enabledOnAwake: bool, forwardInputsOnShow: bool, canvasEnabled: bool, group: Option<GroupFlags>): Panel {
    Panel(enabledOnAwake, forwardInputsOnShow, canvasEnabled, group, DefaultSaved, false, 0, [])
  }

  /** `SetForwardInput(value)`: a warned no-op for the current value, else flip the subscription. */
  function AfterSetForwardInput(p: Panel, value: bool): (r: Panel)
    ensures r.enabledOnAwake == p.enabledOnAwake && r.forwardInputsOnShow == p.forwardInputsOnShow
    ensures r.canvasEnabled == p.canvasEnabled && r.group == p.group && r.saved == p.saved
    ensures r.forwardInput == value
    ensures p.forwardInput == value ==> r.subscriptions == p.subscriptions && r.signals == p.signals + [SameForwardInputWarning]
    ensures p.forwardInput != value ==> r.signals == p.signals
  {
    if p.forwardInput == value then p.(signals := p.signals + [SameForwardInputWarning])
    else
      var subscriptions := if p.forwardInput then (if p.subscriptions > 0 then p.subscriptions - 1 else 0)
                           else p.subscriptions + 1;
      p.(subscriptions := subscriptions, forwardInput := value)
  }

  function AfterOnShow(p: Panel): (r: Panel)
    ensures r.canvasEnabled && r.saved == p.saved
    ensures p.group.Some? ==> r.group == Some(p.saved)
    ensures p.group.None? ==> r.group.None?
    ensures r.enabledOnAwake == p.enabledOnAwake && r.forwardInputsOnShow == p.forwardInputsOnShow
    ensures p.forwardInputsOnShow ==> r.forwardInput
    ensures p.forwardInputsOnShow && !p.forwardInput ==> r.subscriptions == p.subscriptions + 1
    ensures p.forwardInputsOnShow && p.forwardInput ==> r.subscriptions == p.subscriptions
    ensures !p.forwardInputsOnShow ==> r.forwardInput == p.forwardInput && r.subscriptions == p.subscriptions
    ensures r.signals == p.signals + (if p.forwardInputsOnShow && p.forwardInput then [SameForwardInputWarning] else []) + [ShowRaised]
  {
    var p1 := p.(canvasEnabled := true, group := if p.group.Some? then Some(p.saved) else None);
    var p2 := if p.forwardInputsOnShow then AfterSetForwardInput(p1, true) else p1;
    p2.(signals := p2.signals + [ShowRaised])
  }

  function AfterOnHide(p: Panel): (r: Panel)
    ensures !r.canvasEnabled && r.saved == p.saved
    ensures p.group.Some? ==> r.group == Some(HiddenGroup)
    ensures p.group.None? ==> r.group.None?
    ensures r.enabledOnAwake == p.enabledOnAwake && r.forwardInputsOnShow == p.forwardInputsOnShow
    ensures p.forwardInputsOnShow ==> !r.forwardInput
    ensures p.forwardInputsOnShow && p.forwardInput && p.subscriptions > 0 ==> r.subscriptions == p.subscriptions - 1
    ensures p.forwardInputsOnShow && !p.forwardInput ==> r.subscriptions == p.subscriptions
    ensures !p.forwardInputsOnShow ==> r.forwardInput == p.forwardInput && r.subscriptions == p.subscriptions
    ensures r.signals == p.signals + (if p.forwardInputsOnShow && !p.forwardInput then [SameForwardInputWarning] else []) + [HideRaised]
  {
    var p1 := p.(canvasEnabled := false, group := if p.group.Some? then Some(HiddenGroup) else None);
    var p2 := if p.forwardInputsOnShow then AfterSetForwardInput(p1, false) else p1;
    p2.(signals := p2.signals + [HideRaised])
  }

  /** `Show`: `OnShow` only when the canvas is disabled. */
  function AfterShow(p: Panel): (r: Panel)
    ensures r.canvasEnabled
    ensures p.canvasEnabled ==> r == p
  {
    if !p.canvasEnabled then AfterOnShow(p) else p
  }

  /** `Hide`: `OnHide` only when the canvas is enabled. */
  function AfterHide(p: Panel): (r: Panel)
    ensures !r.canvasEnabled
    ensures !p.canvasEnabled ==> r == p
  {
    if p.canvasEnabled then AfterOnHide(p) else p
  }

  /** `Awake`: save the group's flags, set the initial visibility, turn forwarding on if shown. */
  function AfterAwake(p: Panel): (r: Panel)
    ensures r.canvasEnabled == p.enabledOnAwake
    ensures p.group.Some? ==> r.saved == p.group.value
    ensures p.group.Some? && !p.enabledOnAwake ==> r.group == Some(HiddenGroup)
  {
    var saved := if p.group.Some? then p.group.value else p.saved;
    var group := if p.group.Some? then Some(if p.enabledOnAwake then saved else HiddenGroup) else None;
    var p1 := p.(saved := saved, group := group, canvasEnabled := p.enabledOnAwake);
    if p.enabledOnAwake && p.forwardInputsOnShow then AfterSetForwardInput(p1, true) else p1
  }

  /** The operations other objects can call on an awake panel. */
  datatype PanelOp = ShowOp | HideOp | SetForwardInputOp(value: bool)

  function Step(p: Panel, op: PanelOp): Panel {
    match op
    case ShowOp => AfterShow(p)
    case HideOp => AfterHide(p)
    case SetForwardInputOp(v) => AfterSetForwardInput(p, v)
  }

  function Apply(p: Panel, ops: seq<PanelOp>): Panel
    decreases |ops|
  {
    if ops == [] then p else Apply(Step(p, ops[0]), ops[1..])
  }

  /**
   * The invariant of an awake panel: the handler is subscribed exactly once
   * while forwarding and not at all otherwise, and the group (when there is
   * one) shows the saved flags while visible and the hidden configuration
   * while not.
   */
  predicate Coherent(p: Panel) {
    && p.subscriptions == (if p.forwardInput then 1 else 0)
    && (p.group.Some? ==> p.group.value == (if p.canvasEnabled then p.saved else HiddenGroup))
  }

  /** Forwarding follows visibility, as `forwardInputsOnShow` asks. */
  predicate ForwardsWhileVisible(p: Panel) {
    p.forwardInputsOnShow ==> p.forwardInput == p.canvasEnabled
  }

  /** After `Awake`, forwarding is on exactly when the panel starts shown and forwards on show. */
  lemma AwakeEstablishesInvariant(enabledOnAwake: bool, forwardInputsOnShow: bool, canvasEnabled: bool, group: Option<GroupFlags>)
    ensures var p := AfterAwake(Initial(enabledOnAwake, forwardInputsOnShow, canvasEnabled, group));
            && Coherent(p) && ForwardsWhileVisible(p)
            && p.forwardInput == (enabledOnAwake && forwardInputsOnShow)
            && p.signals == []
  {
  }

  /** Every operation keeps the invariant and never rewrites the saved flags. */
  lemma StepKeepsInvariant(p: Panel, op: PanelOp)
    requires Coherent(p)
    ensures Coherent(Step(p, op)) && Step(p, op).saved == p.saved
    ensures op != SetForwardInputOp(!p.forwardInput) && ForwardsWhileVisible(p) ==> ForwardsWhileVisible(Step(p, op))
  {
  }

  /** Any sequence of operations on an awake panel keeps the invariant and the Awake-time flags. */
  lemma {:induction false} OperationsKeepInvariant(p: Panel, ops: seq<PanelOp>)
    requires Coherent(p)
    ensures Coherent(Apply(p, ops)) && Apply(p, ops).saved == p.saved
    decreases |ops|
  {
    if ops != [] {
      StepKeepsInvariant(p, ops[0]);
      OperationsKeepInvariant(Step(p, ops[0]), ops[1..]);
    }
  }

  /** `Show` and `Hide` are idempotent. */
  lemma ShowHideIdempotent(p: Panel)
    ensures AfterShow(AfterShow(p)) == AfterShow(p)
    ensures AfterHide(AfterHide(p)) == AfterHide(p)
  {
  }

  /** Hiding then showing a panel that has a group restores the flags saved at `Awake`. */
  lemma HideThenShowRestoresSavedFlags(p: Panel)
    requires p.group.Some?
    ensures AfterShow(AfterHide(p)).group == Some(p.saved) && AfterShow(AfterHide(p)).canvasEnabled
  {
  }

  /** The number of same-value warnings raised so far. */
  function Warnings(p: Panel): nat {
    multiset(p.signals)[SameForwardInputWarning]
  }

  /**
   * With forwarding following visibility, `Show` and `Hide` never hit the
   * same-value warning of `SetForwardInput`, and keep forwarding in step.
   */
  lemma ShowHideStepIsQuiet(p: Panel, op: PanelOp)
    requires ForwardsWhileVisible(p) && !op.SetForwardInputOp?
    ensures ForwardsWhileVisible(Step(p, op)) && Warnings(Step(p, op)) == Warnings(p)
  {
    var q := Step(p, op);
    if q != p {
      assert q.signals == p.signals + [if op.ShowOp? then ShowRaised else HideRaised];
    }
  }

  lemma {:induction false} ShowHideNeverWarns(p: Panel, ops: seq<PanelOp>)
    requires ForwardsWhileVisible(p)
    requires forall k :: 0 <= k < |ops| ==> !ops[k].SetForwardInputOp?
    ensures ForwardsWhileVisible(Apply(p, ops)) && Warnings(Apply(p, ops)) == Warnings(p)
    decreases |ops|
  {
    if ops != [] {
      ShowHideStepIsQuiet(p, ops[0]);
      ShowHideNeverWarns(Step(p, ops[0]), ops[1..]);
    }
  }

  /**
   * The `UIPanel` component. The canvas is a required component; the group's
   * flags are meaningful only when `hasCanvasGroup`.
   */
  class UIPanel {
    const enabledOnAwake: bool
    const forwardInputsOnShow: bool
    const hasCanvasGroup: bool
    var canvasEnabled: bool
    var groupInteractable: bool
    var groupBlocksRaycasts: bool
    var groupIgnoreParentGroups: bool
    var interactable: bool
    var blockRaycasts: bool
    var ignoreParentGroups: bool
    var forwardInput: bool
    var subscriptions: nat
    var signals: seq<Signal>

    function Group(): Option<GroupFlags>
      reads this
    {
      if hasCanvasGroup then Some(GroupFlags(groupInteractable, groupBlocksRaycasts, groupIgnoreParentGroups)) else None
    }

    function State(): Panel
      reads this
    {
      Panel(enabledOnAwake, forwardInputsOnShow, canvasEnabled, Group(),
            GroupFlags(interactable, blockRaycasts, ignoreParentGroups), forwardInput, subscriptions, signals)
    }

    /** The panel as configured in the scene, before `Awake`. */
    constructor (enabledOnAwake: bool, forwardInputsOnShow: bool, canvasEnabled: bool, group: Option<GroupFlags>)
      ensures State() == Initial(enabledOnAwake, forwardInputsOnShow, canvasEnabled, group)
    {
      this.enabledOnAwake := enabledOnAwake;
      this.forwardInputsOnShow := forwardInputsOnShow;
      this.canvasEnabled := canvasEnabled;
      hasCanvasGroup := group.Some?;
      if group.Some? {
        groupInteractable := group.value.interactable;
        groupBlocksRaycasts := group.value.blocksRaycasts;
        groupIgnoreParentGroups := group.value.ignoreParentGroups;
      }
      interactable, blockRaycasts, ignoreParentGroups := true, true, false;
      forwardInput := false;
      subscriptions := 0;
      signals := [];
    }

    method Awake()
      modifies this
      ensures State() == AfterAwake(old(State()))
    {
      if hasCanvasGroup {
        interactable := groupInteractable;
        blockRaycasts := groupBlocksRaycasts;
        ignoreParentGroups := groupIgnoreParentGroups;
        if enabledOnAwake {
          groupInteractable := interactable;
          groupBlocksRaycasts := blockRaycasts;
          groupIgnoreParentGroups := ignoreParentGroups;
        } else {
          groupInteractable := false;
          groupBlocksRaycasts := false;
          groupIgnoreParentGroups := true;
        }
      }
      canvasEnabled := enabledOnAwake;
      if enabledOnAwake && forwardInputsOnShow {
        SetForwardInput(true);
      }
    }

    method Show()
      modifies this
      ensures State() == AfterShow(old(State()))
    {
      if !canvasEnabled {
        OnShow();
      }
    }

    method Hide()
      modifies this
      ensures State() == AfterHide(old(State()))
    {
      if canvasEnabled {
        OnHide();
      }
    }

    method OnShow()
      modifies this
      ensures State() == AfterOnShow(old(State()))
    {
      canvasEnabled := true;
      if hasCanvasGroup {
        groupInteractable := interactable;
        groupBlocksRaycasts := blockRaycasts;
        groupIgnoreParentGroups := ignoreParentGroups;
      }
      if forwardInputsOnShow {
        SetForwardInput(true);
      }
      signals := signals + [ShowRaised];
    }

    method OnHide()
      modifies this
      ensures State() == AfterOnHide(old(State()))
    {
      canvasEnabled := false;
      if hasCanvasGroup {
        groupInteractable := false;
        groupBlocksRaycasts := false;
        groupIgnoreParentGroups := true;
      }
      if forwardInputsOnShow {
        SetForwardInput(false);
      }
      signals := signals + [HideRaised];
    }

    method SetForwardInput(value: bool)
      modifies this
      ensures State() == AfterSetForwardInput(old(State()), value)
    {
      if forwardInput == value {
        signals := signals + [SameForwardInputWarning];
        return;
      }
      if forwardInput {
        if subscriptions > 0 {
          subscriptions := subscriptions - 1;
        }
      } else {
        subscriptions := subscriptions + 1;
      }
      forwardInput := value;
    }
  }
}
