/**
 * The Fuse sidebar: its open / folded / locked-open state machine, the inline styles and
 * classes it writes through the renderer, and the `openedChanged` / `foldedChanged` emitters.
 *
 * The class `FuseSidebar` holds the component's fields; the renderer is modelled by the inline
 * styles and classes of the sidebar element and the inline styles of its sibling, and each
 * emitter by the list of values it has emitted. Every method frames exactly the fields it may
 * write and states their new values.
 */
module Sidebar {

  datatype Position = Left | Right

  /** The overlay element behind an opened sidebar; only its presence and its
      `fuse-sidebar-overlay-invisible` class are modelled. */
  datatype Backdrop = NoBackdrop | Overlay(invisible: bool)

  /** The inline style properties the component writes through the renderer. */
  datatype StyleName = Width | MinWidth | MaxWidth | BoxShadow | Visibility | PaddingLeft | PaddingRight
  {
    /** The CSS property name passed to `setStyle` / `removeStyle`. */
    function Css(): string
    {
      match this
      case Width => "width"
      case MinWidth => "min-width"
      case MaxWidth => "max-width"
      case BoxShadow => "box-shadow"
      case Visibility => "visibility"
      case PaddingLeft => "padding-left"
      case PaddingRight => "padding-right"
    }
  }

  // ---------------------------------------------------------------------------
  // Style values
  // ---------------------------------------------------------------------------

  function DigitChar(d: nat): char
    requires d < 10
  {
    "0123456789"[d]
  }

  function DigitValue(c: char): nat
  {
    if '0' <= c <= '9' then (c as int - '0' as int) as nat else 0
  }

  /** The decimal text of `n`, as JavaScript's number-to-string gives it for a whole number. */
  function Decimal(n: nat): (s: string)
    ensures |s| > 0
  {
    if n < 10 then [DigitChar(n)] else Decimal(n / 10) + [DigitChar(n % 10)]
  }

  function ParseDecimal(s: string): nat
  {
    if s == [] then 0 else ParseDecimal(s[..|s| - 1]) * 10 + DigitValue(s[|s| - 1])
  }

  lemma {:induction false} DecimalRoundTrip(n: nat)
    ensures ParseDecimal(Decimal(n)) == n
  {
    var s := Decimal(n);
    if n >= 10 {
      DecimalRoundTrip(n / 10);
      assert s[..|s| - 1] == Decimal(n / 10);
    }
  }

  /** `this.foldedWidth + 'px'`. */
  function Px(width: nat): string
  {
    Decimal(width) + "px"
  }

  /** Distinct widths give distinct style values. */
  lemma PxInjective(a: nat, b: nat)
    requires Px(a) == Px(b)
    ensures a == b
  {
    assert Decimal(a) == Px(a)[..|Px(a)| - 2];
    assert Decimal(b) == Px(b)[..|Px(b)| - 2];
    DecimalRoundTrip(a);
    DecimalRoundTrip(b);
  }

  const WidthKeys: set<StyleName> := {Width, MinWidth, MaxWidth}

  /** The three `setStyle` calls that pin the element to the folded width. */
  function WithFoldedWidth(styles: map<StyleName, string>, width: nat): map<StyleName, string>
  {
    styles[Width := Px(width)][MinWidth := Px(width)][MaxWidth := Px(width)]
  }

  /** The three `removeStyle` calls that release the width. */
  function WithoutFoldedWidth(styles: map<StyleName, string>): map<StyleName, string>
  {
    styles - {Width} - {MinWidth} - {MaxWidth}
  }

  /** Pinning sets the three width styles to the folded width, releasing removes them, and
      every other style is left as it was. */
  lemma FoldedWidthStyles(styles: map<StyleName, string>, width: nat)
    ensures forall k :: k in WidthKeys ==>
              k in WithFoldedWidth(styles, width) && WithFoldedWidth(styles, width)[k] == Px(width)
    ensures forall k :: k in WidthKeys ==> k !in WithoutFoldedWidth(styles)
    ensures forall k :: k !in WidthKeys ==>
              && (k in WithFoldedWidth(styles, width) <==> k in styles)
              && (k in styles ==> WithFoldedWidth(styles, width)[k] == styles[k])
              && (k in WithoutFoldedWidth(styles) <==> k in styles)
              && (k in styles ==> WithoutFoldedWidth(styles)[k] == styles[k])
  {
  }

  /** The padding rule set on the sibling element: it depends on the side of the sidebar. */
  function SiblingRule(p: Position): StyleName
  {
    if p == Left then PaddingLeft else PaddingRight
  }


  /** The class `setupPosition` adds for the side of the sidebar. */
  function SideClass(p: Position): string
  {
    if p == Right then "right-positioned" else "left-positioned"
  }

  const NoneValue: string := "none"
  const HiddenValue: string := "hidden"
  const FoldedClass: string := "folded"

  /** `showSidebar`: the box-shadow and visibility overrides are removed. */
  function Shown(styles: map<StyleName, string>): map<StyleName, string>
  {
    styles - {BoxShadow} - {Visibility}
  }

  /** `hideSidebar` and `setupVisibility`: no box-shadow, hidden. */
  function Hidden(styles: map<StyleName, string>): map<StyleName, string>
  {
    styles[BoxShadow := NoneValue][Visibility := HiddenValue]
  }

  /** Releasing the width undoes pinning it: what is left does not depend on the folded width
      or on whether the width was pinned before. */
  lemma ReleaseUndoesPin(styles: map<StyleName, string>, width: nat)
    ensures WithoutFoldedWidth(WithFoldedWidth(styles, width)) == WithoutFoldedWidth(styles)
    ensures WithFoldedWidth(WithoutFoldedWidth(styles), width) == WithFoldedWidth(styles, width)
  {
  }

  /** Showing undoes hiding, and hiding undoes showing; neither touches the width styles. */
  lemma ShowUndoesHide(styles: map<StyleName, string>)
    ensures Shown(Hidden(styles)) == Shown(styles)
    ensures Hidden(Shown(styles)) == Hidden(styles)
    ensures BoxShadow !in Shown(styles) && Visibility !in Shown(styles)
    ensures Hidden(styles)[BoxShadow] == "none" && Hidden(styles)[Visibility] == "hidden"
    ensures forall k :: k in WidthKeys ==>
              (k in Shown(styles) <==> k in styles) && (k in Hidden(styles) <==> k in styles)
  {
  }

  // ---------------------------------------------------------------------------
  // The component
  // ---------------------------------------------------------------------------

  /**
   * `FuseSidebarComponent`. A `sibling` argument says whether the element next to the sidebar
   * (after it when left-positioned, before it when right-positioned) exists.
   */
  class FuseSidebar {
    // inputs
    var position: Position
    var foldedWidth: nat
    var foldedAutoTriggerOnHover: bool
    var invisibleOverlay: bool
    /** The media query of the `lockedOpen` input; the empty text stands for an unset input. */
    var lockedOpen: string
    // state
    var isOpened: bool
    var folded: bool
    var unfolded: bool
    var isLockedOpen: bool
    var animationsEnabled: bool
    var wasActive: bool
    var wasFolded: bool
    var backdrop: Backdrop
    // renderer
    var hostStyles: map<StyleName, string>
    var hostClasses: set<string>
    var siblingStyles: map<StyleName, string>
    // emitters: every value emitted, oldest first
    var openedChanged: seq<bool>
    var foldedChanged: seq<bool>

    /** The invariant every operation keeps: a locked-open sidebar is opened. `Open` and
        `ToggleOpen` rely on it: the only guard that keeps a closed sidebar closed is being
        locked open, which a closed sidebar never is. */
    predicate Valid()
      reads this
    {
      isLockedOpen ==> isOpened
    }

    /** What the `folded` setter writes to the renderer and the `foldedChanged` emitter: only
        when the sidebar is opened and the sibling exists, and then the width pinned or
        released, the sibling's padding set or removed, the `folded` class added or removed,
        and the new value emitted. */
    twostate predicate SetterRendered(value: bool, sibling: bool)
      reads this
    {
      if !isOpened || !sibling then
        && hostStyles == old(hostStyles) && siblingStyles == old(siblingStyles)
        && hostClasses == old(hostClasses) && foldedChanged == old(foldedChanged)
      else if value then
        && hostStyles == WithFoldedWidth(old(hostStyles), foldedWidth)
        && siblingStyles == old(siblingStyles)[SiblingRule(position) := Px(foldedWidth)]
        && hostClasses == old(hostClasses) + {FoldedClass}
        && foldedChanged == old(foldedChanged) + [true]
      else
        && hostStyles == WithoutFoldedWidth(old(hostStyles))
        && siblingStyles == old(siblingStyles) - {SiblingRule(position)}
        && hostClasses == old(hostClasses) - {FoldedClass}
        && foldedChanged == old(foldedChanged) + [false]
    }

    /** The constructor's defaults; the fields it leaves undefined are falsy. */
    constructor ()
      ensures !isOpened && !folded && !unfolded && !isLockedOpen && !animationsEnabled
      ensures foldedWidth == 64 && position == Left
      ensures foldedAutoTriggerOnHover && !invisibleOverlay && lockedOpen == []
      ensures !wasActive && !wasFolded && backdrop == NoBackdrop
      ensures hostStyles == map[] && hostClasses == {} && siblingStyles == map[]
      ensures openedChanged == [] && foldedChanged == []
      ensures Valid()
    {
      foldedAutoTriggerOnHover := true;
      foldedWidth := 64;
      openedChanged := [];
      foldedChanged := [];
      isOpened := false;
      position := Left;
      invisibleOverlay := false;
      animationsEnabled := false;
      folded := false;
      lockedOpen := [];
      unfolded := false;
      isLockedOpen := false;
      wasActive := false;
      wasFolded := false;
      backdrop := NoBackdrop;
      hostStyles := map[];
      hostClasses := {};
      siblingStyles := map[];
    }

    /** The `folded` setter. The value is always stored; its inner `fold()` / `unfold()` finds
        `folded` already equal to `value` and returns at its guard. */
    method SetFolded(value: bool, sibling: bool)
      requires Valid()
      modifies this`folded, this`animationsEnabled, this`hostStyles, this`siblingStyles,
               this`hostClasses, this`foldedChanged
      decreases 1
      ensures Valid()
      ensures folded == value && animationsEnabled == old(animationsEnabled)
      ensures SetterRendered(value, sibling)
    {
      folded := value;
      if !isOpened {
        return;
      }
      var styleRule := SiblingRule(position);
      var styleValue := Px(foldedWidth);
      if !sibling {
        return;
      }
      if value {
        Fold(sibling);
        hostStyles := hostStyles[Width := styleValue];
        hostStyles := hostStyles[MinWidth := styleValue];
        hostStyles := hostStyles[MaxWidth := styleValue];
        siblingStyles := siblingStyles[styleRule := styleValue];
        hostClasses := hostClasses + {FoldedClass};
      } else {
        Unfold(sibling);
        hostStyles := hostStyles - {Width};
        hostStyles := hostStyles - {MinWidth};
        hostStyles := hostStyles - {MaxWidth};
        siblingStyles := siblingStyles - {styleRule};
        hostClasses := hostClasses - {FoldedClass};
      }
      foldedChanged := foldedChanged + [folded];
    }

    /** `enableAnimations`: idempotent. */
    method EnableAnimations()
      modifies this`animationsEnabled
      ensures animationsEnabled
    {
      if animationsEnabled {
        return;
      }
      animationsEnabled := true;
    }

    method ShowSidebar()
      modifies this`hostStyles
      ensures hostStyles == Shown(old(hostStyles))
    {
      hostStyles := hostStyles - {BoxShadow};
      hostStyles := hostStyles - {Visibility};
    }

    /** `hideSidebar`, with the timer's effect applied at once. */
    method HideSidebar()
      modifies this`hostStyles
      ensures hostStyles == Hidden(old(hostStyles))
    {
      hostStyles := hostStyles[BoxShadow := NoneValue];
      hostStyles := hostStyles[Visibility := HiddenValue];
    }

    /** `showBackdrop`: a new overlay, marked invisible when `invisibleOverlay` is set. */
    method ShowBackdrop()
      modifies this`backdrop
      ensures backdrop == Overlay(invisibleOverlay)
    {
      backdrop := Overlay(invisibleOverlay);
    }

    /** `hideBackdrop`, with the overlay removed at once. */
    method HideBackdrop()
      modifies this`backdrop
      ensures backdrop == NoBackdrop
    {
      if backdrop == NoBackdrop {
        return;
      }
      backdrop := NoBackdrop;
    }

    /** `setupVisibility`. */
    method SetupVisibility()
      modifies this`hostStyles
      ensures hostStyles == Hidden(old(hostStyles))
    {
      hostStyles := hostStyles[BoxShadow := NoneValue];
      hostStyles := hostStyles[Visibility := HiddenValue];
    }

    /** `setupPosition`: the class naming the side. */
    method SetupPosition()
      modifies this`hostClasses
      ensures hostClasses == old(hostClasses) + {SideClass(position)}
    {
      if position == Right {
        hostClasses := hostClasses + {"right-positioned"};
      } else {
        hostClasses := hostClasses + {"left-positioned"};
      }
    }

    /** The part of `setupLockedOpen` that runs before the media subscription: nothing happens
        without a `lockedOpen` query. */
    method SetupLockedOpen()
      modifies this`wasActive, this`wasFolded, this`hostStyles
      ensures |lockedOpen| == 0 ==> unchanged(this)
      ensures |lockedOpen| != 0 ==>
        !wasActive && wasFolded == folded && hostStyles == Shown(old(hostStyles))
    {
      if |lockedOpen| == 0 {
        return;
      }
      wasActive := false;
      wasFolded := folded;
      ShowSidebar();
    }

    /** `setupFolded`: a folded, opened sidebar with a sibling gets the folded rendering, without
        an emission. */
    method SetupFolded(sibling: bool)
      requires Valid()
      modifies this`folded, this`animationsEnabled, this`hostStyles, this`siblingStyles,
               this`hostClasses, this`foldedChanged
      ensures Valid()
      ensures !(folded && isOpened && sibling) ==> unchanged(this)
      ensures folded && isOpened && sibling ==>
        && folded == old(folded) && animationsEnabled == old(animationsEnabled)
        && hostStyles == WithFoldedWidth(old(hostStyles), foldedWidth)
        && siblingStyles == old(siblingStyles)[SiblingRule(position) := Px(foldedWidth)]
        && hostClasses == old(hostClasses) + {FoldedClass}
        && foldedChanged == old(foldedChanged)
    {
      if !folded {
        return;
      }
      if !isOpened {
        return;
      }
      var styleRule := SiblingRule(position);
      var styleValue := Px(foldedWidth);
      if !sibling {
        return;
      }
      Fold(sibling);
      hostStyles := hostStyles[Width := styleValue];
      hostStyles := hostStyles[MinWidth := styleValue];
      hostStyles := hostStyles[MaxWidth := styleValue];
      siblingStyles := siblingStyles[styleRule := styleValue];
      hostClasses := hostClasses + {FoldedClass};
    }

    /** What `ngOnInit` leaves behind: the sidebar hidden, then shown again when a `lockedOpen`
        query is set; the class for its side added; and, when it is folded, opened and has a
        sibling, the folded rendering without an emission. */
    twostate predicate Initialised(sibling: bool)
      reads this
    {
      var visible := if |lockedOpen| != 0 then Shown(Hidden(old(hostStyles)))
                     else Hidden(old(hostStyles));
      var foldedView := folded && isOpened && sibling;
      && folded == old(folded) && animationsEnabled == old(animationsEnabled)
      && foldedChanged == old(foldedChanged)
      && (if |lockedOpen| != 0 then !wasActive && wasFolded == folded
          else wasActive == old(wasActive) && wasFolded == old(wasFolded))
      && hostClasses == old(hostClasses) + {SideClass(position)}
                        + (if foldedView then {FoldedClass} else {})
      && hostStyles == (if foldedView then WithFoldedWidth(visible, foldedWidth) else visible)
      && siblingStyles == (if foldedView
                           then old(siblingStyles)[SiblingRule(position) := Px(foldedWidth)]
                           else old(siblingStyles))
    }

    /** `ngOnInit`, without the config subscription and the service registration. */
    method OnInit(sibling: bool)
      requires Valid()
      modifies this`hostStyles, this`hostClasses, this`wasActive, this`wasFolded, this`folded,
               this`animationsEnabled, this`siblingStyles, this`foldedChanged
      ensures Valid()
      ensures Initialised(sibling)
      ensures BoxShadow !in hostStyles && Visibility !in hostStyles <==> |lockedOpen| != 0
      ensures |lockedOpen| != 0 ==> !wasActive && wasFolded == folded
    {
      ShowUndoesHide(hostStyles);
      SetupVisibility();
      SetupPosition();
      SetupLockedOpen();
      ghost var beforeFolded := hostStyles;
      assert BoxShadow !in beforeFolded && Visibility !in beforeFolded <==> |lockedOpen| != 0;
      SetupFolded(sibling);
      FoldedWidthStyles(beforeFolded, foldedWidth);
    }

    /** The media-change subscription of `setupLockedOpen`; `isActive` is the query's answer.
        A repeated answer changes nothing. */
    method OnMediaChange(isActive: bool, sibling: bool)
      requires Valid()
      modifies this`isLockedOpen, this`isOpened, this`openedChanged, this`animationsEnabled,
               this`folded, this`hostStyles, this`siblingStyles, this`hostClasses,
               this`foldedChanged, this`backdrop, this`wasActive
      ensures Valid()
      ensures wasActive == isActive
      ensures old(wasActive) == isActive ==> unchanged(this)
      ensures old(wasActive) != isActive && isActive ==> Activated(sibling)
      ensures old(wasActive) != isActive && !isActive ==> Deactivated(sibling)
    {
      if wasActive == isActive {
        return;
      }
      if isActive {
        Activate(sibling);
      } else {
        Deactivate(sibling);
      }
      wasActive := isActive;
    }

    /** Activation: locked, opened, emitted, any backdrop removed, and folded again if the
        sidebar was folded at setup. */
    twostate predicate Activated(sibling: bool)
      reads this
    {
      && isLockedOpen && isOpened && openedChanged == old(openedChanged) + [true]
      && backdrop == NoBackdrop
      && folded == (wasFolded || old(folded))
      && animationsEnabled == (wasFolded || old(animationsEnabled))
      && if wasFolded && sibling then
           && hostStyles == WithFoldedWidth(Shown(old(hostStyles)), foldedWidth)
           && siblingStyles == old(siblingStyles)[SiblingRule(position) := Px(foldedWidth)]
           && hostClasses == old(hostClasses) + {FoldedClass}
           && foldedChanged == old(foldedChanged) + [true]
         else
           && hostStyles == Shown(old(hostStyles))
           && siblingStyles == old(siblingStyles) && hostClasses == old(hostClasses)
           && foldedChanged == old(foldedChanged)
    }

    /** Deactivation: unlocked, unfolded, closed, emitted and hidden; the backdrop is left. */
    twostate predicate Deactivated(sibling: bool)
      reads this
    {
      && !isLockedOpen && !isOpened && !folded && openedChanged == old(openedChanged) + [false]
      && backdrop == old(backdrop)
      && animationsEnabled == (old(folded) || old(animationsEnabled))
      && if old(folded) && old(isOpened) && sibling then
           && hostStyles == Hidden(WithoutFoldedWidth(old(hostStyles)))
           && siblingStyles == old(siblingStyles) - {SiblingRule(position)}
           && hostClasses == old(hostClasses) - {FoldedClass}
           && foldedChanged == old(foldedChanged) + [false]
         else
           && hostStyles == Hidden(old(hostStyles))
           && siblingStyles == old(siblingStyles) && hostClasses == old(hostClasses)
           && foldedChanged == old(foldedChanged)
    }

    /** The "activate the lockedOpen" branch of the media-change handler. */
    method Activate(sibling: bool)
      modifies this`isLockedOpen, this`isOpened, this`openedChanged, this`animationsEnabled,
               this`folded, this`hostStyles, this`siblingStyles, this`hostClasses,
               this`foldedChanged, this`backdrop
      ensures Valid()
      ensures Activated(sibling)
    {
      isLockedOpen := true;
      ShowSidebar();
      isOpened := true;
      openedChanged := openedChanged + [isOpened];
      if wasFolded {
        EnableAnimations();
        SetFolded(true, sibling);
      }
      HideBackdrop();
    }

    /** The "de-activate the lockedOpen" branch of the media-change handler. */
    method Deactivate(sibling: bool)
      requires Valid()
      modifies this`isLockedOpen, this`isOpened, this`openedChanged, this`animationsEnabled,
               this`folded, this`hostStyles, this`siblingStyles, this`hostClasses,
               this`foldedChanged, this`backdrop
      ensures Valid()
      ensures Deactivated(sibling)
    {
      isLockedOpen := false;
      Unfold(sibling);
      isOpened := false;
      openedChanged := openedChanged + [isOpened];
      HideSidebar();
    }

    /** `open`: a no-op when opened or locked open. */
    method Open()
      requires Valid()
      modifies this`animationsEnabled, this`hostStyles, this`backdrop, this`isOpened,
               this`openedChanged
      ensures Valid()
      ensures isOpened
      ensures old(isOpened || isLockedOpen) ==> unchanged(this)
      ensures !old(isOpened || isLockedOpen) ==>
        && isOpened && animationsEnabled
        && hostStyles == Shown(old(hostStyles)) && backdrop == Overlay(invisibleOverlay)
        && openedChanged == old(openedChanged) + [true]
    {
      if isOpened || isLockedOpen {
        return;
      }
      EnableAnimations();
      ShowSidebar();
      ShowBackdrop();
      isOpened := true;
      openedChanged := openedChanged + [isOpened];
    }

    /** `close`: a no-op when closed or locked open. */
    method Close()
      requires Valid()
      modifies this`animationsEnabled, this`hostStyles, this`backdrop, this`isOpened,
               this`openedChanged
      ensures Valid()
      ensures !old(isOpened) || old(isLockedOpen) ==> unchanged(this)
      ensures old(isOpened) && !old(isLockedOpen) ==>
        && !isOpened && animationsEnabled
        && hostStyles == Hidden(old(hostStyles)) && backdrop == NoBackdrop
        && openedChanged == old(openedChanged) + [false]
    {
      if !isOpened || isLockedOpen {
        return;
      }
      EnableAnimations();
      HideBackdrop();
      isOpened := false;
      openedChanged := openedChanged + [isOpened];
      HideSidebar();
    }

    /** `toggleOpen`: changes nothing while locked open, negates `opened` otherwise. */
    method ToggleOpen()
      requires Valid()
      modifies this`animationsEnabled, this`hostStyles, this`backdrop, this`isOpened,
               this`openedChanged
      ensures Valid()
      ensures !old(isOpened) ==> isOpened
      ensures isLockedOpen ==> unchanged(this)
      ensures !isLockedOpen ==>
        && isOpened == !old(isOpened) && animationsEnabled
        && openedChanged == old(openedChanged) + [isOpened]
        && hostStyles == (if isOpened then Shown(old(hostStyles)) else Hidden(old(hostStyles)))
        && backdrop == (if isOpened then Overlay(invisibleOverlay) else NoBackdrop)
    {
      if isOpened {
        Close();
      } else {
        Open();
      }
    }

    /** `onMouseEnter`: unfolds temporarily when the hover trigger is on. */
    method OnMouseEnter()
      modifies this`animationsEnabled, this`unfolded, this`hostStyles
      ensures !foldedAutoTriggerOnHover || !folded ==> unchanged(this)
      ensures foldedAutoTriggerOnHover && folded ==>
        animationsEnabled && unfolded && hostStyles == WithoutFoldedWidth(old(hostStyles))
    {
      if !foldedAutoTriggerOnHover {
        return;
      }
      UnfoldTemporarily();
    }

    /** `onMouseLeave`: folds back when the hover trigger is on. */
    method OnMouseLeave()
      modifies this`animationsEnabled, this`unfolded, this`hostStyles
      ensures !foldedAutoTriggerOnHover || !folded ==> unchanged(this)
      ensures foldedAutoTriggerOnHover && folded ==>
        && animationsEnabled && !unfolded
        && hostStyles == WithFoldedWidth(old(hostStyles), foldedWidth)
    {
      if !foldedAutoTriggerOnHover {
        return;
      }
      FoldTemporarily();
    }

    /** `fold`: a no-op on a folded sidebar; otherwise the setter with `true`. */
    method Fold(sibling: bool)
      requires Valid()
      modifies this`folded, this`animationsEnabled, this`hostStyles, this`siblingStyles,
               this`hostClasses, this`foldedChanged
      decreases if folded then 0 else 2
      ensures Valid()
      ensures folded
      ensures old(folded) ==> unchanged(this)
      ensures !old(folded) ==> animationsEnabled && SetterRendered(true, sibling)
    {
      if folded {
        return;
      }
      EnableAnimations();
      SetFolded(true, sibling);
    }

    /** `unfold`: a no-op on an unfolded sidebar; otherwise the setter with `false`. */
    method Unfold(sibling: bool)
      requires Valid()
      modifies this`folded, this`animationsEnabled, this`hostStyles, this`siblingStyles,
               this`hostClasses, this`foldedChanged
      decreases if folded then 2 else 0
      ensures Valid()
      ensures !folded
      ensures !old(folded) ==> unchanged(this)
      ensures old(folded) ==> animationsEnabled && SetterRendered(false, sibling)
    {
      if !folded {
        return;
      }
      EnableAnimations();
      SetFolded(false, sibling);
    }

    /** `toggleFold`: always negates `folded`. */
    method ToggleFold(sibling: bool)
      requires Valid()
      modifies this`folded, this`animationsEnabled, this`hostStyles, this`siblingStyles,
               this`hostClasses, this`foldedChanged
      ensures Valid()
      ensures folded == !old(folded) && animationsEnabled
      ensures SetterRendered(folded, sibling)
    {
      if folded {
        Unfold(sibling);
      } else {
        Fold(sibling);
      }
    }

    /** `foldTemporarily`: acts only on a folded sidebar. */
    method FoldTemporarily()
      modifies this`animationsEnabled, this`unfolded, this`hostStyles
      ensures !folded ==> unchanged(this)
      ensures folded ==>
        && animationsEnabled && !unfolded
        && hostStyles == WithFoldedWidth(old(hostStyles), foldedWidth)
    {
      if !folded {
        return;
      }
      EnableAnimations();
      unfolded := false;
      var styleValue := Px(foldedWidth);
      hostStyles := hostStyles[Width := styleValue];
      hostStyles := hostStyles[MinWidth := styleValue];
      hostStyles := hostStyles[MaxWidth := styleValue];
    }

    /** `unfoldTemporarily`: acts only on a folded sidebar. */
    method UnfoldTemporarily()
      modifies this`animationsEnabled, this`unfolded, this`hostStyles
      ensures !folded ==> unchanged(this)
      ensures folded ==>
        animationsEnabled && unfolded && hostStyles == WithoutFoldedWidth(old(hostStyles))
    {
      if !folded {
        return;
      }
      EnableAnimations();
      unfolded := true;
      hostStyles := hostStyles - {Width};
      hostStyles := hostStyles - {MinWidth};
      hostStyles := hostStyles - {MaxWidth};
    }

    /** `ngOnDestroy`: a folded sidebar is unfolded to revert what folding wrote. */
    method OnDestroy(sibling: bool)
      requires Valid()
      modifies this`folded, this`animationsEnabled, this`hostStyles, this`siblingStyles,
               this`hostClasses, this`foldedChanged
      ensures Valid()
      ensures !folded
      ensures !old(folded) ==> unchanged(this)
      ensures old(folded) ==> animationsEnabled && SetterRendered(false, sibling)
    {
      if folded {
        Unfold(sibling);
      }
    }
  }
}
