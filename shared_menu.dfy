/**
 * The menu shared by the tray and the cat window's context menu: a
 * preferences entry, a show/hide entry, a pass-through check item and two
 * submenus, one of window sizes and one of opacities, each a list of check
 * items with exactly one of them checked.
 *
 * Menu items are modelled by their descriptor fields (text, checked, enabled)
 * and by the action they run; the cat store's window settings are the class
 * `CatWindow`.
 */
module SharedMenu {
  import Text

  datatype MenuAction =
    | NoAction
    | OpenPreference
    | ToggleVisible
    | TogglePassThrough
    | SetScale(scale: int)
    | SetOpacity(opacity: int)

  datatype CheckItem = CheckItem(text: string, checked: bool, enabled: bool, action: MenuAction)

  datatype MenuEntry =
    | Item(text: string, action: MenuAction)
    | Check(item: CheckItem)
    | Separator
    | Submenu(text: string, items: seq<CheckItem>)

  /** `range(start, end, step)`: start, start + step, ... while below end. */
  function Range(start: int, end: int, step: nat): (r: seq<int>)
    requires step > 0
    ensures forall k :: 0 <= k < |r| ==> r[k] == start + k * step && r[k] < end
    ensures |r| == 0 <==> start >= end
    decreases end - start
  {
    if start >= end then [] else [start] + Range(start + step, end, step)
  }

  /** The size options, `range(50, 151, 25)` (see OptionsExact). */
  const SCALE_OPTIONS: seq<int> := [50, 75, 100, 125, 150]
  /** The opacity options, `range(25, 101, 25)`. */
  const OPACITY_OPTIONS: seq<int> := [25, 50, 75, 100]

  // The shared menu's fixed labels
  const PREFERENCES_LABEL: string := "偏好设置..."
  const HIDE_CAT_LABEL: string := "隐藏猫咪"
  const SHOW_CAT_LABEL: string := "显示猫咪"
  const PASS_THROUGH_LABEL: string := "窗口穿透"
  const SCALE_LABEL: string := "窗口尺寸"
  const OPACITY_LABEL: string := "不透明度"

  datatype MenuKind = Scale | Opacity

  function Options(kind: MenuKind): seq<int> {
    match kind
    case Scale => SCALE_OPTIONS
    case Opacity => OPACITY_OPTIONS
  }

  /** A percentage as the menu shows it: the decimal value followed by a percent sign. */
  function PercentLabel(n: int): (r: string)
    ensures |r| >= 2 && r[|r| - 1] == '%'
    ensures r[0] == '-' <==> n < 0
  {
    Text.IntToDecimal(n) + "%"
  }

  /** An option's text: the default size is named, everything else is a percentage. */
  function OptionLabel(kind: MenuKind, n: int): (r: string)
    ensures r == "默认" <==> kind == Scale && n == 100
  {
    if kind == Scale && n == 100 then "默认" else PercentLabel(n)
  }

  function Select(kind: MenuKind, n: int): MenuAction {
    match kind
    case Scale => SetScale(n)
    case Opacity => SetOpacity(n)
  }

  /** `options.map(...)`: one enabled check item per option, checked when it is the current value. */
  function OptionItems(kind: MenuKind, options: seq<int>, current: int): (r: seq<CheckItem>)
    ensures |r| == |options|
    ensures forall k :: 0 <= k < |r| ==>
      r[k] == CheckItem(OptionLabel(kind, options[k]), options[k] == current, true, Select(kind, options[k]))
  {
    if options == [] then []
    else
      [CheckItem(OptionLabel(kind, options[0]), options[0] == current, true, Select(kind, options[0]))]
      + OptionItems(kind, options[1..], current)
  }

  /** The checked, disabled entry standing for a current value that is not an option. */
  function CustomItem(current: int): (r: CheckItem)
    ensures r.checked && !r.enabled && r.action == NoAction
    ensures |r.text| >= 2 && r.text[|r.text| - 1] == '%' && r.text != "默认"
  {
    CheckItem(PercentLabel(current), true, false, NoAction)
  }

  /** `getScaleMenuItems` / `getOpacityMenuItems`. */
  function MenuItems(kind: MenuKind, current: int): (r: seq<CheckItem>)
    ensures forall k :: 0 <= k < |r| ==> (r[k].enabled <==> r[k].action != NoAction)
  {
    var items := OptionItems(kind, Options(kind), current);
    if current in Options(kind) then items else [CustomItem(current)] + items
  }

  function CountChecked(items: seq<CheckItem>): nat {
    if items == [] then 0 else (if items[0].checked then 1 else 0) + CountChecked(items[1..])
  }

  predicate Distinct(xs: seq<int>) {
    forall i, j :: 0 <= i < j < |xs| ==> xs[i] != xs[j]
  }

  // ---------------------------------------------------------------------------
  // Properties

  /** The size options are 50 to 150 by 25, the opacity options 25 to 100 by 25. */
  lemma OptionsExact()
    ensures Range(50, 151, 25) == SCALE_OPTIONS
    ensures Range(25, 101, 25) == OPACITY_OPTIONS
  {
    assert |Range(175, 151, 25)| == 0;
    assert |Range(125, 101, 25)| == 0;
  }

  /** Over distinct options, the current value is checked once if it is an option and never otherwise. */
  lemma {:induction false} CountOptionItems(kind: MenuKind, options: seq<int>, current: int)
    requires Distinct(options)
    ensures CountChecked(OptionItems(kind, options, current)) == if current in options then 1 else 0
  {
    if options != [] {
      var items := OptionItems(kind, options, current);
      assert items[1..] == OptionItems(kind, options[1..], current);
      CountOptionItems(kind, options[1..], current);
      if options[0] == current {
        assert current !in options[1..] by {
          forall j | 0 <= j < |options[1..]| ensures options[1..][j] != current {
            assert options[1 + j] != options[0];
          }
        }
      } else {
        assert current in options <==> current in options[1..] by {
          assert options == [options[0]] + options[1..];
        }
      }
    }
  }

  /** Each submenu has exactly one checked item. */
  lemma ExactlyOneChecked(kind: MenuKind, current: int)
    ensures CountChecked(MenuItems(kind, current)) == 1
  {
    OptionsDistinct(kind);
    CountOptionItems(kind, Options(kind), current);
    var items := OptionItems(kind, Options(kind), current);
    if current !in Options(kind) {
      assert ([CustomItem(current)] + items)[1..] == items;
    }
  }

  /** Five or six size entries, four or five opacity entries; the extra one only for a value that is not an option. */
  lemma MenuLength(kind: MenuKind, current: int)
    ensures |MenuItems(kind, current)| == |Options(kind)| + (if current in Options(kind) then 0 else 1)
    ensures kind == Scale ==> |MenuItems(kind, current)| in {5, 6}
    ensures kind == Opacity ==> |MenuItems(kind, current)| in {4, 5}
  {
    OptionsExact();
  }

  /** A value that is not an option heads the list as a checked, disabled percentage entry. */
  lemma CustomValueShown(kind: MenuKind, current: int)
    requires current !in Options(kind)
    ensures var items := MenuItems(kind, current);
      items[0].text == PercentLabel(current) && items[0].checked && !items[0].enabled
  {
  }

  /** Once an option is the current value, the rebuilt submenu checks that option's entry and no other. */
  lemma SelectedOptionChecked(kind: MenuKind, k: int)
    requires 0 <= k < |Options(kind)|
    ensures var n := Options(kind)[k]; var items := MenuItems(kind, n);
      |items| == |Options(kind)| &&
      items[k] == CheckItem(OptionLabel(kind, n), true, true, Select(kind, n)) &&
      forall j :: 0 <= j < |items| ==> (items[j].checked <==> j == k)
  {
    var options := Options(kind);
    OptionsDistinct(kind);
    var n := options[k];
    assert n in options;
    CheckedAtOption(kind, options, k);
  }

  lemma OptionsDistinct(kind: MenuKind)
    ensures Distinct(Options(kind))
  {
  }

  lemma CheckedAtOption(kind: MenuKind, options: seq<int>, k: int)
    requires Distinct(options) && 0 <= k < |options|
    ensures var items := OptionItems(kind, options, options[k]);
      forall j :: 0 <= j < |items| ==> (items[j].checked <==> j == k)
  {
  }

  // ---------------------------------------------------------------------------
  // The window settings and the menu's actions

  class CatWindow {
    var visible: bool
    var passThrough: bool
    var scale: int
    var opacity: int

    constructor(visible: bool, passThrough: bool, scale: int, opacity: int)
      ensures this.visible == visible && this.passThrough == passThrough
      ensures this.scale == scale && this.opacity == opacity
    {
      this.visible := visible;
      this.passThrough := passThrough;
      this.scale := scale;
      this.opacity := opacity;
    }

    /** `getScaleMenuItems`: the option entries, with the custom entry put in front when needed. */
    method GetScaleMenuItems() returns (items: seq<CheckItem>)
      ensures items == MenuItems(Scale, scale)
      ensures CountChecked(items) == 1
    {
      var options := Range(50, 151, 25);
      OptionsExact();
      items := OptionItems(Scale, options, scale);
      if scale !in options {
        items := [CheckItem(PercentLabel(scale), true, false, NoAction)] + items;
      }
      ExactlyOneChecked(Scale, scale);
    }

    /** `getOpacityMenuItems`. */
    method GetOpacityMenuItems() returns (items: seq<CheckItem>)
      ensures items == MenuItems(Opacity, opacity)
      ensures CountChecked(items) == 1
    {
      var options := Range(25, 101, 25);
      OptionsExact();
      items := OptionItems(Opacity, options, opacity);
      if opacity !in options {
        items := [CheckItem(PercentLabel(opacity), true, false, NoAction)] + items;
      }
      ExactlyOneChecked(Opacity, opacity);
    }

    /** `getSharedMenu`. */
    method GetSharedMenu() returns (menu: seq<MenuEntry>)
      ensures menu == [
        Item(PREFERENCES_LABEL, OpenPreference),
        Item(if visible then HIDE_CAT_LABEL else SHOW_CAT_LABEL, ToggleVisible),
        Separator,
        Check(CheckItem(PASS_THROUGH_LABEL, passThrough, true, TogglePassThrough)),
        Submenu(SCALE_LABEL, MenuItems(Scale, scale)),
        Submenu(OPACITY_LABEL, MenuItems(Opacity, opacity))
      ]
    {
      var scaleItems := GetScaleMenuItems();
      var opacityItems := GetOpacityMenuItems();
      var toggleLabel := if visible then HIDE_CAT_LABEL else SHOW_CAT_LABEL;
      menu := [
        Item(PREFERENCES_LABEL, OpenPreference),
        Item(toggleLabel, ToggleVisible),
        Separator,
        Check(CheckItem(PASS_THROUGH_LABEL, passThrough, true, TogglePassThrough)),
        Submenu(SCALE_LABEL, scaleItems),
        Submenu(OPACITY_LABEL, opacityItems)
      ];
    }

    /** Running an entry's action: the toggles negate their flag, the options set their value. */
    method Perform(action: MenuAction)
      modifies this
      ensures visible == (if action == ToggleVisible then !old(visible) else old(visible))
      ensures passThrough == (if action == TogglePassThrough then !old(passThrough) else old(passThrough))
      ensures scale == (if action.SetScale? then action.scale else old(scale))
      ensures opacity == (if action.SetOpacity? then action.opacity else old(opacity))
    {
      match action
      case ToggleVisible => visible := !visible;
      case TogglePassThrough => passThrough := !passThrough;
      case SetScale(n) => scale := n;
      case SetOpacity(n) => opacity := n;
      case OpenPreference =>
      case NoAction =>
    }
  }

  /** Example: choosing "hide" hides the cat, and the rebuilt menu then offers "show". */
  method HideThenShowLabel(scale: int, opacity: int) {
    var w := new CatWindow(true, false, scale, opacity);
    var menu := w.GetSharedMenu();
    assert menu[1] == Item(HIDE_CAT_LABEL, ToggleVisible);
    w.Perform(menu[1].action);
    menu := w.GetSharedMenu();
    assert !w.visible && menu[1] == Item(SHOW_CAT_LABEL, ToggleVisible);
  }
}
