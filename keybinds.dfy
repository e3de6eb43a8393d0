// User-configurable keyboard shortcuts of the validation view (src/keybinds.rs).
module KeyBinds {
  import opened Wrappers

  datatype Action =
    | ToggleDebug | NextCycle | PreviousCycle | ZoomToMeasurement | ResetCycle
    | SearchLag | SearchLagPrevious | IncrementLag | DecrementLag
    | IncrementDeadband | DecrementDeadband
    | IncrementCH4Deadband | DecrementCH4Deadband | IncrementCO2Deadband | DecrementCO2Deadband
    | IncrementH2ODeadband | DecrementH2ODeadband | IncrementN2ODeadband | DecrementN2ODeadband
    | ToggleValidity | ToggleCH4Validity | ToggleCO2Validity | ToggleH2OValidity | ToggleN2OValidity
    | ToggleBad | ToggleShowValids | ToggleShowInvalids | ToggleShowBad | ToggleShowSettings
    | ToggleShowLinear | ToggleShowRobLinear | ToggleShowPoly | ToggleShowResiduals
    | ToggleShowStandResiduals | ToggleShowDetails | ToggleShowLegend | TogglePlotWidthsWindow

  /** `Display` of an action: a capitalised phrase of at least ten characters. */
  function ActionLabel(a: Action): (r: string)
    ensures |r| >= 10 && 'A' <= r[0] <= 'Z'
  {
    match a
    case ToggleDebug => "Toggle Debug"
    case NextCycle => "Next Cycle"
    case PreviousCycle => "Previous Cycle"
    case ZoomToMeasurement => "Zoom To Measurement"
    case ResetCycle => "Reset Cycle"
    case SearchLag => "Search Lag"
    case SearchLagPrevious => "Search Lag From Previous"
    case IncrementLag => "Increment Lag"
    case DecrementLag => "Decrement Lag"
    case IncrementDeadband => "Increment Deadband"
    case DecrementDeadband => "Decrement Deadband"
    case IncrementCH4Deadband => "Increment CH4 Deadband"
    case DecrementCH4Deadband => "Decrement CH4 Deadband"
    case IncrementCO2Deadband => "Increment CO2 Deadband"
    case DecrementCO2Deadband => "Decrement CO2 Deadband"
    case IncrementH2ODeadband => "Increment H2O Deadband"
    case DecrementH2ODeadband => "Decrement H2O Deadband"
    case IncrementN2ODeadband => "Increment N2O Deadband"
    case DecrementN2ODeadband => "Decrement N2O Deadband"
    case ToggleValidity => "Toggle validity"
    case ToggleCH4Validity => "Toggle CH4 validity"
    case ToggleCO2Validity => "Toggle CO2 validity"
    case ToggleH2OValidity => "Toggle H2O validity"
    case ToggleN2OValidity => "Toggle N2O validity"
    case ToggleBad => "Toggle bad measurement"
    case ToggleShowValids => "Toggle Hide Valids"
    case ToggleShowInvalids => "Toggle Hide Invalids"
    case ToggleShowBad => "Toggle Show Bad"
    case ToggleShowSettings => "Toggle settings panel"
    case ToggleShowLinear => "Toggle Linear model"
    case ToggleShowRobLinear => "Toggle robust linear model"
    case ToggleShowPoly => "Toggle Poly model"
    case ToggleShowStandResiduals => "Toggle standardized residuals plots"
    case ToggleShowResiduals => "Toggle residuals bar plots"
    case ToggleShowDetails => "Toggle cycle details window"
    case ToggleShowLegend => "Toggle legend window"
    case TogglePlotWidthsWindow => "Toggle plot size adjustment window"
  }

  /**
   * The keys of the GUI toolkit. The ones the default bindings use are named;
   * every other key is `OtherKey`, carrying the name its `Debug` prints.
   */
  datatype Key =
    | ArrowRight | ArrowLeft | ArrowUp | ArrowDown
    | Z | R | S | L | I | B | Q | W | E | F1 | F2 | F3 | F4
    | OtherKey(debugName: string)

  /** `format!("{:?}", key)`: a named key prints its variant's name. */
  function KeyName(k: Key): (r: string)
    ensures k.OtherKey? ==> r == k.debugName
    ensures !k.OtherKey? ==> 1 <= |r| <= 10
  {
    match k
    case ArrowRight => "ArrowRight"
    case ArrowLeft => "ArrowLeft"
    case ArrowUp => "ArrowUp"
    case ArrowDown => "ArrowDown"
    case Z => "Z"
    case R => "R"
    case S => "S"
    case L => "L"
    case I => "I"
    case B => "B"
    case Q => "Q"
    case W => "W"
    case E => "E"
    case F1 => "F1"
    case F2 => "F2"
    case F3 => "F3"
    case F4 => "F4"
    case OtherKey(name) => name
  }

  datatype KeyBind = KeyBind(key: Key, ctrl: bool, shift: bool, alt: bool)

  function NoMods(k: Key): KeyBind
  {
    KeyBind(k, false, false, false)
  }

  /** `parts.join(sep)`. */
  function Join(parts: seq<string>, sep: string): string
  {
    if parts == [] then ""
    else if |parts| == 1 then parts[0]
    else parts[0] + sep + Join(parts[1..], sep)
  }

  /** The label a key binding displays: each set modifier followed by '+', then the key. */
  function BindLabel(kb: KeyBind): (r: string)
    ensures |r| == (if kb.ctrl then 5 else 0) + (if kb.shift then 6 else 0) + (if kb.alt then 4 else 0) + |KeyName(kb.key)|
    ensures r[|r| - |KeyName(kb.key)|..] == KeyName(kb.key)
    ensures kb.ctrl ==> r[..5] == "Ctrl+"
  {
    (if kb.ctrl then "Ctrl+" else "") +
    (if kb.shift then "Shift+" else "") +
    (if kb.alt then "Alt+" else "") +
    KeyName(kb.key)
  }

  /** `Display for KeyBind`: collect the parts in order Ctrl, Shift, Alt, key; join with '+'. */
  method Display(kb: KeyBind) returns (shown: string)
    ensures shown == BindLabel(kb)
  {
    var parts: seq<string> := [];
    if kb.ctrl {
      PrefixedSnoc(parts, "Ctrl");
      parts := parts + ["Ctrl"];
    }
    assert Prefixed(parts) == if kb.ctrl then "Ctrl+" else "";
    if kb.shift {
      PrefixedSnoc(parts, "Shift");
      parts := parts + ["Shift"];
    }
    assert Prefixed(parts) == (if kb.ctrl then "Ctrl+" else "") + (if kb.shift then "Shift+" else "");
    if kb.alt {
      PrefixedSnoc(parts, "Alt");
      parts := parts + ["Alt"];
    }
    var mods := parts;
    JoinPlus(mods, KeyName(kb.key));
    parts := parts + [KeyName(kb.key)];
    shown := Join(parts, "+");
  }

  /** Joining `mods + [last]` puts a '+' after every modifier. */
  lemma {:induction false} JoinPlus(mods: seq<string>, last: string)
    ensures Join(mods + [last], "+") == Prefixed(mods) + last
  {
    if mods != [] {
      JoinPlus(mods[1..], last);
      assert (mods + [last])[1..] == mods[1..] + [last];
    }
  }

  function Prefixed(mods: seq<string>): string
  {
    if mods == [] then "" else mods[0] + "+" + Prefixed(mods[1..])
  }

  lemma {:induction false} PrefixedSnoc(mods: seq<string>, x: string)
    ensures Prefixed(mods + [x]) == Prefixed(mods) + x + "+"
  {
    if mods != [] {
      PrefixedSnoc(mods[1..], x);
      assert (mods + [x])[1..] == mods[1..] + [x];
    } else {
      assert mods + [x] == [x];
    }
  }

  /** The default table; the later insert for SearchLag replaces the plain L binding. */
  function DefaultBindings(): map<Action, KeyBind>
  {
    map[NextCycle := NoMods(ArrowRight)]
      [PreviousCycle := NoMods(ArrowLeft)]
      [ZoomToMeasurement := NoMods(Z)]
      [ResetCycle := NoMods(R)]
      [SearchLagPrevious := NoMods(S)]
      [SearchLag := NoMods(L)]
      [IncrementLag := NoMods(ArrowUp)]
      [DecrementLag := NoMods(ArrowDown)]
      [ToggleValidity := NoMods(I)]
      [ToggleBad := NoMods(B)]
      [ToggleShowValids := NoMods(Q)]
      [ToggleShowInvalids := NoMods(W)]
      [ToggleShowBad := NoMods(E)]
      [ToggleShowSettings := NoMods(F1)]
      [ToggleShowLegend := NoMods(F2)]
      [ToggleShowDetails := NoMods(F3)]
      [TogglePlotWidthsWindow := NoMods(F4)]
      [SearchLag := KeyBind(L, true, false, false)]
  }

  /** No key binding is shared by two actions. */
  ghost predicate Injective(m: map<Action, KeyBind>)
  {
    forall a, b :: a in m && b in m && a != b ==> m[a] != m[b]
  }

  /** The map without the entries bound to `kb` (`retain(|_, k| k != kb)`). */
  function Unbound(m: map<Action, KeyBind>, kb: KeyBind): (r: map<Action, KeyBind>)
    ensures forall a :: a in r <==> a in m && m[a] != kb
    ensures forall a :: a in r ==> r[a] == m[a]
  {
    map a | a in m && m[a] != kb :: m[a]
  }

  class KeyBindings {
    var bindings: map<Action, KeyBind>

    /** `KeyBindings::default()`. */
    constructor ()
      ensures bindings == DefaultBindings()
      ensures bindings[SearchLag] == KeyBind(L, true, false, false)
    {
      bindings := DefaultBindings();
    }

    /** `key_for`. */
    function KeyFor(action: Action): (r: Option<KeyBind>)
      reads this
      ensures r.Some? <==> action in bindings
      ensures r.Some? ==> r.value == bindings[action]
    {
      if action in bindings then Some(bindings[action]) else None
    }

    /** `set`: drop every action bound to `newBind`, then bind `action` to it. */
    method Set(action: Action, newBind: KeyBind)
      modifies this
      ensures bindings == Unbound(old(bindings), newBind)[action := newBind]
      ensures KeyFor(action) == Some(newBind)
      ensures forall a :: a != action ==> KeyFor(a) != Some(newBind)
      ensures forall a :: a != action && a in old(bindings) && old(bindings)[a] != newBind ==>
        KeyFor(a) == Some(old(bindings)[a])
      ensures forall a :: a != action && a !in old(bindings) ==> KeyFor(a) == None
    {
      bindings := Unbound(bindings, newBind);
      bindings := bindings[action := newBind];
    }

    /** `remove`. */
    method Remove(action: Action)
      modifies this
      ensures bindings == old(bindings) - {action}
      ensures KeyFor(action) == None
      ensures forall a :: a != action ==> KeyFor(a) == old(KeyFor(a))
    {
      bindings := bindings - {action};
    }
  }

  /** `set` keeps a table free of shared bindings. */
  lemma {:induction false} SetKeepsInjective(m: map<Action, KeyBind>, action: Action, newBind: KeyBind)
    requires Injective(m)
    ensures Injective(Unbound(m, newBind)[action := newBind])
  {
  }
}
