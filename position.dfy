/** The position effect's key tables: the nine numpad digit keys and the
    ten number-row keys, each in slot order for positions 1, 2, .... */
module Position {
  import opened Primitives
  import Config
  import Frame

  /** The keys the tables name. */
  datatype Key =
    | Numpad1 | Numpad2 | Numpad3 | Numpad4 | Numpad5 | Numpad6 | Numpad7 | Numpad8 | Numpad9
    | Row1 | Row2 | Row3 | Row4 | Row5 | Row6 | Row7 | Row8 | Row9 | Row0
  {
    predicate IsNumpad() { this in {Numpad1, Numpad2, Numpad3, Numpad4, Numpad5, Numpad6, Numpad7, Numpad8, Numpad9} }

    /** The digit printed on the key. */
    function Digit(): (n: nat)
      ensures n < 10
      ensures IsNumpad() ==> 1 <= n
    {
      match this
      case Numpad1 => 1 case Numpad2 => 2 case Numpad3 => 3
      case Numpad4 => 4 case Numpad5 => 5 case Numpad6 => 6
      case Numpad7 => 7 case Numpad8 => 8 case Numpad9 => 9
      case Row1 => 1 case Row2 => 2 case Row3 => 3
      case Row4 => 4 case Row5 => 5 case Row6 => 6
      case Row7 => 7 case Row8 => 8 case Row9 => 9
      case Row0 => 0
    }

    /** The key's cell on the keyboard grid: the high byte of its Razer key
        code is the row and the low byte the column. */
    function GridCell(): Frame.Cell
    {
      match this
      case Numpad7 => Frame.Cell(2, 0x12) case Numpad8 => Frame.Cell(2, 0x13) case Numpad9 => Frame.Cell(2, 0x14)
      case Numpad4 => Frame.Cell(3, 0x12) case Numpad5 => Frame.Cell(3, 0x13) case Numpad6 => Frame.Cell(3, 0x14)
      case Numpad1 => Frame.Cell(4, 0x12) case Numpad2 => Frame.Cell(4, 0x13) case Numpad3 => Frame.Cell(4, 0x14)
      case Row1 => Frame.Cell(1, 0x02) case Row2 => Frame.Cell(1, 0x03) case Row3 => Frame.Cell(1, 0x04)
      case Row4 => Frame.Cell(1, 0x05) case Row5 => Frame.Cell(1, 0x06) case Row6 => Frame.Cell(1, 0x07)
      case Row7 => Frame.Cell(1, 0x08) case Row8 => Frame.Cell(1, 0x09) case Row9 => Frame.Cell(1, 0x0A)
      case Row0 => Frame.Cell(1, 0x0B)
    }
  }

  const NUMPAD: seq<Key> :=
    [Numpad1, Numpad2, Numpad3, Numpad4, Numpad5, Numpad6, Numpad7, Numpad8, Numpad9]

  const NUMROW: seq<Key> :=
    [Row1, Row2, Row3, Row4, Row5, Row6, Row7, Row8, Row9, Row0]

  datatype PositionEffect = PositionEffect(numkeys: seq<Key>)

  /** `PositionEffect::new`: pick the table the selector names. */
  function NewPosition(config: Config.PositionEffectData): PositionEffect
  {
    match config.numkeys
    case Pad => PositionEffect(NUMPAD)
    case Row => PositionEffect(NUMROW)
  }

  /** Slot i of the numpad table is the numpad key for i + 1. */
  lemma NumpadSlots()
    ensures |NUMPAD| == 9
    ensures forall i :: 0 <= i < 9 ==> NUMPAD[i].IsNumpad() && NUMPAD[i].Digit() == i + 1
  {
  }

  /** Slot i of the number-row table is the row key for i + 1, and the last
      slot, position ten, is the 0 key. */
  lemma NumrowSlots()
    ensures |NUMROW| == 10
    ensures forall i :: 0 <= i < 9 ==> !NUMROW[i].IsNumpad() && NUMROW[i].Digit() == i + 1
    ensures NUMROW[9] == Row0
  {
  }

  /** Whatever the selector, slot i shows the digit (i + 1) mod 10, the
      table is of the selected kind and no key is repeated. Every call
      succeeds. */
  lemma NewPositionSlots(config: Config.PositionEffectData)
    ensures var keys := NewPosition(config).numkeys;
      |keys| == (if config.numkeys == Config.Pad then 9 else 10)
      && (forall i :: 0 <= i < |keys| ==> keys[i].Digit() == (i + 1) % 10)
      && (forall i :: 0 <= i < |keys| ==> (keys[i].IsNumpad() <==> config.numkeys == Config.Pad))
      && (forall i, j :: 0 <= i < j < |keys| ==> keys[i] != keys[j])
  {
    var keys := NewPosition(config).numkeys;
    if config.numkeys == Config.Pad {
      NumpadSlots();
    } else {
      NumrowSlots();
    }
    forall i, j | 0 <= i < j < |keys|
      ensures keys[i] != keys[j]
    {
      assert keys[i].Digit() == (i + 1) % 10 && keys[j].Digit() == (j + 1) % 10;
    }
  }

  /** Every table key has a cell on the keyboard grid, and distinct keys
      have distinct cells. */
  lemma GridCellsOnKeyboard(k: Key, k': Key)
    ensures k.GridCell().row < Frame.MAX_ROW && k.GridCell().column < Frame.MAX_COLUMN
    ensures k != k' ==> k.GridCell() != k'.GridCell()
  {
  }
}
