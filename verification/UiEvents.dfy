/** The words of the remote control and what the match machine reads in them. */
module UiEvents {
  import opened Fencing
  import opened BoutClock

  const EVENT_UI_INPUT := 0x0600_0000
  const DATA := 0x0100_0000

  const UI_INPUT_START_TIMER := 0x01
  const UI_INPUT_STOP_TIMER := 0x02
  const UI_INPUT_RESET := 0x03
  const UI_INPUT_INCR_SCORE_LEFT := 0x05
  const UI_INPUT_DECR_SCORE_LEFT := 0x06
  const UI_INPUT_INCR_SCORE_RIGHT := 0x07
  const UI_INPUT_DECR_SCORE_RIGHT := 0x08
  const UI_INPUT_ROUND := 0x0a
  const UI_INPUT_PRIO := 0x10
  const UI_INPUT_TOGGLE_TIMER := 0x11
  const UI_INPUT_CYCLE_WEAPON := 0x12
  const UI_INPUT_YELLOW_CARD_LEFT := 0x13
  const UI_INPUT_YELLOW_CARD_LEFT_DECR := 0xff13
  const UI_INPUT_YELLOW_CARD_RIGHT := 0x14
  const UI_INPUT_YELLOW_CARD_RIGHT_DECR := 0xff14
  const UI_INPUT_RED_CARD_LEFT := 0x15
  const UI_INPUT_RED_CARD_LEFT_DECR := 0xff15
  const UI_INPUT_RED_CARD_RIGHT := 0x16
  const UI_INPUT_RED_CARD_RIGHT_DECR := 0xff16
  const UI_INPUT_P_CARD := 0x17
  const UI_INPUT_P_CARD_UNDO := 0xff17
  const UI_INPUT_BUZZ := 0x18
  const UI_INPUT_RESTORE_UW2F_TIMER := 0x19
  const UI_SWAP_FENCERS := 0x1a
  const UI_RESERVE_LEFT := 0x1b
  const UI_RESERVE_RIGHT := 0x1c
  const UI_NEXT_PERIOD := 0x21
  const UI_SET_MINUTES := 0x40
  const UI_SET_SECONDS := 0x41
  const UI_SET_HUNDREDS := 0x42
  const UI_INPUT_BLACK_CARD_RIGHT := 0x50
  const UI_INPUT_BLACK_CARD_RIGHT_DECR := 0xff50
  const UI_INPUT_BLACK_CARD_LEFT := 0x51
  const UI_INPUT_BLACK_CARD_LEFT_DECR := 0xff51
  const UI_INPUT_BLACK_PCARD_RIGHT := 0x52
  const UI_INPUT_BLACK_PCARD_RIGHT_DECR := 0xff52
  const UI_INPUT_BLACK_PCARD_LEFT := 0x53
  const UI_INPUT_BLACK_PCARD_LEFT_DECR := 0xff53
  const UI_INPUT_CYRANO_NEXT := 0x101
  const UI_INPUT_CYRANO_PREV := 0x102
  const UI_INPUT_CYRANO_BEGIN := 0x103
  const UI_INPUT_CYRANO_END := 0x104

  /** What a key asks one fencer's column to do. */
  datatype Key = IncrScore | DecrScore | Yellow | YellowUndo | RedCard | RedCardUndo
               | Black | BlackUndo | BlackPCard | BlackPCardUndo

  datatype Ui = SetMinutes(v: Byte) | SetSeconds(v: Byte) | SetHundredths(v: Byte)
              | StartClock | StopClock | ToggleClock | ResetMatch | NextPeriod | Round | Prio
              | SideKey(side: Side, key: Key)
              | PCard | PCardUndo | RestorePassivity | CycleWeapon | NoAction

  /** What the lower 24 bits of a UI event ask for. */
  function UiOf(data: nat): Ui {
    var v: Byte := data / 0x100 % 0x100;
    if data % 0x100 == UI_SET_MINUTES then SetMinutes(v)
    else if data % 0x100 == UI_SET_SECONDS then SetSeconds(v)
    else if data % 0x100 == UI_SET_HUNDREDS then SetHundredths(v)
    else if data == UI_INPUT_START_TIMER then StartClock
    else if data == UI_INPUT_STOP_TIMER then StopClock
    else if data == UI_INPUT_RESET then ResetMatch
    else if data == UI_INPUT_INCR_SCORE_LEFT then SideKey(Left, IncrScore)
    else if data == UI_INPUT_DECR_SCORE_LEFT then SideKey(Left, DecrScore)
    else if data == UI_INPUT_INCR_SCORE_RIGHT then SideKey(Right, IncrScore)
    else if data == UI_INPUT_DECR_SCORE_RIGHT then SideKey(Right, DecrScore)
    else if data == UI_INPUT_ROUND then Round
    else if data == UI_INPUT_PRIO then Prio
    else if data == UI_INPUT_TOGGLE_TIMER then ToggleClock
    else if data == UI_INPUT_CYCLE_WEAPON then CycleWeapon
    else if data == UI_INPUT_YELLOW_CARD_LEFT then SideKey(Left, Yellow)
    else if data == UI_INPUT_YELLOW_CARD_LEFT_DECR then SideKey(Left, YellowUndo)
    else if data == UI_INPUT_YELLOW_CARD_RIGHT then SideKey(Right, Yellow)
    else if data == UI_INPUT_YELLOW_CARD_RIGHT_DECR then SideKey(Right, YellowUndo)
    else if data == UI_INPUT_RED_CARD_LEFT then SideKey(Left, RedCard)
    else if data == UI_INPUT_RED_CARD_LEFT_DECR then SideKey(Left, RedCardUndo)
    else if data == UI_INPUT_RED_CARD_RIGHT then SideKey(Right, RedCard)
    else if data == UI_INPUT_RED_CARD_RIGHT_DECR then SideKey(Right, RedCardUndo)
    else if data == UI_INPUT_P_CARD then PCard
    else if data == UI_INPUT_P_CARD_UNDO then PCardUndo
    else if data == UI_INPUT_RESTORE_UW2F_TIMER then RestorePassivity
    else if data == UI_NEXT_PERIOD then NextPeriod
    else if data == UI_INPUT_BLACK_CARD_RIGHT then SideKey(Right, Black)
    else if data == UI_INPUT_BLACK_CARD_RIGHT_DECR then SideKey(Right, BlackUndo)
    else if data == UI_INPUT_BLACK_CARD_LEFT then SideKey(Left, Black)
    else if data == UI_INPUT_BLACK_CARD_LEFT_DECR then SideKey(Left, BlackUndo)
    else if data == UI_INPUT_BLACK_PCARD_RIGHT then SideKey(Right, BlackPCard)
    else if data == UI_INPUT_BLACK_PCARD_RIGHT_DECR then SideKey(Right, BlackPCardUndo)
    else if data == UI_INPUT_BLACK_PCARD_LEFT then SideKey(Left, BlackPCard)
    else if data == UI_INPUT_BLACK_PCARD_LEFT_DECR then SideKey(Left, BlackPCardUndo)
    else NoAction
  }
}
