// The editor options' button-row handlers, replaced so that the rows can
// leave the game's own limits (src/features/ButtonRowsBypass.cpp).
module ButtonRows {
  import opened Wrappers

  const MIN_BUTTON_ROWS: int := 2
  const MAX_BUTTON_ROWS: int := 24
  const MIN_BUTTONS_PER_ROW: int := 6
  const MAX_BUTTONS_PER_ROW: int := 128

  /** The step the sender's tag selects: +1 for a non-zero tag, -1 for tag 0. */
  function Step(senderTag: int): (d: int)
    ensures d == 1 || d == -1
    ensures d == 1 <==> senderTag != 0
  {
    if senderTag != 0 then 1 else -1
  }

  /** New row count after a click: the old count moved one step and clamped to [2, 24]. */
  function NextButtonRows(rows: int, senderTag: int): (r: int)
    ensures MIN_BUTTON_ROWS <= r <= MAX_BUTTON_ROWS
    ensures MIN_BUTTON_ROWS <= rows + Step(senderTag) <= MAX_BUTTON_ROWS ==> r == rows + Step(senderTag)
  {
    Clamp(rows + Step(senderTag), MIN_BUTTON_ROWS, MAX_BUTTON_ROWS)
  }

  /** New per-row count after a click: the old count moved one step and clamped to [6, 128]. */
  function NextButtonsPerRow(perRow: int, senderTag: int): (r: int)
    ensures MIN_BUTTONS_PER_ROW <= r <= MAX_BUTTONS_PER_ROW
    ensures MIN_BUTTONS_PER_ROW <= perRow + Step(senderTag) <= MAX_BUTTONS_PER_ROW ==> r == perRow + Step(senderTag)
  {
    Clamp(perRow + Step(senderTag), MIN_BUTTONS_PER_ROW, MAX_BUTTONS_PER_ROW)
  }

  /** Inside the bounds an increase followed by a decrease returns to the old value, and the reverse. */
  lemma ButtonRowsStepInverse(rows: int)
    requires MIN_BUTTON_ROWS <= rows <= MAX_BUTTON_ROWS
    ensures rows < MAX_BUTTON_ROWS ==> NextButtonRows(NextButtonRows(rows, 1), 0) == rows
    ensures rows > MIN_BUTTON_ROWS ==> NextButtonRows(NextButtonRows(rows, 0), 1) == rows
  {
  }

  /** At a bound, a further click in that direction changes nothing. */
  lemma ButtonRowsSaturate(rows: int)
    ensures NextButtonRows(MAX_BUTTON_ROWS, 1) == MAX_BUTTON_ROWS
    ensures NextButtonRows(MIN_BUTTON_ROWS, 0) == MIN_BUTTON_ROWS
    ensures NextButtonsPerRow(MAX_BUTTONS_PER_ROW, 1) == MAX_BUTTONS_PER_ROW
    ensures NextButtonsPerRow(MIN_BUTTONS_PER_ROW, 0) == MIN_BUTTONS_PER_ROW
  {
  }

  /**
   * The editor options layer's fields these handlers touch. `baseHandlerCalls`
   * counts calls into the game's own handlers; the `if (0)` guards
   * mean the replacements never make one, so no method here changes it.
   */
  class EditorOptionsLayer {
    var buttonRows: int
    var buttonsPerRow: int
    var buttonRowsLabel: string
    var buttonsPerRowLabel: string
    var baseHandlerCalls: nat

    constructor (rows: int, perRow: int)
      ensures buttonRows == rows && buttonsPerRow == perRow
      ensures baseHandlerCalls == 0
    {
      buttonRows := rows;
      buttonsPerRow := perRow;
      buttonRowsLabel := IntToString(rows);
      buttonsPerRowLabel := IntToString(perRow);
      baseHandlerCalls := 0;
    }

    /** `onButtonRows`: step, clamp, and show exactly the new value. */
    method OnButtonRows(senderTag: int)
      modifies this
      ensures buttonRows == NextButtonRows(old(buttonRows), senderTag)
      ensures buttonRowsLabel == IntToString(buttonRows)
      ensures buttonsPerRow == old(buttonsPerRow) && buttonsPerRowLabel == old(buttonsPerRowLabel)
      ensures baseHandlerCalls == old(baseHandlerCalls)
    {
      buttonRows := Clamp(buttonRows + (if senderTag != 0 then 1 else -1), MIN_BUTTON_ROWS, MAX_BUTTON_ROWS);
      buttonRowsLabel := IntToString(buttonRows);
    }

    /** `onButtonsPerRow`: step, clamp, and show exactly the new value. */
    method OnButtonsPerRow(senderTag: int)
      modifies this
      ensures buttonsPerRow == NextButtonsPerRow(old(buttonsPerRow), senderTag)
      ensures buttonsPerRowLabel == IntToString(buttonsPerRow)
      ensures buttonRows == old(buttonRows) && buttonRowsLabel == old(buttonRowsLabel)
      ensures baseHandlerCalls == old(baseHandlerCalls)
    {
      buttonsPerRow := Clamp(buttonsPerRow + (if senderTag != 0 then 1 else -1), MIN_BUTTONS_PER_ROW, MAX_BUTTONS_PER_ROW);
      buttonsPerRowLabel := IntToString(buttonsPerRow);
    }
  }
}
