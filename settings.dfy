/** The input handling of SettingsModal.tsx: the PIN form, and the two
    one-line forms that add an account and a custom category. What the
    handlers pass on (`onSetPin`, `onAddAccount`, `onAddCategory`) is returned
    to the caller. The account-limit flag of the screen is
    `AppState.AtAccountLimit`, the guard `addAccount` itself uses. */
module Settings {
  import opened Seqs
  import opened Text
  import Lock

  /** The outcome of `handlePinSubmit`: one of its two refusals, or the PIN
      handed to `onSetPin`. */
  datatype PinOutcome = NotFourDigits | Mismatch | PinSet(pin: string)

  const PinLength: nat := 4

  /** The PIN must have exactly four characters and equal its confirmation;
      the length is checked first. */
  function PinCheck(newPin: string, confirmPin: string): (r: PinOutcome)
    ensures r == NotFourDigits <==> |newPin| != PinLength
    ensures r == Mismatch <==> |newPin| == PinLength && newPin != confirmPin
    ensures r.PinSet? <==> |newPin| == PinLength && newPin == confirmPin
    ensures r.PinSet? ==> r.pin == newPin
  {
    if |newPin| != PinLength then NotFourDigits
    else if newPin != confirmPin then Mismatch
    else PinSet(newPin)
  }

  /** `if (field.trim()) onAdd(field.trim())`: whitespace-only input passes
      nothing on; otherwise the name passed on is the input without its
      surrounding whitespace, and is neither empty nor padded. */
  function Submitted(field: string): (r: Option<string>)
    ensures r.None? <==> AllSpace(field)
    ensures r.Some? ==> r.value != "" && !IsSpace(r.value[0]) && !IsSpace(r.value[|r.value| - 1])
    ensures r.Some? ==> exists i, j :: 0 <= i <= j <= |field| && r.value == field[i..j] &&
                                       AllSpace(field[..i]) && AllSpace(field[j..])
  {
    TrimSpec(field);
    TrimEmpty(field);
    if Trim(field) != "" then Some(Trim(field)) else None
  }

  /** The keypad of the lock screen types only the digits 0 to 9, yet
      `PinCheck` accepts any four characters: a PIN such as "abcd" is set,
      and no sequence of keys types it, so the app cannot be unlocked. */
  lemma LetterPinLocksOut(keys: seq<nat>)
    requires forall i :: 0 <= i < |keys| ==> keys[i] <= 9
    ensures PinCheck("abcd", "abcd") == PinSet("abcd")
    ensures Lock.Typed(keys) != "abcd"
    ensures Lock.Check(Lock.Typed(keys), Some("abcd")) != Lock.Match
  {
    if |keys| == 4 {
      assert Lock.Typed(keys)[0] != 'a';
    }
  }

  predicate AllDigits(s: string)
  {
    forall i :: 0 <= i < |s| ==> '0' <= s[i] <= '9'
  }

  /** The rule the refusal "PIN must be 4 digits" announces: exactly four
      digits, then equal to the confirmation. */
  function DigitPinCheck(newPin: string, confirmPin: string): (r: PinOutcome)
    ensures r == NotFourDigits <==> |newPin| != PinLength || !AllDigits(newPin)
    ensures r == Mismatch <==> |newPin| == PinLength && AllDigits(newPin) && newPin != confirmPin
    ensures r.PinSet? <==> |newPin| == PinLength && AllDigits(newPin) && newPin == confirmPin
    ensures r.PinSet? ==> r.pin == newPin
  {
    if |newPin| != PinLength || !AllDigits(newPin) then NotFourDigits
    else if newPin != confirmPin then Mismatch
    else PinSet(newPin)
  }

  /** The keys that type a string of digits. */
  function KeysOf(pin: string): (keys: seq<nat>)
    requires AllDigits(pin)
    ensures |keys| == |pin|
    ensures forall i :: 0 <= i < |pin| ==> keys[i] <= 9 && Lock.DigitChar(keys[i]) == pin[i]
  {
    seq(|pin|, i requires 0 <= i < |pin| => (pin[i] as int - '0' as int) as nat)
  }

  /** A PIN accepted by the digit rule fits the lock screen's keypad, and
      pressing its keys types it and unlocks the app. */
  lemma AcceptedPinUnlocks(newPin: string, confirmPin: string)
    requires DigitPinCheck(newPin, confirmPin).PinSet?
    ensures |newPin| <= Lock.MaxPinLength
    ensures Lock.Typed(KeysOf(newPin)) == newPin
    ensures Lock.Check(Lock.Typed(KeysOf(newPin)), Some(DigitPinCheck(newPin, confirmPin).pin)) == Lock.Match
  {
    var typed := Lock.Typed(KeysOf(newPin));
    assert forall i :: 0 <= i < |newPin| ==> typed[i] == newPin[i];
  }

  class SettingsForm {
    var newAccountName: string
    var newCategory: string
    var newPin: string
    var confirmPin: string
    var isSettingPin: bool

    constructor ()
      ensures newAccountName == "" && newCategory == "" && newPin == "" && confirmPin == "" && !isSettingPin
    {
      newAccountName := "";
      newCategory := "";
      newPin := "";
      confirmPin := "";
      isSettingPin := false;
    }

    /** `handlePinSubmit`, with the rule as written: a refusal changes nothing;
        an accepted PIN is passed on once and the PIN form is cleared and
        closed. */
    method SubmitPin() returns (outcome: PinOutcome)
      modifies this
      ensures outcome == PinCheck(old(newPin), old(confirmPin))
      ensures !outcome.PinSet? ==> unchanged(this)
      ensures outcome.PinSet? ==>
                newPin == "" && confirmPin == "" && !isSettingPin &&
                newAccountName == old(newAccountName) && newCategory == old(newCategory)
    {
      outcome := PinCheck(newPin, confirmPin);
      if outcome.PinSet? {
        isSettingPin := false;
        newPin := "";
        confirmPin := "";
      }
    }

    /** `handleAddAccount`: passes on the trimmed name and clears the field,
        or ignores whitespace-only input. */
    method SubmitAccount() returns (name: Option<string>)
      modifies this
      ensures name == Submitted(old(newAccountName))
      ensures newAccountName == if name.Some? then "" else old(newAccountName)
      ensures newCategory == old(newCategory) && newPin == old(newPin) &&
              confirmPin == old(confirmPin) && isSettingPin == old(isSettingPin)
    {
      name := Submitted(newAccountName);
      if name.Some? {
        newAccountName := "";
      }
    }

    /** `handleAddCategory`, the same for the category field. */
    method SubmitCategory() returns (name: Option<string>)
      modifies this
      ensures name == Submitted(old(newCategory))
      ensures newCategory == if name.Some? then "" else old(newCategory)
      ensures newAccountName == old(newAccountName) && newPin == old(newPin) &&
              confirmPin == old(confirmPin) && isSettingPin == old(isSettingPin)
    {
      name := Submitted(newCategory);
      if name.Some? {
        newCategory := "";
      }
    }
  }
}
