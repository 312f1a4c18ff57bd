/** The PIN pad of AppLock.tsx: a digit buffer capped at four characters, an
    error flag, and the effect that compares the buffer with the stored PIN
    after every change of the buffer. Unlocking is recorded in `unlocked`,
    which stands for the parent's `onUnlock`; the 500 ms reset after a wrong
    entry is a counter of pending timers and a method that fires one. */
module Lock {
  import opened Seqs

  /** The keypad stops accepting digits at this length. */
  const MaxPinLength: nat := 4

  /** What the comparison effect decides for the current entry. */
  datatype Verdict = Incomplete | Match | Mismatch

  /** The effect's test: only a stored PIN that is present and non-empty is
      compared, and only once the entry has its length. */
  function Check(pin: string, storedPin: Option<string>): (v: Verdict)
    ensures v == Match <==> storedPin.Some? && storedPin.value != "" && pin == storedPin.value
    ensures v == Mismatch <==> storedPin.Some? && storedPin.value != "" && |pin| == |storedPin.value| && pin != storedPin.value
    ensures storedPin.None? || storedPin == Some("") || |pin| != |storedPin.value| ==> v == Incomplete
  {
    if storedPin.Some? && storedPin.value != "" && |pin| == |storedPin.value| then
      if pin == storedPin.value then Match else Mismatch
    else Incomplete
  }

  /** `prev + num` for a keypad digit. */
  function DigitChar(d: nat): (c: char)
    requires d <= 9
    ensures '0' <= c <= '9'
  {
    ('0' as int + d) as char
  }

  class PinPad {
    var pin: string
    var error: bool
    /** `onUnlock` has been called. */
    var unlocked: bool
    /** Reset timers scheduled by wrong entries and not yet fired. */
    var pendingResets: nat
    const storedPin: Option<string>

    ghost predicate Valid()
      reads this
    {
      |pin| <= MaxPinLength
    }

    /** Mounting: an empty entry, no error; the first run of the effect
        compares nothing, since no stored PIN has length 0 and is compared. */
    constructor (storedPin: Option<string>)
      ensures Valid()
      ensures pin == "" && !error && !unlocked && pendingResets == 0 && this.storedPin == storedPin
    {
      this.storedPin := storedPin;
      pin := "";
      error := false;
      unlocked := false;
      pendingResets := 0;
    }

    /** The comparison effect: unlock on a match; on a full-length mismatch
        set the error and schedule the reset. */
    method Settle()
      modifies this
      ensures pin == old(pin)
      ensures unlocked == (old(unlocked) || Check(pin, storedPin) == Match)
      ensures error == (old(error) || Check(pin, storedPin) == Mismatch)
      ensures pendingResets == old(pendingResets) + if Check(pin, storedPin) == Mismatch then 1 else 0
    {
      var v := Check(pin, storedPin);
      if v == Match {
        unlocked := true;
      } else if v == Mismatch {
        error := true;
        pendingResets := pendingResets + 1;
      }
    }

    /** `handleNumClick`: below four characters the digit is appended and the
        error cleared, then the effect runs; at four nothing happens. */
    method NumClick(d: nat)
      requires d <= 9
      requires Valid()
      modifies this
      ensures Valid()
      ensures |old(pin)| >= MaxPinLength ==> unchanged(this)
      ensures |old(pin)| < MaxPinLength ==>
                pin == old(pin) + [DigitChar(d)] &&
                unlocked == (old(unlocked) || Check(pin, storedPin) == Match) &&
                error == (Check(pin, storedPin) == Mismatch) &&
                pendingResets == old(pendingResets) + if Check(pin, storedPin) == Mismatch then 1 else 0
    {
      if |pin| < MaxPinLength {
        pin := pin + [DigitChar(d)];
        error := false;
        Settle();
      }
    }

    /** `handleDelete`: drops the last character; an empty entry stays empty
        and, the state being unchanged, the effect does not run. */
    method Delete()
      requires Valid()
      modifies this
      ensures Valid()
      ensures pin == if old(pin) == "" then "" else old(pin)[..|old(pin)| - 1]
      ensures old(pin) == "" ==> unchanged(this)
      ensures old(pin) != "" ==>
                unlocked == (old(unlocked) || Check(pin, storedPin) == Match) &&
                error == (old(error) || Check(pin, storedPin) == Mismatch) &&
                pendingResets == old(pendingResets) + if Check(pin, storedPin) == Mismatch then 1 else 0
    {
      if pin != "" {
        pin := pin[..|pin| - 1];
        Settle();
      }
    }

    /** A scheduled reset fires: the entry is cleared and the error dropped;
        the effect then sees an empty entry and compares nothing. */
    method TimerFires()
      requires Valid() && pendingResets > 0
      modifies this
      ensures Valid()
      ensures pin == "" && !error && unlocked == old(unlocked) && pendingResets == old(pendingResets) - 1
    {
      pin := "";
      error := false;
      pendingResets := pendingResets - 1;
      Settle();
    }
  }

  /** A stored PIN longer than the keypad's cap can never be matched. */
  lemma LongPinLocksOut(pin: string, storedPin: string)
    requires |pin| <= MaxPinLength < |storedPin|
    ensures Check(pin, Some(storedPin)) == Incomplete
  {
  }

  /** The entry produced by pressing the given keys. */
  function Typed(digits: seq<nat>): (r: string)
    requires forall i :: 0 <= i < |digits| ==> digits[i] <= 9
    ensures |r| == |digits|
    ensures forall i :: 0 <= i < |digits| ==> r[i] == DigitChar(digits[i])
  {
    if digits == [] then [] else Typed(digits[..|digits| - 1]) + [DigitChar(digits[|digits| - 1])]
  }

  /** Typing as many keys as the stored PIN has characters unlocks exactly
      when the keys spell the PIN; otherwise the error is shown and, once the
      reset fires, the pad is empty and clear again. */
  method Enter(storedPin: string, digits: seq<nat>) returns (pad: PinPad)
    requires storedPin != "" && |digits| == |storedPin| <= MaxPinLength
    requires forall i :: 0 <= i < |digits| ==> digits[i] <= 9
    ensures fresh(pad) && pad.Valid()
    ensures pad.unlocked <==> Typed(digits) == storedPin
    ensures !pad.unlocked ==> pad.pin == "" && !pad.error && pad.pendingResets == 0
  {
    pad := new PinPad(Some(storedPin));
    var i := 0;
    while i < |digits|
      invariant 0 <= i <= |digits|
      invariant pad.Valid() && pad.storedPin == Some(storedPin)
      invariant pad.pin == Typed(digits[..i])
      invariant i < |digits| ==> !pad.unlocked && !pad.error && pad.pendingResets == 0
      invariant i == |digits| ==> (pad.unlocked <==> pad.pin == storedPin)
      invariant i == |digits| ==> (pad.error <==> pad.pin != storedPin) && pad.pendingResets == if pad.error then 1 else 0
    {
      assert digits[..i + 1][..i] == digits[..i];
      pad.NumClick(digits[i]);
      i := i + 1;
    }
    assert digits[..i] == digits;
    if pad.pendingResets > 0 {
      pad.TimerFires();
    }
  }
}
