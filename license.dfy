// The supporter-key entry popup (src/features/supporters/ActivateLicensePopup.cpp):
// five four-character boxes, the offline checksum that enables the Activate
// button, and pasting a key from the clipboard.
module License {
  import Cocos

  const INPUT_COUNT: nat := 5
  const CHUNK: nat := 4
  const KEY_LENGTH: nat := 20
  const CHECKSUM_MODULUS: nat := 18
  const PREFIX_ERROR: string := "Key does not start with 'BE'"
  const CHECKSUM_ERROR: string := "Checksum mismatch"
  const NO_KEY_NOTIFICATION: string := "No Product Key in Clipboard"

  predicate IsDigit(c: char) { '0' <= c <= '9' }
  predicate IsLower(c: char) { 'a' <= c <= 'z' }
  predicate IsUpper(c: char) { 'A' <= c <= 'Z' }
  predicate IsAlnum(c: char) { IsDigit(c) || IsLower(c) || IsUpper(c) }

  /** `getCharValue`: digits 0-9, letters 10-35 in either case, anything else 0. */
  function CharValue(c: char): (v: nat)
    ensures v < 36
    ensures IsDigit(c) ==> v == c as int - '0' as int
    ensures IsLower(c) ==> v == c as int - 'a' as int + 10
    ensures IsUpper(c) ==> v == c as int - 'A' as int + 10
    ensures !IsAlnum(c) ==> v == 0
  {
    if IsDigit(c) then c as int - '0' as int
    else if IsLower(c) then c as int - 'a' as int + 10
    else if IsUpper(c) then c as int - 'A' as int + 10
    else 0
  }

  /** ASCII upper-casing, as `string::toUpperIP` does per character. */
  function ToUpper(c: char): (u: char)
    ensures IsLower(c) ==> IsUpper(u)
    ensures !IsLower(c) ==> u == c
  {
    if IsLower(c) then (c as int - 32) as char else c
  }

  function Upper(s: string): (u: string)
    ensures |u| == |s|
    ensures forall i :: 0 <= i < |s| ==> u[i] == ToUpper(s[i])
  {
    if s == [] then [] else Upper(s[..|s| - 1]) + [ToUpper(s[|s| - 1])]
  }

  /** A character's value does not depend on its case. */
  lemma CharValueIgnoresCase(c: char)
    ensures CharValue(ToUpper(c)) == CharValue(c)
  {
  }

  /** The sum of the character values of `s`. */
  function ValueSum(s: string): nat
  {
    if s == [] then 0 else ValueSum(s[..|s| - 1]) + CharValue(s[|s| - 1])
  }

  lemma {:induction false} ValueSumIgnoresCase(s: string)
    ensures ValueSum(Upper(s)) == ValueSum(s)
  {
    if s != [] {
      var init := s[..|s| - 1];
      ValueSumIgnoresCase(init);
      assert Upper(s)[..|s| - 1] == Upper(init);
      CharValueIgnoresCase(s[|s| - 1]);
    }
  }

  /** A key is valid when it has 20 characters, starts "BE", and its check pair equals the rest's value sum mod 18. */
  predicate ValidKey(key: string)
  {
    |key| == KEY_LENGTH && key[0] == 'B' && key[1] == 'E'
    && CharValue(key[2]) + CharValue(key[3]) == ValueSum(key[4..]) % CHECKSUM_MODULUS
  }

  /** The validation half of `updateState`: whether the key is valid, and the error shown. */
  method CheckKey(key: string) returns (validKey: bool, error: string)
    ensures validKey == ValidKey(key)
    ensures validKey ==> error == ""
    ensures |key| != KEY_LENGTH ==> error == ""
    ensures |key| == KEY_LENGTH && !(key[0] == 'B' && key[1] == 'E') ==> error == PREFIX_ERROR
    ensures |key| == KEY_LENGTH && key[0] == 'B' && key[1] == 'E' && !validKey ==> error == CHECKSUM_ERROR
  {
    validKey := false;
    error := "";
    if |key| == KEY_LENGTH {
      if key[0] == 'B' && key[1] == 'E' {
        var checksum := CharValue(key[2]) + CharValue(key[3]);
        var sum := 0;
        var i := 4;
        while i < |key|
          invariant 4 <= i <= |key|
          invariant sum == ValueSum(key[4..i])
        {
          assert key[4..i + 1][..i - 4] == key[4..i];
          sum := sum + CharValue(key[i]);
          i := i + 1;
        }
        assert key[4..i] == key[4..];
        if checksum == sum % CHECKSUM_MODULUS {
          validKey := true;
        } else {
          error := CHECKSUM_ERROR;
        }
      } else {
        error := PREFIX_ERROR;
      }
    }
  }

  /** A lower-case key is accepted once upper-cased, and a valid key stays valid under upper-casing. */
  lemma UpperKeepsValidity(key: string)
    requires |key| == KEY_LENGTH && ToUpper(key[0]) == 'B' && ToUpper(key[1]) == 'E'
    ensures ValidKey(Upper(key)) <==> CharValue(key[2]) + CharValue(key[3]) == ValueSum(key[4..]) % CHECKSUM_MODULUS
  {
    assert Upper(key)[4..] == Upper(key[4..]);
    ValueSumIgnoresCase(key[4..]);
    CharValueIgnoresCase(key[2]);
    CharValueIgnoresCase(key[3]);
  }

  /** Two sample keys: the all-zero tail checks out; a checksum one off does not. */
  lemma SampleKeys()
    ensures ValidKey("BE000000000000000000")
    ensures !ValidKey("BE010000000000000000")
  {
    assert ValueSum("0000000000000000") == 0 by { ZeroSum("0000000000000000"); }
    assert "BE000000000000000000"[4..] == "0000000000000000";
    assert "BE010000000000000000"[4..] == "0000000000000000";
  }

  lemma {:induction false} ZeroSum(s: string)
    requires forall i :: 0 <= i < |s| ==> s[i] == '0'
    ensures ValueSum(s) == 0
  {
    if s != [] {
      ZeroSum(s[..|s| - 1]);
    }
  }

  /** The boxes' contents laid end to end. */
  function Concat(parts: seq<string>): string
  {
    if parts == [] then [] else Concat(parts[..|parts| - 1]) + parts[|parts| - 1]
  }

  lemma {:induction false} ConcatEmpty(parts: seq<string>)
    requires forall i :: 0 <= i < |parts| ==> parts[i] == ""
    ensures Concat(parts) == ""
  {
    if parts != [] {
      ConcatEmpty(parts[..|parts| - 1]);
    }
  }

  /** The clipboard with everything but ASCII letters and digits dropped. */
  function KeepAlnum(s: string): (r: string)
    ensures |r| <= |s|
    ensures forall i :: 0 <= i < |r| ==> IsAlnum(r[i])
  {
    if s == [] then []
    else KeepAlnum(s[..|s| - 1]) + (if IsAlnum(s[|s| - 1]) then [s[|s| - 1]] else [])
  }

  /** Keeping the alphanumerics of an alphanumeric string changes nothing. */
  lemma {:induction false} KeepAlnumIdempotent(s: string)
    ensures KeepAlnum(KeepAlnum(s)) == KeepAlnum(s)
  {
    if s != [] {
      KeepAlnumIdempotent(s[..|s| - 1]);
      var k := KeepAlnum(s[..|s| - 1]);
      var c := s[|s| - 1];
      if IsAlnum(c) {
        assert (k + [c])[..|k + [c]| - 1] == k;
        assert KeepAlnum(k + [c]) == KeepAlnum(k) + [c];
        assert KeepAlnum(s) == k + [c];
      } else {
        assert KeepAlnum(s) == k;
      }
    }
  }

  /** The five four-character pieces of a 20-character key. */
  function Chunks(k: string): (r: seq<string>)
    requires |k| == KEY_LENGTH
    ensures |r| == INPUT_COUNT
    ensures forall i :: 0 <= i < INPUT_COUNT ==> |r[i]| == CHUNK
  {
    [k[0..4], k[4..8], k[8..12], k[12..16], k[16..20]]
  }

  /** Splitting a key into the boxes and reading them back gives the key. */
  lemma ChunksConcat(k: string)
    requires |k| == KEY_LENGTH
    ensures Concat(Chunks(k)) == k
  {
    var c := Chunks(k);
    assert c[..1] == [k[0..4]];
    assert c[..2] == c[..1] + [k[4..8]];
    assert c[..3] == c[..2] + [k[8..12]];
    assert c[..4] == c[..3] + [k[12..16]];
    assert c[..5] == c;
    assert Concat(c[..1]) == k[0..4] by { assert c[..1][..0] == []; }
    assert Concat(c[..2]) == k[0..8] by { assert c[..2][..1] == c[..1]; }
    assert Concat(c[..3]) == k[0..12] by { assert c[..3][..2] == c[..2]; }
    assert Concat(c[..4]) == k[0..16] by { assert c[..4][..3] == c[..3]; }
    assert c[..5][..4] == c[..4];
  }

  /** The focus rule of a box's callback: forward after four characters unless last, back when cleared unless first. */
  function NextFocus(i: nat, text: string, focused: int): (f: int)
    requires i < INPUT_COUNT
    ensures |text| >= CHUNK && i < INPUT_COUNT - 1 ==> f == i + 1
    ensures |text| == 0 && i > 0 ==> f == i - 1
    ensures (|text| >= CHUNK && i == INPUT_COUNT - 1) || (0 < |text| < CHUNK) || (|text| == 0 && i == 0) ==> f == focused
  {
    if i + 1 < INPUT_COUNT && |text| >= CHUNK then i + 1
    else if i > 0 && |text| == 0 then i - 1
    else focused
  }

  class ActivateLicensePopup {
    /** `m_inputs`: the five text boxes' contents. */
    const inputs: array<string>
    /** The box that has focus. */
    var focused: int
    var errorText: string
    var activateEnabled: bool
    var activateColor: Cocos.Color3B
    var activateOpacity: int
    var notifications: seq<string>

    /** The key the boxes spell, upper-cased. */
    function CurrentKey(): string
      reads this, inputs
    {
      Upper(Concat(inputs[..]))
    }

    /** `setup`: five empty boxes, then `updateState`. */
    constructor ()
      ensures fresh(inputs) && inputs.Length == INPUT_COUNT
      ensures inputs[..] == ["", "", "", "", ""]
      ensures !activateEnabled && errorText == "" && notifications == []
    {
      inputs := new string[INPUT_COUNT](_ => "");
      focused := 0;
      errorText := "";
      activateEnabled := false;
      activateColor := Cocos.GRAY;
      activateOpacity := 155;
      notifications := [];
      new;
      assert inputs[..] == ["", "", "", "", ""];
      ConcatEmpty(inputs[..]);
      UpdateState();
    }

    /** `getCurrentKey`: concatenate the boxes in order, then upper-case. */
    method GetCurrentKey() returns (key: string)
      ensures key == CurrentKey()
    {
      var keychars := "";
      var i := 0;
      while i < inputs.Length
        invariant 0 <= i <= inputs.Length
        invariant keychars == Concat(inputs[..i])
      {
        assert inputs[..i + 1][..i] == inputs[..i];
        keychars := keychars + inputs[i];
        i := i + 1;
      }
      assert inputs[..i] == inputs[..];
      key := Upper(keychars);
    }

    /**
     * What `updateState` leaves on screen for the boxes' current key: the key's
     * error (none unless it is 20 characters long and invalid), and Activate
     * enabled, white and opaque exactly when the key is valid, grey and faded otherwise.
     */
    ghost predicate KeyShown()
      reads this, inputs
    {
      && activateEnabled == ValidKey(CurrentKey())
      && activateColor == (if activateEnabled then Cocos.WHITE else Cocos.GRAY)
      && activateOpacity == (if activateEnabled then 255 else 155)
      && (|CurrentKey()| != KEY_LENGTH ==> errorText == "")
      && (|CurrentKey()| == KEY_LENGTH && !activateEnabled ==>
            errorText == (if CurrentKey()[0] == 'B' && CurrentKey()[1] == 'E' then CHECKSUM_ERROR else PREFIX_ERROR))
      && (activateEnabled ==> errorText == "")
    }

    /** `updateState`: check the current key; show its error, and enable and brighten Activate exactly when it is valid. */
    method UpdateState()
      modifies this
      ensures KeyShown()
      ensures focused == old(focused) && notifications == old(notifications)
    {
      var key := GetCurrentKey();
      var validKey, error := CheckKey(key);
      errorText := error;
      activateColor := if validKey then Cocos.WHITE else Cocos.GRAY;
      activateOpacity := if validKey then 255 else 155;
      activateEnabled := validKey;
    }

    /** A box's callback after its text changed to `text`: move focus, then `updateState`. */
    method OnInputChanged(i: nat, text: string)
      requires i < inputs.Length == INPUT_COUNT
      modifies this, inputs
      ensures inputs[..] == old(inputs[..])[i := text]
      ensures focused == NextFocus(i, text, old(focused))
      ensures KeyShown() && notifications == old(notifications)
    {
      inputs[i] := text;
      focused := NextFocus(i, text, focused);
      UpdateState();
    }

    /** `onPaste`: keep the clipboard's letters and digits; with exactly 20 fill the boxes four at a time, otherwise notify and change nothing. */
    method OnPaste(clipboard: string)
      requires inputs.Length == INPUT_COUNT
      modifies this, inputs
      ensures |KeepAlnum(clipboard)| != KEY_LENGTH ==>
        inputs[..] == old(inputs[..]) && notifications == old(notifications) + [NO_KEY_NOTIFICATION]
        && activateEnabled == old(activateEnabled) && errorText == old(errorText) && focused == old(focused)
        && activateColor == old(activateColor) && activateOpacity == old(activateOpacity)
      ensures |KeepAlnum(clipboard)| == KEY_LENGTH ==>
        inputs[..] == Chunks(KeepAlnum(clipboard)) && notifications == old(notifications)
        && focused == old(focused) && KeyShown()
        && CurrentKey() == Upper(KeepAlnum(clipboard))
        && activateEnabled == ValidKey(Upper(KeepAlnum(clipboard)))
    {
      var keychars := "";
      var i := 0;
      while i < |clipboard|
        invariant 0 <= i <= |clipboard|
        invariant keychars == KeepAlnum(clipboard[..i])
      {
        assert clipboard[..i + 1][..i] == clipboard[..i];
        if IsAlnum(clipboard[i]) {
          keychars := keychars + [clipboard[i]];
        }
        i := i + 1;
      }
      assert clipboard[..i] == clipboard;
      if |keychars| != KEY_LENGTH {
        notifications := notifications + [NO_KEY_NOTIFICATION];
        return;
      }
      var j := 0;
      while j < inputs.Length
        invariant 0 <= j <= inputs.Length
        invariant forall k :: 0 <= k < j ==> inputs[k] == keychars[CHUNK * k..CHUNK * k + CHUNK]
        invariant notifications == old(notifications) && focused == old(focused)
      {
        inputs[j] := keychars[CHUNK * j..CHUNK * j + CHUNK];
        j := j + 1;
      }
      assert inputs[..] == Chunks(keychars);
      ChunksConcat(keychars);
      UpdateState();
    }
  }
}
