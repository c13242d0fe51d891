// Supporter ("pro") helpers: the colour tiers of src/features/supporters/Pro.cpp
// and the stored-key rules of src/features/supporters/Pro.hpp. Reading the key
// file, base64 decoding and signature verification are parameters.
module Pro {
  import opened Wrappers
  import opened Cocos

  const PURPLE: Color3B := Color3B(227, 85, 255)
  const GOLD: Color3B := Color3B(255, 187, 0)
  const CYAN: Color3B := Color3B(0, 238, 255)
  const GREEN: Color3B := Color3B(30, 255, 0)

  /** `getSupporterColor`: the name colour for a supported amount. */
  function SupporterColor(supportedAmount: int): (c: Color3B)
    ensures supportedAmount >= 5000 ==> c == PURPLE
    ensures 1000 <= supportedAmount < 5000 ==> c == GOLD
    ensures 500 <= supportedAmount < 1000 ==> c == CYAN
    ensures 200 <= supportedAmount < 500 ==> c == GREEN
    ensures supportedAmount < 200 ==> c == WHITE
  {
    if supportedAmount >= 5000 then PURPLE
    else if supportedAmount >= 1000 then GOLD
    else if supportedAmount >= 500 then CYAN
    else if supportedAmount >= 200 then GREEN
    else WHITE
  }

  /** Position of a colour in the tier ladder, white lowest. */
  function TierRank(c: Color3B): nat
  {
    if c == PURPLE then 4
    else if c == GOLD then 3
    else if c == CYAN then 2
    else if c == GREEN then 1
    else 0
  }

  /** Giving more never lowers the tier. */
  lemma SupporterColorMonotone(a: int, b: int)
    requires a <= b
    ensures TierRank(SupporterColor(a)) <= TierRank(SupporterColor(b))
  {
  }

  // ---------------------------------------------------------------------
  // Splitting a key on ':'

  /** Index of the first `sep` in `s`, or |s| when there is none. */
  function FirstIndex(s: string, sep: char): (i: nat)
    ensures i <= |s|
    ensures i < |s| ==> s[i] == sep
    ensures forall k :: 0 <= k < i ==> s[k] != sep
  {
    if |s| == 0 then 0
    else if s[0] == sep then 0
    else 1 + FirstIndex(s[1..], sep)
  }

  /** The pieces between separators of a non-empty string; empty pieces are kept. */
  function Pieces(s: string, sep: char): (r: seq<string>)
    ensures |r| >= 1
    decreases |s|
  {
    var i := FirstIndex(s, sep);
    if i == |s| then [s] else [s[..i]] + Pieces(s[i + 1..], sep)
  }

  /**
   * `string::split(str, ":")` as the key code uses it: the empty string has no
   * pieces, any other string the pieces between separators.
   */
  function Split(s: string, sep: char): seq<string>
  {
    if s == [] then [] else Pieces(s, sep)
  }

  /** Pieces glued back together with the separator. */
  function Join(parts: seq<string>, sep: char): string
    requires |parts| >= 1
  {
    if |parts| == 1 then parts[0] else parts[0] + [sep] + Join(parts[1..], sep)
  }

  predicate NoSep(s: string, sep: char)
  {
    forall k :: 0 <= k < |s| ==> s[k] != sep
  }

  /** Joining the pieces of a string gives the string back, and no piece holds a separator. */
  lemma {:induction false} JoinPieces(s: string, sep: char)
    ensures Join(Pieces(s, sep), sep) == s
    ensures forall k :: 0 <= k < |Pieces(s, sep)| ==> NoSep(Pieces(s, sep)[k], sep)
    decreases |s|
  {
    var i := FirstIndex(s, sep);
    if i < |s| {
      JoinPieces(s[i + 1..], sep);
      assert s == s[..i] + [sep] + s[i + 1..];
    }
  }

  /** Splitting a join of separator-free pieces gives the pieces back. */
  lemma {:induction false} PiecesJoin(parts: seq<string>, sep: char)
    requires |parts| >= 1
    requires forall k :: 0 <= k < |parts| ==> NoSep(parts[k], sep)
    ensures Pieces(Join(parts, sep), sep) == parts
    decreases |parts|
  {
    var s := Join(parts, sep);
    if |parts| == 1 {
      FirstIndexAbsent(parts[0], sep);
    } else {
      var rest := Join(parts[1..], sep);
      assert s == parts[0] + [sep] + rest;
      FirstIndexAfter(parts[0], sep, rest);
      assert s[..|parts[0]|] == parts[0];
      assert s[|parts[0]| + 1..] == rest;
      PiecesJoin(parts[1..], sep);
    }
  }

  lemma FirstIndexAbsent(s: string, sep: char)
    requires NoSep(s, sep)
    ensures FirstIndex(s, sep) == |s|
  {
  }

  lemma FirstIndexAfter(p: string, sep: char, rest: string)
    requires NoSep(p, sep)
    ensures FirstIndex(p + [sep] + rest, sep) == |p|
  {
    var s := p + [sep] + rest;
    var i := FirstIndex(s, sep);
    assert s[|p|] == sep;
  }

  // ---------------------------------------------------------------------
  // Key shape, device salt and the signed message

  /** Key text as `getProKey` hands it out: none for the empty cache. */
  function KeyOf(cache: string): (key: Option<string>)
    ensures key.None? <==> cache == ""
    ensures key.Some? ==> key.value == cache
  {
    if cache == "" then None else Some(cache)
  }

  /** `getDeviceSalt` after the key is fetched: the fourth of exactly five ':'-separated parts. */
  function DeviceSaltOf(key: Option<string>): Option<string>
  {
    if key.None? then None
    else
      var parts := Split(key.value, ':');
      if |parts| != 5 then None else Some(parts[3])
  }

  /** A key assembled from five separator-free parts yields its fourth part as the salt. */
  lemma DeviceSaltOfWellFormedKey(p0: string, p1: string, p2: string, p3: string, p4: string)
    requires NoSep(p0, ':') && NoSep(p1, ':') && NoSep(p2, ':') && NoSep(p3, ':') && NoSep(p4, ':')
    ensures DeviceSaltOf(Some(Join([p0, p1, p2, p3, p4], ':'))) == Some(p3)
  {
    var parts := [p0, p1, p2, p3, p4];
    PiecesJoin(parts, ':');
    assert |Join(parts, ':')| > 0 by {
      assert Join(parts, ':') == p0 + [':'] + Join(parts[1..], ':');
    }
  }

  /** With no key, or a key of any other shape than five parts, there is no salt. */
  lemma DeviceSaltNeedsFiveParts(key: Option<string>)
    ensures key.None? ==> DeviceSaltOf(key).None?
    ensures key.Some? && |Split(key.value, ':')| != 5 ==> DeviceSaltOf(key).None?
    ensures DeviceSaltOf(key).Some? ==> key.Some? && DeviceSaltOf(key).value == Split(key.value, ':')[3]
  {
  }

  /** "{accountID}:{supporterID}:{platform}:{salt}", the message the key's signature covers. */
  function SignedMessage(accountId: int, supporterId: string, platform: string, salt: string): string
  {
    IntToString(accountId) + ":" + supporterId + ":" + platform + ":" + salt
  }

  /** The signed message splits back into its four fields when none of them holds ':'. */
  lemma SignedMessageFields(accountId: int, supporterId: string, platform: string, salt: string)
    requires NoSep(supporterId, ':') && NoSep(platform, ':') && NoSep(salt, ':')
    ensures Split(SignedMessage(accountId, supporterId, platform, salt), ':')
      == [IntToString(accountId), supporterId, platform, salt]
  {
    var id := IntToString(accountId);
    var parts := [id, supporterId, platform, salt];
    assert NoSep(id, ':') by {
      if accountId < 0 {
        NatToStringDigits(-accountId);
        assert id == "-" + NatToString(-accountId);
      } else {
        NatToStringDigits(accountId);
      }
    }
    PiecesJoin(parts, ':');
    assert Join(parts, ':') == SignedMessage(accountId, supporterId, platform, salt) by {
      JoinFour(id, supporterId, platform, salt, ':');
    }
    assert |SignedMessage(accountId, supporterId, platform, salt)| > 0;
  }

  lemma JoinFour(a: string, b: string, c: string, d: string, sep: char)
    ensures Join([a, b, c, d], sep) == a + [sep] + b + [sep] + c + [sep] + d
  {
    assert [a, b, c, d][1..] == [b, c, d];
    assert [b, c, d][1..] == [c, d];
    assert [c, d][1..] == [d];
    assert Join([c, d], sep) == c + [sep] + d;
    assert Join([b, c, d], sep) == b + [sep] + (c + [sep] + d);
    assert Join([a, b, c, d], sep) == a + [sep] + (b + [sep] + (c + [sep] + d));
  }

  /**
   * `verifyPro<Magic>`: 0 without a key or for a key not of five parts;
   * otherwise the verifier's answer on the signed message and the decoded
   * signature (empty when decoding fails).
   */
  function VerifyPro(key: Option<string>, accountId: int, platform: string,
                     decodeSignature: string -> Option<seq<bv8>>,
                     verify: (string, seq<bv8>) -> nat): (r: nat)
    ensures key.None? ==> r == 0
    ensures key.Some? && |Split(key.value, ':')| != 5 ==> r == 0
    ensures key.Some? && |Split(key.value, ':')| == 5 ==>
      var parts := Split(key.value, ':');
      r == verify(SignedMessage(accountId, parts[1], platform, parts[3]),
                  decodeSignature(parts[4]).UnwrapOr([]))
  {
    if key.None? then 0
    else
      var parts := Split(key.value, ':');
      if |parts| != 5 then 0
      else
        var signature := decodeSignature(parts[4]).UnwrapOr([]);
        verify(SignedMessage(accountId, parts[1], platform, parts[3]), signature)
  }

  const MAGIC_OK: nat := 0xec

  /** `HAS_PRO()` at source line `line`: the verifier must answer line + MAGIC_OK. */
  predicate HasPro(line: nat, key: Option<string>, accountId: int, platform: string,
                   decodeSignature: string -> Option<seq<bv8>>,
                   verify: (string, seq<bv8>) -> nat)
  {
    VerifyPro(key, accountId, platform, decodeSignature, verify) == line + MAGIC_OK
  }

  /** Without a stored key, or with a malformed one, no `HAS_PRO()` check passes, whatever the verifier says. */
  lemma NoKeyNoPro(line: nat, key: Option<string>, accountId: int, platform: string,
                   decodeSignature: string -> Option<seq<bv8>>,
                   verify: (string, seq<bv8>) -> nat)
    requires key.None? || |Split(key.value, ':')| != 5
    ensures !HasPro(line, key, accountId, platform, decodeSignature, verify)
  {
  }

  /**
   * The static key cache of `getProKey` and the "has-pro" saved value it
   * mirrors (`None` until first written).
   */
  class ProKeyStore {
    var cache: string
    var hasProSaved: Option<bool>

    constructor ()
      ensures cache == "" && hasProSaved == None
    {
      cache := "";
      hasProSaved := None;
    }

    /**
     * `getProKey(update)`: re-read the key file when asked to or when the
     * cache is empty (`stored` is the file read; a failed read gives ""),
     * record whether a key exists, and return the key unless it is empty.
     */
    method GetProKey(update: bool, stored: Option<string>) returns (key: Option<string>)
      modifies this
      ensures update || old(cache) == "" ==>
        cache == stored.UnwrapOr("") && hasProSaved == Some(cache != "")
      ensures !(update || old(cache) == "") ==>
        cache == old(cache) && hasProSaved == old(hasProSaved)
      ensures key == KeyOf(cache)
    {
      if update || cache == "" {
        cache := stored.UnwrapOr("");
        hasProSaved := Some(cache != "");
      }
      key := if cache == "" then None else Some(cache);
    }

    /** `getDeviceSalt`: fetch the key without forcing a re-read, then take its salt. */
    method GetDeviceSalt(stored: Option<string>) returns (salt: Option<string>)
      modifies this
      ensures old(cache) != "" ==> cache == old(cache) && hasProSaved == old(hasProSaved)
      ensures old(cache) == "" ==> cache == stored.UnwrapOr("") && hasProSaved == Some(cache != "")
      ensures salt == DeviceSaltOf(KeyOf(cache))
    {
      var key := GetProKey(false, stored);
      if key.None? {
        return None;
      }
      var parts := Split(key.value, ':');
      if |parts| != 5 {
        return None;
      }
      salt := Some(parts[3]);
    }
  }
}
