/**
 * Validation of the /start referral payload (main.py:153-155): the first
 * command argument is acted on only if it is a non-empty string of digits whose
 * value is not the starting user's own id.
 */
module Referral {
  import opened Wrappers
  import opened Schema
  import opened Decimal

  /** What the /start handler does with its arguments. */
  datatype PayloadOutcome =
    | Ignored                      // no argument, not a number, or the user's own id
    | Accepted(referrer: UserId)   // credit the referral to this user
    | Crashes                      // int() raises outside the try block

  /**
   * Python's str.isdigit on one character, for characters up to U+00FF: the
   * ASCII digits and the superscripts one, two and three.
   */
  predicate IsPythonDigit(c: char) {
    IsAsciiDigit(c) || c == '\U{B9}' || c == '\U{B2}' || c == '\U{B3}'
  }

  /** str.isdigit on a string: false for the empty string. */
  predicate PythonIsDigit(s: string) {
    |s| > 0 && forall i | 0 <= i < |s| :: IsPythonDigit(s[i])
  }

  /**
   * The guard as written: `p.isdigit() and int(p) != user_id`. A string that
   * passes isdigit but holds a superscript makes int() raise, and the raise is
   * not inside the handler's try block.
   */
  function StartPayloadAsWritten(args: seq<string>, self: UserId): (v: PayloadOutcome)
    ensures v.Crashes? <==> |args| > 0 && PythonIsDigit(args[0]) && !IsNumeral(args[0])
    ensures v.Accepted? ==> v.referrer != self
  {
    if |args| == 0 then Ignored
    else
      var p := args[0];
      if !PythonIsDigit(p) then Ignored
      else if !IsNumeral(p) then Crashes
      else if ValueOf(p) == self then Ignored
      else Accepted(ValueOf(p))
  }

  /**
   * The guard as intended: a payload that does not read as a number is
   * ignored like any other malformed payload.
   */
  function StartPayload(args: seq<string>, self: UserId): (v: PayloadOutcome)
    ensures !v.Crashes?
    ensures v.Accepted? <==> |args| > 0 && Parse(args[0]).Some? && Parse(args[0]).value != self
    ensures v.Accepted? ==> Parse(args[0]) == Some(v.referrer)
  {
    if |args| == 0 then Ignored
    else
      match Parse(args[0])
      case None => Ignored
      case Some(n) => if n == self then Ignored else Accepted(n)
  }

  /** `/start ²` passes isdigit and then crashes the handler as written. */
  lemma SuperscriptCrashes(self: UserId)
    ensures StartPayloadAsWritten(["\U{B2}"], self) == Crashes
  {
  }

  /** Wherever the written guard does not crash, the corrected guard agrees with it. */
  lemma AsWrittenAgreesUnlessCrash(args: seq<string>, self: UserId)
    requires !StartPayloadAsWritten(args, self).Crashes?
    ensures StartPayloadAsWritten(args, self) == StartPayload(args, self)
  {
  }

  /**
   * Following another user's referral link (?start=<their id>, main.py:199)
   * credits that user; following one's own link is ignored.
   */
  lemma FollowLink(owner: UserId, self: UserId)
    ensures StartPayload([Show(owner)], self) ==
            if owner == self then Ignored else Accepted(owner)
  {
    ParseShow(owner);
  }

  /** Only the first argument is read; any further arguments are ignored. */
  lemma OnlyFirstArgument(args: seq<string>, extra: seq<string>, self: UserId)
    requires |args| > 0
    ensures StartPayload(args + extra, self) == StartPayload(args, self)
  {
  }
}
