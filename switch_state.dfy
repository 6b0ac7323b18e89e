/**
 * How the switch state travels between the bus, the backing file and back:
 * `stateFromPayload`, the file content `writeSwitchState` writes, the decoding
 * in `readSwitchState` (with JavaScript's `parseInt`), and the `ON`/`OFF`
 * message of `sendSwitchState`.
 */
module SwitchState {
  import opened Ascii
  import opened Wrappers

  /** How `fs.readFile` completed: with the file's text, or with an error. */
  datatype ReadResult = Ok(content: string) | Err

  /** `stateFromPayload`: 1 for the exact payload `ON`, 0 for anything else. */
  function StateFromPayload(payload: string): (state: int)
    ensures state == 0 || state == 1
    ensures state == 1 <==> payload == "ON"
  {
    if payload == "ON" then 1 else 0
  }

  /** The decimal digits of `n`, most significant first, without leading zeros. */
  function NatToDecimal(n: nat): (s: string)
    ensures |s| > 0 && forall i :: 0 <= i < |s| ==> IsDigit(s[i])
    decreases n
  {
    if n < 10 then [DigitChar(n)] else NatToDecimal(n / 10) + [DigitChar(n % 10)]
  }

  /**
   * The decimal text of an integer: a `-` for a negative one, then its
   * digits. For the states 0 and 1 that are written, this is the text of
   * `${state}`.
   */
  function IntToDecimal(n: int): (s: string)
    ensures |s| > 0
    ensures s[0] == '-' <==> n < 0
    ensures forall i :: (if n < 0 then 1 else 0) <= i < |s| ==> IsDigit(s[i])
  {
    if n < 0 then "-" + NatToDecimal(-n) else NatToDecimal(n)
  }

  /** The file content `writeSwitchState` writes for `state`: it parses back to `state`. */
  function WriteContent(state: int): (content: string)
    ensures ParseInt(content) == Some(state)
  {
    ParseIntOfDecimal(state, "");
    assert IntToDecimal(state) + "" == IntToDecimal(state);
    IntToDecimal(state)
  }

  /** The number a run of decimal digits denotes. */
  function DigitsValue(s: string): nat
    requires forall i :: 0 <= i < |s| ==> IsDigit(s[i])
  {
    if s == [] then 0 else DigitsValue(s[..|s| - 1]) * 10 + DigitValue(s[|s| - 1])
  }

  predicate AllSpaces(s: string) {
    forall i :: 0 <= i < |s| ==> IsSpace(s[i])
  }

  /** The number of white-space characters at the front of `s`. */
  function LeadingSpaces(s: string): (k: nat)
    ensures k <= |s|
    ensures AllSpaces(s[..k])
    ensures k == |s| || !IsSpace(s[k])
  {
    if s != [] && IsSpace(s[0]) then
      var k := 1 + LeadingSpaces(s[1..]);
      assert s[..k] == [s[0]] + s[1..][..k - 1];
      k
    else 0
  }

  /** The length of the longest prefix of `s` made of decimal digits. */
  function DigitPrefixLength(s: string): (k: nat)
    ensures k <= |s|
    ensures forall i :: 0 <= i < k ==> IsDigit(s[i])
    ensures k == |s| || !IsDigit(s[k])
  {
    if s != [] && IsDigit(s[0]) then 1 + DigitPrefixLength(s[1..]) else 0
  }

  /** The longest run of digits at the front of `s`, None when `s` does not start with one. */
  function ParseDigits(s: string): (r: Option<nat>)
    ensures r.None? <==> s == [] || !IsDigit(s[0])
  {
    var k := DigitPrefixLength(s);
    if k == 0 then None else Some(DigitsValue(s[..k]))
  }

  /**
   * A number starts with the digit at `i`: only white space comes before it,
   * or white space and then one sign.
   */
  predicate NumberStart(s: string, i: int) {
    0 <= i < |s| && IsDigit(s[i]) &&
    (AllSpaces(s[..i]) || (0 < i && (s[i - 1] == '-' || s[i - 1] == '+') && AllSpaces(s[..i - 1])))
  }

  /**
   * `parseInt(s)` in base 10: leading white space, then an optional sign, then
   * the longest run of digits. It is NaN (None) exactly when no digit comes
   * after the white space and the sign.
   */
  function ParseInt(s: string): (r: Option<int>)
    ensures r.Some? <==> exists i :: NumberStart(s, i)
  {
    var k := LeadingSpaces(s);
    NumberStartAt(s, k);
    if k < |s| && s[k] == '-' then
      match ParseDigits(s[k + 1..])
      case None => None
      case Some(n) => var value: int := n; Some(-value)
    else if k < |s| && s[k] == '+' then
      match ParseDigits(s[k + 1..])
      case None => None
      case Some(n) => Some(n)
    else
      match ParseDigits(s[k..])
      case None => None
      case Some(n) => Some(n)
  }

  /**
   * With `k` the white space at the front, a number starts somewhere iff it
   * starts right after that white space or right after a sign there.
   */
  lemma NumberStartAt(s: string, k: nat)
    requires k == LeadingSpaces(s)
    ensures (exists i :: NumberStart(s, i)) <==>
      (k < |s| && IsDigit(s[k])) ||
      (k + 1 < |s| && (s[k] == '-' || s[k] == '+') && IsDigit(s[k + 1]))
  {
    if k < |s| && IsDigit(s[k]) {
      assert NumberStart(s, k);
    }
    if k + 1 < |s| && (s[k] == '-' || s[k] == '+') && IsDigit(s[k + 1]) {
      assert s[..k + 1][..k] == s[..k];
      assert NumberStart(s, k + 1);
    }
    if exists i :: NumberStart(s, i) {
      var i :| NumberStart(s, i);
      NumberStartOnlyAt(s, i);
    }
  }

  /** A number can only start right after the leading white space, or after a sign there. */
  lemma NumberStartOnlyAt(s: string, i: int)
    requires NumberStart(s, i)
    ensures var k := LeadingSpaces(s);
      i == k || (i == k + 1 && (s[k] == '-' || s[k] == '+'))
  {
    var k := LeadingSpaces(s);
    SpacesBefore(s, k);
    if AllSpaces(s[..i]) {
      SpacesBefore(s, i);
    } else {
      SpacesBefore(s, i - 1);
    }
  }

  lemma SpacesBefore(s: string, n: nat)
    requires n <= |s| && AllSpaces(s[..n])
    ensures forall j :: 0 <= j < n ==> IsSpace(s[j])
  {
    forall j | 0 <= j < n
      ensures IsSpace(s[j])
    {
      assert s[..n][j] == s[j];
    }
  }

  /** The sign in front of a number starting at `i`: -1 after a `-`, otherwise 1. */
  function Sign(s: string, i: int): int
    requires 0 <= i <= |s|
  {
    if 0 < i && s[i - 1] == '-' then -1 else 1
  }

  /**
   * The number `parseInt` gives: the sign in front of the number times the
   * value of the longest run of digits where the number starts.
   */
  lemma ParseIntValue(s: string, i: int)
    requires NumberStart(s, i)
    ensures ParseInt(s) == Some(Sign(s, i) * DigitsValue(s[i..][..DigitPrefixLength(s[i..])]))
  {
    NumberStartOnlyAt(s, i);
    if i == LeadingSpaces(s) {
      assert !(s[i] == '-' || s[i] == '+');
    }
  }

  /**
   * What `readSwitchState` forwards: 0 on a read error, 0 when the content is
   * not a number, and otherwise the parsed number as it is.
   */
  function ReadState(read: ReadResult): (state: int)
    ensures state != 0 ==> read.Ok? && ParseInt(read.content) == Some(state)
    ensures read.Ok? && ParseInt(read.content).Some? ==> state == ParseInt(read.content).value
  {
    match read
    case Err => 0
    case Ok(content) =>
      match ParseInt(content)
      case None => 0
      case Some(n) => n
  }

  /** The message `sendSwitchState` publishes for `state`. */
  function StateMessage(state: int): (message: string)
    ensures message == "ON" || message == "OFF"
  {
    if state == 1 then "ON" else "OFF"
  }

  lemma {:induction false} DigitsValueOfDecimal(n: nat)
    ensures DigitsValue(NatToDecimal(n)) == n
    decreases n
  {
    if n >= 10 {
      var s := NatToDecimal(n);
      assert s[..|s| - 1] == NatToDecimal(n / 10);
      DigitsValueOfDecimal(n / 10);
    }
  }

  /** The digits of `n`, followed by something that is not a digit, parse as `n`. */
  lemma ParseDigitsOfDecimal(n: nat, rest: string)
    requires rest == [] || !IsDigit(rest[0])
    ensures ParseDigits(NatToDecimal(n) + rest) == Some(n)
  {
    var digits := NatToDecimal(n);
    var s := digits + rest;
    DigitRunPrefix(digits, rest);
    assert s[..|digits|] == digits;
    DigitsValueOfDecimal(n);
  }

  lemma DigitRunPrefix(digits: string, rest: string)
    requires forall i :: 0 <= i < |digits| ==> IsDigit(digits[i])
    requires rest == [] || !IsDigit(rest[0])
    ensures DigitPrefixLength(digits + rest) == |digits|
  {
    var s := digits + rest;
    assert forall i :: 0 <= i < |digits| ==> s[i] == digits[i];
    assert |digits| < |s| ==> s[|digits|] == rest[0];
  }

  /** `parseInt` of the decimal text of `n`, possibly followed by something that is not a digit. */
  lemma ParseIntOfDecimal(n: int, rest: string)
    requires rest == [] || !IsDigit(rest[0])
    ensures ParseInt(IntToDecimal(n) + rest) == Some(n)
  {
    if n < 0 {
      ParseIntOfNegative(n, rest);
    } else {
      var s := NatToDecimal(n) + rest;
      assert IsDigit(s[0]);
      assert LeadingSpaces(s) == 0;
      assert s[0..] == s;
      ParseDigitsOfDecimal(n, rest);
    }
  }

  lemma ParseIntOfNegative(n: int, rest: string)
    requires n < 0
    requires rest == [] || !IsDigit(rest[0])
    ensures ParseInt(IntToDecimal(n) + rest) == Some(n)
  {
    var unsigned := NatToDecimal(-n) + rest;
    var s := IntToDecimal(n) + rest;
    assert s == ['-'] + unsigned;
    assert LeadingSpaces(s) == 0;
    assert s[1..] == unsigned;
    ParseDigitsOfDecimal(-n, rest);
  }

  /** Reading back the content written for any state gives that state. */
  lemma ReadBackWritten(state: int)
    ensures ReadState(Ok(WriteContent(state))) == state
  {
  }

  /** The state a command leaves in the file: `1` exactly for `ON`, `0` otherwise. */
  lemma CommandContent(payload: string)
    ensures WriteContent(StateFromPayload(payload)) == (if payload == "ON" then "1" else "0")
  {
  }

  /**
   * A command, written to the file, read back and published: `ON` comes
   * back as `ON`, and every other payload (`OFF`, but also `on`) as `OFF`.
   */
  lemma CommandEcho(payload: string)
    ensures StateMessage(ReadState(Ok(WriteContent(StateFromPayload(payload)))))
         == (if payload == "ON" then "ON" else "OFF")
  {
    ReadBackWritten(StateFromPayload(payload));
  }

  /** For `ON` and `OFF`, the payloads the bridge publishes, the round trip is the identity. */
  lemma PayloadRoundTrip(payload: string)
    requires payload == "ON" || payload == "OFF"
    ensures StateMessage(ReadState(Ok(WriteContent(StateFromPayload(payload))))) == payload
  {
    CommandEcho(payload);
  }

  /** The state published is `ON` exactly when the file holds a number that parses to 1. */
  lemma OnExactlyForOne(read: ReadResult)
    ensures StateMessage(ReadState(read)) == "ON" <==> read.Ok? && ParseInt(read.content) == Some(1)
  {
  }

  /**
   * The read is not clamped to 0 and 1: `2` and `-1` are forwarded as they
   * are, and both publish `OFF`.
   */
  lemma ReadStateNotClamped()
    ensures ReadState(Ok("2")) == 2 && StateMessage(ReadState(Ok("2"))) == "OFF"
    ensures ReadState(Ok("-1")) == -1 && StateMessage(ReadState(Ok("-1"))) == "OFF"
  {
    ParseIntOfDecimal(2, "");
    assert IntToDecimal(2) + "" == "2";
    ParseIntOfDecimal(-1, "");
    assert IntToDecimal(-1) + "" == "-1";
  }

  /** Leading white space and trailing text around the number are ignored. */
  lemma ReadStateLenient()
    ensures ReadState(Ok(" 1\n")) == 1
  {
    var s := " 1\n";
    ParseIntOfDecimal(1, "\n");
    assert IntToDecimal(1) + "\n" == "1\n" == s[1..];
    assert LeadingSpaces(s[1..]) == 0;
    assert LeadingSpaces(s) == 1;
    assert s[1..][0..] == s[1..];
  }

  /** Content with no number in front falls back to 0, as does a read error. */
  lemma ReadStateFallback()
    ensures ReadState(Ok("")) == 0
    ensures ReadState(Ok("ON")) == 0
    ensures ReadState(Ok("- 1")) == 0
    ensures ReadState(Err) == 0
  {
    assert LeadingSpaces("ON") == 0 && "ON"[0..] == "ON";
    assert LeadingSpaces("- 1") == 0 && "- 1"[1..] == " 1";
  }
}
