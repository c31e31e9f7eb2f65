/**
 * The two menu decoders: a number typed at a menu becomes one of three
 * choices, or an error message naming the number.
 */
module Menu {

  /** An unsigned 8-bit number, the type both decoders take. */
  newtype u8 = n: int | 0 <= n < 256

  /** The choices of the main menu. */
  datatype MainMenuOption = NewGame | Continue | Exit

  /** The choices at the action prompt of a round. */
  datatype InGameOption = Hit | Stand | DoubleDown

  /** A decoded choice, or the message the decoder fails with. */
  datatype Result<T> = Ok(value: T) | Err(message: string)

  /** The character of a decimal digit. */
  function DigitChar(d: nat): (c: char)
    requires d < 10
    ensures '0' <= c <= '9' && c as int - '0' as int == d
  {
    ['0', '1', '2', '3', '4', '5', '6', '7', '8', '9'][d]
  }

  /** The decimal spelling of n, without leading zeros, as `format!` writes it. */
  function Decimal(n: nat): (s: string)
    ensures |s| >= 1
    ensures n < 10 <==> |s| == 1
    ensures s[|s| - 1] == DigitChar(n % 10)
  {
    if n < 10 then [DigitChar(n)] else Decimal(n / 10) + [DigitChar(n % 10)]
  }

  /** The decimal spelling is all digits. */
  lemma {:induction false} DecimalDigits(n: nat)
    ensures forall i :: 0 <= i < |Decimal(n)| ==> '0' <= Decimal(n)[i] <= '9'
  {
    if n >= 10 {
      DecimalDigits(n / 10);
      assert Decimal(n) == Decimal(n / 10) + [DigitChar(n % 10)];
    }
  }

  /** Different numbers are spelt differently. */
  lemma {:induction false} DecimalInjective(a: nat, b: nat)
    requires Decimal(a) == Decimal(b)
    ensures a == b
  {
    var s := Decimal(a);
    assert a % 10 == b % 10 by {
      assert DigitChar(a % 10) == DigitChar(b % 10);
    }
    if a >= 10 {
      assert Decimal(a / 10) == s[..|s| - 1] == Decimal(b / 10);
      DecimalInjective(a / 10, b / 10);
    }
  }

  /**
   * The error message both decoders give for a number without an option:
   * a fixed text followed by the number's digits.
   */
  function NoOption(num: u8): (m: string)
    ensures |m| > 21 && m[..21] == "No option for number "
    ensures forall i :: 21 <= i < |m| ==> '0' <= m[i] <= '9'
    ensures m[|m| - 1] == DigitChar(num as nat % 10)
  {
    DecimalDigits(num as nat);
    "No option for number " + Decimal(num as nat)
  }

  /** The message names the number: different numbers give different messages. */
  lemma NoOptionNamesNumber(a: u8, b: u8)
    requires NoOption(a) == NoOption(b)
    ensures a == b
  {
    var prefix := "No option for number ";
    assert NoOption(a)[|prefix|..] == Decimal(a as nat);
    assert NoOption(b)[|prefix|..] == Decimal(b as nat);
    DecimalInjective(a as nat, b as nat);
  }

  /** Decode a main-menu number: 1 new game, 2 continue, 3 exit. */
  function MainMenuTryFrom(num: u8): (r: Result<MainMenuOption>)
    ensures r.Ok? <==> 1 <= num <= 3
    ensures r.Ok? ==> MainMenuNumber(r.value) == num
    ensures r.Err? ==> r.message == NoOption(num)
  {
    match num
    case 1 => Ok(NewGame)
    case 2 => Ok(Continue)
    case 3 => Ok(Exit)
    case _ => Err(NoOption(num))
  }

  /** The number that selects a main-menu choice. */
  function MainMenuNumber(o: MainMenuOption): u8
  {
    match o
    case NewGame => 1
    case Continue => 2
    case Exit => 3
  }

  /** Decode an action number: 1 hit, 2 stand, 3 double down. */
  function InGameTryFrom(num: u8): (r: Result<InGameOption>)
    ensures r.Ok? <==> 1 <= num <= 3
    ensures r.Ok? ==> InGameNumber(r.value) == num
    ensures r.Err? ==> r.message == NoOption(num)
  {
    match num
    case 1 => Ok(Hit)
    case 2 => Ok(Stand)
    case 3 => Ok(DoubleDown)
    case _ => Err(NoOption(num))
  }

  /** The number that selects an action. */
  function InGameNumber(o: InGameOption): u8
  {
    match o
    case Hit => 1
    case Stand => 2
    case DoubleDown => 3
  }

  /** Every main-menu choice is decoded from its own number, so the decoder is onto. */
  lemma MainMenuRoundTrip(o: MainMenuOption)
    ensures MainMenuTryFrom(MainMenuNumber(o)) == Ok(o)
  {
  }

  /** Every action is decoded from its own number, so the decoder is onto. */
  lemma InGameRoundTrip(o: InGameOption)
    ensures InGameTryFrom(InGameNumber(o)) == Ok(o)
  {
  }

  /** Distinct accepted numbers give distinct main-menu choices. */
  lemma MainMenuInjective(a: u8, b: u8)
    requires MainMenuTryFrom(a).Ok? && MainMenuTryFrom(b).Ok?
    requires MainMenuTryFrom(a) == MainMenuTryFrom(b)
    ensures a == b
  {
  }

  /** Distinct accepted numbers give distinct actions. */
  lemma InGameInjective(a: u8, b: u8)
    requires InGameTryFrom(a).Ok? && InGameTryFrom(b).Ok?
    requires InGameTryFrom(a) == InGameTryFrom(b)
    ensures a == b
  {
  }

  /** Any two numbers decode to the same result only when they are the same number, errors included. */
  lemma DecodersInjective(a: u8, b: u8)
    ensures MainMenuTryFrom(a) == MainMenuTryFrom(b) ==> a == b
    ensures InGameTryFrom(a) == InGameTryFrom(b) ==> a == b
  {
    if MainMenuTryFrom(a) == MainMenuTryFrom(b) && MainMenuTryFrom(a).Err? {
      NoOptionNamesNumber(a, b);
    }
    if InGameTryFrom(a) == InGameTryFrom(b) && InGameTryFrom(a).Err? {
      NoOptionNamesNumber(a, b);
    }
  }

  /** 0 and the numbers from 4 to 255 have no option. */
  lemma OutOfRangeRejected()
    ensures MainMenuTryFrom(0) == Err("No option for number 0")
    ensures InGameTryFrom(0) == Err("No option for number 0")
    ensures forall n: u8 :: 4 <= n ==> MainMenuTryFrom(n).Err? && InGameTryFrom(n).Err?
  {
  }

  /** The largest u8 is named in full in the message. */
  lemma LargestRejected()
    ensures MainMenuTryFrom(255) == Err("No option for number 255")
    ensures InGameTryFrom(255) == Err("No option for number 255")
  {
    assert Decimal(2) == "2";
    assert Decimal(25) == Decimal(2) + [DigitChar(5)] == "25";
    assert Decimal(255) == Decimal(25) + [DigitChar(5)] == "255";
    assert NoOption(255) == "No option for number 255";
  }
}
