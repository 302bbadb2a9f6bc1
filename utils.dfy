/**
 * String and bit helpers: phone-number clean-up and validation for
 * Algerian numbers, and the Dart-to-CSS colour byte order.
 */
module Utils {
  import opened Wrappers
  import opened JsBuiltins

  // ---------------------------------------------------------------------
  // Colours

  const TwoTo32: int := 0x1_0000_0000

  /** ECMAScript ToUint32 of an integral number: its residue modulo 2^32. */
  function ToUint32(x: int): (r: int)
    ensures 0 <= r < TwoTo32 && (r - x) % TwoTo32 == 0
  {
    x % TwoTo32
  }

  /** The signed 32-bit integer whose two's-complement bits are `b`. */
  function Signed(b: bv32): (r: int)
    ensures -0x8000_0000 <= r < 0x8000_0000
    ensures ToUint32(r) == b as int
  {
    var n := b as int;
    ToUint32OfWord(n);
    if n < 0x8000_0000 then n else n - TwoTo32
  }

  /** A 32-bit word, and the word less 2^32, have the word as residue. */
  lemma ToUint32OfWord(x: int)
    requires 0 <= x < TwoTo32
    ensures ToUint32(x) == x && ToUint32(x - TwoTo32) == x
  {
  }

  /** The unsigned 32-bit pattern the bitwise operators see for `x`. */
  function Bits(x: int): bv32 {
    ToUint32(x) as bv32
  }

  /** Moves the alpha byte of a Dart colour `0xAARRGGBB` to the end,
      `0xRRGGBBAA`. */
  function AlphaLast(bits: bv32): bv32 {
    var alpha := (bits >> 24) & 0xff;
    var rgb := bits & 0xff_ffff;
    (rgb << 8) | alpha
  }

  /** The colour conversion: JavaScript's `>>`, `&`, `<<` and `|` read
      their operand as a 32-bit pattern and yield a signed 32-bit result
      (the arithmetic shift's sign bits are masked off by `& 0xff`). */
  function ConvertDartColorToCssNumber(dartColor: int): (r: int)
    ensures -0x8000_0000 <= r < 0x8000_0000
  {
    Signed(AlphaLast(Bits(dartColor)))
  }

  /** Reading a signed 32-bit result back as unsigned bits recovers them. */
  lemma SignedBits(b: bv32)
    ensures Bits(Signed(b)) == b
  {
    assert ToUint32(Signed(b)) == b as int;
  }

  /** Moving the alpha byte is a left rotation by eight bits. */
  lemma AlphaLastIsRotation(bits: bv32)
    ensures AlphaLast(bits) & 0xff == bits >> 24
    ensures AlphaLast(bits) >> 8 == bits & 0xff_ffff
    ensures AlphaLast(bits) == bits.RotateLeft(8)
  {
  }

  /** The result's low byte is the input's high byte and its upper three
      bytes are the input's lower three: a left rotation by eight bits. */
  lemma CssNumberLayout(dartColor: int)
    ensures Bits(ConvertDartColorToCssNumber(dartColor)) & 0xff == Bits(dartColor) >> 24
    ensures Bits(ConvertDartColorToCssNumber(dartColor)) >> 8 == Bits(dartColor) & 0xff_ffff
    ensures Bits(ConvertDartColorToCssNumber(dartColor)) == Bits(dartColor).RotateLeft(8)
  {
    SignedBits(AlphaLast(Bits(dartColor)));
    AlphaLastIsRotation(Bits(dartColor));
  }

  // ---------------------------------------------------------------------
  // Phone numbers

  /** The cleaned-up number, stated without the clean-up's steps: the
      digits of `phone`, with a '0' in front unless they start with one. */
  function FixPhone(phone: string): string {
    var digits := KeepDigits(phone);
    if StartsWith(digits, "0") then digits else "0" + digits
  }

  /** Trims `phone`, strips every non-digit, and prefixes '0' when missing. */
  method TryFixPhoneNumber(input: string) returns (phone: string)
    ensures phone == FixPhone(input)
    ensures AllDigits(phone) && |phone| >= 1 && phone[0] == '0'
  {
    phone := input;
    phone := Trim(phone);
    phone := KeepDigits(phone);
    if !StartsWith(phone, "0") {
      phone := "0" + phone;
    }
    KeepDigitsOfTrim(input);
    FixPhoneShape(input);
  }

  lemma FixPhoneShape(phone: string)
    ensures AllDigits(FixPhone(phone)) && |FixPhone(phone)| >= 1 && FixPhone(phone)[0] == '0'
    ensures KeepDigits(phone) == [] ==> FixPhone(phone) == "0"
    ensures StartsWith(KeepDigits(phone), "0") <==> FixPhone(phone) == KeepDigits(phone)
  {
    KeepDigitsShape(phone);
    var digits := KeepDigits(phone);
    if !StartsWith(digits, "0") {
      assert |"0" + digits| != |digits|;
    }
  }

  /** Cleaning up a cleaned-up number changes nothing. */
  lemma FixPhoneIdempotent(phone: string)
    ensures FixPhone(FixPhone(phone)) == FixPhone(phone)
  {
    FixPhoneShape(phone);
    KeepDigitsShape(FixPhone(phone));
  }

  /** Why `ValidatePhoneNumber` rejects a number. */
  datatype PhoneError =
    | Incomplete                          // just "0"
    | Empty
    | DigitsOnly                          // a character that is not a digit
    | BadPrefix                           // not 05, 06, 07 or 02
    | TooLong(required: int, excess: int)
    | MissingOne
    | MissingTwo
    | Missing(count: int)

  /** The (Arabic) message `validatePhoneNumber` returns for each error. */
  function Message(e: PhoneError): string {
    match e
    case Incomplete => "اكمل رقم الهاتف"
    case Empty => "رقم الهاتف لا يمكن أن يكون فارغاً."
    case DigitsOnly => "رقم الهاتف يجب أن يحتوي فقط على أرقام."
    case BadPrefix => "يجب أن يبدأ بـ 05, 06, 07, أو 02"
    case TooLong(required, excess) => "عدد الأرقام زائد عن " + IntToString(required) + " رقماً بـ " + IntToString(excess)
    case MissingOne => "ينقصك رقم واحد"
    case MissingTwo => "ينقصك رقمان"
    case Missing(count) => "ينقصك " + IntToString(count) + " أرقام"
  }

  /** The error for a number of `actualLength` digits where `requiredLength` are needed. */
  function GetLengthError(requiredLength: int, actualLength: int): (e: PhoneError)
    ensures e.TooLong? <==> actualLength > requiredLength
    ensures e.TooLong? ==> e.required == requiredLength && e.excess == actualLength - requiredLength
    ensures e == MissingOne <==> actualLength == requiredLength - 1
    ensures e == MissingTwo <==> actualLength == requiredLength - 2
    ensures e.Missing? <==> actualLength == requiredLength || actualLength <= requiredLength - 3
    ensures e.Missing? ==> e.count == requiredLength - actualLength
  {
    var difference := actualLength - requiredLength;
    if difference > 0 then TooLong(requiredLength, difference)
    else
      var missingDigits := -difference;
      if missingDigits == 1 then MissingOne
      else if missingDigits == 2 then MissingTwo
      else Missing(missingDigits)
  }

  predicate IsMobilePrefixed(phone: string) {
    StartsWith(phone, "05") || StartsWith(phone, "06") || StartsWith(phone, "07")
  }

  predicate HasValidPrefix(phone: string) {
    IsMobilePrefixed(phone) || StartsWith(phone, "02")
  }

  /** The phone pattern `^0(5|6|7)\d{8}$|^0(2)\d{7}$` the sign-up form applies. */
  predicate MatchesPhonePattern(s: string) {
    || (|s| == 10 && s[0] == '0' && (s[1] == '5' || s[1] == '6' || s[1] == '7') && AllDigits(s[2..]))
    || (|s| == 9 && s[0] == '0' && s[1] == '2' && AllDigits(s[2..]))
  }

  /** Validates a phone number, checking in this order: just "0", empty,
      a non-digit, the prefix, then the length (10 digits for 05/06/07,
      9 for 02). `None` means valid. */
  function ValidatePhoneNumber(phone: string): (r: Option<PhoneError>)
    ensures r == None <==> MatchesPhonePattern(phone)
    ensures r == Some(Incomplete) <==> phone == "0"
    ensures r == Some(Empty) <==> phone == ""
    ensures r == Some(DigitsOnly) <==> phone != "" && !AllDigits(phone)
    ensures r == Some(BadPrefix) <==> phone != "0" && phone != "" && AllDigits(phone) && !HasValidPrefix(phone)
    ensures AllDigits(phone) && IsMobilePrefixed(phone) && |phone| != 10 ==> r == Some(GetLengthError(10, |phone|))
    ensures AllDigits(phone) && StartsWith(phone, "02") && |phone| != 9 ==> r == Some(GetLengthError(9, |phone|))
  {
    if phone == "0" then Some(Incomplete)
    else if phone == "" then Some(Empty)
    else if !AllDigits(phone) then Some(DigitsOnly)
    else if !HasValidPrefix(phone) then Some(BadPrefix)
    else if IsMobilePrefixed(phone) then
      (if |phone| != 10 then Some(GetLengthError(10, |phone|)) else None)
    else if |phone| != 9 then Some(GetLengthError(9, |phone|))
    else None
  }

  /** What `validatePhoneNumber` returns: an error message, or nothing
      (`null`) for a valid number. */
  function PhoneValidationMessage(phone: string): (r: Option<string>)
    ensures r == None <==> MatchesPhonePattern(phone)
    ensures phone == "" ==> r == Some(Message(Empty))
  {
    match ValidatePhoneNumber(phone)
    case None => None
    case Some(e) => Some(Message(e))
  }

  /** A cleaned-up number is never reported empty or as containing a non-digit. */
  lemma ValidateFixedPhone(phone: string)
    ensures ValidatePhoneNumber(FixPhone(phone)) != Some(Empty)
    ensures ValidatePhoneNumber(FixPhone(phone)) != Some(DigitsOnly)
  {
    FixPhoneShape(phone);
  }
}
