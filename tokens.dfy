/** The generated secrets of the operations helpers: `generate_auth_token`
    (`binascii.hexlify(urandom(n)).decode()`) and `generate_secure_password`
    (`secrets.choice` over letters, digits and punctuation). The random
    bytes and the random choices are parameters. */
module Tokens {
  import opened Wrappers

  newtype Byte = b: int | 0 <= b < 256

  /** The lower-case hexadecimal digit of `d`. */
  function HexDigit(d: int): (c: char)
    requires 0 <= d < 16
    ensures IsHexDigit(c)
  {
    if d < 10 then ('0' as int + d) as char else ('a' as int + d - 10) as char
  }

  /** The characters `hexlify` writes. */
  predicate IsHexDigit(c: char) {
    ('0' <= c <= '9') || ('a' <= c <= 'f')
  }

  /** The value `unhexlify` reads from a digit of either case. */
  function HexValue(c: char): Option<int> {
    if '0' <= c <= '9' then Some(c as int - '0' as int)
    else if 'a' <= c <= 'f' then Some(c as int - 'a' as int + 10)
    else if 'A' <= c <= 'F' then Some(c as int - 'A' as int + 10)
    else None
  }

  lemma HexDigitValue(d: int)
    requires 0 <= d < 16
    ensures HexValue(HexDigit(d)) == Some(d)
  {
  }

  /** `binascii.hexlify`: two lower-case digits per byte, high nibble first. */
  function Hexlify(bytes: seq<Byte>): (s: string)
    ensures |s| == 2 * |bytes|
    ensures forall i :: 0 <= i < |s| ==> IsHexDigit(s[i])
  {
    if bytes == [] then []
    else
      var b := bytes[0] as int;
      [HexDigit(b / 16), HexDigit(b % 16)] + Hexlify(bytes[1..])
  }

  /** `binascii.unhexlify`: `None` where it raises (odd length or a
      character that is not a hexadecimal digit). */
  function Unhexlify(s: string): Option<seq<Byte>>
    decreases |s|
  {
    if s == [] then Some([])
    else if |s| == 1 then None
    else
      match (HexValue(s[0]), HexValue(s[1]), Unhexlify(s[2..]))
      case (Some(hi), Some(lo), Some(rest)) => Some([(hi * 16 + lo) as Byte] + rest)
      case _ => None
  }

  /** Hexlifying loses nothing: the bytes are read back. */
  lemma {:induction false} UnhexlifyHexlify(bytes: seq<Byte>)
    ensures Unhexlify(Hexlify(bytes)) == Some(bytes)
  {
    if bytes != [] {
      var b := bytes[0] as int;
      HexDigitValue(b / 16);
      HexDigitValue(b % 16);
      var s := Hexlify(bytes);
      assert s[2..] == Hexlify(bytes[1..]);
      UnhexlifyHexlify(bytes[1..]);
      assert [bytes[0]] + bytes[1..] == bytes;
    }
  }

  /** `generate_auth_token(length)` for the bytes `urandom(length)` gave. */
  function GenerateAuthToken(length: nat, random: seq<Byte>): (token: string)
    requires |random| == length
    ensures |token| == 2 * length
    ensures forall i :: 0 <= i < |token| ==> IsHexDigit(token[i])
    ensures Unhexlify(token) == Some(random)
  {
    UnhexlifyHexlify(random);
    Hexlify(random)
  }

  /** `string.ascii_letters + string.digits + string.punctuation`. */
  const AsciiLowercase: string := "abcdefghijklmnopqrstuvwxyz"
  const AsciiUppercase: string := "ABCDEFGHIJKLMNOPQRSTUVWXYZ"
  const AsciiLetters: string := AsciiLowercase + AsciiUppercase
  const Digits: string := "0123456789"
  const Punctuation: string := "!\"#$%&'()*+,-./:;<=>?@[\\]^_`{|}~"
  const PasswordAlphabet: string := AsciiLetters + Digits + Punctuation

  /** Printable ASCII other than the space. */
  predicate IsPasswordChar(c: char) {
    '!' <= c <= '~'
  }

  lemma LowercasePrintable()
    ensures forall i :: 0 <= i < |AsciiLowercase| ==> IsPasswordChar(AsciiLowercase[i])
  {
  }

  lemma UppercasePrintable()
    ensures forall i :: 0 <= i < |AsciiUppercase| ==> IsPasswordChar(AsciiUppercase[i])
  {
  }

  lemma DigitsAndPunctuationPrintable()
    ensures forall i :: 0 <= i < |Digits| ==> IsPasswordChar(Digits[i])
    ensures forall i :: 0 <= i < |Punctuation| ==> IsPasswordChar(Punctuation[i])
  {
  }

  /** The 94 characters are all printable and none is a space. */
  lemma PasswordAlphabetShape()
    ensures |PasswordAlphabet| == 94
    ensures forall i :: 0 <= i < |PasswordAlphabet| ==> IsPasswordChar(PasswordAlphabet[i])
  {
    LowercasePrintable();
    UppercasePrintable();
    DigitsAndPunctuationPrintable();
    var n := |AsciiLetters| + |Digits|;
    forall i | 0 <= i < |PasswordAlphabet| ensures IsPasswordChar(PasswordAlphabet[i]) {
      if i < |AsciiLowercase| {
        assert PasswordAlphabet[i] == AsciiLowercase[i];
      } else if i < |AsciiLetters| {
        assert PasswordAlphabet[i] == AsciiUppercase[i - |AsciiLowercase|];
      } else if i < n {
        assert PasswordAlphabet[i] == Digits[i - |AsciiLetters|];
      } else {
        assert PasswordAlphabet[i] == Punctuation[i - n];
      }
    }
  }

  /** `generate_secure_password(length)`: `draws` are the indices
      `secrets.choice` picked, one per character (none for a length below
      one, as `range` gives). */
  function GenerateSecurePassword(length: int, draws: seq<nat>): (password: string)
    requires |draws| == if length < 0 then 0 else length
    requires forall i :: 0 <= i < |draws| ==> draws[i] < |PasswordAlphabet|
    ensures |password| == |draws|
    ensures forall i :: 0 <= i < |password| ==> password[i] == PasswordAlphabet[draws[i]]
    ensures forall i :: 0 <= i < |password| ==> IsPasswordChar(password[i])
  {
    PasswordAlphabetShape();
    seq(|draws|, i requires 0 <= i < |draws| => PasswordAlphabet[draws[i]])
  }
}
