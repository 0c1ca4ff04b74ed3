/** Format checks of the complaint form: the two submit-time validators
    (`/^\d{8}$/` for the phone number, `/^\d{12}$/` for the parcel barcode)
    and the two keystroke filters (`/^\d{0,8}$/`, `/^\d{0,12}$/`).
    All four are anchored regular expressions over a run of decimal digits;
    they are modelled by one matcher for `^\d{lo,hi}$`. */
module Validation {

  const PhoneLength: nat := 8
  const BarcodeLength: nat := 12

  /** `\d` of a JavaScript regular expression without the `u` flag: ASCII 0-9 only. */
  predicate IsDigit(c: char) {
    '0' <= c <= '9'
  }

  predicate AllDigits(s: string) {
    forall i :: 0 <= i < |s| ==> IsDigit(s[i])
  }

  /** Matches `s` against the anchored pattern `^\d{lo,hi}$`, one character at a time:
      each digit consumed lowers both repetition bounds. */
  function MatchesDigitRun(s: string, lo: nat, hi: nat): (r: bool)
    ensures r <==> lo <= |s| <= hi && AllDigits(s)
    decreases |s|
  {
    if s == [] then lo == 0
    else
      var rest := s[1..];
      assert forall i :: 0 <= i < |rest| ==> rest[i] == s[i + 1];
      0 < hi && IsDigit(s[0]) && MatchesDigitRun(rest, if lo == 0 then 0 else lo - 1, hi - 1)
  }

  /** `validatePhoneNumber`: exactly eight digits. */
  function ValidatePhoneNumber(value: string): (r: bool)
    ensures r <==> |value| == 8 && forall i :: 0 <= i < |value| ==> '0' <= value[i] <= '9'
  {
    MatchesDigitRun(value, PhoneLength, PhoneLength)
  }

  /** `validateColisBarcode`: exactly twelve digits. */
  function ValidateColisBarcode(value: string): (r: bool)
    ensures r <==> |value| == 12 && forall i :: 0 <= i < |value| ==> '0' <= value[i] <= '9'
  {
    MatchesDigitRun(value, BarcodeLength, BarcodeLength)
  }

  /** Keystroke filter of the phone field: zero to eight digits. */
  function AcceptsPhoneInput(value: string): (r: bool)
    ensures r <==> |value| <= 8 && forall i :: 0 <= i < |value| ==> '0' <= value[i] <= '9'
  {
    MatchesDigitRun(value, 0, PhoneLength)
  }

  /** Keystroke filter of the barcode field: zero to twelve digits. */
  function AcceptsBarcodeInput(value: string): (r: bool)
    ensures r <==> |value| <= 12 && forall i :: 0 <= i < |value| ==> '0' <= value[i] <= '9'
  {
    MatchesDigitRun(value, 0, BarcodeLength)
  }

  /** `n` copies of the digit zero. */
  function Zeros(n: nat): (z: string)
    ensures |z| == n && AllDigits(z)
  {
    if n == 0 then [] else Zeros(n - 1) + ['0']
  }

  /** A value passes the `^\d{0,n}$` filter exactly when it is a prefix of some
      `^\d{n}$` value: the filter lets through every partially typed valid value
      and nothing else. */
  lemma {:induction false} DigitFilterAcceptsExactlyPrefixes(s: string, n: nat)
    ensures MatchesDigitRun(s, 0, n) <==> exists t :: MatchesDigitRun(t, n, n) && s <= t
  {
    if MatchesDigitRun(s, 0, n) {
      var t := s + Zeros(n - |s|);
      assert forall i :: 0 <= i < |t| ==> IsDigit(t[i]) by {
        forall i | 0 <= i < |t| ensures IsDigit(t[i]) {
          if i >= |s| { assert t[i] == Zeros(n - |s|)[i - |s|]; }
        }
      }
      assert MatchesDigitRun(t, n, n) && s <= t;
    }
    if exists t :: MatchesDigitRun(t, n, n) && s <= t {
      var t :| MatchesDigitRun(t, n, n) && s <= t;
      assert forall i :: 0 <= i < |s| ==> s[i] == t[i];
    }
  }

  /** The phone keystroke filter accepts exactly the prefixes of valid phone numbers. */
  lemma PhoneFilterAcceptsExactlyPrefixes(s: string)
    ensures AcceptsPhoneInput(s) <==> exists t :: ValidatePhoneNumber(t) && s <= t
  {
    DigitFilterAcceptsExactlyPrefixes(s, PhoneLength);
    if exists t :: MatchesDigitRun(t, PhoneLength, PhoneLength) && s <= t {
      var t :| MatchesDigitRun(t, PhoneLength, PhoneLength) && s <= t;
      assert ValidatePhoneNumber(t);
    }
  }

  /** The barcode keystroke filter accepts exactly the prefixes of valid barcodes. */
  lemma BarcodeFilterAcceptsExactlyPrefixes(s: string)
    ensures AcceptsBarcodeInput(s) <==> exists t :: ValidateColisBarcode(t) && s <= t
  {
    DigitFilterAcceptsExactlyPrefixes(s, BarcodeLength);
    if exists t :: MatchesDigitRun(t, BarcodeLength, BarcodeLength) && s <= t {
      var t :| MatchesDigitRun(t, BarcodeLength, BarcodeLength) && s <= t;
      assert ValidateColisBarcode(t);
    }
  }
}
