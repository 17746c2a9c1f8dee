/** The two validators of src/lib/utils.ts. */
module Utils {
  import opened Text

  /** The character class `[0-9()\s-]`. */
  predicate PhoneChar(c: char) {
    IsDigit(c) || c == '(' || c == ')' || IsWhitespace(c) || c == '-'
  }

  predicate AllPhoneChars(s: string) {
    forall i :: 0 <= i < |s| ==> PhoneChar(s[i])
  }

  /** `[0-9()\s-]{7,20}` matched against the whole of `s`. */
  predicate ClassRun(s: string) {
    7 <= |s| <= 20 && AllPhoneChars(s)
  }

  /**
   * The language of `^\+?[0-9()\s-]{7,20}$`: a class run on its own, or a '+' followed by one.
   */
  predicate PhonePattern(s: string) {
    ClassRun(s) || (|s| > 0 && s[0] == '+' && ClassRun(s[1..]))
  }

  /** How many class characters follow position `from`, counting at most `limit` of them. */
  function ClassRunLength(s: string, from: nat, limit: nat): (n: nat)
    requires from <= |s|
    ensures n <= limit && from + n <= |s|
    ensures forall i :: from <= i < from + n ==> PhoneChar(s[i])
    ensures n < limit && from + n < |s| ==> !PhoneChar(s[from + n])
    decreases limit
  {
    if limit == 0 || from == |s| || !PhoneChar(s[from]) then 0
    else 1 + ClassRunLength(s, from + 1, limit - 1)
  }

  /**
   * `validatePhoneNumber`, as the regular expression runs: take the optional '+', match at most
   * twenty class characters, then require at least seven of them and the end of the text.
   */
  function ValidatePhoneNumber(phone: string): bool {
    var start := if |phone| > 0 && phone[0] == '+' then 1 else 0;
    var n := ClassRunLength(phone, start, 20);
    n >= 7 && start + n == |phone|
  }

  /** The scan accepts exactly the strings the pattern describes. */
  lemma ValidatePhoneNumberMatchesPattern(phone: string)
    ensures ValidatePhoneNumber(phone) <==> PhonePattern(phone)
  {
    var start := if |phone| > 0 && phone[0] == '+' then 1 else 0;
    var n := ClassRunLength(phone, start, 20);
    if ValidatePhoneNumber(phone) {
      if start == 0 {
        assert ClassRun(phone);
      } else {
        assert forall i :: 0 <= i < |phone[1..]| ==> phone[1..][i] == phone[i + 1];
        assert ClassRun(phone[1..]);
      }
    }
  }

  /** An accepted number is 7 to 21 characters long and holds no letter, and no '+' past the front. */
  lemma AcceptedPhoneShape(phone: string)
    requires ValidatePhoneNumber(phone)
    ensures 7 <= |phone| <= 21
    ensures forall i :: 0 <= i < |phone| ==> !('a' <= phone[i] <= 'z') && !('A' <= phone[i] <= 'Z')
    ensures forall i :: 0 < i < |phone| ==> phone[i] != '+'
  {
    ValidatePhoneNumberMatchesPattern(phone);
    if !ClassRun(phone) {
      var rest := phone[1..];
      forall i | 0 < i < |phone| ensures PhoneChar(phone[i]) {
        assert rest[i - 1] == phone[i];
      }
    }
  }

  /** No digit is needed: seven dashes or seven spaces (any mix, up to twenty) pass. */
  lemma DashesAndSpacesAccepted(phone: string)
    requires 7 <= |phone| <= 20
    requires forall i :: 0 <= i < |phone| ==> phone[i] == '-' || phone[i] == ' '
    ensures ValidatePhoneNumber(phone)
  {
    ValidatePhoneNumberMatchesPattern(phone);
    assert ClassRun(phone);
  }

  /** The MIME types an uploaded image may have. */
  const ValidImageTypes: seq<string> := ["image/jpeg", "image/png", "image/gif", "image/webp"]

  /** `isValidImage`, on the file's type. */
  predicate IsValidImage(fileType: string) {
    fileType in ValidImageTypes
  }

  /** Exactly JPEG, PNG, GIF and WebP are accepted; SVG, for one, is not. */
  lemma IsValidImageExactly(fileType: string)
    ensures IsValidImage(fileType) <==>
      fileType == "image/jpeg" || fileType == "image/png" || fileType == "image/gif" || fileType == "image/webp"
    ensures !IsValidImage("image/svg+xml")
  {
  }
}
