/** client/src/utils/auth.ts: the browser's e-mail and password patterns and the
    decision chain of `mockLogin`. */
module AuthUtils {
  import opened Common
  import AuthRoutes

  // ---------------------------------------------------------------------------
  // validateEmail: /^[^\s@]+@[^\s@]+\.[^\s@]+$/

  /** `[^\s@]`. */
  predicate Plain(c: char) {
    !IsSpace(c) && c != '@'
  }

  predicate AllPlain(s: string) {
    forall k :: 0 <= k < |s| ==> Plain(s[k])
  }

  /** What the pattern matches, read off the expression: a plain local part, '@',
      then a plain domain with a '.' that has plain text on both sides. */
  ghost predicate MatchesEmailPattern(s: string) {
    exists i, j ::
      && 0 < i && i + 1 < j && j + 1 < |s|
      && s[i] == '@' && s[j] == '.'
      && AllPlain(s[..i]) && AllPlain(s[i + 1..])
  }

  /** The position of the first '@', if any. */
  function FirstAt(s: string): (r: Option<nat>)
    ensures r.Some? ==> r.value < |s| && s[r.value] == '@' && forall k :: 0 <= k < r.value ==> s[k] != '@'
    ensures r.None? ==> forall k :: 0 <= k < |s| ==> s[k] != '@'
  {
    if s == [] then None
    else if s[0] == '@' then Some(0)
    else match FirstAt(s[1..])
      case None => None
      case Some(k) => Some(k + 1)
  }

  /** A '.' with text on both sides. */
  predicate HasInnerDot(d: string) {
    exists j :: 0 < j < |d| - 1 && d[j] == '.'
  }

  /** The check as a scan: split at the first '@', then look at each side. */
  function ValidEmail(s: string): (b: bool)
    ensures b <==> MatchesEmailPattern(s)
  {
    match FirstAt(s)
    case None =>
      assert !MatchesEmailPattern(s);
      false
    case Some(i) =>
      var b := i > 0 && AllPlain(s[..i]) && AllPlain(s[i + 1..]) && HasInnerDot(s[i + 1..]);
      ScanFindsPattern(s, i);
      b
  }

  /** With the first '@' at `i`, the scan and the pattern agree. */
  lemma ScanFindsPattern(s: string, i: nat)
    requires FirstAt(s) == Some(i)
    ensures MatchesEmailPattern(s) <==>
      i > 0 && AllPlain(s[..i]) && AllPlain(s[i + 1..]) && HasInnerDot(s[i + 1..])
  {
    var d := s[i + 1..];
    if i > 0 && AllPlain(s[..i]) && AllPlain(d) && HasInnerDot(d) {
      var j :| 0 < j < |d| - 1 && d[j] == '.';
      assert s[i + 1 + j] == d[j];
    }
    if MatchesEmailPattern(s) {
      var i', j :| && 0 < i' && i' + 1 < j && j + 1 < |s|
                   && s[i'] == '@' && s[j] == '.'
                   && AllPlain(s[..i']) && AllPlain(s[i' + 1..]);
      forall k | 0 <= k < i' ensures s[k] != '@' {
        assert s[..i'][k] == s[k];
      }
      PatternAtIsFirst(s, i, i');
      assert d[j - i - 1] == '.';
    }
  }

  /** An '@' with none before it is the first one. */
  lemma PatternAtIsFirst(s: string, i: nat, i': nat)
    requires FirstAt(s) == Some(i)
    requires i' < |s| && s[i'] == '@' && forall k :: 0 <= k < i' ==> s[k] != '@'
    ensures i == i'
  {
  }

  /** In words: no white space anywhere, exactly one '@', a non-empty local part,
      and a '.' in the domain with text on both sides. */
  lemma ValidEmailIff(s: string)
    ensures ValidEmail(s) <==>
      && (forall k :: 0 <= k < |s| ==> !IsSpace(s[k]))
      && (exists i :: 0 < i < |s| && s[i] == '@' && forall k :: 0 <= k < |s| && s[k] == '@' ==> k == i)
      && (exists i, j :: 0 < i && i + 1 < j && j + 1 < |s| && s[i] == '@' && s[j] == '.')
  {
    if ValidEmail(s) {
      var i, j :| && 0 < i && i + 1 < j && j + 1 < |s|
                  && s[i] == '@' && s[j] == '.'
                  && AllPlain(s[..i]) && AllPlain(s[i + 1..]);
      PlainAroundAt(s, i);
    }
    var oneAt := exists i :: 0 < i < |s| && s[i] == '@' && forall k :: 0 <= k < |s| && s[k] == '@' ==> k == i;
    var dot := exists i, j :: 0 < i && i + 1 < j && j + 1 < |s| && s[i] == '@' && s[j] == '.';
    if (forall k :: 0 <= k < |s| ==> !IsSpace(s[k])) && oneAt && dot {
      var i, j :| 0 < i && i + 1 < j && j + 1 < |s| && s[i] == '@' && s[j] == '.';
      var i' :| 0 < i' < |s| && s[i'] == '@' && forall k :: 0 <= k < |s| && s[k] == '@' ==> k == i';
      assert i == i';
      OnlyAtSplitsPlain(s, i);
      assert MatchesEmailPattern(s);
    }
  }

  /** Plain text on both sides of an '@' means no space at all and no other '@'. */
  lemma PlainAroundAt(s: string, i: nat)
    requires i < |s| && AllPlain(s[..i]) && AllPlain(s[i + 1..])
    ensures forall k :: 0 <= k < |s| ==> !IsSpace(s[k]) || k == i
    ensures forall k :: 0 <= k < |s| && s[k] == '@' ==> k == i
  {
    forall k | 0 <= k < |s| && k != i ensures Plain(s[k]) {
      if k < i {
        assert s[..i][k] == s[k];
      } else {
        assert s[i + 1..][k - i - 1] == s[k];
      }
    }
  }

  /** No space and a single '@' leave plain text on both sides of it. */
  lemma OnlyAtSplitsPlain(s: string, i: nat)
    requires i < |s|
    requires forall k :: 0 <= k < |s| ==> !IsSpace(s[k])
    requires forall k :: 0 <= k < |s| && s[k] == '@' ==> k == i
    ensures AllPlain(s[..i]) && AllPlain(s[i + 1..])
  {
    var local, domain := s[..i], s[i + 1..];
    forall k | 0 <= k < |local| ensures Plain(local[k]) {
      assert local[k] == s[k];
    }
    forall k | 0 <= k < |domain| ensures Plain(domain[k]) {
      assert domain[k] == s[i + 1 + k];
    }
  }

  // ---------------------------------------------------------------------------
  // validatePassword: /^(?=.*[A-Za-z])(?=.*\d)(?=.*[^A-Za-z\d]).{8,}$/

  /** The characters `.` does not match. */
  predicate LineTerminator(c: char) {
    c == '\n' || c == '\r' || c == '\U{2028}' || c == '\U{2029}'
  }

  predicate IsAsciiLetter(c: char) {
    'a' <= c <= 'z' || 'A' <= c <= 'Z'
  }

  /** Eight or more characters, none a line terminator (`.{8,}` must span the whole
      text), with a letter, a digit, and a character that is neither. */
  predicate ValidPassword(p: string) {
    && |p| >= 8
    && (forall k :: 0 <= k < |p| ==> !LineTerminator(p[k]))
    && (exists k :: 0 <= k < |p| && IsAsciiLetter(p[k]))
    && (exists k :: 0 <= k < |p| && IsDigit(p[k]))
    && (exists k :: 0 <= k < |p| && !IsAsciiLetter(p[k]) && !IsDigit(p[k]))
  }

  /** Every password the browser accepts meets the server's `isLength({ min: 6 })`
      for register and change-password, but not the other way round: the server
      takes "abcdef", which the browser refuses. */
  lemma ClientPasswordStricterThanServer(p: string)
    ensures ValidPassword(p) ==> AuthRoutes.AtLeastSix(Some(p))
    ensures AuthRoutes.AtLeastSix(Some("abcdef")) && !ValidPassword("abcdef")
  {
    var w := "abcdef";
    assert |w| < 8;
  }

  // ---------------------------------------------------------------------------
  // mockLogin

  datatype MockLogin = Failure(error: string) | Success(email: string, name: string)

  const InvalidEmailMessage := "Invalid email format"
  const WeakPasswordMessage := "Password must be at least 8 characters, and include at least 1 letter, 1 number, and 1 symbol"

  /** `s.split('@')[0]`: the text before the first '@', or all of it. */
  function BeforeAt(s: string): (r: string)
    ensures FirstAt(s).None? ==> r == s
    ensures FirstAt(s).Some? ==> r == s[..FirstAt(s).value]
  {
    match FirstAt(s)
    case None => s
    case Some(i) => s[..i]
  }

  /** The e-mail is checked before the password; a success names the user after the
      local part of the address, which is then the whole text before the only '@'. */
  function MockLoginResult(email: string, password: string): (r: MockLogin)
    ensures !ValidEmail(email) ==> r == Failure(InvalidEmailMessage)
    ensures ValidEmail(email) && !ValidPassword(password) ==> r == Failure(WeakPasswordMessage)
    ensures r.Success? <==> ValidEmail(email) && ValidPassword(password)
    ensures r.Success? ==>
      && r.email == email && r.name != []
      && |r.name| < |email| && email[..|r.name|] == r.name && email[|r.name|] == '@'
      && forall k :: 0 <= k < |r.name| ==> Plain(r.name[k])
  {
    if !ValidEmail(email) then Failure(InvalidEmailMessage)
    else if !ValidPassword(password) then Failure(WeakPasswordMessage)
    else
      var i := FirstAt(email).value;
      assert AllPlain(email[..i]);
      Success(email, BeforeAt(email))
  }
}
