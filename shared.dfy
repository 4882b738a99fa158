/** The string predicates every form uses (`validateEmail`, `validatePhone`,
    `validatePassword`) and the rule `setupNavbar` uses to mark the link of
    the current page. Each computed predicate is proved equal to a
    declarative description of the strings it accepts. */
module Shared {
  import opened Util
  import opened Decimal

  // ===== Character classes =====

  predicate IsLetter(c: char) {
    'A' <= c <= 'Z' || 'a' <= c <= 'z'
  }

  /** `[\w.-]`: ASCII letters, digits, underscore, dot and hyphen. */
  predicate IsEmailChar(c: char) {
    IsLetter(c) || IsDigit(c) || c == '_' || c == '.' || c == '-'
  }

  predicate AllEmailChars(s: string) {
    forall k :: 0 <= k < |s| ==> IsEmailChar(s[k])
  }

  predicate AllLetters(s: string) {
    forall k :: 0 <= k < |s| ==> IsLetter(s[k])
  }

  /** Position of the last occurrence of `c`. */
  function LastIndexOf(s: string, c: char): (r: Option<nat>)
    ensures r.None? <==> forall k :: 0 <= k < |s| ==> s[k] != c
    ensures r.Some? ==> r.value < |s| && s[r.value] == c
    ensures r.Some? ==> forall k :: r.value < k < |s| ==> s[k] != c
  {
    if s == [] then None
    else if s[|s| - 1] == c then Some(|s| - 1)
    else LastIndexOf(s[..|s| - 1], c)
  }

  // ===== validateEmail =====

  /** The split `/^[\w.-]+@[\w.-]+\.[A-Za-z]{2,}$/` matches with: the `@` at
      `at`, the final `\.` at `dot`. */
  predicate EmailSplit(s: string, at: int, dot: int) {
    0 < at && at + 1 < dot && dot + 3 <= |s| &&
    s[at] == '@' && s[dot] == '.' &&
    AllEmailChars(s[..at]) && AllEmailChars(s[at + 1..dot]) && AllLetters(s[dot + 1..])
  }

  /** The regular expression, decided without backtracking: everything up to
      the first `@` is a non-empty local part, everything after it consists
      of address characters, and its last dot has text before it and at
      least two letters after it. */
  function ValidateEmail(s: string): bool {
    match FindIndex(s, (c: char) => c == '@')
    case None => false
    case Some(at) =>
      var domain := s[at + 1..];
      at > 0 && AllEmailChars(s[..at]) && AllEmailChars(domain) &&
      match LastIndexOf(domain, '.')
      case None => false
      case Some(d) => d > 0 && |domain| - d - 1 >= 2 && AllLetters(domain[d + 1..])
  }

  /** `validateEmail` accepts exactly the strings the regular expression
      matches. */
  lemma ValidateEmailMatchesPattern(s: string)
    ensures ValidateEmail(s) <==> exists at, dot :: EmailSplit(s, at, dot)
  {
    if ValidateEmail(s) {
      var at := FindIndex(s, (c: char) => c == '@').value;
      var domain := s[at + 1..];
      var d := LastIndexOf(domain, '.').value;
      assert s[at + 1..at + 1 + d] == domain[..d];
      assert s[at + 1 + d + 1..] == domain[d + 1..];
      assert EmailSplit(s, at, at + 1 + d);
    }
    if exists at, dot :: EmailSplit(s, at, dot) {
      var at, dot :| EmailSplit(s, at, dot);
      SplitDecides(s, at, dot);
    }
  }

  lemma SplitDecides(s: string, at: int, dot: int)
    requires EmailSplit(s, at, dot)
    ensures ValidateEmail(s)
  {
    SplitFindsAt(s, at, dot);
    var domain := s[at + 1..];
    var d := dot - at - 1;
    SplitDomain(s, at, dot);
    assert domain[d + 1..] == s[dot + 1..];
  }

  /** The first `@` is the one of the split: the local part has none. */
  lemma SplitFindsAt(s: string, at: int, dot: int)
    requires EmailSplit(s, at, dot)
    ensures FindIndex(s, (c: char) => c == '@') == Some(at)
  {
    assert forall k :: 0 <= k < at ==> s[..at][k] == s[k];
  }

  /** The domain consists of address characters and its last dot is the one
      of the split. */
  lemma SplitDomain(s: string, at: int, dot: int)
    requires EmailSplit(s, at, dot)
    ensures AllEmailChars(s[at + 1..])
    ensures LastIndexOf(s[at + 1..], '.') == Some(dot - at - 1)
  {
    var domain := s[at + 1..];
    var d := dot - at - 1;
    assert domain[..d] == s[at + 1..dot];
    assert domain[d + 1..] == s[dot + 1..];
    forall k | 0 <= k < |domain|
      ensures IsEmailChar(domain[k])
    {
      if k < d {
        assert domain[k] == domain[..d][k];
      } else if k > d {
        assert domain[k] == domain[d + 1..][k - d - 1];
      }
    }
    forall k | d < k < |domain|
      ensures domain[k] != '.'
    {
      assert domain[k] == domain[d + 1..][k - d - 1];
    }
  }

  /** The bootstrap administrator's email has no `@`, so it is not a valid
      email. */
  lemma AdminEmailInvalid()
    ensures !ValidateEmail("sebastian")
  {
    var s := "sebastian";
    assert forall k :: 0 <= k < |s| ==> s[k] != '@';
  }

  // ===== validatePhone =====

  predicate ThreeDigits(s: string) {
    |s| == 3 && AllDigits(s)
  }

  /** `/^\d{3}-\d{3}$/`. */
  function ValidatePhone(s: string): bool {
    |s| == 7 && ThreeDigits(s[..3]) && s[3] == '-' && ThreeDigits(s[4..])
  }

  predicate PhoneParts(s: string, a: string, b: string) {
    ThreeDigits(a) && ThreeDigits(b) && s == a + "-" + b
  }

  /** A valid phone is exactly two groups of three digits joined by a hyphen. */
  lemma ValidatePhoneMeaning(s: string)
    ensures ValidatePhone(s) <==> exists a, b :: PhoneParts(s, a, b)
  {
    if ValidatePhone(s) {
      assert s == s[..3] + "-" + s[4..];
      assert PhoneParts(s, s[..3], s[4..]);
    }
    if exists a, b :: PhoneParts(s, a, b) {
      var a, b :| PhoneParts(s, a, b);
      assert s[..3] == a && s[4..] == b;
    }
  }

  // ===== validatePassword =====

  /** `/\d/.test(s)`. */
  function HasDigit(s: string): (r: bool)
    ensures r <==> exists k :: 0 <= k < |s| && IsDigit(s[k])
  {
    if s == [] then false
    else if IsDigit(s[0]) then true
    else
      var r := HasDigit(s[1..]);
      assert forall k :: 1 <= k < |s| ==> s[k] == s[1..][k - 1];
      r
  }

  /** The `length` JavaScript reports: it counts UTF-16 code units, so a
      character outside the Basic Multilingual Plane counts twice. */
  function Utf16Length(s: string): (n: nat)
    ensures |s| <= n <= 2 * |s|
  {
    if s == [] then 0
    else (if s[0] as int >= 0x1_0000 then 2 else 1) + Utf16Length(s[1..])
  }

  /** A string of Basic Multilingual Plane characters is as long in code
      units as in characters. */
  lemma {:induction false} Utf16LengthBmp(s: string)
    requires forall k :: 0 <= k < |s| ==> s[k] as int < 0x1_0000
    ensures Utf16Length(s) == |s|
  {
    if s != [] {
      assert forall k :: 1 <= k < |s| ==> s[k] == s[1..][k - 1];
      Utf16LengthBmp(s[1..]);
    }
  }

  /** At least eight UTF-16 code units, one of them a digit. */
  function ValidatePassword(s: string): (r: bool)
    ensures r <==> Utf16Length(s) >= 8 && exists k :: 0 <= k < |s| && IsDigit(s[k])
    ensures |s| >= 8 ==> (r <==> exists k :: 0 <= k < |s| && IsDigit(s[k]))
    ensures |s| < 4 ==> !r
  {
    Utf16Length(s) >= 8 && HasDigit(s)
  }

  /** Four emoji and a digit are five characters but nine code units, and
      pass the length rule. */
  lemma AstralPasswordAccepted()
    ensures var s := "\U{1F600}\U{1F600}\U{1F600}\U{1F600}1";
      |s| == 5 && ValidatePassword(s)
  {
    var s := "\U{1F600}\U{1F600}\U{1F600}\U{1F600}1";
    assert Utf16Length(s[4..]) == 1;
    assert IsDigit(s[4]);
  }

  /** The temporary password the admin page gives new users is refused by
      the registration form. */
  lemma TempPasswordWeak()
    ensures !ValidatePassword("Temp123")
  {
    var s := "Temp123";
    assert forall k :: 0 <= k < |s| ==> s[k] as int < 0x1_0000;
    Utf16LengthBmp(s);
  }

  // ===== The active navigation link =====

  function StartsWith(s: string, t: string): bool {
    |t| <= |s| && s[..|t|] == t
  }

  function EndsWith(s: string, t: string): (r: bool)
    ensures r <==> |t| <= |s| && s[|s| - |t|..] == t
  {
    |t| <= |s| && s[|s| - |t|..] == t
  }

  /** `s.includes(t)`, searching from the left. */
  function Contains(s: string, t: string): bool {
    StartsWith(s, t) || (s != [] && Contains(s[1..], t))
  }

  predicate OccursAt(s: string, t: string, i: int) {
    0 <= i <= |s| - |t| && s[i..i + |t|] == t
  }

  /** `includes` holds exactly when `t` occurs at some position of `s`. */
  lemma {:induction false} ContainsMeaning(s: string, t: string)
    ensures Contains(s, t) <==> exists i :: OccursAt(s, t, i)
  {
    if StartsWith(s, t) {
      assert OccursAt(s, t, 0);
    } else if s != [] {
      ContainsMeaning(s[1..], t);
      if Contains(s[1..], t) {
        var i :| OccursAt(s[1..], t, i);
        TailSlice(s, i + 1, |t|);
        assert OccursAt(s, t, i + 1);
      } else {
        forall i | OccursAt(s, t, i)
          ensures false
        {
          if i > 0 {
            TailOccurs(s, t, i);
          }
        }
      }
    }
  }

  /** A slice of the tail is the slice of the string one position on. */
  lemma TailSlice(s: string, i: nat, n: nat)
    requires 1 <= i && i + n <= |s|
    ensures s[i..i + n] == s[1..][i - 1..i - 1 + n]
  {
    var a, b := s[i..i + n], s[1..][i - 1..i - 1 + n];
    assert forall m :: 0 <= m < n ==> a[m] == b[m];
  }

  /** An occurrence after the first position is one in the tail. */
  lemma TailOccurs(s: string, t: string, i: int)
    requires 0 < i && OccursAt(s, t, i)
    ensures OccursAt(s[1..], t, i - 1)
  {
    TailSlice(s, i, |t|);
  }

  /** The navbar rule: a link other than `index.html` is active when the
      path contains its target; the `index.html` link only on a path ending
      in `/`. */
  function NavLinkActive(path: string, href: string): (active: bool)
    ensures href != "index.html" ==> (active <==> exists i :: OccursAt(path, href, i))
    ensures href == "index.html" ==> (active <==> |path| > 0 && path[|path| - 1] == '/')
  {
    ContainsMeaning(path, href);
    if Contains(path, href) && href != "index.html" then true
    else href == "index.html" && EndsWith(path, "/")
  }

  /** The home link is not marked on its own explicit page, and a link with
      an empty target is marked on every page. */
  lemma NavLinkQuirks(path: string)
    ensures !NavLinkActive("/index.html", "index.html")
    ensures NavLinkActive("/", "index.html")
    ensures NavLinkActive(path, "")
  {
    assert OccursAt(path, "", 0);
    ContainsMeaning(path, "");
  }

  lemma NavLinkOnItsPage(dir: string, href: string)
    requires href != "index.html"
    ensures NavLinkActive(dir + href, href)
  {
    var p := dir + href;
    assert OccursAt(p, href, |dir|);
  }
}
