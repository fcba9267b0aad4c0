/**
 * Cookie consent in the browser client (public/js/cookies.js): reading a
 * cookie out of the `document.cookie` header, the consent string saved under
 * the cookie `gobet_cookie_consent`, and the banner shown when it is missing.
 *
 * The browser's cookie jar is modelled as an ordered list of name/value
 * pairs; `document.cookie` reads it back as `name=value` entries joined by
 * "; ". Expiry dates are not modelled.
 */
module Cookies {
  import opened Common

  const ConsentCookie: string := "gobet_cookie_consent"

  /** The three consent categories, in the key order of the preferences object. */
  datatype Preferences = Preferences(necessary: bool, performance: bool, functional: bool)

  datatype Category = Necessary | Performance | Functional

  /** The property name of a category in the preferences object. */
  function KeyOf(c: Category): (k: string)
    ensures ',' !in k && ';' !in k
  {
    match c
    case Necessary => "necessary"
    case Performance => "performance"
    case Functional => "functional"
  }

  /** Distinct categories have distinct property names. */
  lemma KeysDistinct(c: Category, d: Category)
    requires c != d
    ensures KeyOf(c) != KeyOf(d)
  {
    assert |KeyOf(c)| != |KeyOf(d)|;
  }

  /** The position of a category's key in the preferences object. */
  function Rank(c: Category): int {
    match c
    case Necessary => 0
    case Performance => 1
    case Functional => 2
  }

  /**
   * The categories whose value is true, in key order: each listed once, in
   * the order of the preferences object's keys.
   */
  function Enabled(p: Preferences): (cs: seq<Category>)
    ensures Necessary in cs <==> p.necessary
    ensures Performance in cs <==> p.performance
    ensures Functional in cs <==> p.functional
    ensures forall i, j | 0 <= i < j < |cs| :: Rank(cs[i]) < Rank(cs[j])
    ensures p.necessary ==> cs[0] == Necessary
  {
    (if p.necessary then [Necessary] else []) +
    (if p.performance then [Performance] else []) +
    (if p.functional then [Functional] else [])
  }

  function Keys(cs: seq<Category>): (ks: seq<string>)
    ensures |ks| == |cs| && forall i | 0 <= i < |cs| :: ks[i] == KeyOf(cs[i])
  {
    seq(|cs|, i requires 0 <= i < |cs| => KeyOf(cs[i]))
  }

  /** A key is listed exactly when its category is. */
  lemma KeyListed(cs: seq<Category>, c: Category)
    ensures KeyOf(c) in Keys(cs) <==> c in cs
  {
    if KeyOf(c) in Keys(cs) {
      var i :| 0 <= i < |cs| && Keys(cs)[i] == KeyOf(c);
      if cs[i] != c {
        KeysDistinct(cs[i], c);
      }
    }
    if c in cs {
      var i :| 0 <= i < |cs| && cs[i] == c;
      assert Keys(cs)[i] == KeyOf(c);
    }
  }

  /** The consent string of `saveCookiePreferences`: the enabled keys joined by commas. */
  function ConsentString(p: Preferences): (s: string)
    ensures ';' !in s
    ensures s == "" <==> !p.necessary && !p.performance && !p.functional
  {
    var ks := Keys(Enabled(p));
    JoinNoSemicolon(ks);
    assert |ks| > 0 ==> |Join(ks, ",")| >= |ks[0]|;
    Join(ks, ",")
  }

  /** Reads a consent string back into preferences: a category is on when its key is listed. */
  function DecodeConsent(s: string): Preferences {
    var keys := Split(s, ',');
    Preferences(KeyOf(Necessary) in keys, KeyOf(Performance) in keys, KeyOf(Functional) in keys)
  }

  /** Any list of categories joined and split again gives its keys back, and decodes to its members. */
  lemma {:induction false} KeysRoundTrip(cs: seq<Category>)
    requires |cs| > 0
    ensures Split(Join(Keys(cs), ","), ',') == Keys(cs)
    ensures StartsWith(Join(Keys(cs), ","), KeyOf(cs[0]))
    ensures DecodeConsent(Join(Keys(cs), ",")) ==
      Preferences(Necessary in cs, Performance in cs, Functional in cs)
  {
    var keys := Keys(cs);
    assert [','] == ",";
    SplitJoin(keys, ',');
    JoinStartsWith(keys);
    KeyListed(cs, Necessary);
    KeyListed(cs, Performance);
    KeyListed(cs, Functional);
  }

  lemma JoinStartsWith(keys: seq<string>)
    requires |keys| > 0
    ensures StartsWith(Join(keys, ","), keys[0])
  {
    if |keys| > 1 {
      assert Join(keys, ",") == keys[0] + ("," + Join(keys[1..], ","));
    }
  }

  /** Every preferences object the script builds has `necessary` set; such a string starts with it and round-trips. */
  lemma ConsentRoundTrip(p: Preferences)
    requires p.necessary
    ensures StartsWith(ConsentString(p), KeyOf(Necessary))
    ensures Split(ConsentString(p), ',') == Keys(Enabled(p))
    ensures DecodeConsent(ConsentString(p)) == p
  {
    KeysRoundTrip(Enabled(p));
  }

  /** The two fixed choices of the banner and the settings dialog. */
  const AllCookies := Preferences(true, true, true)
  const NecessaryOnly := Preferences(true, false, false)

  lemma AllCookiesString()
    ensures ConsentString(AllCookies) == "necessary" + "," + "performance" + "," + "functional"
  {
    assert Enabled(AllCookies) == [Necessary, Performance, Functional];
    assert Keys([Necessary, Performance, Functional]) == ["necessary", "performance", "functional"];
    JoinThree("necessary", "performance", "functional", ",");
  }

  lemma JoinThree(a: string, b: string, c: string, sep: string)
    ensures Join([a, b, c], sep) == a + sep + b + sep + c
  {
    assert [a, b, c][1..] == [b, c];
    assert [b, c][1..] == [c];
    assert Join([b, c], sep) == b + sep + c;
    assert Join([a, b, c], sep) == a + sep + (b + sep + c);
  }

  lemma NecessaryOnlyString()
    ensures ConsentString(NecessaryOnly) == "necessary"
  {
    assert Keys(Enabled(NecessaryOnly)) == ["necessary"];
  }

  /* ---------------------------------------------------------------------- */
  /* The cookie header                                                      */
  /* ---------------------------------------------------------------------- */

  datatype Cookie = Cookie(name: string, value: string)

  /** One `name=value` entry of the header. */
  function Entry(c: Cookie): string {
    c.name + "=" + c.value
  }

  /** `document.cookie`: the entries joined by "; ". */
  function Header(jar: seq<Cookie>): (h: string)
    ensures h == "" <==> jar == []
    decreases |jar|
  {
    if |jar| == 0 then ""
    else if |jar| == 1 then Entry(jar[0])
    else Entry(jar[0]) + "; " + Header(jar[1..])
  }

  /** The inner loop of `getCookie`: strip leading spaces (only the space character). */
  function StripSpaces(c: string): (r: string)
    ensures |r| <= |c| && r == c[|c| - |r|..]
    ensures r == [] || r[0] != ' '
    decreases |c|
  {
    if |c| > 0 && c[0] == ' ' then StripSpaces(c[1..]) else c
  }

  /** The outer loop of `getCookie` over the `;`-separated segments, for the prefix `key` (`name=`). */
  function Lookup(segments: seq<string>, key: string): (r: Option<string>)
    ensures r.Some? ==> exists i | 0 <= i < |segments| ::
      StartsWith(StripSpaces(segments[i]), key) && r.value == StripSpaces(segments[i])[|key|..]
    ensures r.None? <==> forall i | 0 <= i < |segments| :: !StartsWith(StripSpaces(segments[i]), key)
    decreases |segments|
  {
    if segments == [] then None
    else
      var c := StripSpaces(segments[0]);
      if StartsWith(c, key) then Some(c[|key|..])
      else
        var rest := segments[1..];
        var r := Lookup(rest, key);
        LookupShift(segments, key, r);
        r
  }

  /** The segment `Lookup` answers from is the first one that matches. */
  lemma {:induction false} LookupFirst(segments: seq<string>, key: string)
    ensures var r := Lookup(segments, key);
      r.Some? ==> exists i | 0 <= i < |segments| ::
        Matches(segments[i], key) && r.value == StripSpaces(segments[i])[|key|..] &&
        forall j | 0 <= j < i :: !Matches(segments[j], key)
    decreases |segments|
  {
    if segments != [] && !Matches(segments[0], key) {
      var rest := segments[1..];
      LookupFirst(rest, key);
      var r := Lookup(segments, key);
      if r.Some? {
        assert Lookup(rest, key) == r;
        var i :| 0 <= i < |rest| && Matches(rest[i], key) && r.value == StripSpaces(rest[i])[|key|..] &&
          forall j | 0 <= j < i :: !Matches(rest[j], key);
        assert segments[i + 1] == rest[i];
        forall j | 0 <= j < i + 1 ensures !Matches(segments[j], key) {
          if j > 0 {
            assert segments[j] == rest[j - 1];
          }
        }
      }
    }
  }

  /** A segment that is a cookie entry for the prefix `key`. */
  predicate Matches(segment: string, key: string) {
    StartsWith(StripSpaces(segment), key)
  }

  /** The first segment does not match, so a match of the rest is a match of the whole. */
  lemma LookupShift(segments: seq<string>, key: string, r: Option<string>)
    requires segments != [] && !Matches(segments[0], key)
    requires var rest := segments[1..];
      (r.Some? ==> exists i | 0 <= i < |rest| :: Matches(rest[i], key) && r.value == StripSpaces(rest[i])[|key|..]) &&
      (r.None? <==> forall i | 0 <= i < |rest| :: !Matches(rest[i], key))
    ensures r.Some? ==> exists i | 0 <= i < |segments| ::
      StartsWith(StripSpaces(segments[i]), key) && r.value == StripSpaces(segments[i])[|key|..]
    ensures r.None? <==> forall i | 0 <= i < |segments| :: !StartsWith(StripSpaces(segments[i]), key)
  {
    var rest := segments[1..];
    if r.Some? {
      var i :| 0 <= i < |rest| && Matches(rest[i], key) && r.value == StripSpaces(rest[i])[|key|..];
      assert rest[i] == segments[i + 1];
      NoMatchShift(segments, key);
    } else {
      NoMatchShift(segments, key);
    }
  }

  /** No segment matches exactly when no segment after the first, non-matching, one does. */
  lemma NoMatchShift(segments: seq<string>, key: string)
    requires segments != [] && !Matches(segments[0], key)
    ensures (forall i | 0 <= i < |segments| :: !Matches(segments[i], key)) <==>
      (forall i | 0 <= i < |segments[1..]| :: !Matches(segments[1..][i], key))
  {
    var rest := segments[1..];
    if forall i | 0 <= i < |rest| :: !Matches(rest[i], key) {
      forall i | 0 <= i < |segments| ensures !Matches(segments[i], key) {
        if i > 0 {
          assert segments[i] == rest[i - 1];
        }
      }
    }
    if forall i | 0 <= i < |segments| :: !Matches(segments[i], key) {
      forall i | 0 <= i < |rest| ensures !Matches(rest[i], key) {
        assert rest[i] == segments[i + 1];
      }
    }
  }

  /** One step of the scan: the first segment decides, or the rest is scanned. */
  lemma LookupStep(segments: seq<string>, key: string)
    requires segments != []
    ensures StartsWith(StripSpaces(segments[0]), key) ==>
      Lookup(segments, key) == Some(StripSpaces(segments[0])[|key|..])
    ensures !StartsWith(StripSpaces(segments[0]), key) ==> Lookup(segments, key) == Lookup(segments[1..], key)
  {
  }

  /** The loops of `getCookie` over the segments `ca`, stripping each one's leading spaces. */
  method ScanSegments(ca: seq<string>, key: string) returns (r: Option<string>)
    ensures r == Lookup(ca, key)
  {
    var i := 0;
    while i < |ca|
      invariant 0 <= i <= |ca|
      invariant Lookup(ca[i..], key) == Lookup(ca, key)
    {
      var c := ca[i];
      while |c| > 0 && c[0] == ' '
        invariant StripSpaces(c) == StripSpaces(ca[i])
      {
        c := c[1..];
      }
      LookupStep(ca[i..], key);
      assert ca[i..][1..] == ca[i + 1..];
      if StartsWith(c, key) {
        return Some(c[|key|..]);
      }
      i := i + 1;
    }
    return None;
  }

  /** The consent cookie as `new CookieManager()` reads it from the header of `jar`. */
  method ReadConsent(jar: seq<Cookie>) returns (r: Option<string>)
    ensures r == Lookup(Split(Header(jar), ';'), ConsentCookie + "=")
  {
    r := ScanSegments(Split(Header(jar), ';'), ConsentCookie + "=");
  }

  /** The value of the first cookie called `name` in the jar. */
  function JarValue(jar: seq<Cookie>, name: string): Option<string>
    decreases |jar|
  {
    if jar == [] then None
    else if jar[0].name == name then Some(jar[0].value)
    else JarValue(jar[1..], name)
  }

  /** Writing a cookie replaces the value of one with the same name, or adds it at the end. */
  function SetCookie(jar: seq<Cookie>, name: string, value: string): (r: seq<Cookie>)
    ensures JarValue(r, name) == Some(value)
    ensures forall n :: n != name ==> JarValue(r, n) == JarValue(jar, n)
    ensures forall i | 0 <= i < |r| :: r[i] == Cookie(name, value) || r[i] in jar
    decreases |jar|
  {
    if jar == [] then [Cookie(name, value)]
    else if jar[0].name == name then [Cookie(name, value)] + jar[1..]
    else
      var r := [jar[0]] + SetCookie(jar[1..], name, value);
      assert forall i | 1 <= i < |r| :: r[i] == SetCookie(jar[1..], name, value)[i - 1];
      r
  }

  /** Names the header can carry unambiguously: no `=`, no `;`, no leading space. */
  predicate GoodName(n: string) {
    '=' !in n && ';' !in n && (n == [] || n[0] != ' ')
  }

  predicate WellFormed(jar: seq<Cookie>) {
    forall i | 0 <= i < |jar| :: GoodName(jar[i].name) && ';' !in jar[i].value
  }

  lemma SetCookieWellFormed(jar: seq<Cookie>, name: string, value: string)
    requires WellFormed(jar) && GoodName(name) && ';' !in value
    ensures WellFormed(SetCookie(jar, name, value))
  {
  }

  /** An entry is found under `name=` exactly when its own name is `name`. */
  lemma EntryMatch(c: Cookie, name: string)
    requires GoodName(c.name) && '=' !in name
    ensures StripSpaces(Entry(c)) == Entry(c)
    ensures StartsWith(Entry(c), name + "=") <==> c.name == name
    ensures c.name == name ==> Entry(c)[|name + "="|..] == c.value
  {
    var e := Entry(c);
    var key := name + "=";
    if c.name == name {
      assert e == key + c.value;
    }
    if StartsWith(e, key) {
      // both |c.name| and |name| are the position of the first '=' in e
      forall i | 0 <= i < |c.name| ensures e[i] != '=' {
        assert e[i] == c.name[i];
      }
      forall i | 0 <= i < |name| ensures e[i] != '=' {
        assert e[i] == key[i] == name[i];
      }
      assert e[|c.name|] == '=';
      assert e[|name|] == key[|name|] == '=';
      assert |c.name| == |name|;
      assert c.name == e[..|name|] == name;
    }
  }

  /** Splitting " " + s gives the segments of s with a space before the first. */
  lemma {:induction false} SplitLeadingSpace(s: string)
    ensures var a := Split(s, ';'); Split(" " + s, ';') == [" " + a[0]] + a[1..]
  {
    assert (" " + s)[1..] == s;
  }

  lemma {:induction false} StripSpacesSpace(s: string)
    ensures StripSpaces(" " + s) == StripSpaces(s)
  {
    assert (" " + s)[1..] == s;
  }

  /** The segment list of a header starting with a space looks up like the header itself. */
  lemma LookupLeadingSpace(s: string, key: string)
    ensures Lookup(Split(" " + s, ';'), key) == Lookup(Split(s, ';'), key)
  {
    var a := Split(s, ';');
    SplitLeadingSpace(s);
    StripSpacesSpace(a[0]);
    var b := [" " + a[0]] + a[1..];
    assert b[1..] == a[1..];
  }

  /**
   * `getCookie(name)` on the header of a well-formed jar yields the value of
   * the first cookie called `name`, and null when there is none.
   */
  lemma {:induction false} HeaderLookup(jar: seq<Cookie>, name: string)
    requires WellFormed(jar) && '=' !in name
    ensures Lookup(Split(Header(jar), ';'), name + "=") == JarValue(jar, name)
    decreases |jar|
  {
    var key := name + "=";
    if |jar| == 0 {
      assert Split("", ';') == [""];
      assert !StartsWith("", key);
    } else {
      var e := Entry(jar[0]);
      EntryMatch(jar[0], name);
      assert ';' !in e by {
        assert e == jar[0].name + "=" + jar[0].value;
      }
      if |jar| == 1 {
        SplitNoSep(e, ';');
      } else {
        var rest := Header(jar[1..]);
        assert Header(jar) == e + [';'] + (" " + rest);
        SplitAppend(e, ';', " " + rest);
        var segs := Split(Header(jar), ';');
        assert segs[0] == e && segs[1..] == Split(" " + rest, ';');
        LookupLeadingSpace(rest, key);
        HeaderLookup(jar[1..], name);
      }
    }
  }

  /* ---------------------------------------------------------------------- */
  /* The manager                                                            */
  /* ---------------------------------------------------------------------- */

  /** `CookieManager` together with the browser state it reads and writes. */
  class CookieManager {
    /** The browser's cookie jar, read through `document.cookie`. */
    var jar: seq<Cookie>
    /** `gobet_cookie_preferences` in local storage. */
    var storedPreferences: Option<Preferences>
    /** `this.cookieConsent` */
    var cookieConsent: Option<string>
    /** Whether the consent banner is on the page. */
    var bannerShown: bool

    /** `new CookieManager()`: read the consent cookie; show the banner when it is missing or empty. */
    constructor (jar: seq<Cookie>, storedPreferences: Option<Preferences>)
      ensures this.jar == jar && this.storedPreferences == storedPreferences
      ensures cookieConsent == Lookup(Split(Header(jar), ';'), ConsentCookie + "=")
      ensures bannerShown <==> cookieConsent.None? || cookieConsent == Some("")
    {
      var consent := ReadConsent(jar);
      this.jar := jar;
      this.storedPreferences := storedPreferences;
      cookieConsent := consent;
      bannerShown := consent.None? || consent == Some("");
    }

    /** `getCookie(name)`: scan the `;`-separated segments of `document.cookie`. */
    method GetCookie(name: string) returns (r: Option<string>)
      ensures r == Lookup(Split(Header(jar), ';'), name + "=")
    {
      r := ScanSegments(Split(Header(jar), ';'), name + "=");
    }

    /** `setCookie(name, value, days)`; the expiry date is not modelled. */
    method SetCookieValue(name: string, value: string)
      modifies this`jar
      ensures jar == SetCookie(old(jar), name, value)
    {
      jar := SetCookie(jar, name, value);
    }

    /** `saveCookiePreferences(preferences)`. */
    method SaveCookiePreferences(p: Preferences)
      modifies this`jar, this`storedPreferences
      ensures storedPreferences == Some(p)
      ensures jar == SetCookie(old(jar), ConsentCookie, ConsentString(p))
    {
      storedPreferences := Some(p);
      SetCookieValue(ConsentCookie, ConsentString(p));
    }

    /** `acceptNecessaryCookies()`: save the necessary-only choice and remove the banner. */
    method AcceptNecessaryCookies()
      modifies this`jar, this`storedPreferences, this`bannerShown
      ensures storedPreferences == Some(NecessaryOnly) && !bannerShown
      ensures jar == SetCookie(old(jar), ConsentCookie, ConsentString(NecessaryOnly))
    {
      SaveCookiePreferences(NecessaryOnly);
      bannerShown := false;
    }

    /** `acceptAllCookies()`. */
    method AcceptAllCookies()
      modifies this`jar, this`storedPreferences
      ensures storedPreferences == Some(AllCookies)
      ensures jar == SetCookie(old(jar), ConsentCookie, ConsentString(AllCookies))
    {
      SaveCookiePreferences(AllCookies);
    }
  }

  /** A consent string written under a well-formed name is read back unchanged. */
  lemma SavedConsentReadBack(jar: seq<Cookie>, name: string, p: Preferences)
    requires WellFormed(jar) && GoodName(name) && p.necessary
    ensures Lookup(Split(Header(SetCookie(jar, name, ConsentString(p))), ';'), name + "=") == Some(ConsentString(p))
    ensures ConsentString(p) != ""
  {
    var s := ConsentString(p);
    ConsentRoundTrip(p);
    assert ';' !in s by {
      JoinNoSemicolon(Keys(Enabled(p)));
    }
    SetCookieWellFormed(jar, name, s);
    HeaderLookup(SetCookie(jar, name, s), name);
  }

  lemma ConsentCookieName()
    ensures GoodName(ConsentCookie)
  {
  }

  /**
   * After preferences are saved into a well-formed jar, the next page's
   * manager reads the same consent string back and shows no banner.
   */
  lemma ConsentSurvivesReload(jar: seq<Cookie>, p: Preferences)
    requires WellFormed(jar) && p.necessary
    ensures var after := SetCookie(jar, ConsentCookie, ConsentString(p));
      Lookup(Split(Header(after), ';'), ConsentCookie + "=") == Some(ConsentString(p)) &&
      ConsentString(p) != ""
  {
    ConsentCookieName();
    SavedConsentReadBack(jar, ConsentCookie, p);
  }

  lemma {:induction false} JoinNoSemicolon(keys: seq<string>)
    requires forall k | 0 <= k < |keys| :: ';' !in keys[k]
    ensures ';' !in Join(keys, ",")
    decreases |keys|
  {
    if |keys| > 1 {
      JoinNoSemicolon(keys[1..]);
    }
  }
}
