/** src/services/cookieService.ts: reading one cookie out of the
    `document.cookie` text, building and writing the consent cookie, and the
    six-month validity test. */
module CookieService {
  import opened Wrappers
  import opened Text

  const COOKIE_CONSENT_KEY := "cookie_consent"
  const COOKIE_EXPIRY_DAYS := 180
  const DAY_MS := 24 * 60 * 60 * 1000
  /** The validity window `hasValidConsent` uses, in milliseconds. */
  const SIX_MONTHS := 180 * 24 * 60 * 60 * 1000

  /** The text `"; name="` that marks the start of cookie `name`. */
  function Marker(name: string): string
  {
    "; " + name + "="
  }

  /** `getCookie(name)` on the document's cookie text: the text between the
      only marker of `name` in `"; " + cookie` and the next `;`, unless that is
      empty. */
  function GetCookie(cookie: string, name: string): (r: Option<string>)
    ensures r.Some? ==> r.value != "" && ';' !in r.value
    ensures r.Some? ==> |Split("; " + cookie, Marker(name))| == 2
  {
    var parts := Split("; " + cookie, Marker(name));
    if |parts| == 2 && UpTo(parts[1], ';') != "" then Some(UpTo(parts[1], ';')) else None
  }

  /** A found value sits right after the only marker of the name, and runs up
      to the next `;` or the end of the text. */
  lemma GetCookieFound(cookie: string, name: string) returns (before: string, after: string)
    requires GetCookie(cookie, name).Some?
    ensures "; " + cookie == before + Marker(name) + GetCookie(cookie, name).value + after
    ensures !Contains(before, Marker(name))
    ensures !Contains(GetCookie(cookie, name).value + after, Marker(name))
    ensures after == [] || after[0] == ';'
  {
    var v := "; " + cookie;
    var parts := Split(v, Marker(name));
    SplitTwo(v, Marker(name));
    before := parts[0];
    var value := UpTo(parts[1], ';');
    after := parts[1][|value|..];
    assert parts[1] == value + after;
  }

  /** The converse of `GetCookieFound`, for a cookie anywhere in the text: when
      the marker of the name occurs nowhere before `value` and nowhere in or
      after it, and `value` runs up to the next `;`, the value is found. */
  lemma GetCookieUnique(cookie: string, name: string, before: string, value: string, after: string)
    requires "; " + cookie == before + Marker(name) + value + after
    requires forall j: nat :: j < |before| ==> !OccursAt("; " + cookie, Marker(name), j)
    requires !Contains(value + after, Marker(name))
    requires value != "" && ';' !in value && (after == [] || after[0] == ';')
    ensures GetCookie(cookie, name) == Some(value)
  {
    var v := "; " + cookie;
    var m := Marker(name);
    var i := |before|;
    assert v[i..i + |m|] == m;
    FindFirst(v, m, i);
    assert v[i + |m|..] == value + after;
    SplitAtFirst(v, m, i);
    UpToAppend(value, after, ';');
  }

  /** For instance, the consent cookie between two others is found. */
  lemma GetCookieBetween()
    ensures GetCookie("a=1; cookie_consent=X; b=2", COOKIE_CONSENT_KEY) == Some("X")
  {
    var cookie := "a=1; cookie_consent=X; b=2";
    var v := "; " + cookie;
    var m := Marker(COOKIE_CONSENT_KEY);
    forall j: nat | j < 5
      ensures !OccursAt(v, m, j)
    {
      assert v[j + 2] != m[2];
      assert v[j..j + |m|][2] == v[j + 2];
    }
    assert !Contains("X; b=2", m);
    assert v == "; a=1" + m + "X" + "; b=2";
    GetCookieUnique(cookie, COOKIE_CONSENT_KEY, "; a=1", "X", "; b=2");
  }

  /** Text with no marker of the name yields nothing. */
  lemma GetCookieAbsent(cookie: string, name: string)
    requires !Contains("; " + cookie, Marker(name))
    ensures GetCookie(cookie, name).None?
  {
    SplitNone("; " + cookie, Marker(name));
  }

  /** `UpTo` stops at the first `c`. */
  lemma {:induction false} UpToAppend(v: string, rest: string, c: char)
    requires c !in v && (rest == [] || rest[0] == c)
    ensures UpTo(v + rest, c) == v
    decreases |v|
  {
    if v == [] {
      assert v + rest == rest;
    } else {
      assert (v + rest)[1..] == v[1..] + rest;
      UpToAppend(v[1..], rest, c);
    }
  }

  /** Thanks to the `"; "` prefix, the first cookie of the text is found like
      any other. */
  lemma GetCookieFirst(name: string, value: string, rest: string)
    requires value != "" && ';' !in value && (rest == [] || rest[0] == ';')
    requires !Contains(value + rest, Marker(name))
    ensures GetCookie(name + "=" + value + rest, name) == Some(value)
  {
    var cookie := name + "=" + value + rest;
    assert "; " + cookie == Marker(name) + (value + rest);
    SplitLeading("; " + cookie, Marker(name), value + rest);
    UpToAppend(value, rest, ';');
  }

  /** A single cookie (no `;` in the text) is only found when its own name is
      `name`: a cookie whose name merely ends with `name` does not match. */
  lemma GetCookieSingle(cookie: string, name: string)
    requires ';' !in cookie && !StartsWith(cookie, name + "=")
    ensures GetCookie(cookie, name).None?
  {
    var v := "; " + cookie;
    var m := Marker(name);
    forall i: nat | i <= |v|
      ensures !OccursAt(v, m, i)
    {
      if i == 0 {
        MarkerNotAtStart(cookie, name);
      } else if i == 1 {
        MarkerNotAt(v, m, 1, ' ');
      } else if i + |m| <= |v| {
        assert v[i] == cookie[i - 2];
        MarkerNotAt(v, m, i, cookie[i - 2]);
      }
    }
    GetCookieAbsent(cookie, name);
  }

  /** The marker starts with `;`, so it does not occur where another
      character stands. */
  lemma MarkerNotAt(v: string, m: string, i: nat, c: char)
    requires |m| > 0 && m[0] == ';' && c != ';' && i < |v| && v[i] == c
    ensures !OccursAt(v, m, i)
  {
    if i + |m| <= |v| {
      assert v[i..i + |m|][0] == c;
    }
  }

  /** At the start, the marker would need the text to begin with `name=`. */
  lemma MarkerNotAtStart(cookie: string, name: string)
    requires !StartsWith(cookie, name + "=")
    ensures !OccursAt("; " + cookie, Marker(name), 0)
  {
    var v := "; " + cookie;
    var m := Marker(name);
    if |m| <= |v| {
      assert v[..|m|][2..] == cookie[..|name| + 1];
      assert m[2..] == name + "=";
    }
  }

  /** The consent record kept in the cookie. `timestamp` is milliseconds since
      the epoch. */
  datatype CookieConsent = CookieConsent(analytics: bool, marketing: bool, necessary: bool, timestamp: int)

  /** The `Partial<CookieConsent>` a caller passes. */
  datatype PartialConsent = PartialConsent(
    analytics: Option<bool>, marketing: Option<bool>, necessary: Option<bool>, timestamp: Option<int>)

  /** `{ analytics: false, marketing: false, necessary: true, ...consent, timestamp }`. */
  function FullConsent(consent: PartialConsent, now: int): (r: CookieConsent)
    ensures r.analytics == (consent.analytics == Some(true))
    ensures r.marketing == (consent.marketing == Some(true))
    ensures r.necessary == (consent.necessary != Some(false))
    ensures r.timestamp == now
  {
    CookieConsent(consent.analytics.GetOr(false), consent.marketing.GetOr(false), consent.necessary.GetOr(true), now)
  }

  /** `hasValidConsent`, on what `getCookieConsent` returned and the current time. */
  function HasValidConsent(consent: Option<CookieConsent>, now: int): (r: bool)
    ensures consent.None? ==> !r
    ensures consent.Some? ==> (r <==> now - consent.value.timestamp < SIX_MONTHS)
  {
    match consent
    case None => false
    case Some(c) => now - c.timestamp < SIX_MONTHS
  }

  /** When a cookie assignment tells the browser to drop it. */
  datatype Expiry = ExpiresAt(ms: int)

  /** What is assigned to the cookie: the URI-encoded JSON of a consent, or nothing. */
  datatype CookieValue = EncodedConsent(consent: CookieConsent) | NoValue

  /** One `document.cookie = "name=value; expires=...; path=/; Secure; SameSite=Strict"`. */
  datatype CookieWrite = CookieWrite(name: string, value: CookieValue, expires: Expiry)

  /** Consent given at `givenAt` is still valid at `now` exactly before the
      instant, in milliseconds, that the cookie's `expires` date is formatted
      from: the six-month window is the 180-day cookie lifetime. The date is
      written to whole seconds, so the browser may drop the cookie up to a
      second earlier. */
  lemma ConsentLivesAsLongAsCookie(consent: PartialConsent, givenAt: int, now: int)
    ensures HasValidConsent(Some(FullConsent(consent, givenAt)), now) <==> now < givenAt + COOKIE_EXPIRY_DAYS * DAY_MS
  {
  }

  /** The document's cookie assignments, in order. */
  class CookieJar {
    var writes: seq<CookieWrite>

    constructor()
      ensures writes == []
    {
      writes := [];
    }

    /** `setCookie(name, value, days)` at time `now`. */
    method SetCookie(name: string, value: CookieValue, days: int, now: int)
      modifies this
      ensures writes == old(writes) + [CookieWrite(name, value, ExpiresAt(now + days * DAY_MS))]
    {
      writes := writes + [CookieWrite(name, value, ExpiresAt(now + days * 24 * 60 * 60 * 1000))];
    }

    /** `setCookieConsent(consent)` at time `now`: writes the full consent with
        a 180-day lifetime and returns it. */
    method SetCookieConsent(consent: PartialConsent, now: int) returns (full: CookieConsent)
      modifies this
      ensures full == FullConsent(consent, now)
      ensures writes == old(writes) + [CookieWrite(COOKIE_CONSENT_KEY, EncodedConsent(full), ExpiresAt(now + SIX_MONTHS))]
    {
      var timestamp := now;
      full := CookieConsent(consent.analytics.GetOr(false), consent.marketing.GetOr(false),
                            consent.necessary.GetOr(true), timestamp);
      SetCookie(COOKIE_CONSENT_KEY, EncodedConsent(full), COOKIE_EXPIRY_DAYS, now);
    }

    /** `clearCookieConsent`: an empty value that expired at the epoch. */
    method ClearCookieConsent()
      modifies this
      ensures writes == old(writes) + [CookieWrite(COOKIE_CONSENT_KEY, NoValue, ExpiresAt(0))]
    {
      writes := writes + [CookieWrite(COOKIE_CONSENT_KEY, NoValue, ExpiresAt(0))];
    }
  }
}
