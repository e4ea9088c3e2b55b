/** Presigned URLs: what `getOrGenerateSignedUrl` hands out and stores. Times are milliseconds. */
module SignedUrls {
  import opened Base

  /** What the presigner is given: a key, the moment of signing and a lifetime in seconds. */
  datatype SignedUrl = SignedUrl(path: Path, signedAt: int, expiresIn: int)

  function UrlEnd(url: SignedUrl): int {
    url.signedAt + url.expiresIn * 1000
  }

  datatype UrlGrant = UrlGrant(url: SignedUrl, expiresAt: int)

  predicate StillValid(stored: Option<int>, now: int) {
    stored.Some? && stored.value > now
  }

  function Grant(path: Path, stored: Option<int>, now: int, expirySeconds: nat): UrlGrant {
    if StillValid(stored, now) then
      UrlGrant(SignedUrl(path, now, Max(1, (stored.value - now) / 1000)), stored.value)
    else
      UrlGrant(SignedUrl(path, now, expirySeconds), now + expirySeconds * 1000)
  }

  // A stored expiry is never further away than the configured lifetime, as long as the clock does not go back.
  predicate ExpiryBounded(stored: Option<int>, now: int, expirySeconds: nat) {
    stored.Some? ==> stored.value <= now + expirySeconds * 1000
  }

  // One grant: it ends in the future and within the configured lifetime, the URL itself ends strictly within
  // one second of the announced expiry, and the expiry that stays stored is the one announced, never an
  // earlier one than before.
  lemma GrantLifetime(path: Path, stored: Option<int>, now: int, expirySeconds: nat)
    requires expirySeconds > 0
    requires ExpiryBounded(stored, now, expirySeconds)
    ensures var g := Grant(path, stored, now, expirySeconds);
            && now < g.expiresAt <= now + expirySeconds * 1000
            && -1000 < UrlEnd(g.url) - g.expiresAt < 1000
            && g.url.expiresIn >= 1
            && g.url.path == path
            && (stored.Some? ==> stored.value <= g.expiresAt)
            && (g.expiresAt != now + expirySeconds * 1000 ==> stored == Some(g.expiresAt))
  {
    if StillValid(stored, now) {
      var gap := stored.value - now;
      assert gap == gap / 1000 * 1000 + gap % 1000;
    }
  }

  // The announced expiry and the end of the URL agree exactly for a fresh signature, and for a reused one
  // exactly when a whole number of seconds is left.
  lemma GrantExact(path: Path, stored: Option<int>, now: int, expirySeconds: nat)
    ensures var g := Grant(path, stored, now, expirySeconds);
            UrlEnd(g.url) == g.expiresAt <==> (StillValid(stored, now) ==> (stored.value - now) % 1000 == 0)
  {
    if StillValid(stored, now) {
      var gap := stored.value - now;
      assert gap == gap / 1000 * 1000 + gap % 1000;
    }
  }
}
