/** Signed download links: an expiry time, a dot, and a MAC over the file's id and that time. */
module DownloadToken {
  import opened Wrappers
  import opened Bytes
  import opened Base64
  import opened PythonInt

  // ---------------------------------------------------------------------
  // The token
  // ---------------------------------------------------------------------

  /** HMAC-SHA-256 of a text under the service's secret. */
  type Mac = string -> Bytes32

  predicate IsUuidText(s: string) {
    |s| == 36 && forall i :: 0 <= i < 36 ==> IsDigit(s[i]) || 'a' <= s[i] <= 'f' || s[i] == '-'
  }

  const NIL_UUID := "00000000-0000-0000-0000-000000000000"

  type UploadId = s: string | IsUuidText(s) witness NIL_UUID

  const DEFAULT_TTL_SECONDS := 1800

  /** `int(t)` on a time in seconds. */
  function Trunc(t: real): (n: int)
    ensures t >= 0.0 ==> n as real <= t < n as real + 1.0
    ensures t < 0.0 ==> n as real - 1.0 < t <= n as real
  {
    if t >= 0.0 then t.Floor else 0 - (0.0 - t).Floor
  }

  function Max(a: int, b: int): (m: int)
    ensures m >= a && m >= b && (m == a || m == b)
  {
    if a >= b then a else b
  }

  function SignedText(id: UploadId, expiresAt: int): string {
    id + ":" + IntText(expiresAt)
  }

  function Expiry(ttl: int, now: real): int {
    Trunc(now) + Max(ttl, 1)
  }

  function MakeDownloadToken(mac: Mac, id: UploadId, ttl: int := DEFAULT_TTL_SECONDS, now: real): string {
    var expiresAt := Expiry(ttl, now);
    IntText(expiresAt) + "." + Unpadded(mac(SignedText(id, expiresAt)))
  }

  /** `token.split(".", 1)` */
  function SplitAtDot(s: string): Option<(string, string)> {
    if s == "" then None
    else if s[0] == '.' then Some(("", s[1..]))
    else
      match SplitAtDot(s[1..])
      case None => None
      case Some((before, after)) => Some(([s[0]] + before, after))
  }

  predicate VerifyDownloadToken(mac: Mac, id: UploadId, token: string, now: real) {
    var parts := SplitAtDot(token);
    && parts.Some?
    && var expiresAt := ReadInt(parts.value.0);
    && expiresAt.Some? && expiresAt.value >= Trunc(now)
    && DecodeUnpadded(parts.value.1) == Some(mac(SignedText(id, expiresAt.value)))
  }

  // ---------------------------------------------------------------------
  // What a token is good for
  // ---------------------------------------------------------------------

  lemma {:induction false} SplitAtFirstDot(before: string, after: string)
    requires '.' !in before
    ensures SplitAtDot(before + "." + after) == Some((before, after))
  {
    var s := before + "." + after;
    if before == "" {
      assert s[1..] == after;
    } else {
      assert s[1..] == before[1..] + "." + after;
      SplitAtFirstDot(before[1..], after);
      assert [before[0]] + before[1..] == before;
    }
  }

  /** A text cuts at its first dot in one way only. */
  lemma {:induction false} SplitRestores(s: string)
    ensures SplitAtDot(s).Some? <==> '.' in s
    ensures SplitAtDot(s).Some? ==> s == SplitAtDot(s).value.0 + "." + SplitAtDot(s).value.1 && '.' !in SplitAtDot(s).value.0
  {
    if s != "" && s[0] != '.' {
      SplitRestores(s[1..]);
      assert s == [s[0]] + s[1..];
    } else if s != "" {
      assert s == "." + s[1..];
    }
  }

  /** The text that is signed says which file and which time. */
  lemma SignedTextDetermines(id: UploadId, e: int, id': UploadId, e': int)
    ensures SignedText(id, e) == SignedText(id', e') <==> (id, e) == (id', e')
  {
    if SignedText(id, e) == SignedText(id', e') {
      assert id == SignedText(id, e)[..36] == SignedText(id', e')[..36] == id';
      assert IntText(e) == SignedText(id, e)[37..] == SignedText(id', e')[37..] == IntText(e');
      ReadIntText(e);
      ReadIntText(e');
    }
  }

  /** The signature made for one file and time, presented under any file id and any written expiry, is
      accepted exactly until that expiry and exactly where the two MACs coincide. */
  lemma SignatureAccepted(mac: Mac, id: UploadId, e: int, id': UploadId, written: string, now: real)
    requires '.' !in written
    ensures VerifyDownloadToken(mac, id', written + "." + Unpadded(mac(SignedText(id, e))), now) <==>
              && ReadInt(written).Some? && Trunc(now) <= ReadInt(written).value
              && mac(SignedText(id', ReadInt(written).value)) == mac(SignedText(id, e))
  {
    SplitAtFirstDot(written, Unpadded(mac(SignedText(id, e))));
    UnpaddedRoundTrip(mac(SignedText(id, e)));
  }

  /** A link opens its file exactly until it runs out, and another file only if the MAC takes the same
      value on two different texts. */
  lemma TokenLifetime(mac: Mac, id: UploadId, id': UploadId, ttl: int, made: real, now: real)
    ensures VerifyDownloadToken(mac, id, MakeDownloadToken(mac, id, ttl, made), now) <==> Trunc(now) <= Trunc(made) + Max(ttl, 1)
    ensures id' != id && VerifyDownloadToken(mac, id', MakeDownloadToken(mac, id, ttl, made), now) ==>
              var e := Expiry(ttl, made);
              SignedText(id', e) != SignedText(id, e) && mac(SignedText(id', e)) == mac(SignedText(id, e))
  {
    var e := Expiry(ttl, made);
    ReadIntText(e);
    SignatureAccepted(mac, id, e, id, IntText(e), now);
    SignatureAccepted(mac, id, e, id', IntText(e), now);
    SignedTextDetermines(id, e, id', e);
  }

  /** Writing a later expiry over a link's own does not extend it, short of such a coincidence. */
  lemma ExpiryIsSigned(mac: Mac, id: UploadId, ttl: int, made: real, later: int, now: real)
    requires later != Expiry(ttl, made)
    requires VerifyDownloadToken(mac, id, IntText(later) + "." + Unpadded(mac(SignedText(id, Expiry(ttl, made)))), now)
    ensures var e := Expiry(ttl, made);
            SignedText(id, later) != SignedText(id, e) && mac(SignedText(id, later)) == mac(SignedText(id, e))
  {
    ReadIntText(later);
    SignatureAccepted(mac, id, Expiry(ttl, made), id, IntText(later), now);
    SignedTextDetermines(id, later, id, Expiry(ttl, made));
  }

  /** Nothing that is refused as out of date is accepted later. */
  lemma ExpiredForGood(mac: Mac, id: UploadId, token: string, earlier: real, now: real)
    requires earlier <= now && VerifyDownloadToken(mac, id, token, now)
    ensures VerifyDownloadToken(mac, id, token, earlier)
  {
    assert Trunc(earlier) <= Trunc(now) by {
      if earlier < 0.0 && now < 0.0 {
        assert (0.0 - now).Floor <= (0.0 - earlier).Floor;
      }
    }
  }

  /** The text of a token is not unique: a plus sign and spaces before the expiry change nothing. */
  lemma SpellingDoesNotMatter(mac: Mac, id: UploadId, e: nat, now: real)
    ensures VerifyDownloadToken(mac, id, " +" + IntText(e) + "." + Unpadded(mac(SignedText(id, e))), now) <==> Trunc(now) <= e
  {
    var written := " +" + IntText(e);
    assert written[1..] == "+" + IntText(e);
    assert ("+" + IntText(e))[1..] == IntText(e);
    ReadNatText(e);
    var plus := "+" + IntText(e);
    assert IsDigit(plus[|plus| - 1]) by {
      assert plus[|plus| - 1] == NatText(e)[|plus| - 2];
    }
    assert StripSpaces(plus) == plus;
    assert StripSpaces(written) == plus;
    SignatureAccepted(mac, id, e, id, written, now);
  }

  /** On the clock, whose readings are not negative: a link lives for the whole seconds it was given, or
      for one when it was given less. */
  lemma LifetimeOnTheClock(mac: Mac, id: UploadId, ttl: int, made: real, now: real)
    requires made >= 0.0 && now >= 0.0
    ensures ttl >= 1 ==>
              (VerifyDownloadToken(mac, id, MakeDownloadToken(mac, id, ttl, made), now) <==> now.Floor <= made.Floor + ttl)
    ensures ttl < 1 ==>
              (VerifyDownloadToken(mac, id, MakeDownloadToken(mac, id, ttl, made), now) <==> now.Floor <= made.Floor + 1)
  {
    TokenLifetime(mac, id, id, ttl, made, now);
  }

  /** What a link looks like: the moment it runs out, a dot, and the MAC of the file's id and that moment. */
  lemma TokenShape(mac: Mac, id: UploadId, ttl: int, made: real)
    requires made >= 0.0 && ttl >= 1
    ensures var expiry := IntText(made.Floor + ttl);
            MakeDownloadToken(mac, id, ttl, made) == expiry + "." + Unpadded(mac(id + ":" + expiry))
  {
  }
}
