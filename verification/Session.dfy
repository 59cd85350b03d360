/**
 Operator session cookies: `boss2_<issued at>_<token fingerprint>_<proof>`, how they are read back,
 and what a process with its set of revoked cookies accepts. Fingerprints and proofs are functions
 of their inputs that render as 64 hex characters.
*/
module Session {
  import opened Wrappers
  import opened Text

  const U64: nat := 0x1_0000_0000_0000_0000
  const PREFIX := "boss2"
  const ABSOLUTE_TTL_MS: nat := 7 * 24 * 60 * 60 * 1000
  const IDLE_TTL_MS: nat := 12 * 60 * 60 * 1000

  datatype Signed = Signed(issuedAt: nat, fingerprint: string, proof: string)

  predicate IsHex(c: char) {
    '0' <= c <= '9' || 'a' <= c <= 'f' || 'A' <= c <= 'F'
  }

  predicate IsHex256(s: string) {
    |s| == 64 && forall i | 0 <= i < |s| :: IsHex(s[i])
  }

  function Format(c: Signed): string {
    PREFIX + ['_'] + Digits(c.issuedAt) + ['_'] + c.fingerprint + ['_'] + c.proof
  }

  /** Rust's `u64::from_str`: an optional plus sign, at least one digit, no overflow. */
  function ParseU64(s: string): Option<nat> {
    var digits := if s != "" && s[0] == '+' then s[1..] else s;
    if digits != "" && AllDigits(digits) && Value(digits) < U64 then Some(Value(digits)) else None
  }

  function Parts(s: string): (r: seq<string>)
    ensures |r| > 0
  {
    if s == "" then [""]
    else
      var rest := Parts(s[1..]);
      if s[0] == '_' then [""] + rest else [[s[0]] + rest[0]] + rest[1..]
  }

  function StripPrefix(s: string, prefix: string): Option<string> {
    if prefix <= s then Some(s[|prefix|..]) else None
  }

  function Parse(s: string): Option<Signed> {
    match StripPrefix(s, PREFIX + "_")
    case None => None
    case Some(rest) =>
      var parts := Parts(rest);
      if |parts| != 3 then None
      else
        match ParseU64(parts[0])
        case None => None
        case Some(at) => if IsHex256(parts[1]) && IsHex256(parts[2]) then Some(Signed(at, parts[1], parts[2])) else None
  }

  lemma {:induction false} PartsAt(a: string, b: string)
    requires Lacks(a, '_')
    ensures Parts(a + ['_'] + b) == [a] + Parts(b)
  {
    var s := a + ['_'] + b;
    if a == "" {
      assert s[1..] == b;
    } else {
      assert forall i | 0 <= i < |a[1..]| :: a[1..][i] == a[i + 1];
      PartsAt(a[1..], b);
      assert s[0] == a[0] && s[1..] == a[1..] + ['_'] + b;
      assert [a[0]] + a[1..] == a;
    }
  }

  lemma {:induction false} OnePart(s: string)
    requires Lacks(s, '_')
    ensures Parts(s) == [s]
  {
    if s != "" {
      assert forall i | 0 <= i < |s[1..]| :: s[1..][i] == s[i + 1];
      OnePart(s[1..]);
      assert [s[0]] + s[1..] == s;
    }
  }

  lemma HexLacksUnderscore(s: string)
    requires IsHex256(s)
    ensures Lacks(s, '_')
  {
  }

  lemma DigitsParse(n: nat)
    requires n < U64
    ensures ParseU64(Digits(n)) == Some(n)
  {
    PaddedValue(n, 1);
    assert IsDigit(Digits(n)[0]);
  }

  /** A minted cookie parses back to exactly its time, fingerprint and proof, at any u64 time. */
  lemma FormatParseRoundTrip(c: Signed)
    requires c.issuedAt < U64 && IsHex256(c.fingerprint) && IsHex256(c.proof)
    ensures Parse(Format(c)) == Some(c)
  {
    var time := Digits(c.issuedAt);
    DigitsLack(c.issuedAt, '_');
    DigitsParse(c.issuedAt);
    HexLacksUnderscore(c.fingerprint);
    HexLacksUnderscore(c.proof);
    var rest := time + ['_'] + (c.fingerprint + ['_'] + c.proof);
    assert Format(c) == (PREFIX + "_") + rest;
    assert Format(c)[|PREFIX + "_"|..] == rest;
    PartsAt(time, c.fingerprint + ['_'] + c.proof);
    PartsAt(c.fingerprint, c.proof);
    OnePart(c.proof);
    assert Parts(rest) == [time, c.fingerprint, c.proof];
  }

  /** The text with these parts. */
  function Joined(parts: seq<string>): string
    requires parts != []
  {
    if |parts| == 1 then parts[0] else parts[0] + ['_'] + Joined(parts[1..])
  }

  lemma {:induction false} PartsJoin(s: string)
    ensures Joined(Parts(s)) == s
  {
    if s != "" {
      PartsJoin(s[1..]);
      var rest := Parts(s[1..]);
      if s[0] == '_' {
        assert Parts(s)[1..] == rest;
      } else {
        assert Parts(s)[1..] == rest[1..];
      }
      assert [s[0]] + s[1..] == s;
    }
  }

  lemma JoinedThree(parts: seq<string>)
    requires |parts| == 3
    ensures Joined(parts) == parts[0] + ['_'] + (parts[1] + ['_'] + parts[2])
  {
    var tail := parts[1..];
    assert tail[1..] == [parts[2]];
    assert Joined(tail) == parts[1] + ['_'] + Joined(tail[1..]);
  }

  lemma NumberLacksUnderscore(s: string)
    requires ParseU64(s).Some?
    ensures Lacks(s, '_')
  {
    if s[0] == '+' {
      forall i | 0 <= i < |s| ensures s[i] != '_' {
        if i > 0 {
          assert s[i] == s[1..][i - 1];
        }
      }
    }
  }

  /** A text that writes the session with this text for its time. */
  predicate Spells(text: string, time: string, c: Signed) {
    && ParseU64(time) == Some(c.issuedAt) && IsHex256(c.fingerprint) && IsHex256(c.proof)
    && text == (PREFIX + "_") + (time + ['_'] + (c.fingerprint + ['_'] + c.proof))
  }

  /** Exactly which texts stand for a session: the time in any form that reads as its number, the rest verbatim. */
  lemma ParsesIff(text: string, c: Signed)
    ensures Parse(text) == Some(c) <==> exists time: string :: Spells(text, time, c)
  {
    if Parse(text) == Some(c) {
      var rest := StripPrefix(text, PREFIX + "_").value;
      PartsJoin(rest);
      JoinedThree(Parts(rest));
      assert text == (PREFIX + "_") + rest;
      assert Spells(text, Parts(rest)[0], c);
    }
    if exists time: string :: Spells(text, time, c) {
      var time: string :| Spells(text, time, c);
      var rest := time + ['_'] + (c.fingerprint + ['_'] + c.proof);
      assert text[|PREFIX + "_"|..] == rest;
      NumberLacksUnderscore(time);
      HexLacksUnderscore(c.fingerprint);
      HexLacksUnderscore(c.proof);
      PartsAt(time, c.fingerprint + ['_'] + c.proof);
      PartsAt(c.fingerprint, c.proof);
      OnePart(c.proof);
      assert Parts(rest) == [time, c.fingerprint, c.proof];
    }
  }

  /** Different sessions never share a cookie. */
  lemma FormatInjective(a: Signed, b: Signed)
    requires a.issuedAt < U64 && IsHex256(a.fingerprint) && IsHex256(a.proof)
    requires b.issuedAt < U64 && IsHex256(b.fingerprint) && IsHex256(b.proof)
    requires Format(a) == Format(b)
    ensures a == b
  {
    FormatParseRoundTrip(a);
    FormatParseRoundTrip(b);
  }

  // ------------------------------------------------------------------
  // Authentication

  datatype AuthError = Invalid | Expired

  /** Fingerprint of a token; proof of a token for a fingerprint and a client-and-time text. */
  datatype Scheme = Scheme(fingerprint: string -> string, proof: (string, string, string) -> string)

  ghost predicate Renders256(scheme: Scheme) {
    && (forall token :: IsHex256(scheme.fingerprint(token)))
    && (forall token, fingerprint, material :: IsHex256(scheme.proof(token, fingerprint, material)))
  }

  function Material(client: string, issuedAt: nat): string {
    client + ":" + Digits(issuedAt)
  }

  function Mint(scheme: Scheme, client: string, token: string, issuedAt: nat): string {
    var fingerprint := scheme.fingerprint(token);
    Format(Signed(issuedAt, fingerprint, scheme.proof(token, fingerprint, Material(client, issuedAt))))
  }

  function SaturatingSub(a: nat, b: nat): nat {
    if a < b then 0 else a - b
  }

  /** The process: its client, its shared token, and the lookup of personal tokens by proof. */
  datatype Env = Env(scheme: Scheme, client: string, shared: Option<string>,
                     personal: (string, string, string) -> Option<string>)

  predicate Proves(env: Env, token: string, c: Signed) {
    && env.scheme.fingerprint(token) == c.fingerprint
    && env.scheme.proof(token, c.fingerprint, Material(env.client, c.issuedAt)) == c.proof
  }

  /** The token a signed cookie stands for; `None` when it is not a signed cookie at all. */
  function SignedToken(env: Env, revoked: set<string>, cookie: string, now: nat): Result<Option<string>, AuthError> {
    match Parse(cookie)
    case None => Ok(None)
    case Some(c) =>
      if cookie in revoked then Err(Invalid)
      else if SaturatingSub(now, c.issuedAt) > ABSOLUTE_TTL_MS then Err(Expired)
      else if env.shared.Some? && Proves(env, env.shared.value, c) then Ok(env.shared)
      else
        match env.personal(c.fingerprint, c.proof, Material(env.client, c.issuedAt))
        case Some(token) => Ok(Some(token))
        case None => Err(Invalid)
  }

  /** A session kept in memory for a cookie that is not a signed one. */
  datatype Legacy = Legacy(token: string, issuedAt: nat, lastSeen: nat)

  predicate Lapsed(s: Legacy, now: nat) {
    SaturatingSub(now, s.lastSeen) > IDLE_TTL_MS || SaturatingSub(now, s.issuedAt) > ABSOLUTE_TTL_MS
  }

  class Process {
    const env: Env
    var revoked: set<string>
    var sessions: map<string, Legacy>

    constructor (env: Env)
      ensures this.env == env && revoked == {} && sessions == map[]
    {
      this.env := env;
      revoked, sessions := {}, map[];
    }

    /** Signed cookies first; otherwise an in-memory session, which a use keeps alive and a lapse removes. */
    method SessionToken(cookie: Option<string>, now: nat) returns (r: Result<Option<string>, AuthError>)
      modifies `sessions
      ensures cookie.None? ==> r == Ok(None) && sessions == old(sessions)
      ensures cookie.Some? && Parse(cookie.value).Some? ==>
        r == SignedToken(env, revoked, cookie.value, now) && sessions == old(sessions)
      ensures cookie.Some? && Parse(cookie.value).None? ==>
        var before := old(sessions);
        if cookie.value !in before then r == Err(Invalid) && sessions == before
        else if Lapsed(before[cookie.value], now) then r == Err(Expired) && sessions == before - {cookie.value}
        else
          && r == Ok(Some(before[cookie.value].token))
          && sessions == before[cookie.value := before[cookie.value].(lastSeen := now)]
    {
      if cookie.None? {
        return Ok(None);
      }
      var id := cookie.value;
      var signed := SignedToken(env, revoked, id, now);
      if signed.Err? || signed.value.Some? {
        return signed;
      }
      if id !in sessions {
        return Err(Invalid);
      }
      var session := sessions[id];
      if Lapsed(session, now) {
        sessions := sessions - {id};
        return Err(Expired);
      }
      sessions := sessions[id := session.(lastSeen := now)];
      r := Ok(Some(session.token));
    }

    /** Logout: a signed cookie is revoked, any other one is forgotten. */
    method Clear(cookie: Option<string>)
      modifies `revoked, `sessions
      ensures revoked == Revoked(old(revoked), cookie)
      ensures sessions ==
        if cookie.Some? && Parse(cookie.value).None? then old(sessions) - {cookie.value} else old(sessions)
    {
      if cookie.None? {
        return;
      }
      if Parse(cookie.value).Some? {
        revoked := revoked + {cookie.value};
      } else {
        sessions := sessions - {cookie.value};
      }
    }
  }

  function Revoked(revoked: set<string>, cookie: Option<string>): set<string> {
    if cookie.Some? && Parse(cookie.value).Some? then revoked + {cookie.value} else revoked
  }

  /** The revoked set of a process after these logouts. */
  function RevokedAfter(logouts: seq<Option<string>>): set<string> {
    if logouts == [] then {} else Revoked(RevokedAfter(logouts[..|logouts| - 1]), logouts[|logouts| - 1])
  }

  lemma {:induction false} RevokedIff(logouts: seq<Option<string>>, cookie: string)
    ensures cookie in RevokedAfter(logouts) <==> Some(cookie) in logouts && Parse(cookie).Some?
  {
    if logouts != [] {
      var front, last := logouts[..|logouts| - 1], logouts[|logouts| - 1];
      RevokedIff(front, cookie);
      assert logouts == front + [last];
    }
  }

  lemma MintParses(scheme: Scheme, client: string, token: string, issuedAt: nat) returns (c: Signed)
    requires Renders256(scheme) && issuedAt < U64
    ensures Parse(Mint(scheme, client, token, issuedAt)) == Some(c)
    ensures c.issuedAt == issuedAt && c.fingerprint == scheme.fingerprint(token)
    ensures c.proof == scheme.proof(token, c.fingerprint, Material(client, issuedAt))
  {
    var fingerprint := scheme.fingerprint(token);
    c := Signed(issuedAt, fingerprint, scheme.proof(token, fingerprint, Material(client, issuedAt)));
    FormatParseRoundTrip(c);
  }

  /**
   A text that stands for a session of the shared token authenticates to that token exactly until seven
   days have passed or that text was logged out in this process, whatever other logouts happened.
  */
  lemma TextLivesUntil(env: Env, text: string, c: Signed, logouts: seq<Option<string>>, now: nat)
    requires Parse(text) == Some(c) && env.shared.Some? && Proves(env, env.shared.value, c)
    ensures var r := SignedToken(env, RevokedAfter(logouts), text, now);
      && (r == Ok(env.shared) <==> now <= c.issuedAt + ABSOLUTE_TTL_MS && Some(text) !in logouts)
      && (r == Err(Invalid) <==> Some(text) in logouts)
      && (r == Err(Expired) <==> now > c.issuedAt + ABSOLUTE_TTL_MS && Some(text) !in logouts)
  {
    RevokedIff(logouts, text);
  }

  /** A logout is of one text of a session: it refuses that text, and any other text reads as it did before. */
  lemma LogoutIsPerText(env: Env, a: string, b: string, logouts: seq<Option<string>>, now: nat)
    requires Parse(a).Some? && Parse(a) == Parse(b)
    ensures SignedToken(env, RevokedAfter(logouts + [Some(a)]), b, now) ==
      if a == b then Err(Invalid) else SignedToken(env, RevokedAfter(logouts), b, now)
  {
    RevokedIff(logouts, b);
    RevokedIff(logouts + [Some(a)], b);
  }

  /**
   A cookie minted for the shared token authenticates to that token exactly until seven days have
   passed or it was logged out in this process, whatever other logouts happened.
  */
  lemma SharedCookieLivesUntil(env: Env, issuedAt: nat, logouts: seq<Option<string>>, now: nat)
    requires Renders256(env.scheme) && issuedAt < U64 && env.shared.Some?
    ensures var cookie := Mint(env.scheme, env.client, env.shared.value, issuedAt);
      var r := SignedToken(env, RevokedAfter(logouts), cookie, now);
      && (r == Ok(env.shared) <==> now <= issuedAt + ABSOLUTE_TTL_MS && Some(cookie) !in logouts)
      && (r == Err(Invalid) <==> Some(cookie) in logouts)
      && (r == Err(Expired) <==> now > issuedAt + ABSOLUTE_TTL_MS && Some(cookie) !in logouts)
  {
    var cookie := Mint(env.scheme, env.client, env.shared.value, issuedAt);
    var c := MintParses(env.scheme, env.client, env.shared.value, issuedAt);
    TextLivesUntil(env, cookie, c, logouts, now);
  }

  /** The text of a session with this text for its time. */
  function Spelled(time: string, c: Signed): string {
    (PREFIX + "_") + (time + ['_'] + (c.fingerprint + ['_'] + c.proof))
  }

  lemma SpellingParses(minted: string, c: Signed, time: string)
    requires minted == Format(c) && Parse(minted) == Some(c)
    requires ParseU64(time) == Some(c.issuedAt) && time != Digits(c.issuedAt)
    ensures Parse(Spelled(time, c)) == Some(c) && Spelled(time, c) != minted
  {
    ParsesIff(minted, c);
    ParsesIff(Spelled(time, c), c);
    hide Parse, ParseU64;
    assert Spells(Spelled(time, c), time, c);
    SpellingsDiffer(c, time);
  }

  lemma SpellingsDiffer(c: Signed, time: string)
    requires ParseU64(time).Some? && time != Digits(c.issuedAt)
    ensures Spelled(time, c) != Format(c)
  {
    var n, tail := |PREFIX + "_"|, c.fingerprint + ['_'] + c.proof;
    assert Format(c) == (PREFIX + "_") + (Digits(c.issuedAt) + ['_'] + tail);
    assert Format(c)[n..] == Digits(c.issuedAt) + ['_'] + tail && Spelled(time, c)[n..] == time + ['_'] + tail;
    DigitsLack(c.issuedAt, '_');
    NumberLacksUnderscore(time);
    hide ParseU64, Digits, Lacks;
    if Spelled(time, c) == Format(c) {
      FirstSeparator(time, tail, Digits(c.issuedAt), tail, '_');
    }
  }

  /**
   So logging out a minted cookie does not end its session for a text that writes the time otherwise:
   that text stands for the same session, and reads as before the logout.
  */
  lemma LogoutLeavesOtherSpellings(env: Env, token: string, issuedAt: nat, time: string, logouts: seq<Option<string>>,
                                   now: nat)
    returns (c: Signed)
    requires Renders256(env.scheme) && issuedAt < U64
    requires ParseU64(time) == Some(issuedAt) && time != Digits(issuedAt)
    ensures var minted := Mint(env.scheme, env.client, token, issuedAt);
      && Parse(minted) == Some(c) && Parse(Spelled(time, c)) == Some(c) && Spelled(time, c) != minted
      && SignedToken(env, RevokedAfter(logouts + [Some(minted)]), minted, now) == Err(Invalid)
      && SignedToken(env, RevokedAfter(logouts + [Some(minted)]), Spelled(time, c), now) ==
        SignedToken(env, RevokedAfter(logouts), Spelled(time, c), now)
  {
    var minted := Mint(env.scheme, env.client, token, issuedAt);
    c := MintParses(env.scheme, env.client, token, issuedAt);
    assert minted == Format(c);
    hide Parse, SignedToken, Mint, Format, ParseU64;
    SpellingParses(minted, c, time);
    LogoutIsPerText(env, minted, minted, logouts, now);
    LogoutIsPerText(env, minted, Spelled(time, c), logouts, now);
  }

  /** Cookies minted at different times are different, so logging one out leaves the others. */
  lemma MintsDiffer(scheme: Scheme, client: string, token: string, a: nat, b: nat)
    requires Renders256(scheme) && a < U64 && b < U64 && a != b
    ensures Mint(scheme, client, token, a) != Mint(scheme, client, token, b)
  {
    var x := MintParses(scheme, client, token, a);
    var y := MintParses(scheme, client, token, b);
  }
}
