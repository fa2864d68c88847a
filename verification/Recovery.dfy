/**
 Session recovery tokens: the signed stateless token that must read back what was put in, and the stored token
 that can be claimed once. Text is bytes as characters below 256; the keyed signature and the token hash are parameters.
 */
module Recovery {
  import opened Text

  const VALIDITY := 15 * 60

  datatype Ids = Ids(entry: string, queue: string)

  datatype Verdict = Valid(ids: Ids) | Malformed | BadPayload | BadSignature | BadFormat | BadExpiration | Expired

  // ----- Hexadecimal

  predicate Bytes(s: string) { forall i :: 0 <= i < |s| ==> s[i] as int < 256 }

  function HexDigit(d: nat): (c: char)
    requires d < 16
    ensures HexValue(c) == Some(d)
  {
    if d < 10 then ('0' as int + d) as char else ('a' as int + d - 10) as char
  }

  /** Both cases are read. */
  function HexValue(c: char): (d: Option<nat>)
    ensures d.Some? ==> d.value < 16 && c != '.'
  {
    if '0' <= c <= '9' then Some(c as int - '0' as int)
    else if 'a' <= c <= 'f' then Some(c as int - 'a' as int + 10)
    else if 'A' <= c <= 'F' then Some(c as int - 'A' as int + 10)
    else None
  }

  function HexEncoded(s: string): (h: string)
    requires Bytes(s)
    ensures |h| == 2 * |s| && '.' !in h
  {
    if s == [] then [] else [HexDigit(s[0] as int / 16), HexDigit(s[0] as int % 16)] + HexEncoded(s[1..])
  }

  /** An odd length or a character that is no hexadecimal digit is an error. */
  function HexDecoded(h: string): (s: Option<string>)
    ensures s.Some? ==> Bytes(s.value) && |h| == 2 * |s.value|
  {
    if h == [] then Some([])
    else if |h| == 1 || HexValue(h[0]).None? || HexValue(h[1]).None? then None
    else
      match HexDecoded(h[2..])
      case None => None
      case Some(rest) => Some([(16 * HexValue(h[0]).value + HexValue(h[1]).value) as char] + rest)
  }

  lemma ByteRoundTrip(c: char)
    requires c as int < 256
    ensures 16 * HexValue(HexDigit(c as int / 16)).value + HexValue(HexDigit(c as int % 16)).value == c as int
  {
  }

  lemma DecodePair(a: char, b: char, tail: string, rest: string)
    requires HexValue(a).Some? && HexValue(b).Some? && HexDecoded(tail) == Some(rest)
    ensures HexDecoded([a, b] + tail) == Some([(16 * HexValue(a).value + HexValue(b).value) as char] + rest)
  {
    assert ([a, b] + tail)[2..] == tail;
  }

  lemma {:induction false} HexRoundTrip(s: string)
    requires Bytes(s)
    ensures HexDecoded(HexEncoded(s)) == Some(s)
  {
    if s != [] {
      HexRoundTrip(s[1..]);
      ByteRoundTrip(s[0]);
      DecodePair(HexDigit(s[0] as int / 16), HexDigit(s[0] as int % 16), HexEncoded(s[1..]), s[1..]);
      assert s == [s[0]] + s[1..];
    }
  }

  /** Two lower-case digits per byte, the high half first. */
  lemma {:induction false} HexSpelled(s: string, i: nat)
    requires Bytes(s) && i < |s|
    ensures var digits := "0123456789abcdef";
            && HexEncoded(s)[2 * i] == digits[s[i] as int / 16]
            && HexEncoded(s)[2 * i + 1] == digits[s[i] as int % 16]
  {
    if i > 0 { HexSpelled(s[1..], i - 1); }
  }

  // ----- Splitting

  /** The first separator's index, or the length. */
  function IndexOf(s: string, c: char): (k: nat)
    ensures k <= |s| && c !in s[..k] && (k < |s| ==> s[k] == c)
  {
    if s == [] || s[0] == c then 0 else 1 + IndexOf(s[1..], c)
  }

  function Split(s: string, c: char): (parts: seq<string>)
    ensures |parts| == 1 + multiset(s)[c]
    decreases |s|
  {
    var k := IndexOf(s, c);
    assert s == s[..k] + s[k..] && multiset(s[..k])[c] == 0;
    if k == |s| then [s]
    else
      assert s[k..] == [c] + s[k + 1..];
      [s[..k]] + Split(s[k + 1..], c)
  }

  function Joined(parts: seq<string>, c: char): string {
    if parts == [] then [] else if |parts| == 1 then parts[0] else parts[0] + [c] + Joined(parts[1..], c)
  }

  lemma IndexOfFirst(a: string, c: char, rest: string)
    requires c !in a
    ensures IndexOf(a + [c] + rest, c) == |a|
  {
    var s := a + [c] + rest;
    var k := IndexOf(s, c);
    assert s[|a|] == c && forall i :: 0 <= i < |a| ==> s[i] == a[i];
    assert forall i :: 0 <= i < k ==> s[i] == s[..k][i];
  }

  lemma SplitFront(a: string, c: char, rest: string)
    requires c !in a
    ensures Split(a + [c] + rest, c) == [a] + Split(rest, c)
  {
    IndexOfFirst(a, c, rest);
    assert (a + [c] + rest)[..|a|] == a && (a + [c] + rest)[|a| + 1..] == rest;
  }

  lemma SplitWhole(s: string, c: char)
    requires c !in s
    ensures Split(s, c) == [s]
  {
  }

  lemma JoinedFront(a: string, parts: seq<string>, c: char)
    requires parts != []
    ensures Joined([a] + parts, c) == a + [c] + Joined(parts, c)
  {
    assert ([a] + parts)[1..] == parts;
  }

  /** Splitting loses nothing. */
  lemma {:induction false} SplitJoins(s: string, c: char)
    ensures Joined(Split(s, c), c) == s
    ensures forall p :: p in Split(s, c) ==> c !in p
    decreases |s|
  {
    var k := IndexOf(s, c);
    if k < |s| {
      SplitJoins(s[k + 1..], c);
      JoinedFront(s[..k], Split(s[k + 1..], c), c);
      assert s == s[..k] + [c] + s[k + 1..];
    }
  }

  datatype Parts = Parts(payload: string, signature: string)

  /** Cut at the last dot; None when there is none. */
  function CutAtLastDot(t: string): (parts: Option<Parts>)
    ensures parts.Some? ==> t == parts.value.payload + "." + parts.value.signature && '.' !in parts.value.signature
    ensures parts.None? ==> '.' !in t
  {
    if t == [] then None
    else
      var n := |t| - 1;
      assert t == t[..n] + [t[n]];
      if t[n] == '.' then Some(Parts(t[..n], []))
      else
        match CutAtLastDot(t[..n])
        case None => None
        case Some(p) => Some(Parts(p.payload, p.signature + [t[n]]))
  }

  lemma {:induction false} CutFound(payload: string, signature: string)
    requires '.' !in signature
    ensures CutAtLastDot(payload + "." + signature) == Some(Parts(payload, signature))
  {
    var t := payload + "." + signature;
    var n := |t| - 1;
    if signature == [] {
      assert t[..n] == payload;
    } else {
      var m := |signature| - 1;
      assert t[n] == signature[m] && signature == signature[..m] + [signature[m]];
      assert t[..n] == payload + "." + signature[..m];
      CutFound(payload, signature[..m]);
    }
  }

  method SplitToken(t: string) returns (parts: Option<Parts>)
    ensures parts == CutAtLastDot(t)
  {
    var i := |t|;
    while i > 0
      invariant 0 <= i <= |t| && '.' !in t[i..]
    {
      i := i - 1;
      if t[i] == '.' {
        assert t == t[..i] + "." + t[i + 1..];
        CutFound(t[..i], t[i + 1..]);
        return Some(Parts(t[..i], t[i + 1..]));
      }
      assert t[i..] == [t[i]] + t[i + 1..];
    }
    assert t[0..] == t;
    return None;
  }

  /** Cut at the first colon; two empty ids when there is none. */
  function CutAtColon(v: string): Ids {
    var k := IndexOf(v, ':');
    if k < |v| then Ids(v[..k], v[k + 1..]) else Ids("", "")
  }

  method ParseVal(v: string) returns (ids: Ids)
    ensures ids == CutAtColon(v)
  {
    var i := 0;
    while i < |v|
      invariant i <= |v| && ':' !in v[..i]
    {
      if v[i] == ':' {
        assert v == v[..i] + [':'] + v[i + 1..];
        IndexOfFirst(v[..i], ':', v[i + 1..]);
        return Ids(v[..i], v[i + 1..]);
      }
      assert v[..i + 1] == v[..i] + [v[i]];
      i := i + 1;
    }
    assert v[..|v|] == v;
    return Ids("", "");
  }

  // ----- Signed decimal numbers

  function Printed(n: int): string { if n < 0 then "-" + Decimal(-n) else Decimal(n) }

  function LeadingDigits(s: string): (k: nat)
    ensures k <= |s| && AllDigits(s[..k]) && (k < |s| ==> !IsDigit(s[k]))
  {
    if s == [] || !IsDigit(s[0]) then 0 else 1 + LeadingDigits(s[1..])
  }

  /** The scan of a `%d`: an optional sign and a run of digits; what follows is not looked at. */
  function Scanned(s: string): Option<int> {
    var signed := s != [] && (s[0] == '-' || s[0] == '+');
    var digits := if signed then s[1..] else s;
    var k := LeadingDigits(digits);
    if k == 0 then None
    else
      var n: int := Value(digits[..k]);
      Some(if signed && s[0] == '-' then -n else n)
  }

  /** Scanning undoes printing. */
  lemma ScanUndoesPrint(n: int)
    ensures Scanned(Printed(n)) == Some(n) && ':' !in Printed(n) && Bytes(Printed(n))
  {
    var d := Decimal(if n < 0 then -n else n);
    assert LeadingDigits(d) == |d| && d[..|d|] == d;
    assert Printed(n) == d || (Printed(n) == ['-'] + d && Printed(n)[1..] == d);
    assert IsDigit(d[0]);
  }

  // ----- The stateless token

  /** A keyed signature: bytes for every message. */
  ghost predicate IsMac(mac: string -> string) { forall m :: Bytes(mac(m)) }

  predicate ByteIds(ids: Ids) { Bytes(ids.entry) && Bytes(ids.queue) }

  predicate ColonFree(ids: Ids) { ':' !in ids.entry && ':' !in ids.queue }

  function Payload(ids: Ids, expiration: int): string {
    ids.entry + [':'] + (ids.queue + [':'] + Printed(expiration))
  }

  function Signed(mac: string -> string, payload: string): string
    requires Bytes(payload) && Bytes(mac(payload))
  {
    HexEncoded(payload) + "." + HexEncoded(mac(payload))
  }

  lemma PayloadBytes(ids: Ids, expiration: int)
    requires ByteIds(ids)
    ensures Bytes(Payload(ids, expiration))
  {
  }

  function StatelessToken(mac: string -> string, ids: Ids, now: int): string
    requires ByteIds(ids) && IsMac(mac)
  {
    PayloadBytes(ids, now + VALIDITY);
    Signed(mac, Payload(ids, now + VALIDITY))
  }

  /** The payload a token carries under a matching signature. */
  function Opened(mac: string -> string, token: string): (payload: Option<string>)
    requires IsMac(mac)
  {
    match CutAtLastDot(token)
    case None => None
    case Some(parts) =>
      match HexDecoded(parts.payload)
      case None => None
      case Some(payload) => if HexEncoded(mac(payload)) == parts.signature then Some(payload) else None
  }

  /** The verdict on a payload under a matching signature. */
  function Judged(payload: string, now: int): Verdict {
    var segments := Split(payload, ':');
    if |segments| != 3 then BadFormat
    else if Scanned(segments[2]).None? then BadExpiration
    else if now > Scanned(segments[2]).value then Expired
    else Valid(Ids(segments[0], segments[1]))
  }

  function Verified(mac: string -> string, token: string, now: int): Verdict
    requires IsMac(mac)
  {
    match CutAtLastDot(token)
    case None => Malformed
    case Some(parts) =>
      match HexDecoded(parts.payload)
      case None => BadPayload
      case Some(payload) =>
        if HexEncoded(mac(payload)) != parts.signature then BadSignature else Judged(payload, now)
  }

  lemma SignedOpens(mac: string -> string, payload: string)
    requires Bytes(payload) && IsMac(mac)
    ensures CutAtLastDot(Signed(mac, payload)) == Some(Parts(HexEncoded(payload), HexEncoded(mac(payload))))
    ensures HexDecoded(HexEncoded(payload)) == Some(payload) && Opened(mac, Signed(mac, payload)) == Some(payload)
  {
    CutFound(HexEncoded(payload), HexEncoded(mac(payload)));
    HexRoundTrip(payload);
  }

  lemma CountSeparators(a: string, b: string, e: string, c: char)
    ensures multiset(a + [c] + (b + [c] + e))[c] == multiset(a)[c] + multiset(b)[c] + multiset(e)[c] + 2
  {
  }

  lemma SplitThree(a: string, b: string, e: string, c: char)
    requires c !in a && c !in b && c !in e
    ensures Split(a + [c] + (b + [c] + e), c) == [a, b, e]
  {
    SplitFront(a, c, b + [c] + e);
    SplitFront(b, c, e);
    SplitWhole(e, c);
  }

  lemma PayloadSplits(ids: Ids, expiration: int)
    ensures ColonFree(ids) ==> Split(Payload(ids, expiration), ':') == [ids.entry, ids.queue, Printed(expiration)]
    ensures |Split(Payload(ids, expiration), ':')| == 3 <==> ColonFree(ids)
  {
    ScanUndoesPrint(expiration);
    CountSeparators(ids.entry, ids.queue, Printed(expiration), ':');
    if ColonFree(ids) { SplitThree(ids.entry, ids.queue, Printed(expiration), ':'); }
  }

  /**
   Verification of a token just as generated: the ids come back exactly when neither holds a colon and the 15
   minutes are not over; otherwise the answer names which of the two failed.
   */
  lemma RoundTripExact(mac: string -> string, ids: Ids, issued: int, now: int)
    requires ByteIds(ids) && IsMac(mac)
    ensures Verified(mac, StatelessToken(mac, ids, issued), now)
         == if !ColonFree(ids) then BadFormat else if now > issued + VALIDITY then Expired else Valid(ids)
  {
    PayloadBytes(ids, issued + VALIDITY);
    SignedOpens(mac, Payload(ids, issued + VALIDITY));
    PayloadSplits(ids, issued + VALIDITY);
    ScanUndoesPrint(issued + VALIDITY);
  }

  lemma ThreeSegments(payload: string, c: char)
    requires |Split(payload, c)| == 3
    ensures var s := Split(payload, c);
            && payload == s[0] + [c] + (s[1] + [c] + s[2])
            && c !in s[0] && c !in s[1]
  {
    var s := Split(payload, c);
    SplitJoins(payload, c);
    assert s[0] in s && s[1] in s;
    assert Joined(s[1..], c) == s[1] + [c] + s[2];
  }

  /** The token: the payload "entry:queue:expiration", 900 seconds ahead, and its signature, in hexadecimal. */
  lemma TokenSpelled(mac: string -> string, ids: Ids, now: int)
    requires ByteIds(ids) && IsMac(mac)
    ensures var payload := ids.entry + ":" + ids.queue + ":" + Printed(now + 900);
            Bytes(payload)
            && StatelessToken(mac, ids, now) == HexEncoded(payload) + "." + HexEncoded(mac(payload))
  {
    PayloadBytes(ids, now + VALIDITY);
    assert ids.entry + ":" + ids.queue + ":" + Printed(now + 900) == Payload(ids, now + 900);
  }

  /** A token is refused, whatever it carries, unless its last part is the signature of what it carries. */
  lemma ForgedRefused(mac: string -> string, p: string, sig: string, now: int)
    requires IsMac(mac) && '.' !in sig && HexDecoded(p).Some?
    requires HexEncoded(mac(HexDecoded(p).value)) != sig
    ensures Verified(mac, p + "." + sig, now) == BadSignature
  {
    CutFound(p, sig);
  }

  /** The other refusals: no dot at all, and a first part that is not hexadecimal. */
  lemma UnreadableRefused(mac: string -> string, p: string, sig: string, token: string, now: int)
    requires IsMac(mac) && '.' !in sig && HexDecoded(p).None? && '.' !in token
    ensures Verified(mac, token, now) == Malformed && Verified(mac, p + "." + sig, now) == BadPayload
  {
    CutFound(p, sig);
  }

  /** A rightly signed payload is judged by its colons and its third part, which must be a number not passed. */
  lemma SignedJudged(mac: string -> string, payload: string, now: int)
    requires IsMac(mac) && Bytes(payload)
    ensures var parts := Split(payload, ':');
            Verified(mac, HexEncoded(payload) + "." + HexEncoded(mac(payload)), now)
            == if multiset(payload)[':'] != 2 then BadFormat
               else if Scanned(parts[2]).None? then BadExpiration
               else if now > Scanned(parts[2]).value then Expired
               else Valid(Ids(parts[0], parts[1]))
  {
    SignedOpens(mac, payload);
  }

  lemma ValidIsJudged(mac: string -> string, token: string, now: int)
    requires IsMac(mac) && Verified(mac, token, now).Valid?
    ensures Opened(mac, token).Some? && Verified(mac, token, now) == Judged(Opened(mac, token).value, now)
  {
  }

  /** What a valid verdict says of the payload. */
  lemma ValidPayload(payload: string, now: int, ids: Ids)
    requires Judged(payload, now) == Valid(ids)
    ensures var s := Split(payload, ':');
            |s| == 3 && ids == Ids(s[0], s[1]) && Scanned(s[2]).Some? && now <= Scanned(s[2]).value
  {
  }

  /** Whatever token verifies carries a matching signature over those very ids and an expiration not passed. */
  lemma ValidMeansSigned(mac: string -> string, token: string, now: int, ids: Ids) returns (expiration: string)
    requires IsMac(mac) && Verified(mac, token, now) == Valid(ids)
    ensures Opened(mac, token) == Some(ids.entry + [':'] + (ids.queue + [':'] + expiration))
    ensures ColonFree(ids) && Scanned(expiration).Some? && now <= Scanned(expiration).value
  {
    ValidIsJudged(mac, token, now);
    var payload := Opened(mac, token).value;
    ValidPayload(payload, now, ids);
    ThreeSegments(payload, ':');
    expiration := Split(payload, ':')[2];
  }

  // ----- The stored token

  const TOKEN_LIFE := 2 * 3600

  datatype Stored = Stored(value: string, until: int)

  datatype Claim = Claimed(ids: Ids) | MalformedToken | WrongSignature | Gone | Corrupted

  function StoredValue(ids: Ids): string { ids.entry + [':'] + ids.queue }

  /** What a fetched value means. */
  function Read(value: string): Claim {
    var ids := CutAtColon(value);
    if ids.entry == "" || ids.queue == "" then Corrupted else Claimed(ids)
  }

  function LiveValue(stored: map<string, Stored>, key: string, now: int): Option<string> {
    if key in stored && now < stored[key].until then Some(stored[key].value) else None
  }

  datatype Step = Issue(token: string, ids: Ids) | Try(token: string) | Pass(seconds: nat)

  datatype World = World(now: int, stored: map<string, Stored>)

  /** `mac` decides which tokens reach the store, `hash` under which key. */
  function Next(mac: string -> string, hash: string -> string, w: World, step: Step): World
    requires IsMac(mac)
  {
    match step
    case Issue(token, ids) => w.(stored := w.stored[hash(token) := Stored(StoredValue(ids), w.now + TOKEN_LIFE)])
    case Try(token) => if Opened(mac, token).Some? then w.(stored := w.stored - {hash(token)}) else w
    case Pass(seconds) => w.(now := w.now + seconds)
  }

  /** Only a token with a matching signature reaches the store. */
  function Outcome(mac: string -> string, hash: string -> string, w: World, token: string): Claim
    requires IsMac(mac)
  {
    if CutAtLastDot(token).None? || HexDecoded(CutAtLastDot(token).value.payload).None? then MalformedToken
    else if Opened(mac, token).None? then WrongSignature
    else
      match LiveValue(w.stored, hash(token), w.now)
      case None => Gone
      case Some(value) => Read(value)
  }

  class RecoveryService {
    const mac: string -> string
    const hash: string -> string
    var stored: map<string, Stored>

    constructor (mac: string -> string, hash: string -> string)
      ensures this.mac == mac && this.hash == hash && stored == map[]
    {
      this.mac, this.hash, stored := mac, hash, map[];
    }

    method GenerateToken(raw: string, ids: Ids, now: int) returns (token: string)
      requires Bytes(raw) && IsMac(mac)
      modifies this
      ensures token == Signed(mac, raw)
      ensures stored == Next(mac, hash, World(now, old(stored)), Issue(token, ids)).stored
    {
      token := HexEncoded(raw) + "." + HexEncoded(mac(raw));
      stored := stored[hash(token) := Stored(StoredValue(ids), now + TOKEN_LIFE)];
    }

    /** The value is fetched and taken out in one step. */
    method ClaimToken(token: string, now: int) returns (claim: Claim)
      requires IsMac(mac)
      modifies this
      ensures claim == Outcome(mac, hash, World(now, old(stored)), token)
      ensures stored == Next(mac, hash, World(now, old(stored)), Try(token)).stored
    {
      var parts := SplitToken(token);
      if parts.None? { return MalformedToken; }
      var raw := HexDecoded(parts.value.payload);
      if raw.None? { return MalformedToken; }
      if HexEncoded(mac(raw.value)) != parts.value.signature { return WrongSignature; }
      var value := LiveValue(stored, hash(token), now);
      stored := stored - {hash(token)};
      if value.None? { return Gone; }
      var ids := ParseVal(value.value);
      if ids.entry == "" || ids.queue == "" { return Corrupted; }
      return Claimed(ids);
    }
  }

  // ----- Any interleaving of issuing and claiming; each touches the store in one step

  function After(mac: string -> string, hash: string -> string, w: World, steps: seq<Step>): World
    requires IsMac(mac)
    decreases |steps|
  {
    if steps == [] then w else After(mac, hash, Next(mac, hash, w, steps[0]), steps[1..])
  }

  /** How many claims that look under the key succeed along the run. */
  function Successes(mac: string -> string, hash: string -> string, w: World, steps: seq<Step>, key: string): nat
    requires IsMac(mac)
    decreases |steps|
  {
    if steps == [] then 0
    else
      (if steps[0].Try? && hash(steps[0].token) == key && Outcome(mac, hash, w, steps[0].token).Claimed? then 1 else 0)
      + Successes(mac, hash, Next(mac, hash, w, steps[0]), steps[1..], key)
  }

  function Issues(hash: string -> string, steps: seq<Step>, key: string): nat {
    if steps == [] then 0
    else (if steps[0].Issue? && hash(steps[0].token) == key then 1 else 0) + Issues(hash, steps[1..], key)
  }

  /** Over every run, claims succeed at most as often as the token was issued, plus once if it was there before. */
  lemma {:induction false} ClaimsAtMostIssues(
    mac: string -> string, hash: string -> string, w: World, steps: seq<Step>, key: string)
    requires IsMac(mac)
    ensures Successes(mac, hash, w, steps, key) <= Issues(hash, steps, key) + if key in w.stored then 1 else 0
    decreases |steps|
  {
    if steps != [] { ClaimsAtMostIssues(mac, hash, Next(mac, hash, w, steps[0]), steps[1..], key); }
  }

  /** One token issued once: whatever claims follow in whatever order, at most one of them succeeds. */
  lemma SingleUse(mac: string -> string, hash: string -> string, w: World, token: string, ids: Ids, steps: seq<Step>)
    requires IsMac(mac) && Issues(hash, steps, hash(token)) == 0
    ensures Successes(mac, hash, Next(mac, hash, w, Issue(token, ids)), steps, hash(token)) <= 1
  {
    ClaimsAtMostIssues(mac, hash, Next(mac, hash, w, Issue(token, ids)), steps, hash(token));
  }

  /** A claim with another signature than that of the bytes it names fails and leaves the store as it was. */
  lemma ForgedClaimRefused(
    mac: string -> string, hash: string -> string, w: World, p: string, sig: string)
    requires IsMac(mac) && '.' !in sig && HexDecoded(p).Some?
    requires HexEncoded(mac(HexDecoded(p).value)) != sig
    ensures Outcome(mac, hash, w, p + "." + sig) == WrongSignature
    ensures Next(mac, hash, w, Try(p + "." + sig)) == w
  {
    CutFound(p, sig);
  }

  /** A rightly signed claim takes the token out, and succeeds while the two hours after its issue are not over. */
  lemma ClaimMeans(mac: string -> string, hash: string -> string, w: World, raw: string, ids: Ids, span: nat)
    requires IsMac(mac) && Bytes(raw)
    ensures var token := HexEncoded(raw) + "." + HexEncoded(mac(raw));
            var w1 := Next(mac, hash, Next(mac, hash, w, Issue(token, ids)), Pass(span));
            && Outcome(mac, hash, w1, token) == (if span < 7200 then Read(ids.entry + ":" + ids.queue) else Gone)
            && Next(mac, hash, w1, Try(token)).stored == w1.stored - {hash(token)}
            && Outcome(mac, hash, Next(mac, hash, w1, Try(token)), token) == Gone
  {
    SignedOpens(mac, raw);
  }

  predicate LooksUnder(hash: string -> string, step: Step, key: string) { !step.Pass? && hash(step.token) == key }

  lemma {:induction false} StandsMeanwhile(
    mac: string -> string, hash: string -> string, w: World, steps: seq<Step>, key: string)
    requires IsMac(mac) && key in w.stored
    requires forall i :: 0 <= i < |steps| ==> !LooksUnder(hash, steps[i], key)
    ensures key in After(mac, hash, w, steps).stored && After(mac, hash, w, steps).stored[key] == w.stored[key]
    decreases |steps|
  {
    if steps != [] { StandsMeanwhile(mac, hash, Next(mac, hash, w, steps[0]), steps[1..], key); }
  }

  lemma ReadUndoesStore(ids: Ids)
    ensures Read(StoredValue(ids)) == Claimed(ids) <==> ids.entry != "" && ':' !in ids.entry && ids.queue != ""
  {
    var value := StoredValue(ids);
    if ':' !in ids.entry {
      IndexOfFirst(ids.entry, ':', ids.queue);
      assert value[..|ids.entry|] == ids.entry && value[|ids.entry| + 1..] == ids.queue;
    }
  }

  /**
   The first claim of an issued token gives the issued ids exactly when it comes within the two hours and the
   ids are stored readably: neither is empty and the entry's id holds no colon.
   */
  lemma FirstClaimExact(
    mac: string -> string, hash: string -> string, w: World, raw: string, ids: Ids, steps: seq<Step>)
    requires IsMac(mac) && Bytes(raw)
    requires forall i :: 0 <= i < |steps| ==> !LooksUnder(hash, steps[i], hash(Signed(mac, raw)))
    ensures var token := Signed(mac, raw);
            var end := After(mac, hash, Next(mac, hash, w, Issue(token, ids)), steps);
            Outcome(mac, hash, end, token) == Claimed(ids) <==>
            end.now < w.now + TOKEN_LIFE && ids.entry != "" && ':' !in ids.entry && ids.queue != ""
  {
    var token := Signed(mac, raw);
    SignedOpens(mac, raw);
    StandsMeanwhile(mac, hash, Next(mac, hash, w, Issue(token, ids)), steps, hash(token));
    ReadUndoesStore(ids);
  }
}
