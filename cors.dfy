/** The CORS origin decision of server/src/index.js: the allowed-origins list read from
    the environment, and the callback that admits or refuses a request's origin. */
module Cors {
  import opened Common

  /** The environment variables the decision reads. */
  datatype CorsEnv = CorsEnv(clientOrigins: Option<string>, clientOrigin: Option<string>, allowAllOrigins: Option<string>)

  // ---------------------------------------------------------------- the origins list

  /** `s.split(',')`: the pieces between commas, in order; a string without a comma is one
      piece, so the empty string gives one empty piece. */
  function Split(s: string): (r: seq<string>)
    ensures |r| >= 1
    ensures forall i :: 0 <= i < |r| ==> ',' !in r[i]
    decreases |s|
  {
    if ',' !in s then [s]
    else
      var k := CommaIndex(s);
      [s[..k]] + Split(s[k + 1..])
  }

  /** The index of the first comma. */
  function CommaIndex(s: string): (k: nat)
    requires ',' in s
    ensures k < |s| && s[k] == ',' && ',' !in s[..k]
  {
    if s[0] == ',' then 0
    else
      assert ',' in s[1..] by {
        var j :| 0 <= j < |s| && s[j] == ',';
        assert s[1..][j - 1] == ',';
      }
      var k := 1 + CommaIndex(s[1..]);
      assert s[..k] == [s[0]] + s[1..][..k - 1];
      k
  }

  /** `pieces.join(',')`. */
  function Join(pieces: seq<string>): string
    decreases |pieces|
  {
    if pieces == [] then ""
    else if |pieces| == 1 then pieces[0]
    else pieces[0] + "," + Join(pieces[1..])
  }

  /** Splitting loses nothing: joining the pieces with commas gives the string back. */
  lemma {:induction false} SplitJoin(s: string)
    ensures Join(Split(s)) == s
    decreases |s|
  {
    if ',' in s {
      var k := CommaIndex(s);
      SplitJoin(s[k + 1..]);
      assert s == s[..k] + "," + s[k + 1..];
    }
  }

  /** And splitting a join of comma-free pieces gives the pieces back. */
  lemma {:induction false} JoinSplit(pieces: seq<string>)
    requires |pieces| >= 1
    requires forall i :: 0 <= i < |pieces| ==> ',' !in pieces[i]
    ensures Split(Join(pieces)) == pieces
    decreases |pieces|
  {
    if |pieces| > 1 {
      var s := Join(pieces);
      var p := pieces[0];
      assert s == p + "," + Join(pieces[1..]);
      assert s[|p|] == ',';
      assert ',' in s;
      var k := CommaIndex(s);
      assert k == |p|;
      assert s[..k] == p;
      assert s[k + 1..] == Join(pieces[1..]);
      JoinSplit(pieces[1..]);
    }
  }

  /** `.map(s => s.trim()).filter(Boolean)`. */
  function TrimNonEmpty(pieces: seq<string>): (r: seq<string>)
    ensures forall i :: 0 <= i < |r| ==> r[i] != ""
    decreases |pieces|
  {
    if pieces == [] then []
    else
      var t := Trim(pieces[0]);
      if t != "" then [t] + TrimNonEmpty(pieces[1..]) else TrimNonEmpty(pieces[1..])
  }

  /** The entries are exactly the non-empty trimmed pieces. */
  lemma {:induction false} TrimNonEmptyMembers(pieces: seq<string>, x: string)
    ensures x in TrimNonEmpty(pieces) <==> x != "" && exists i :: 0 <= i < |pieces| && x == Trim(pieces[i])
    decreases |pieces|
  {
    if pieces != [] {
      TrimNonEmptyMembers(pieces[1..], x);
      if exists i :: 0 <= i < |pieces| && x == Trim(pieces[i]) {
        var i :| 0 <= i < |pieces| && x == Trim(pieces[i]);
        if i > 0 {
          assert pieces[i] == pieces[1..][i - 1];
        }
      }
      if exists j :: 0 <= j < |pieces[1..]| && x == Trim(pieces[1..][j]) {
        var j :| 0 <= j < |pieces[1..]| && x == Trim(pieces[1..][j]);
        assert pieces[1..][j] == pieces[j + 1];
      }
    }
  }

  lemma TrimIsIdempotent(s: string)
    ensures Trim(Trim(s)) == Trim(s)
  {
    var t := Trim(s);
    if t != "" {
      assert LeadingSpaces(t) == 0;
    }
  }

  /** The allowed origins: CLIENT_ORIGINS, else CLIENT_ORIGIN, else nothing, split on
      commas, trimmed, without empty entries. */
  function AllowedOrigins(env: CorsEnv): (r: seq<string>)
    ensures forall o :: o in r ==> o != "" && ',' !in o && o == Trim(o)
    ensures forall o :: o in r <==> o != "" && exists p :: p in Split(RawOrigins(env)) && o == Trim(p)
  {
    var pieces := Split(RawOrigins(env));
    var r := TrimNonEmpty(pieces);
    forall o ensures o in r <==> o != "" && exists p :: p in pieces && o == Trim(p) {
      TrimNonEmptyMembers(pieces, o);
      if o != "" && exists p :: p in pieces && o == Trim(p) {
        var p :| p in pieces && o == Trim(p);
        var i :| 0 <= i < |pieces| && pieces[i] == p;
      }
    }
    forall o | o in r ensures ',' !in o && o == Trim(o) {
      var p :| p in pieces && o == Trim(p);
      TrimIsInside(p);
      TrimIsIdempotent(p);
    }
    r
  }

  function RawOrigins(env: CorsEnv): string {
    var raw := Or(env.clientOrigins, env.clientOrigin);
    if raw.Some? then raw.value else ""
  }

  /** A trimmed string is a piece of the original. */
  lemma TrimIsInside(s: string)
    ensures forall c :: c in Trim(s) ==> c in s
  {
    var n := LeadingSpaces(s);
    forall c | c in Trim(s) ensures c in s {
      var j :| 0 <= j < |Trim(s)| && Trim(s)[j] == c;
      assert s[n + j] == c;
    }
  }

  /** The list as an administrator writes it: comma-separated origins with spaces around
      them give exactly those origins. */
  lemma ListRoundTrip(origins: seq<string>, env: CorsEnv)
    requires |origins| >= 1
    requires forall i :: 0 <= i < |origins| ==> origins[i] != "" && ',' !in origins[i] && Trim(origins[i]) == origins[i]
    requires Truthy(env.clientOrigins) && env.clientOrigins.value == Join(origins)
    ensures forall o :: o in AllowedOrigins(env) <==> o in origins
  {
    JoinSplit(origins);
  }

  // ---------------------------------------------------------------- the LAN pattern

  predicate IsDigit(c: char) {
    '0' <= c <= '9'
  }

  predicate AllDigits(s: string) {
    forall i :: 0 <= i < |s| ==> IsDigit(s[i])
  }

  /** The end of the run of digits starting at `i`. */
  function DigitsEnd(t: string, i: nat): (e: nat)
    requires i <= |t|
    ensures i <= e <= |t| && AllDigits(t[i..e]) && (e < |t| ==> !IsDigit(t[e]))
    decreases |t| - i
  {
    if i < |t| && IsDigit(t[i]) then
      var e := DigitsEnd(t, i + 1);
      assert t[i..e] == [t[i]] + t[i + 1..e];
      e
    else i
  }

  /** A digit run ending before a non-digit ends there. */
  lemma {:induction false} DigitsEndIsUnique(t: string, i: nat, e: nat)
    requires i <= e < |t| && AllDigits(t[i..e]) && !IsDigit(t[e])
    ensures DigitsEnd(t, i) == e
    decreases e - i
  {
    if i < e {
      assert IsDigit(t[i..e][0]);
      assert t[i + 1..e] == t[i..e][1..];
      DigitsEndIsUnique(t, i + 1, e);
    }
  }

  const LanStart := "http://10."

  /** `/http:\/\/10\.[0-9]+\.[0-9]+\.[0-9]+:517[0-9]/` matched at the start of `t`, read
      from left to right: each digit run is maximal, since the character after it must be
      a dot or a colon. */
  predicate LanAt(t: string) {
    StartsWith(t, LanStart) &&
    var a := DigitsEnd(t, 10);
    a > 10 && a < |t| && t[a] == '.' &&
    var b := DigitsEnd(t, a + 1);
    b > a + 1 && b < |t| && t[b] == '.' &&
    var c := DigitsEnd(t, b + 1);
    c > b + 1 && c + 5 <= |t| && t[c..c + 4] == ":517" && IsDigit(t[c + 4])
  }

  /** The pattern as the regular expression states it: the prefix, three non-empty digit
      runs separated by dots, the port prefix and one more digit. */
  predicate LanShape(t: string, a: nat, b: nat, c: nat) {
    StartsWith(t, LanStart) && 10 < a && a + 1 < b && b + 1 < c && c + 5 <= |t| &&
    AllDigits(t[10..a]) && t[a] == '.' && AllDigits(t[a + 1..b]) && t[b] == '.' &&
    AllDigits(t[b + 1..c]) && t[c] == ':' && t[c..c + 4] == ":517" && IsDigit(t[c + 4])
  }

  /** The left-to-right reading finds a match of the pattern's shape... */
  lemma LanAtHasShape(t: string)
    requires LanAt(t)
    ensures LanShape(t, DigitsEnd(t, 10), DigitsEnd(t, DigitsEnd(t, 10) + 1),
                     DigitsEnd(t, DigitsEnd(t, DigitsEnd(t, 10) + 1) + 1))
  {
    var a := DigitsEnd(t, 10);
    var b := DigitsEnd(t, a + 1);
    var c := DigitsEnd(t, b + 1);
    assert t[c] == t[c..c + 4][0];
  }

  /** ... and finds every one: whatever digit runs a match uses are the maximal ones. */
  lemma {:induction false} ShapeIsLanAt(t: string, a: nat, b: nat, c: nat)
    requires LanShape(t, a, b, c)
    ensures LanAt(t)
  {
    DigitsEndIsUnique(t, 10, a);
    DigitsEndIsUnique(t, a + 1, b);
    DigitsEndIsUnique(t, b + 1, c);
  }

  /** `RegExp.prototype.test` of the unanchored pattern: a match starts somewhere. */
  function ContainsLan(s: string): (r: bool)
    ensures r <==> exists k :: 0 <= k <= |s| && LanAt(s[k..])
    decreases |s|
  {
    if LanAt(s) then
      assert s[0..] == s;
      true
    else if s == [] then false
    else
      ShiftSuffixes(s);
      ContainsLan(s[1..])
  }

  lemma ShiftSuffixes(s: string)
    requires s != []
    ensures (exists k :: 0 <= k <= |s[1..]| && LanAt(s[1..][k..])) <==> (exists k :: 1 <= k <= |s| && LanAt(s[k..]))
  {
    if exists k :: 0 <= k <= |s[1..]| && LanAt(s[1..][k..]) {
      var k :| 0 <= k <= |s[1..]| && LanAt(s[1..][k..]);
      assert s[1..][k..] == s[k + 1..];
    }
    if exists k :: 1 <= k <= |s| && LanAt(s[k..]) {
      var k :| 1 <= k <= |s| && LanAt(s[k..]);
      assert s[1..][k - 1..] == s[k..];
    }
  }

  // ---------------------------------------------------------------- the decision

  const DevPrefix := "http://localhost:517"
  const NotAllowedPrefix := "CORS: origin not allowed: "

  datatype Decision = Allow | Deny(message: string)

  /** The `origin` callback: everything while ALLOW_ALL_ORIGINS is unset or 'true'; a
      request without an origin; an origin in the list; an origin starting with
      'http://localhost:517' or containing a 10.x.x.x address on a 517x port. Anything
      else is refused with an error naming the origin. */
  function OriginDecision(env: CorsEnv, origin: Option<string>): (d: Decision)
    ensures EnvFlag(env.allowAllOrigins) ==> d == Allow
    ensures !Truthy(origin) ==> d == Allow
    ensures Truthy(origin) && origin.value in AllowedOrigins(env) ==> d == Allow
    ensures d == Allow <==>
      EnvFlag(env.allowAllOrigins) || !Truthy(origin) || origin.value in AllowedOrigins(env) ||
      StartsWith(origin.value, DevPrefix) || (exists k :: 0 <= k <= |origin.value| && LanAt(origin.value[k..]))
    ensures d.Deny? ==> d.message == NotAllowedPrefix + origin.value
  {
    if EnvFlag(env.allowAllOrigins) then Allow
    else if !Truthy(origin) then Allow
    else if origin.value in AllowedOrigins(env) then Allow
    else if StartsWith(origin.value, DevPrefix) || ContainsLan(origin.value) then Allow
    else Deny(NotAllowedPrefix + origin.value)
  }

  /** The Vite address on the local network is admitted, whatever comes before it. */
  lemma LanAddressAllowed(env: CorsEnv, before: string, a: string, b: string, c: string, port: char, after: string)
    requires a != "" && b != "" && c != "" && AllDigits(a) && AllDigits(b) && AllDigits(c) && IsDigit(port)
    ensures OriginDecision(env, Some(before + LanStart + a + "." + b + "." + c + ":517" + [port] + after)) == Allow
  {
    var o := before + LanStart + a + "." + b + "." + c + ":517" + [port] + after;
    var t := o[|before|..];
    assert t == LanStart + a + "." + b + "." + c + ":517" + [port] + after;
    var ia := 10 + |a|;
    var ib := ia + 1 + |b|;
    var ic := ib + 1 + |c|;
    assert t[10..ia] == a;
    assert t[ia + 1..ib] == b;
    assert t[ib + 1..ic] == c;
    assert t[ic..ic + 4] == ":517";
    assert LanShape(t, ia, ib, ic);
    ShapeIsLanAt(t, ia, ib, ic);
    assert o[|before|..] == t;
  }

  /** With the switch off and an empty list, an origin outside the development prefix in
      which no LAN address pattern starts anywhere is refused, with its name in the error. */
  lemma ForeignOriginRefused(env: CorsEnv, origin: string)
    requires Truthy(env.allowAllOrigins) && env.allowAllOrigins.value == "false"
    requires !Truthy(env.clientOrigins) && !Truthy(env.clientOrigin)
    requires origin != "" && !StartsWith(origin, DevPrefix)
    requires forall k :: 0 <= k <= |origin| ==> !StartsWith(origin[k..], LanStart)
    ensures OriginDecision(env, Some(origin)) == Deny(NotAllowedPrefix + origin)
  {
  }

  /** A LAN address pattern needs the digit '1' of "10.", so it starts nowhere in an origin
      without that digit. */
  lemma NoLanWithoutOne(origin: string)
    requires forall k :: 0 <= k < |origin| ==> origin[k] != '1'
    ensures forall k :: 0 <= k <= |origin| ==> !StartsWith(origin[k..], LanStart)
  {
    forall k | 0 <= k <= |origin| ensures !StartsWith(origin[k..], LanStart) {
      assert LanStart[7] == '1';
    }
  }

  /** A browser origin of a foreign site is refused with the switch off and no list. */
  lemma ForeignSiteRefused(env: CorsEnv)
    requires Truthy(env.allowAllOrigins) && env.allowAllOrigins.value == "false"
    requires !Truthy(env.clientOrigins) && !Truthy(env.clientOrigin)
    ensures OriginDecision(env, Some("https://evil.example")) == Deny(NotAllowedPrefix + "https://evil.example")
  {
    NoLanWithoutOne("https://evil.example");
    assert "https://evil.example"[4] != DevPrefix[4];
    ForeignOriginRefused(env, "https://evil.example");
  }
}
