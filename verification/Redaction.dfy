// redactText and redactSecrets of the adapter SDK.
//
// Each of the seven patterns is a declarative match relation plus the choice the regular
// expression engine makes among the matches at one position; replacing scans left to right.
module Redaction {
  import opened Wrappers

  // ----- Characters -----

  predicate UpperLetter(c: char) { 'A' <= c <= 'Z' }

  predicate Letter(c: char) { 'A' <= c <= 'Z' || 'a' <= c <= 'z' }

  predicate Digit(c: char) { '0' <= c <= '9' }

  // \w
  predicate Word(c: char) { Letter(c) || Digit(c) || c == '_' }

  // \s
  predicate Space(c: char) {
    || 9 <= c as int <= 13 || c as int == 0x20 || c as int == 0xA0 || c as int == 0x1680
    || 0x2000 <= c as int <= 0x200A || c as int == 0x2028 || c as int == 0x2029
    || c as int == 0x202F || c as int == 0x205F || c as int == 0x3000 || c as int == 0xFEFF
  }

  // [A-Za-z0-9._~+\/-]
  predicate TokenChar(c: char) {
    Letter(c) || Digit(c) || c == '.' || c == '_' || c == '~' || c == '+' || c == '/' || c == '-'
  }

  // \b
  predicate Boundary(t: string, i: nat)
    requires i <= |t|
  {
    (i > 0 && Word(t[i - 1])) != (i < |t| && Word(t[i]))
  }

  // ----- The patterns -----

  // In the order they are applied (adapter-sdk 203-209).
  datatype Rule = Sk | Xai | Aiza | Akia | Bearer | Gh | Pem

  predicate TokenRule(r: Rule) { !r.Bearer? && !r.Pem? }

  function LeadLength(r: Rule): nat { if r.Sk? then 3 else 4 }

  predicate LeadAt(r: Rule, t: string, i: nat)
    requires i + LeadLength(r) <= |t|
  {
    match r
    case Sk => t[i] == 's' && t[i + 1] == 'k' && t[i + 2] == '-'
    case Xai => t[i] == 'x' && t[i + 1] == 'a' && t[i + 2] == 'i' && t[i + 3] == '-'
    case Aiza => t[i] == 'A' && t[i + 1] == 'I' && t[i + 2] == 'z' && t[i + 3] == 'a'
    case Akia => t[i] == 'A' && t[i + 1] == 'K' && t[i + 2] == 'I' && t[i + 3] == 'A'
    case Gh =>
      && t[i] == 'g' && t[i + 1] == 'h' && t[i + 3] == '_'
      && (t[i + 2] == 'p' || t[i + 2] == 'o' || t[i + 2] == 'u' || t[i + 2] == 's' || t[i + 2] == 'r')
    case Bearer => false
    case Pem => false
  }

  predicate BodyChar(r: Rule, c: char) {
    match r
    case Sk => Word(c) || c == '-'
    case Xai => Word(c) || c == '-'
    case Aiza => Word(c) || c == '-'
    case Akia => UpperLetter(c) || Digit(c)
    case Gh => Letter(c) || Digit(c)
    case Bearer => false
    case Pem => false
  }

  function LeastBody(r: Rule): nat {
    match r
    case Sk => 12
    case Xai => 12
    case Aiza => 20
    case Akia => 16
    case Gh => 20
    case Bearer => 12
    case Pem => 0
  }

  // \b lead body{least,} \b, or exactly `least` for the AKIA pattern.
  predicate TokenMatch(r: Rule, t: string, i: nat, e: nat) {
    var start := i + LeadLength(r);
    && TokenRule(r)
    && start + LeastBody(r) <= e <= |t|
    && (r.Akia? ==> e == start + LeastBody(r))
    && Boundary(t, i) && LeadAt(r, t, i)
    && (forall k :: start <= k < e ==> BodyChar(r, t[k]))
    && Boundary(t, e)
  }

  predicate EitherCase(c: char, lower: char, upper: char) { c == lower || c == upper }

  predicate BearerWord(t: string, i: nat)
    requires i + 6 <= |t|
  {
    && EitherCase(t[i], 'b', 'B') && EitherCase(t[i + 1], 'e', 'E') && EitherCase(t[i + 2], 'a', 'A')
    && EitherCase(t[i + 3], 'r', 'R') && EitherCase(t[i + 4], 'e', 'E') && EitherCase(t[i + 5], 'r', 'R')
  }

  // \bBearer\s+token{12,} in any letter case; the token begins at `w`.
  predicate BearerSplit(t: string, i: nat, w: nat, e: nat) {
    && i + 6 < w && w + 12 <= e <= |t|
    && Boundary(t, i) && BearerWord(t, i)
    && (forall k :: i + 6 <= k < w ==> Space(t[k]))
    && (forall k :: w <= k < e ==> TokenChar(t[k]))
  }

  predicate BearerMatch(t: string, i: nat, e: nat) {
    exists w :: i + 6 < w <= e && BearerSplit(t, i, w, e)
  }

  function Lead(begin: bool): string { if begin then "-----BEGIN " else "-----END " }

  // -----BEGIN [A-Z ]*PRIVATE KEY-----, or the same with END, covering t[i..e].
  predicate Marker(t: string, i: nat, begin: bool, e: nat) {
    var start := i + |Lead(begin)|;
    && start + 16 <= e <= |t|
    && t[i..start] == Lead(begin)
    && (forall k :: start <= k < e - 5 ==> UpperLetter(t[k]) || t[k] == ' ')
    && t[e - 16..e - 5] == "PRIVATE KEY"
    && t[e - 5..e] == "-----"
  }

  predicate PemSplit(t: string, i: nat, h: nat, f: nat, e: nat) {
    Marker(t, i, true, h) && h <= f && Marker(t, f, false, e)
  }

  predicate PemMatch(t: string, i: nat, e: nat) {
    exists h, f :: i <= h <= f <= e && PemSplit(t, i, h, f, e)
  }

  // Pattern `r` can match exactly t[i..e].
  predicate IsMatch(r: Rule, t: string, i: nat, e: nat) {
    if r.Bearer? then BearerMatch(t, i, e) else if r.Pem? then PemMatch(t, i, e) else TokenMatch(r, t, i, e)
  }

  // ----- What the engine picks at one position -----

  // Greedy quantifiers: the longest match.
  function Longest(r: Rule, t: string, i: nat, e: nat): Option<nat>
    decreases e
  {
    if e <= i then None
    else if IsMatch(r, t, i, e) then Some(e)
    else Longest(r, t, i, e - 1)
  }

  function MarkerEnd(t: string, i: nat, begin: bool, e: nat): Option<nat>
    decreases |t| + 1 - e
  {
    if e > |t| then None
    else if Marker(t, i, begin, e) then Some(e)
    else MarkerEnd(t, i, begin, e + 1)
  }

  // The lazy span: the first footer at or after `f`.
  function FirstFooter(t: string, f: nat): Option<nat>
    decreases |t| + 1 - f
  {
    if f > |t| then None
    else
      var e := MarkerEnd(t, f, false, f);
      if e.Some? then e else FirstFooter(t, f + 1)
  }

  function PickEnd(r: Rule, t: string, i: nat): Option<nat> {
    if r.Pem? then
      var h := MarkerEnd(t, i, true, i);
      if h.Some? then FirstFooter(t, h.value) else None
    else Longest(r, t, i, |t|)
  }

  function Replacement(r: Rule): string {
    match r
    case Bearer => "Bearer [REDACTED]"
    case Pem => "[REDACTED PRIVATE KEY]"
    case _ => "[REDACTED]"
  }

  lemma {:induction false} LongestMatches(r: Rule, t: string, i: nat, e: nat)
    requires !r.Pem?
    ensures Longest(r, t, i, e).Some? ==>
      i < Longest(r, t, i, e).value <= e && IsMatch(r, t, i, Longest(r, t, i, e).value)
    ensures forall k :: i < k <= e && IsMatch(r, t, i, k) ==>
      Longest(r, t, i, e).Some? && k <= Longest(r, t, i, e).value
    decreases e
  {
    if e > i {
      LongestMatches(r, t, i, e - 1);
    }
  }

  lemma {:induction false} MarkerEnds(t: string, i: nat, begin: bool, e: nat)
    ensures MarkerEnd(t, i, begin, e).Some? ==>
      e <= MarkerEnd(t, i, begin, e).value && Marker(t, i, begin, MarkerEnd(t, i, begin, e).value)
    ensures forall k :: k >= e && Marker(t, i, begin, k) ==> MarkerEnd(t, i, begin, e).Some?
    decreases |t| + 1 - e
  {
    if e <= |t| {
      MarkerEnds(t, i, begin, e + 1);
    }
  }

  // Letters and spaces run up to the closing dashes, so a marker has one end.
  lemma MarkerUnique(t: string, i: nat, begin: bool, d: nat, e: nat)
    requires Marker(t, i, begin, d) && Marker(t, i, begin, e)
    ensures d == e
  {
    assert t[d - 5] == t[d - 5..d][0] == '-';
    assert t[e - 5] == t[e - 5..e][0] == '-';
  }

  lemma {:induction false} FootersFound(t: string, f: nat) returns (g: nat)
    ensures FirstFooter(t, f).Some? ==> f <= g && Marker(t, g, false, FirstFooter(t, f).value)
    ensures forall k, e :: k >= f && Marker(t, k, false, e) ==> FirstFooter(t, f).Some?
    ensures FirstFooter(t, f).Some? ==> forall k, e :: f <= k < g ==> !Marker(t, k, false, e)
    decreases |t| + 1 - f
  {
    g := f;
    if f <= |t| {
      MarkerEnds(t, f, false, f);
      if MarkerEnd(t, f, false, f).None? {
        g := FootersFound(t, f + 1);
      }
    }
  }

  // The engine picks a match whenever there is one, and what it picks is a match.
  lemma PickSound(r: Rule, t: string, i: nat)
    ensures PickEnd(r, t, i).Some? ==> i < PickEnd(r, t, i).value <= |t| && IsMatch(r, t, i, PickEnd(r, t, i).value)
  {
    if r.Pem? {
      MarkerEnds(t, i, true, i);
      var h := MarkerEnd(t, i, true, i);
      if h.Some? {
        var g := FootersFound(t, h.value);
        if FirstFooter(t, h.value).Some? {
          assert PemSplit(t, i, h.value, g, FirstFooter(t, h.value).value);
        }
      }
    } else {
      LongestMatches(r, t, i, |t|);
    }
  }

  lemma PickComplete(r: Rule, t: string, i: nat, e: nat)
    requires IsMatch(r, t, i, e)
    ensures PickEnd(r, t, i).Some?
    ensures !r.Pem? ==> e <= PickEnd(r, t, i).value
  {
    if r.Pem? {
      var h, f :| i <= h <= f <= e && PemSplit(t, i, h, f, e);
      MarkerEnds(t, i, true, i);
      MarkerUnique(t, i, true, h, MarkerEnd(t, i, true, i).value);
      var g := FootersFound(t, h);
    } else {
      LongestMatches(r, t, i, |t|);
    }
  }

  // ----- Replacing -----

  function ReplaceFrom(r: Rule, t: string, i: nat): string
    decreases |t| - i
  {
    if i >= |t| then ""
    else
      var e := PickEnd(r, t, i);
      if e.Some? && i < e.value then Replacement(r) + ReplaceFrom(r, t, e.value)
      else [t[i]] + ReplaceFrom(r, t, i + 1)
  }

  function ReplaceAll(r: Rule, t: string): string {
    ReplaceFrom(r, t, 0)
  }

  function RedactText(t: string): string {
    var tokens := ReplaceAll(Akia, ReplaceAll(Aiza, ReplaceAll(Xai, ReplaceAll(Sk, t))));
    ReplaceAll(Pem, ReplaceAll(Gh, ReplaceAll(Bearer, tokens)))
  }

  ghost predicate NoMatch(r: Rule, t: string) {
    forall i, e :: !IsMatch(r, t, i, e)
  }

  // ----- Structured values -----

  datatype Json =
    | JNull
    | JBool(b: bool)
    | JNumber(n: int)
    | JString(s: string)
    | JArray(items: seq<Json>)
    | JObject(fields: seq<Field>)

  datatype Field = Field(key: string, value: Json)

  function LowerCase(c: char): char {
    if UpperLetter(c) then (c as int + 32) as char else c
  }

  function Lower(s: string): string {
    seq(|s|, i requires 0 <= i < |s| => LowerCase(s[i]))
  }

  // /^(?:secret|token|password|api[_-]?key)$/i
  predicate SecretKey(key: string) {
    var k := Lower(key);
    k == "secret" || k == "token" || k == "password" || k == "apikey" || k == "api_key" || k == "api-key"
  }

  // adapter-sdk 187-199
  function RedactSecrets(v: Json): Json {
    match v
    case JString(s) => JString(RedactText(s))
    case JArray(items) => JArray(seq(|items|, i requires 0 <= i < |items| => RedactSecrets(items[i])))
    case JObject(fields) => JObject(seq(|fields|, i requires 0 <= i < |fields| => RedactField(fields[i])))
    case _ => v
  }

  function RedactField(f: Field): Field {
    if SecretKey(f.key) then Field(f.key, JString("[REDACTED]")) else Field(f.key, RedactSecrets(f.value))
  }
}
