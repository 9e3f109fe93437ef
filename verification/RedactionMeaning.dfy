// What redaction keeps: everything outside the matches, character by character, and the shape of
// every structured value.
module RedactionMeaning {
  import opened Wrappers
  import opened Redaction
  import opened RedactionProofs

  // ----- Global replacement, without the engine -----

  datatype Span = Span(from: nat, to: nat)

  // Non-empty, disjoint and in order, within t[i..].
  predicate Ordered(t: string, i: nat, spans: seq<Span>) {
    && i <= |t|
    && (forall k :: 0 <= k < |spans| ==> i <= spans[k].from < spans[k].to <= |t|)
    && (forall j, k :: 0 <= j < k < |spans| ==> spans[j].to <= spans[k].from)
  }

  predicate Covered(spans: seq<Span>, q: nat) {
    exists k :: 0 <= k < |spans| && spans[k].from <= q < spans[k].to
  }

  // The private-key span ends with the first footer behind its header.
  ghost predicate FirstFooterEnds(t: string, i: nat, e: nat) {
    exists h, f :: i <= h <= f <= e && PemSplit(t, i, h, f, e) && NoFooterBetween(t, h, f)
  }

  ghost predicate NoFooterBetween(t: string, h: nat, f: nat) {
    forall g: nat, d: nat :: h <= g < f ==> !Marker(t, g, false, d)
  }

  // The span is a match; of the matches at its start the longest, or for a key the shortest.
  ghost predicate Chosen(r: Rule, t: string, span: Span) {
    && IsMatch(r, t, span.from, span.to)
    && (if r.Pem? then FirstFooterEnds(t, span.from, span.to)
        else forall e: nat :: IsMatch(r, t, span.from, e) ==> e <= span.to)
  }

  // Reading from `i`: the chosen spans, and no match starts anywhere outside them.
  ghost predicate Scanned(r: Rule, t: string, i: nat, spans: seq<Span>) {
    && Ordered(t, i, spans)
    && (forall k :: 0 <= k < |spans| ==> Chosen(r, t, spans[k]))
    && (forall q: nat, e: nat :: i <= q && IsMatch(r, t, q, e) ==> Covered(spans, q))
  }

  // The text from `i`, with `mark` in the place of every span.
  function Marked(t: string, i: nat, spans: seq<Span>, mark: string): string
    requires Ordered(t, i, spans)
    decreases |spans|
  {
    if spans == [] then t[i..]
    else
      OrderedRest(t, i, spans);
      t[i..spans[0].from] + mark + Marked(t, spans[0].to, spans[1..], mark)
  }

  lemma OrderedRest(t: string, i: nat, spans: seq<Span>)
    requires Ordered(t, i, spans) && spans != []
    ensures Ordered(t, spans[0].to, spans[1..])
  {
  }

  // `o` is `t` with each chosen span of the pattern replaced and all else as it was.
  ghost predicate Rewrites(r: Rule, t: string, o: string) {
    exists spans :: Gives(r, t, spans, o)
  }

  ghost predicate Gives(r: Rule, t: string, spans: seq<Span>, o: string) {
    Scanned(r, t, 0, spans) && o == Marked(t, 0, spans, Replacement(r))
  }

  // ----- The engine does just that -----

  lemma PickChooses(r: Rule, t: string, i: nat)
    requires PickEnd(r, t, i).Some?
    ensures i < PickEnd(r, t, i).value <= |t| && Chosen(r, t, Span(i, PickEnd(r, t, i).value))
  {
    PickSound(r, t, i);
    if r.Pem? {
      MarkerEnds(t, i, true, i);
      var h := MarkerEnd(t, i, true, i).value;
      var f := FootersFound(t, h);
      assert PemSplit(t, i, h, f, PickEnd(r, t, i).value) && NoFooterBetween(t, h, f);
    } else {
      forall e: nat | IsMatch(r, t, i, e)
        ensures e <= PickEnd(r, t, i).value
      {
        PickComplete(r, t, i, e);
      }
    }
    hide IsMatch;
  }

  lemma ScannedEnd(r: Rule, t: string, i: nat)
    requires |t| <= i
    ensures forall q: nat, e: nat :: i <= q ==> !IsMatch(r, t, q, e)
  {
    forall q: nat, e: nat | i <= q
      ensures !IsMatch(r, t, q, e)
    {
      if IsMatch(r, t, q, e) {
        MatchInText(r, t, q, e);
      }
    }
  }

  // A copied character starts no match.
  lemma CopyScans(r: Rule, t: string, i: nat, spans: seq<Span>)
    requires i < |t| && PickEnd(r, t, i).None? && Scanned(r, t, i + 1, spans)
    ensures Scanned(r, t, i, spans)
    ensures forall mark :: Marked(t, i, spans, mark) == [t[i]] + Marked(t, i + 1, spans, mark)
  {
    hide Chosen;
    hide IsMatch;
    hide PickEnd;
    forall q: nat, e: nat | i <= q && IsMatch(r, t, q, e)
      ensures Covered(spans, q)
    {
      if q == i {
        PickComplete(r, t, i, e);
      }
    }
    forall mark
      ensures Marked(t, i, spans, mark) == [t[i]] + Marked(t, i + 1, spans, mark)
    {
      MarkedCopy(t, i, spans, mark);
    }
  }

  lemma MarkedCopy(t: string, i: nat, spans: seq<Span>, mark: string)
    requires i < |t| && Ordered(t, i + 1, spans)
    ensures Ordered(t, i, spans) && Marked(t, i, spans, mark) == [t[i]] + Marked(t, i + 1, spans, mark)
  {
    if spans == [] {
      assert t[i..] == [t[i]] + t[i + 1..];
    } else {
      assert t[i..spans[0].from] == [t[i]] + t[i + 1..spans[0].from];
    }
  }

  lemma OrderedMatch(t: string, i: nat, e: nat, spans: seq<Span>)
    requires Ordered(t, e, spans) && i < e <= |t|
    ensures Ordered(t, i, [Span(i, e)] + spans)
  {
    var all := [Span(i, e)] + spans;
    assert all[0] == Span(i, e);
    assert forall k :: 0 < k < |all| ==> all[k] == spans[k - 1];
    forall k | 0 <= k < |all|
      ensures i <= all[k].from < all[k].to <= |t|
    {
      assert k > 0 ==> e <= spans[k - 1].from;
    }
    forall j, k | 0 <= j < k < |all|
      ensures all[j].to <= all[k].from
    {
      assert e <= spans[k - 1].from;
      assert j > 0 ==> spans[j - 1].to <= spans[k - 1].from;
    }
  }

  lemma MarkedMatch(t: string, i: nat, e: nat, spans: seq<Span>, mark: string)
    requires Ordered(t, e, spans) && i < e <= |t| && Ordered(t, i, [Span(i, e)] + spans)
    ensures Marked(t, i, [Span(i, e)] + spans, mark) == mark + Marked(t, e, spans, mark)
  {
    var all := [Span(i, e)] + spans;
    assert all[1..] == spans && t[i..i] == [];
    assert Marked(t, i, all, mark) == t[i..i] + mark + Marked(t, e, all[1..], mark);
    hide Ordered;
  }

  lemma CoveredMatch(i: nat, e: nat, spans: seq<Span>, q: nat)
    requires i <= q && (q < e || Covered(spans, q))
    ensures Covered([Span(i, e)] + spans, q)
  {
    var all := [Span(i, e)] + spans;
    if q < e {
      assert all[0].from <= q < all[0].to;
    } else {
      var k :| 0 <= k < |spans| && spans[k].from <= q < spans[k].to;
      assert all[k + 1] == spans[k];
    }
  }

  // A replaced span comes first.
  lemma MatchScans(r: Rule, t: string, i: nat, e: nat, spans: seq<Span>)
    requires i < e <= |t| && Chosen(r, t, Span(i, e)) && Scanned(r, t, e, spans)
    ensures Scanned(r, t, i, [Span(i, e)] + spans)
  {
    hide Chosen;
    hide IsMatch;
    hide Covered;
    OrderedMatch(t, i, e, spans);
    hide Ordered;
    hide Marked;
    var all := [Span(i, e)] + spans;
    forall k | 0 <= k < |all|
      ensures Chosen(r, t, all[k])
    {
      if k > 0 { assert all[k] == spans[k - 1]; }
    }
    forall q: nat, d: nat | i <= q && IsMatch(r, t, q, d)
      ensures Covered(all, q)
    {
      CoveredMatch(i, e, spans, q);
    }
  }

  lemma {:induction false} ScanExists(r: Rule, t: string, i: nat) returns (spans: seq<Span>)
    requires i <= |t|
    ensures Scanned(r, t, i, spans) && ReplaceFrom(r, t, i) == Marked(t, i, spans, Replacement(r))
    decreases |t| - i
  {
    hide Scanned;
    hide PickEnd;
    hide Replacement;
    if i == |t| {
      spans := [];
      ScanDone(r, t);
    } else if PickEnd(r, t, i).Some? {
      PickChooses(r, t, i);
      var e := PickEnd(r, t, i).value;
      var rest := ScanExists(r, t, e);
      spans := [Span(i, e)] + rest;
      ScannedOrdered(r, t, e, rest);
      MatchScans(r, t, i, e, rest);
      OrderedMatch(t, i, e, rest);
      MarkedMatch(t, i, e, rest, Replacement(r));
    } else {
      spans := ScanExists(r, t, i + 1);
      ScannedOrdered(r, t, i + 1, spans);
      CopyScans(r, t, i, spans);
    }
    ScannedOrdered(r, t, i, spans);
  }

  lemma ScanDone(r: Rule, t: string)
    ensures Scanned(r, t, |t|, [])
  {
    ScannedEnd(r, t, |t|);
    hide IsMatch;
  }

  lemma ScannedOrdered(r: Rule, t: string, i: nat, spans: seq<Span>)
    requires Scanned(r, t, i, spans)
    ensures Ordered(t, i, spans)
  {
  }

  // Replacing touches the chosen spans and nothing else.
  lemma ReplaceRewrites(r: Rule, t: string)
    ensures Rewrites(r, t, ReplaceAll(r, t))
  {
    var spans := ScanExists(r, t, 0);
    hide Scanned;
    hide Marked;
    hide ReplaceFrom;
    assert Gives(r, t, spans, ReplaceAll(r, t));
  }

  // ----- The seven patterns -----

  // The text after each of the seven passes.
  ghost predicate Redacted(t: string, o: string) {
    exists t1, t2, t3, t4, t5, t6 :: Passes(t, t1, t2, t3, t4, t5, t6, o)
  }

  ghost predicate Passes(
    t: string, t1: string, t2: string, t3: string, t4: string, t5: string, t6: string, o: string)
  {
    && Rewrites(Sk, t, t1) && Rewrites(Xai, t1, t2) && Rewrites(Aiza, t2, t3) && Rewrites(Akia, t3, t4)
    && Rewrites(Bearer, t4, t5) && Rewrites(Gh, t5, t6) && Rewrites(Pem, t6, o)
  }

  // Redacting a text replaces, pattern by pattern, the chosen matches, and keeps every other
  // character in its place.
  lemma RedactTextRewrites(t: string)
    ensures Redacted(t, RedactText(t))
  {
    hide Rewrites;
    hide ReplaceAll;
    var t1 := ReplaceAll(Sk, t);
    var t2 := ReplaceAll(Xai, t1);
    var t3 := ReplaceAll(Aiza, t2);
    var t4 := ReplaceAll(Akia, t3);
    var t5 := ReplaceAll(Bearer, t4);
    var t6 := ReplaceAll(Gh, t5);
    ReplaceRewrites(Sk, t);
    ReplaceRewrites(Xai, t1);
    ReplaceRewrites(Aiza, t2);
    ReplaceRewrites(Akia, t3);
    ReplaceRewrites(Bearer, t4);
    ReplaceRewrites(Gh, t5);
    ReplaceRewrites(Pem, t6);
    assert Passes(t, t1, t2, t3, t4, t5, t6, RedactText(t));
  }

  // ----- There is only one such text -----

  // The spans of a scan are determined from left to right.
  lemma ChosenOnce(r: Rule, t: string, i: nat, d: nat, e: nat)
    requires i < d && i < e && Chosen(r, t, Span(i, d)) && Chosen(r, t, Span(i, e))
    ensures d == e
  {
    if r.Pem? {
      var h, f :| i <= h <= f <= d && PemSplit(t, i, h, f, d) && NoFooterBetween(t, h, f);
      var k, g :| i <= k <= g <= e && PemSplit(t, i, k, g, e) && NoFooterBetween(t, k, g);
      MarkerUnique(t, i, true, h, k);
      assert f == g;
      MarkerUnique(t, f, false, d, e);
    }
  }

  lemma ScannedRest(r: Rule, t: string, i: nat, spans: seq<Span>)
    requires Scanned(r, t, i, spans) && spans != []
    ensures Scanned(r, t, spans[0].to, spans[1..])
  {
    hide Chosen;
    hide IsMatch;
    OrderedRest(t, i, spans);
    forall q: nat, e: nat | spans[0].to <= q && IsMatch(r, t, q, e)
      ensures Covered(spans[1..], q)
    {
      assert Covered(spans, q);
      var k :| 0 <= k < |spans| && spans[k].from <= q < spans[k].to;
      assert spans[1..][k - 1] == spans[k];
    }
  }

  lemma ScannedFirst(r: Rule, t: string, i: nat, spans: seq<Span>)
    requires Scanned(r, t, i, spans) && spans != []
    ensures i <= spans[0].from < spans[0].to && Chosen(r, t, spans[0])
    ensures IsMatch(r, t, spans[0].from, spans[0].to)
  {
    hide IsMatch;
  }

  lemma ScannedCovers(r: Rule, t: string, i: nat, spans: seq<Span>, q: nat, e: nat)
    requires Scanned(r, t, i, spans) && i <= q && IsMatch(r, t, q, e)
    ensures spans != [] && spans[0].from <= q
  {
    hide Chosen;
    hide IsMatch;
    assert Covered(spans, q);
    var k :| 0 <= k < |spans| && spans[k].from <= q < spans[k].to;
    assert spans[0].from < spans[0].to;
    assert k > 0 ==> spans[0].to <= spans[k].from;
  }

  // No scan of the same text begins before another one does.
  lemma BeginsNoLater(r: Rule, t: string, i: nat, a: seq<Span>, b: seq<Span>)
    requires Scanned(r, t, i, a) && Scanned(r, t, i, b) && a != []
    ensures b != [] && b[0].from <= a[0].from
  {
    hide Scanned;
    hide IsMatch;
    hide Chosen;
    ScannedFirst(r, t, i, a);
    ScannedCovers(r, t, i, b, a[0].from, a[0].to);
  }

  lemma {:induction false} ScanOnce(r: Rule, t: string, i: nat, a: seq<Span>, b: seq<Span>)
    requires Scanned(r, t, i, a) && Scanned(r, t, i, b)
    ensures a == b
    decreases |a|
  {
    hide Scanned;
    hide IsMatch;
    hide Chosen;
    if a != [] {
      BeginsNoLater(r, t, i, a, b);
      BeginsNoLater(r, t, i, b, a);
      ScannedFirst(r, t, i, a);
      ScannedFirst(r, t, i, b);
      ChosenOnce(r, t, a[0].from, a[0].to, b[0].to);
      ScannedRest(r, t, i, a);
      ScannedRest(r, t, i, b);
      ScanOnce(r, t, a[0].to, a[1..], b[1..]);
      assert a == [a[0]] + a[1..] && b == [b[0]] + b[1..];
    } else if b != [] {
      BeginsNoLater(r, t, i, b, a);
    }
  }

  lemma RewritesOnce(r: Rule, t: string, o: string)
    requires Rewrites(r, t, o)
    ensures o == ReplaceAll(r, t)
  {
    hide Scanned;
    hide ReplaceFrom;
    ReplaceRewrites(r, t);
    var a :| Gives(r, t, a, o);
    var b :| Gives(r, t, b, ReplaceAll(r, t));
    ScanOnce(r, t, 0, a, b);
  }

  // The relation has exactly one answer for every text, and redactText gives it.
  lemma RedactTextIsTheOne(t: string, o: string)
    ensures Redacted(t, o) <==> o == RedactText(t)
  {
    hide Rewrites;
    hide ReplaceAll;
    RedactTextRewrites(t);
    if Redacted(t, o) {
      var t1, t2, t3, t4, t5, t6 :| Passes(t, t1, t2, t3, t4, t5, t6, o);
      RewritesOnce(Sk, t, t1);
      RewritesOnce(Xai, t1, t2);
      RewritesOnce(Aiza, t2, t3);
      RewritesOnce(Akia, t3, t4);
      RewritesOnce(Bearer, t4, t5);
      RewritesOnce(Gh, t5, t6);
      RewritesOnce(Pem, t6, o);
    }
  }

  // ----- Trees -----

  // The same value but for its strings, which are redacted, and for what sits under a secret key,
  // which is the mark.
  ghost predicate RedactedTree(v: Json, w: Json) {
    match v
    case JString(s) => w.JString? && Redacted(s, w.s)
    case JArray(items) =>
      w.JArray? && |w.items| == |items| && forall i :: 0 <= i < |items| ==> RedactedTree(items[i], w.items[i])
    case JObject(fields) =>
      && w.JObject? && |w.fields| == |fields|
      && forall i :: 0 <= i < |fields| ==>
        && w.fields[i].key == fields[i].key
        && if SecretKey(fields[i].key) then w.fields[i].value == JString("[REDACTED]")
           else RedactedTree(fields[i].value, w.fields[i].value)
    case _ => w == v
  }

  lemma {:induction false} RedactSecretsKeepsShape(v: Json)
    ensures RedactedTree(v, RedactSecrets(v))
  {
    hide Redacted;
    hide RedactText;
    hide SecretKey;
    match v {
      case JString(s) => RedactTextRewrites(s);
      case JArray(items) =>
        forall i | 0 <= i < |items|
          ensures RedactedTree(items[i], RedactSecrets(items[i]))
        {
          RedactSecretsKeepsShape(items[i]);
        }
      case JObject(fields) =>
        forall i | 0 <= i < |fields|
          ensures RedactedTree(fields[i].value, RedactSecrets(fields[i].value))
        {
          RedactSecretsKeepsShape(fields[i].value);
        }
      case _ =>
    }
  }
}
